/**
 * The query-parameter representation (form style, not exploded) that the
 * generated API models of the forecast server and the rate gateway write and
 * read: a flat comma-separated list `key,value,key,value,...`.
 *
 * Writing pushes keys and values onto a list and joins it with `,`. Reading
 * splits at every `,` and walks the tokens two at a time: a key without a
 * following token is a "Missing value" error, a key the type does not know
 * is an "Unexpected key" error, and a value that does not parse is that
 * parser's error. Every accepted pair is appended to a list of entries; a
 * field takes the first entry for it, so a repeated key keeps its first
 * value.
 *
 * Also here: the decimal text form of a 64-bit signed integer, as the
 * Rust standard library prints and parses it (`to_string`, `i64::from_str`).
 */
module QueryParams {
  import opened Common

  // ---------------------------------------------------------------------------
  // Splitting and joining at commas

  /** The pieces between commas; the empty string is one empty piece. */
  function Split(s: string): (parts: seq<string>)
    ensures |parts| >= 1
    ensures forall i :: 0 <= i < |parts| ==> ',' !in parts[i]
    ensures Join(parts) == s
    decreases |s|
  {
    if |s| == 0 then [""]
    else
      var rest := Split(s[1..]);
      if s[0] == ',' then [""] + rest
      else [[s[0]] + rest[0]] + rest[1..]
  }

  /** The pieces with a comma between neighbours; no pieces give the empty string. */
  function Join(parts: seq<string>): (s: string)
    decreases |parts|
  {
    if |parts| == 0 then ""
    else if |parts| == 1 then parts[0]
    else parts[0] + "," + Join(parts[1..])
  }

  /** Two pieces join around one comma. */
  lemma JoinTwo(a: string, b: string)
    ensures Join([a, b]) == a + "," + b
  {
    assert [a, b][1..] == [b];
  }

  /** A first piece joins to the rest around one comma. */
  lemma JoinCons(a: string, rest: seq<string>)
    requires |rest| >= 1
    ensures Join([a] + rest) == a + "," + Join(rest)
  {
    assert ([a] + rest)[1..] == rest;
  }

  /** A comma-free string is a single piece. */
  lemma {:induction false} SplitSingle(a: string)
    requires ',' !in a
    ensures Split(a) == [a]
    decreases |a|
  {
    if |a| > 0 {
      SplitSingle(a[1..]);
    }
  }

  /** A comma-free first piece splits off at the first comma. */
  lemma {:induction false} SplitAtComma(a: string, b: string)
    requires ',' !in a
    ensures Split(a + "," + b) == [a] + Split(b)
    decreases |a|
  {
    if |a| == 0 {
      assert a + "," + b == [','] + b;
      assert (a + "," + b)[1..] == b;
    } else {
      assert (a + "," + b)[0] == a[0];
      assert (a + "," + b)[1..] == a[1..] + "," + b;
      SplitAtComma(a[1..], b);
      assert [a[0]] + a[1..] == a;
    }
  }

  /** Joining at least one comma-free piece and splitting again gives the pieces back. */
  lemma {:induction false} SplitJoin(parts: seq<string>)
    requires |parts| >= 1
    requires forall i :: 0 <= i < |parts| ==> ',' !in parts[i]
    ensures Split(Join(parts)) == parts
    decreases |parts|
  {
    if |parts| == 1 {
      SplitSingle(parts[0]);
    } else {
      SplitJoin(parts[1..]);
      SplitAtComma(parts[0], Join(parts[1..]));
      assert [parts[0]] + parts[1..] == parts;
    }
  }

  // ---------------------------------------------------------------------------
  // Scanning key/value tokens

  /** What a type does with one key/value pair: keep an entry or fail with a message. */
  datatype Handled<+V> = Take(entry: V) | Reject(message: string)

  function MissingValue(typeName: string): (m: string)
  {
    "Missing value while parsing " + typeName
  }

  function UnexpectedKey(typeName: string): (m: string)
  {
    "Unexpected key while parsing " + typeName
  }

  function FieldMissing(field: string, typeName: string): (m: string)
  {
    field + " missing in " + typeName
  }

  /**
   * The entries of a token list read two at a time, or the first failure:
   * a lone last key, or a pair the type rejects.
   */
  function Scan<V>(tokens: seq<string>, typeName: string, handle: (string, string) -> Handled<V>)
    : (r: Result<seq<V>, string>)
    ensures r.Ok? ==> |tokens| % 2 == 0 && |r.value| == |tokens| / 2 &&
                      forall k :: 0 <= k < |r.value| ==> handle(tokens[2 * k], tokens[2 * k + 1]) == Take(r.value[k])
    decreases |tokens|
  {
    if |tokens| == 0 then Ok([])
    else if |tokens| == 1 then Err(MissingValue(typeName))
    else
      match handle(tokens[0], tokens[1])
      case Reject(m) => Err(m)
      case Take(v) =>
        var rest := Scan(tokens[2..], typeName, handle);
        ShiftPairs(tokens);
        if rest.Err? then rest else Ok([v] + rest.value)
  }

  /** The first m pairs of the tokens are all there and all accepted. */
  ghost predicate PairsTaken<V>(tokens: seq<string>, handle: (string, string) -> Handled<V>, m: nat)
  {
    2 * m <= |tokens| && forall k :: 0 <= k < m ==> handle(tokens[2 * k], tokens[2 * k + 1]).Take?
  }

  /** Accepted pairs of the tail, behind an accepted first pair, are accepted pairs of the whole. */
  lemma PairsTakenCons<V>(tokens: seq<string>, handle: (string, string) -> Handled<V>, m: nat)
    requires |tokens| >= 2 && handle(tokens[0], tokens[1]).Take?
    ensures PairsTaken(tokens[2..], handle, m) <==> PairsTaken(tokens, handle, m + 1)
  {
    if PairsTaken(tokens[2..], handle, m) {
      forall k | 0 <= k < m + 1
        ensures handle(tokens[2 * k], tokens[2 * k + 1]).Take?
      {
        if k > 0 {
          assert tokens[2 * k] == tokens[2..][2 * (k - 1)];
          assert tokens[2 * k + 1] == tokens[2..][2 * (k - 1) + 1];
        }
      }
    }
    if PairsTaken(tokens, handle, m + 1) {
      forall k | 0 <= k < m
        ensures handle(tokens[2..][2 * k], tokens[2..][2 * k + 1]).Take?
      {
        assert tokens[2..][2 * k] == tokens[2 * (k + 1)];
        assert tokens[2..][2 * k + 1] == tokens[2 * (k + 1) + 1];
      }
    }
  }

  /**
   * Behind m accepted pairs, a lone last key fails with the missing-value
   * message and a rejected pair fails with the handle's own message.
   */
  lemma {:induction false} ScanFailsAt<V>(tokens: seq<string>, typeName: string,
                                          handle: (string, string) -> Handled<V>, m: nat)
    requires PairsTaken(tokens, handle, m) && 2 * m < |tokens|
    ensures 2 * m + 1 == |tokens| ==> Scan(tokens, typeName, handle) == Err(MissingValue(typeName))
    ensures 2 * m + 1 < |tokens| && handle(tokens[2 * m], tokens[2 * m + 1]).Reject? ==>
              Scan(tokens, typeName, handle) == Err(handle(tokens[2 * m], tokens[2 * m + 1]).message)
    decreases m
  {
    if m > 0 {
      assert handle(tokens[2 * 0], tokens[2 * 0 + 1]).Take?;
      PairsTakenCons(tokens, handle, m - 1);
      ScanFailsAt(tokens[2..], typeName, handle, m - 1);
      assert tokens[2..][2 * (m - 1)] == tokens[2 * m];
      if 2 * m + 1 < |tokens| {
        assert tokens[2..][2 * (m - 1) + 1] == tokens[2 * m + 1];
      }
    }
  }

  /**
   * Every failure of a scan is one of the two above: behind some number of
   * accepted pairs there is a lone last key or a rejected pair.
   */
  lemma {:induction false} ScanErrCases<V>(tokens: seq<string>, typeName: string,
                                           handle: (string, string) -> Handled<V>)
    requires Scan(tokens, typeName, handle).Err?
    ensures exists m: nat :: PairsTaken(tokens, handle, m) && 2 * m < |tokens| &&
              ((2 * m + 1 == |tokens| && Scan(tokens, typeName, handle).error == MissingValue(typeName)) ||
               (2 * m + 1 < |tokens| &&
                handle(tokens[2 * m], tokens[2 * m + 1]) == Reject(Scan(tokens, typeName, handle).error)))
    decreases |tokens|
  {
    var e := Scan(tokens, typeName, handle).error;
    if |tokens| == 1 || handle(tokens[0], tokens[1]).Reject? {
      assert PairsTaken(tokens, handle, 0);
    } else {
      var rest := tokens[2..];
      assert Scan(rest, typeName, handle) == Err(e);
      ScanErrCases(rest, typeName, handle);
      var m: nat :| PairsTaken(rest, handle, m) && 2 * m < |rest| &&
                    ((2 * m + 1 == |rest| && e == MissingValue(typeName)) ||
                     (2 * m + 1 < |rest| && handle(rest[2 * m], rest[2 * m + 1]) == Reject(e)));
      PairsTakenCons(tokens, handle, m);
      assert rest[2 * m] == tokens[2 * (m + 1)];
      if 2 * m + 1 < |rest| {
        assert rest[2 * m + 1] == tokens[2 * (m + 1) + 1];
      }
    }
  }

  /** In a successful scan, the pair starting at an even position was taken into the entries. */
  lemma ScanPairTaken<V>(tokens: seq<string>, typeName: string, handle: (string, string) -> Handled<V>, i: nat)
    requires Scan(tokens, typeName, handle).Ok? && i < |tokens| && i % 2 == 0
    ensures i + 1 < |tokens| && i / 2 < |Scan(tokens, typeName, handle).value|
    ensures handle(tokens[i], tokens[i + 1]) == Take(Scan(tokens, typeName, handle).value[i / 2])
  {
    var k := i / 2;
    assert i == 2 * k;
  }

  /** When a handle takes only one key, a successful scan has that key at every even position. */
  lemma ScanOnlyKey<V>(tokens: seq<string>, typeName: string, handle: (string, string) -> Handled<V>, key: string)
    requires Scan(tokens, typeName, handle).Ok?
    requires forall k, v :: handle(k, v).Take? ==> k == key
    ensures forall i :: 0 <= i < |tokens| && i % 2 == 0 ==> tokens[i] == key
  {
    forall i | 0 <= i < |tokens| && i % 2 == 0
      ensures tokens[i] == key
    {
      ScanPairTaken(tokens, typeName, handle, i);
    }
  }

  /**
   * When only one key yields the entries a field picks, a successful scan in
   * which that field is found has the key at some even position.
   */
  lemma FoundUnderKey<V, U>(tokens: seq<string>, typeName: string, handle: (string, string) -> Handled<V>,
                            pick: V -> Option<U>, key: string)
    requires Scan(tokens, typeName, handle).Ok?
    requires FirstOf(Scan(tokens, typeName, handle).value, pick).Some?
    requires forall k, v :: handle(k, v).Take? && pick(handle(k, v).entry).Some? ==> k == key
    ensures exists j :: 0 <= j < |tokens| / 2 && tokens[2 * j] == key
  {
    var entries := Scan(tokens, typeName, handle).value;
    var j :| 0 <= j < |entries| && pick(entries[j]).Some?;
    assert handle(tokens[2 * j], tokens[2 * j + 1]) == Take(entries[j]);
  }

  /**
   * The converse: when the key that alone yields a field's entries occurs at
   * no even position, a successful scan does not find that field.
   */
  lemma NotFoundWithoutKey<V, U>(tokens: seq<string>, typeName: string, handle: (string, string) -> Handled<V>,
                                 pick: V -> Option<U>, key: string)
    requires Scan(tokens, typeName, handle).Ok?
    requires forall k, v :: handle(k, v).Take? && pick(handle(k, v).entry).Some? ==> k == key
    requires forall j :: 0 <= j < |tokens| / 2 ==> tokens[2 * j] != key
    ensures FirstOf(Scan(tokens, typeName, handle).value, pick).None?
  {
    var entries := Scan(tokens, typeName, handle).value;
    forall j | 0 <= j < |entries|
      ensures pick(entries[j]).None?
    {
      assert handle(tokens[2 * j], tokens[2 * j + 1]) == Take(entries[j]);
    }
  }

  /** Pairs of the tail are the later pairs of the whole. */
  lemma ShiftPairs(tokens: seq<string>)
    requires |tokens| >= 2
    ensures forall k :: 0 <= k < (|tokens| - 2) / 2 ==>
              tokens[2..][2 * k] == tokens[2 * (k + 1)] && tokens[2..][2 * k + 1] == tokens[2 * (k + 1) + 1]
  {
  }

  /** An accepted first pair puts its entry before those of the rest. */
  lemma ScanCons<V>(tokens: seq<string>, typeName: string, handle: (string, string) -> Handled<V>,
                    v: V, rest: seq<V>)
    requires |tokens| >= 2 && handle(tokens[0], tokens[1]) == Take(v)
    requires Scan(tokens[2..], typeName, handle) == Ok(rest)
    ensures Scan(tokens, typeName, handle) == Ok([v] + rest)
  {
  }

  /**
   * When the type rejects every pair whose value has no comma, no split
   * input reads: the scan fails at its first key.
   */
  lemma ScanAllRejected<V>(tokens: seq<string>, typeName: string, handle: (string, string) -> Handled<V>)
    requires |tokens| >= 1 && forall i :: 0 <= i < |tokens| ==> ',' !in tokens[i]
    requires forall k, v :: ',' !in v ==> handle(k, v).Reject?
    ensures Scan(tokens, typeName, handle).Err?
  {
    if |tokens| >= 2 {
      assert ',' !in tokens[1];
    }
  }

  /** A scan result behind entries already collected. */
  function After<V>(collected: seq<V>, r: Result<seq<V>, string>): Result<seq<V>, string>
  {
    if r.Err? then r else Ok(collected + r.value)
  }

  lemma AfterNothing<V>(r: Result<seq<V>, string>)
    ensures After([], r) == r
  {
    if r.Ok? {
      assert [] + r.value == r.value;
    }
  }

  lemma AfterAfter<V>(a: seq<V>, b: seq<V>, r: Result<seq<V>, string>)
    ensures After(a, After(b, r)) == After(a + b, r)
  {
    if r.Ok? {
      assert a + (b + r.value) == a + b + r.value;
    }
  }

  /** The reading loop every generated `from_str` runs over the split tokens. */
  method ScanTokens<V>(tokens: seq<string>, typeName: string, handle: (string, string) -> Handled<V>)
    returns (r: Result<seq<V>, string>)
    ensures r == Scan(tokens, typeName, handle)
  {
    var entries: seq<V> := [];
    var i := 0;
    assert tokens[i..] == tokens;
    AfterNothing(Scan(tokens, typeName, handle));
    while i < |tokens|
      invariant i <= |tokens|
      invariant Scan(tokens, typeName, handle) == After(entries, Scan(tokens[i..], typeName, handle))
      decreases |tokens| - i
    {
      var key := tokens[i];
      if i + 1 == |tokens| {
        return Err(MissingValue(typeName));
      }
      var value := tokens[i + 1];
      assert tokens[i..][2..] == tokens[i + 2..];
      match handle(key, value)
      case Reject(m) =>
        return Err(m);
      case Take(v) =>
        var later := Scan(tokens[i + 2..], typeName, handle);
        assert Scan(tokens[i..], typeName, handle) == After([v], later);
        AfterAfter(entries, [v], later);
        entries := entries + [v];
        i := i + 2;
    }
    assert tokens[i..] == [];
    assert entries + [] == entries;
    return Ok(entries);
  }

  /** The first entry a field picks, if any. */
  function FirstOf<V, U(==)>(entries: seq<V>, pick: V -> Option<U>): (r: Option<U>)
    ensures r.None? ==> forall k :: 0 <= k < |entries| ==> pick(entries[k]).None?
    ensures r.Some? ==> exists k :: 0 <= k < |entries| && pick(entries[k]) == r &&
                                    forall j :: 0 <= j < k ==> pick(entries[j]).None?
  {
    if |entries| == 0 then None
    else if pick(entries[0]).Some? then pick(entries[0])
    else
      var r := FirstOf(entries[1..], pick);
      FirstOfLater(entries, pick, r);
      r
  }

  /** The first entry decides when the field picks it; otherwise the rest decide. */
  lemma FirstOfCons<V, U>(e: V, rest: seq<V>, pick: V -> Option<U>)
    ensures FirstOf([e] + rest, pick) == if pick(e).Some? then pick(e) else FirstOf(rest, pick)
  {
    assert ([e] + rest)[1..] == rest;
  }

  /** A first pick in the tail, after an entry the field does not pick, is the first pick overall. */
  lemma FirstOfLater<V, U>(entries: seq<V>, pick: V -> Option<U>, r: Option<U>)
    requires |entries| > 0 && pick(entries[0]).None?
    requires r.None? ==> forall k :: 0 <= k < |entries[1..]| ==> pick(entries[1..][k]).None?
    requires r.Some? ==> exists k :: 0 <= k < |entries[1..]| && pick(entries[1..][k]) == r &&
                                     forall j :: 0 <= j < k ==> pick(entries[1..][j]).None?
    ensures r.None? ==> forall k :: 0 <= k < |entries| ==> pick(entries[k]).None?
    ensures r.Some? ==> exists k :: 0 <= k < |entries| && pick(entries[k]) == r &&
                                    forall j :: 0 <= j < k ==> pick(entries[j]).None?
  {
    if r.Some? {
      var k :| 0 <= k < |entries[1..]| && pick(entries[1..][k]) == r &&
               forall j :: 0 <= j < k ==> pick(entries[1..][j]).None?;
      assert pick(entries[k + 1]) == r;
      forall j | 0 <= j < k + 1
        ensures pick(entries[j]).None?
      {
        if j > 0 {
          assert entries[j] == entries[1..][j - 1];
        }
      }
    } else {
      forall k | 0 <= k < |entries|
        ensures pick(entries[k]).None?
      {
        if k > 0 {
          assert entries[k] == entries[1..][k - 1];
        }
      }
    }
  }

  // ---------------------------------------------------------------------------
  // 64-bit signed integers as decimal text

  const I64_MIN: int := -0x8000_0000_0000_0000
  const I64_MAX: int := 0x7fff_ffff_ffff_ffff

  type i64 = x: int | -0x8000_0000_0000_0000 <= x <= 0x7fff_ffff_ffff_ffff

  /** The ways integer text can fail to parse. */
  datatype IntErrorKind = Empty | InvalidDigit | PosOverflow | NegOverflow

  /** The message a failed integer parse displays. */
  function IntErrorMessage(kind: IntErrorKind): (m: string)
    ensures |m| > 0
  {
    match kind
    case Empty => "cannot parse integer from empty string"
    case InvalidDigit => "invalid digit found in string"
    case PosOverflow => "number too large to fit in target type"
    case NegOverflow => "number too small to fit in target type"
  }

  predicate IsDigit(c: char)
  {
    '0' <= c <= '9'
  }

  function DigitValue(c: char): (d: nat)
    requires IsDigit(c)
    ensures d < 10
  {
    (c as int - '0' as int) as nat
  }

  function DigitChar(d: nat): (c: char)
    requires d < 10
    ensures IsDigit(c) && DigitValue(c) == d
  {
    ('0' as int + d) as char
  }

  /** The decimal digits of n, most significant first, without leading zeros. */
  function Digits(n: nat): (s: string)
    ensures |s| >= 1 && (|s| > 1 ==> s[0] != '0')
    ensures forall i :: 0 <= i < |s| ==> IsDigit(s[i])
  {
    if n < 10 then [DigitChar(n)] else Digits(n / 10) + [DigitChar(n % 10)]
  }

  /** The decimal text of an integer: digits, after a minus sign when negative. */
  function IntToString(i: int): (s: string)
    ensures |s| >= 1 && ',' !in s
    ensures i < 0 <==> s[0] == '-'
  {
    if i < 0 then "-" + Digits(-i) else Digits(i)
  }

  /**
   * Reads the digits left to right into a value of the given sign. At each
   * character a non-digit fails first; otherwise the value moves one digit
   * further from zero and fails when it leaves the 64-bit range.
   */
  function Accumulate(digits: string, negative: bool): (r: Result<int, IntErrorKind>)
    ensures r.Ok? ==> I64_MIN <= r.value <= I64_MAX
    ensures r.Ok? ==> if negative then r.value <= 0 else r.value >= 0
    ensures r.Err? ==> r.error != Empty
    decreases |digits|
  {
    if |digits| == 0 then Ok(0)
    else
      var before := Accumulate(digits[..|digits| - 1], negative);
      var c := digits[|digits| - 1];
      if before.Err? then before
      else if !IsDigit(c) then Err(InvalidDigit)
      else
        var v := if negative then before.value * 10 - DigitValue(c) else before.value * 10 + DigitValue(c);
        if v > I64_MAX then Err(PosOverflow)
        else if v < I64_MIN then Err(NegOverflow)
        else Ok(v)
  }

  /**
   * Integer text to a 64-bit signed integer: the empty string is an error of
   * its own, a lone sign is an invalid digit, a leading `+` or `-` sets the
   * sign.
   */
  function ParseI64(s: string): (r: Result<i64, IntErrorKind>)
    ensures r == Err(Empty) <==> |s| == 0
    ensures r.Ok? ==> |s| >= 1 && (s[0] == '-' ==> r.value <= 0)
  {
    if |s| == 0 then Err(Empty)
    else if (s[0] == '+' || s[0] == '-') && |s| == 1 then Err(InvalidDigit)
    else
      var r := if s[0] == '+' then Accumulate(s[1..], false)
               else if s[0] == '-' then Accumulate(s[1..], true)
               else Accumulate(s, false);
      if r.Ok? then Ok(r.value as i64) else Err(r.error)
  }

  /** The digits of n read back to n, or to -n, whenever that is in range. */
  lemma {:induction false} AccumulateDigits(n: nat, negative: bool)
    requires if negative then n <= -I64_MIN else n <= I64_MAX
    ensures Accumulate(Digits(n), negative) == Ok(if negative then -(n as int) else n as int)
  {
    var s := Digits(n);
    if n < 10 {
      assert s[..0] == [];
    } else {
      AccumulateDigits(n / 10, negative);
      assert s[..|s| - 1] == Digits(n / 10);
      assert s[|s| - 1] == DigitChar(n % 10);
    }
  }

  /** Every 64-bit integer survives printing and parsing. */
  lemma IntRoundTrip(i: i64)
    ensures ParseI64(IntToString(i)) == Ok(i)
  {
    var s := IntToString(i);
    if i < 0 {
      var d := Digits(-(i as int));
      assert s == "-" + d;
      assert s[1..] == d;
      AccumulateDigits(-(i as int), true);
      assert Accumulate(s[1..], true) == Ok(i as int);
    } else {
      var d := Digits(i as int);
      assert s == d;
      AccumulateDigits(i as int, false);
      assert IsDigit(s[0]);
      assert Accumulate(s, false) == Ok(i as int);
    }
  }

  // ---------------------------------------------------------------------------
  // Floating-point text

  /**
   * The text form of a 64-bit float and its parser (with the parser's
   * message on failure). Neither is modelled.
   */
  datatype FloatCodec = FloatCodec(show: real -> string, parse: string -> Result<real, string>)

  /** A float value that survives printing and parsing as one query-parameter token. */
  predicate FaithfulToken(codec: FloatCodec, x: real)
  {
    ',' !in codec.show(x) && codec.parse(codec.show(x)) == Ok(x)
  }
}
