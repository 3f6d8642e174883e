/**
 * The two schemas the forecast server's and the rate gateway's generated
 * models share word for word: `Error` (a message) and `Rate` (an optional
 * time and an optional value), with their query-parameter `to_string` and
 * `from_str`.
 */
module ApiModels {
  import opened Common
  import opened QueryParams

  // ---------------------------------------------------------------------------
  // Error

  datatype Error = Error(message: string)

  /** `message,<message>`. */
  function ErrorToString(e: Error): (s: string)
    ensures s == "message," + e.message
  {
    JoinTwo("message", e.message);
    Join(["message", e.message])
  }

  datatype ErrorEntry = Message(text: string)

  /** Only `message` is a key of Error; its value is taken as it is. */
  function ErrorHandle(key: string, value: string): (h: Handled<ErrorEntry>)
    ensures h.Take? <==> key == "message"
    ensures h.Take? ==> h.entry == Message(value)
    ensures h.Reject? ==> h.message == UnexpectedKey("Error")
  {
    if key == "message" then Take(Message(value)) else Reject(UnexpectedKey("Error"))
  }

  function PickMessage(e: ErrorEntry): Option<string>
  {
    Some(e.text)
  }

  /** Reads an Error; its only field is required. */
  function ErrorFromStr(s: string): (r: Result<Error, string>)
    ensures r.Ok? ==> var tokens := Split(s);
                      |tokens| >= 2 && tokens[0] == "message" && r.value.message == tokens[1]
  {
    match Scan(Split(s), "Error", ErrorHandle)
    case Err(m) => Err(m)
    case Ok(entries) =>
      match FirstOf(entries, PickMessage)
      case None => Err(FieldMissing("message", "Error"))
      case Some(message) => Ok(Error(message))
  }

  /** An Error whose message has no comma reads back as itself. */
  lemma ErrorRoundTrip(e: Error)
    requires ',' !in e.message
    ensures ErrorFromStr(ErrorToString(e)) == Ok(e)
  {
    var tokens := ["message", e.message];
    SplitJoin(tokens);
    assert Scan(tokens[2..], "Error", ErrorHandle) == Ok([]);
    assert ErrorHandle(tokens[0], tokens[1]) == Take(Message(e.message));
    assert [Message(e.message)] + [] == [Message(e.message)];
  }

  /** With the key repeated, the first message is kept. */
  lemma ErrorFirstWins(first: string, second: string)
    requires ',' !in first && ',' !in second
    ensures ErrorFromStr(Join(["message", first, "message", second])) == Ok(Error(first))
  {
    var tokens := ["message", first, "message", second];
    SplitJoin(tokens);
    assert Scan(tokens[2..][2..], "Error", ErrorHandle) == Ok([]);
    assert ErrorHandle(tokens[2..][0], tokens[2..][1]) == Take(Message(second));
    assert [Message(second)] + [] == [Message(second)];
    assert Scan(tokens[2..], "Error", ErrorHandle) == Ok([Message(second)]);
    assert ErrorHandle(tokens[0], tokens[1]) == Take(Message(first));
    assert Scan(tokens, "Error", ErrorHandle) == Ok([Message(first)] + [Message(second)]);
  }

  /**
   * A key left without a value behind any number of `message` pairs, the
   * empty input included, is a missing value.
   */
  lemma ErrorLoneKey(s: string, m: nat)
    requires |Split(s)| == 2 * m + 1
    requires forall k :: 0 <= k < m ==> Split(s)[2 * k] == "message"
    ensures ErrorFromStr(s) == Err(MissingValue("Error"))
  {
    assert PairsTaken(Split(s), ErrorHandle, m);
    ScanFailsAt(Split(s), "Error", ErrorHandle, m);
  }

  /** A key other than `message` behind any number of `message` pairs is rejected. */
  lemma ErrorUnexpectedKey(s: string, m: nat)
    requires 2 * m + 1 < |Split(s)|
    requires forall k :: 0 <= k < m ==> Split(s)[2 * k] == "message"
    requires Split(s)[2 * m] != "message"
    ensures ErrorFromStr(s) == Err(UnexpectedKey("Error"))
  {
    assert PairsTaken(Split(s), ErrorHandle, m);
    ScanFailsAt(Split(s), "Error", ErrorHandle, m);
  }

  // ---------------------------------------------------------------------------
  // Rate

  datatype Rate = Rate(time: Option<string>, value: Option<real>)

  /** `time,<time>` and then `value,<value>`, each only when present. */
  function RateToString(r: Rate, codec: FloatCodec): (s: string)
    ensures r.time.None? && r.value.None? ==> s == ""
  {
    var timePart := if r.time.Some? then ["time", r.time.value] else [];
    var valuePart := if r.value.Some? then ["value", codec.show(r.value.value)] else [];
    Join(timePart + valuePart)
  }

  /** The written text of a Rate with fields: `time` first, then `value`, a missing one left out. */
  lemma RateToStringText(r: Rate, codec: FloatCodec)
    ensures r.time.Some? && r.value.None? ==> RateToString(r, codec) == "time," + r.time.value
    ensures r.time.None? && r.value.Some? ==> RateToString(r, codec) == "value," + codec.show(r.value.value)
    ensures r.time.Some? && r.value.Some? ==>
      RateToString(r, codec) == "time," + r.time.value + ",value," + codec.show(r.value.value)
  {
    if r.time.Some? && r.value.Some? {
      var v := codec.show(r.value.value);
      assert ["time", r.time.value] + ["value", v] == ["time"] + [r.time.value, "value", v];
      JoinCons("time", [r.time.value, "value", v]);
      assert [r.time.value, "value", v] == [r.time.value] + ["value", v];
      JoinCons(r.time.value, ["value", v]);
      JoinTwo("value", v);
    } else if r.time.Some? {
      assert ["time", r.time.value] + [] == ["time", r.time.value];
      JoinTwo("time", r.time.value);
    } else if r.value.Some? {
      assert [] + ["value", codec.show(r.value.value)] == ["value", codec.show(r.value.value)];
      JoinTwo("value", codec.show(r.value.value));
    }
  }

  datatype RateEntry = Time(time: string) | Value(value: real)

  /**
   * `time` is taken as it is, `value` through the float parser, whose
   * failure is the pair's; any other key is unexpected.
   */
  function RateHandle(codec: FloatCodec, key: string, value: string): (h: Handled<RateEntry>)
    ensures h.Take? <==> key == "time" || (key == "value" && codec.parse(value).Ok?)
    ensures h.Take? ==> h.entry == if key == "time" then Time(value) else Value(codec.parse(value).value)
    ensures h.Reject? ==> h.message == if key == "value" then codec.parse(value).error else UnexpectedKey("Rate")
  {
    if key == "time" then Take(Time(value))
    else if key == "value" then
      match codec.parse(value)
      case Err(m) => Reject(m)
      case Ok(x) => Take(Value(x))
    else Reject(UnexpectedKey("Rate"))
  }

  function RateHandler(codec: FloatCodec): (string, string) -> Handled<RateEntry>
  {
    (k, v) => RateHandle(codec, k, v)
  }

  function PickTime(e: RateEntry): Option<string>
  {
    if e.Time? then Some(e.time) else None
  }

  function PickValue(e: RateEntry): Option<real>
  {
    if e.Value? then Some(e.value) else None
  }

  /** Reads a Rate; both fields are optional. */
  function RateFromStr(s: string, codec: FloatCodec): (r: Result<Rate, string>)
    ensures s == "" ==> r == Err(MissingValue("Rate"))
  {
    match Scan(Split(s), "Rate", RateHandler(codec))
    case Err(m) => Err(m)
    case Ok(entries) => Ok(Rate(FirstOf(entries, PickTime), FirstOf(entries, PickValue)))
  }

  /**
   * A Rate with at least one field, a comma-free time and a value the float
   * text form carries faithfully reads back as itself.
   */
  lemma RateRoundTrip(r: Rate, codec: FloatCodec)
    requires r.time.Some? || r.value.Some?
    requires r.time.Some? ==> ',' !in r.time.value
    requires r.value.Some? ==> FaithfulToken(codec, r.value.value)
    ensures RateFromStr(RateToString(r, codec), codec) == Ok(r)
  {
    var handle := RateHandler(codec);
    var timePart := if r.time.Some? then ["time", r.time.value] else [];
    var valuePart := if r.value.Some? then ["value", codec.show(r.value.value)] else [];
    var tokens := timePart + valuePart;
    SplitJoin(tokens);
    var valueEntries := if r.value.Some? then [Value(r.value.value)] else [];
    if r.value.Some? {
      assert valuePart[2..] == [];
      assert handle(valuePart[0], valuePart[1]) == Take(Value(r.value.value));
      ScanCons(valuePart, "Rate", handle, Value(r.value.value), []);
      assert [Value(r.value.value)] + [] == [Value(r.value.value)];
    } else {
      assert Scan(valuePart, "Rate", handle) == Ok(valueEntries);
    }
    if r.time.Some? {
      assert tokens[2..] == valuePart;
      assert handle(tokens[0], tokens[1]) == Take(Time(r.time.value));
      ScanCons(tokens, "Rate", handle, Time(r.time.value), valueEntries);
    } else {
      assert tokens == valuePart;
      assert RateToString(r, codec) == Join(valuePart);
      assert Split(RateToString(r, codec)) == valuePart;
      assert Scan(valuePart, "Rate", handle) == Ok([Value(r.value.value)]);
      assert FirstOf([Value(r.value.value)], PickTime) == None;
      assert FirstOf([Value(r.value.value)], PickValue) == Some(r.value.value);
    }
  }

  /** A Rate with neither field writes the empty string, which does not read back. */
  lemma EmptyRateRejected(codec: FloatCodec)
    ensures RateToString(Rate(None, None), codec) == ""
    ensures RateFromStr("", codec).Err?
  {
  }
}
