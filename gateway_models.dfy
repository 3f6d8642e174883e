/**
 * The rate gateway's own generated schema, the answer to a successful post
 * (a count), and its query-parameter form. The gateway's Error and Rate
 * schemas are the shared ones.
 */
module GatewayModels {
  import opened Common
  import opened QueryParams

  const POST_SUCCESS := "PostSuccess"

  datatype PostSuccess = PostSuccess(count: i64)

  /** `count,<count>`. */
  function PostSuccessToString(p: PostSuccess): (s: string)
    ensures s == "count," + IntToString(p.count)
  {
    JoinTwo("count", IntToString(p.count));
    Join(["count", IntToString(p.count)])
  }

  /** Only `count` is a key of PostSuccess; its value goes through the integer parser. */
  function PostSuccessHandle(key: string, value: string): (h: Handled<i64>)
    ensures h.Take? <==> key == "count" && ParseI64(value).Ok?
    ensures h.Take? ==> h.entry == ParseI64(value).value
    ensures h.Reject? ==>
              h.message == if key == "count" then IntErrorMessage(ParseI64(value).error) else UnexpectedKey(POST_SUCCESS)
  {
    if key == "count" then
      match ParseI64(value)
      case Err(kind) => Reject(IntErrorMessage(kind))
      case Ok(n) => Take(n)
    else Reject(UnexpectedKey(POST_SUCCESS))
  }

  function PickCount(n: i64): Option<i64>
  {
    Some(n)
  }

  /** Reads the answer; `count` is required. */
  function PostSuccessFromStr(s: string): (r: Result<PostSuccess, string>)
    ensures r.Ok? ==> |Split(s)| >= 2 && Split(s)[0] == "count" && ParseI64(Split(s)[1]) == Ok(r.value.count)
  {
    match Scan(Split(s), POST_SUCCESS, PostSuccessHandle)
    case Err(m) => Err(m)
    case Ok(entries) =>
      match FirstOf(entries, PickCount)
      case None => Err(FieldMissing("count", POST_SUCCESS))
      case Some(count) => Ok(PostSuccess(count))
  }

  /** Every count reads back as itself. */
  lemma PostSuccessRoundTrip(p: PostSuccess)
    ensures PostSuccessFromStr(PostSuccessToString(p)) == Ok(p)
  {
    var tokens := ["count", IntToString(p.count)];
    SplitJoin(tokens);
    IntRoundTrip(p.count);
    ScanCons(tokens, POST_SUCCESS, PostSuccessHandle, p.count, []);
    assert [p.count] + [] == [p.count];
  }

  /** With the key repeated, the first count is kept. */
  lemma PostSuccessFirstWins(first: i64, second: i64)
    ensures PostSuccessFromStr(Join(["count", IntToString(first), "count", IntToString(second)]))
            == Ok(PostSuccess(first))
  {
    var tokens := ["count", IntToString(first), "count", IntToString(second)];
    SplitJoin(tokens);
    IntRoundTrip(first);
    IntRoundTrip(second);
    ScanCons(tokens[2..], POST_SUCCESS, PostSuccessHandle, second, []);
    assert [second] + [] == [second];
    ScanCons(tokens, POST_SUCCESS, PostSuccessHandle, first, [second]);
  }

  /** The first m pairs are `count` pairs whose values are integer text. */
  ghost predicate CountsRead(tokens: seq<string>, m: nat)
  {
    2 * m <= |tokens| &&
    forall k :: 0 <= k < m ==> tokens[2 * k] == "count" && ParseI64(tokens[2 * k + 1]).Ok?
  }

  /**
   * A count that is not integer text, behind any number of readable counts,
   * fails with the integer parser's message.
   */
  lemma PostSuccessBadCount(s: string, m: nat)
    requires CountsRead(Split(s), m) && 2 * m + 1 < |Split(s)|
    requires Split(s)[2 * m] == "count" && ParseI64(Split(s)[2 * m + 1]).Err?
    ensures PostSuccessFromStr(s) == Err(IntErrorMessage(ParseI64(Split(s)[2 * m + 1]).error))
  {
    assert PairsTaken(Split(s), PostSuccessHandle, m);
    ScanFailsAt(Split(s), POST_SUCCESS, PostSuccessHandle, m);
  }

  /** A key other than `count`, behind any number of readable counts, is rejected. */
  lemma PostSuccessUnexpectedKey(s: string, m: nat)
    requires CountsRead(Split(s), m) && 2 * m + 1 < |Split(s)|
    requires Split(s)[2 * m] != "count"
    ensures PostSuccessFromStr(s) == Err(UnexpectedKey(POST_SUCCESS))
  {
    assert PairsTaken(Split(s), PostSuccessHandle, m);
    ScanFailsAt(Split(s), POST_SUCCESS, PostSuccessHandle, m);
  }

  /**
   * A key left without a value behind any number of readable counts, the
   * empty input included, is a missing value.
   */
  lemma PostSuccessLoneKey(s: string, m: nat)
    requires CountsRead(Split(s), m) && |Split(s)| == 2 * m + 1
    ensures PostSuccessFromStr(s) == Err(MissingValue(POST_SUCCESS))
  {
    assert PairsTaken(Split(s), PostSuccessHandle, m);
    ScanFailsAt(Split(s), POST_SUCCESS, PostSuccessHandle, m);
  }

  /**
   * The "count missing" branch is never taken: every failure is a failure of
   * the scan, because a scan that succeeds has at least one pair and the only
   * key it accepts is `count`.
   */
  lemma PostSuccessFailsOnlyInScan(s: string)
    ensures PostSuccessFromStr(s).Err? ==> Scan(Split(s), POST_SUCCESS, PostSuccessHandle).Err?
  {
    var tokens := Split(s);
    var scanned := Scan(tokens, POST_SUCCESS, PostSuccessHandle);
    if scanned.Ok? {
      assert |tokens| >= 2;
      var entries := scanned.value;
      assert PostSuccessHandle(tokens[0], tokens[1]) == Take(entries[0]);
      assert entries == [entries[0]] + entries[1..];
      FirstOfCons(entries[0], entries[1..], PickCount);
    }
  }
}
