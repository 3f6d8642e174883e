/**
 * The forecast server's own generated schemas and their query-parameter
 * forms: the forecast response (which writes nothing and cannot be read),
 * the response to registering a rate history (an id, a count and an expiry)
 * and the rate history itself (a pair and a list of rates, the list not
 * readable in this form).
 */
module ForecastModels {
  import opened Common
  import opened QueryParams
  import opened ApiModels

  // ---------------------------------------------------------------------------
  // ForecastAfter5minHistoryIdGet200Response

  const FORECAST_RESPONSE := "ForecastAfter5minHistoryIdGet200Response"

  datatype ForecastAfter5minHistoryIdGet200Response = ForecastAfter5minHistoryIdGet200Response(rate: Rate)

  /** The rate is skipped in this form, so nothing is written. */
  function ForecastResponseToString(r: ForecastAfter5minHistoryIdGet200Response): (s: string)
    ensures s == ""
  {
    Join([])
  }

  /** A `rate` value is read as a whole Rate in query-parameter form; any other key is unexpected. */
  function ForecastResponseHandle(codec: FloatCodec, key: string, value: string): (h: Handled<Rate>)
    ensures h.Take? <==> key == "rate" && RateFromStr(value, codec).Ok?
    ensures h.Take? ==> h.entry == RateFromStr(value, codec).value
    ensures h.Reject? ==>
              h.message == if key == "rate" then RateFromStr(value, codec).error else UnexpectedKey(FORECAST_RESPONSE)
  {
    if key == "rate" then
      match RateFromStr(value, codec)
      case Err(m) => Reject(m)
      case Ok(rate) => Take(rate)
    else Reject(UnexpectedKey(FORECAST_RESPONSE))
  }

  function ForecastResponseHandler(codec: FloatCodec): (string, string) -> Handled<Rate>
  {
    (k, v) => ForecastResponseHandle(codec, k, v)
  }

  function PickRate(r: Rate): Option<Rate>
  {
    Some(r)
  }

  /** Reads the forecast response; its rate is required. */
  function ForecastResponseFromStr(s: string, codec: FloatCodec)
    : (r: Result<ForecastAfter5minHistoryIdGet200Response, string>)
    ensures r.Ok? ==> Scan(Split(s), FORECAST_RESPONSE, ForecastResponseHandler(codec)).Ok?
  {
    match Scan(Split(s), FORECAST_RESPONSE, ForecastResponseHandler(codec))
    case Err(m) => Err(m)
    case Ok(entries) =>
      match FirstOf(entries, PickRate)
      case None => Err(FieldMissing("rate", FORECAST_RESPONSE))
      case Some(rate) => Ok(ForecastAfter5minHistoryIdGet200Response(rate))
  }

  /** A single token is never a Rate: a Rate needs a key and a value. */
  lemma RateTokenRejected(t: string, codec: FloatCodec)
    requires ',' !in t
    ensures RateFromStr(t, codec) == Err(MissingValue("Rate"))
  {
    SplitSingle(t);
  }

  /**
   * No input reads as a forecast response: a `rate` value is one token, which
   * never holds a whole Rate, and any other key is unexpected.
   */
  lemma ForecastResponseNeverParses(s: string, codec: FloatCodec)
    ensures ForecastResponseFromStr(s, codec).Err?
  {
    var handle := ForecastResponseHandler(codec);
    forall k, v | ',' !in v
      ensures handle(k, v).Reject?
    {
      if k == "rate" {
        RateTokenRejected(v, codec);
      }
    }
    ScanAllRejected(Split(s), FORECAST_RESPONSE, handle);
  }

  // ---------------------------------------------------------------------------
  // HistoriesPost201Response

  const HISTORIES_RESPONSE := "HistoriesPost201Response"

  datatype HistoriesPost201Response = HistoriesPost201Response(
    historyId: Option<string>, count: i64, expires: Option<string>)

  /** `historyId`, then `count`, then `expires`, each optional one only when present. */
  function HistoriesResponseParams(r: HistoriesPost201Response): (params: seq<string>)
    ensures |params| >= 2 && forall i :: 0 <= i < |params| ==> (',' in params[i] ==>
              (r.historyId.Some? && params[i] == r.historyId.value) ||
              (r.expires.Some? && params[i] == r.expires.value))
  {
    (if r.historyId.Some? then ["historyId", r.historyId.value] else [])
    + ["count", IntToString(r.count)]
    + (if r.expires.Some? then ["expires", r.expires.value] else [])
  }

  function HistoriesResponseToString(r: HistoriesPost201Response): (s: string)
  {
    Join(HistoriesResponseParams(r))
  }

  datatype HistoriesEntry = HistoryId(id: string) | Count(count: i64) | Expires(expires: string)

  /**
   * `historyId` and `expires` are taken as they are, `count` through the
   * integer parser, whose failure is the pair's; any other key is unexpected.
   */
  function HistoriesResponseHandle(key: string, value: string): (h: Handled<HistoriesEntry>)
    ensures h.Take? <==> key == "historyId" || key == "expires" || (key == "count" && ParseI64(value).Ok?)
    ensures h.Take? ==> h.entry == if key == "historyId" then HistoryId(value)
                                   else if key == "expires" then Expires(value)
                                   else Count(ParseI64(value).value)
    ensures h.Reject? ==>
              h.message == if key == "count" then IntErrorMessage(ParseI64(value).error)
                           else UnexpectedKey(HISTORIES_RESPONSE)
  {
    if key == "historyId" then Take(HistoryId(value))
    else if key == "count" then
      match ParseI64(value)
      case Err(kind) => Reject(IntErrorMessage(kind))
      case Ok(n) => Take(Count(n))
    else if key == "expires" then Take(Expires(value))
    else Reject(UnexpectedKey(HISTORIES_RESPONSE))
  }

  function PickHistoryId(e: HistoriesEntry): Option<string>
  {
    if e.HistoryId? then Some(e.id) else None
  }

  function PickCount(e: HistoriesEntry): Option<i64>
  {
    if e.Count? then Some(e.count) else None
  }

  function PickExpires(e: HistoriesEntry): Option<string>
  {
    if e.Expires? then Some(e.expires) else None
  }

  /** Reads the response; `count` is required, the other two are optional. */
  function HistoriesResponseFromStr(s: string): (r: Result<HistoriesPost201Response, string>)
    ensures r.Ok? ==> exists k :: 0 <= k < |Split(s)| / 2 && Split(s)[2 * k] == "count"
  {
    match Scan(Split(s), HISTORIES_RESPONSE, HistoriesResponseHandle)
    case Err(m) => Err(m)
    case Ok(entries) =>
      match FirstOf(entries, PickCount)
      case None => Err(FieldMissing("count", HISTORIES_RESPONSE))
      case Some(count) =>
        CountOnlyUnderCountKey();
        FoundUnderKey(Split(s), HISTORIES_RESPONSE, HistoriesResponseHandle, PickCount, "count");
        Ok(HistoriesPost201Response(FirstOf(entries, PickHistoryId), count, FirstOf(entries, PickExpires)))
  }

  /** Only the `count` key yields the entry the count field picks. */
  lemma CountOnlyUnderCountKey()
    ensures forall key, value ::
              (HistoriesResponseHandle(key, value).Take? &&
               PickCount(HistoriesResponseHandle(key, value).entry).Some?) ==> key == "count"
  {
  }

  /** The entries the written form of a response reads into. */
  function HistoriesEntries(r: HistoriesPost201Response): seq<HistoriesEntry>
  {
    (if r.historyId.Some? then [HistoryId(r.historyId.value)] else [])
    + [Count(r.count)]
    + (if r.expires.Some? then [Expires(r.expires.value)] else [])
  }

  lemma ScanHistoriesParams(r: HistoriesPost201Response)
    ensures Scan(HistoriesResponseParams(r), HISTORIES_RESPONSE, HistoriesResponseHandle) == Ok(HistoriesEntries(r))
  {
    var handle := HistoriesResponseHandle;
    var countPart := ["count", IntToString(r.count)];
    var expPart := if r.expires.Some? then ["expires", r.expires.value] else [];
    var expEntries := if r.expires.Some? then [Expires(r.expires.value)] else [];
    if r.expires.Some? {
      ScanCons(expPart, HISTORIES_RESPONSE, handle, Expires(r.expires.value), []);
      assert [Expires(r.expires.value)] + [] == expEntries;
    }
    IntRoundTrip(r.count);
    var countAndExp := countPart + expPart;
    assert countAndExp[2..] == expPart;
    ScanCons(countAndExp, HISTORIES_RESPONSE, handle, Count(r.count), expEntries);
    if r.historyId.Some? {
      var tokens := ["historyId", r.historyId.value] + countAndExp;
      assert tokens[2..] == countAndExp;
      ScanCons(tokens, HISTORIES_RESPONSE, handle, HistoryId(r.historyId.value), [Count(r.count)] + expEntries);
      assert tokens == HistoriesResponseParams(r);
      assert [HistoryId(r.historyId.value)] + ([Count(r.count)] + expEntries) == HistoriesEntries(r);
    } else {
      assert countAndExp == HistoriesResponseParams(r);
      assert [Count(r.count)] + expEntries == HistoriesEntries(r);
    }
  }

  lemma PickHistoriesEntries(r: HistoriesPost201Response)
    ensures FirstOf(HistoriesEntries(r), PickCount) == Some(r.count)
    ensures FirstOf(HistoriesEntries(r), PickHistoryId) == r.historyId
    ensures FirstOf(HistoriesEntries(r), PickExpires) == r.expires
  {
    var expEntries := if r.expires.Some? then [Expires(r.expires.value)] else [];
    if r.expires.Some? {
      FirstOfCons(Expires(r.expires.value), [], PickHistoryId);
      FirstOfCons(Expires(r.expires.value), [], PickExpires);
    }
    FirstOfCons(Count(r.count), expEntries, PickCount);
    FirstOfCons(Count(r.count), expEntries, PickHistoryId);
    FirstOfCons(Count(r.count), expEntries, PickExpires);
    var countEntries := [Count(r.count)] + expEntries;
    if r.historyId.Some? {
      assert HistoriesEntries(r) == [HistoryId(r.historyId.value)] + countEntries;
      FirstOfCons(HistoryId(r.historyId.value), countEntries, PickCount);
      FirstOfCons(HistoryId(r.historyId.value), countEntries, PickHistoryId);
      FirstOfCons(HistoryId(r.historyId.value), countEntries, PickExpires);
    } else {
      assert HistoriesEntries(r) == countEntries;
    }
  }

  /** With comma-free id and expiry, the response reads back as itself, for every count. */
  lemma HistoriesResponseRoundTrip(r: HistoriesPost201Response)
    requires r.historyId.Some? ==> ',' !in r.historyId.value
    requires r.expires.Some? ==> ',' !in r.expires.value
    ensures HistoriesResponseFromStr(HistoriesResponseToString(r)) == Ok(r)
  {
    SplitJoin(HistoriesResponseParams(r));
    ScanHistoriesParams(r);
    PickHistoriesEntries(r);
  }

  /**
   * An input whose pairs all read but none of whose keys is `count` fails
   * with the count-missing message.
   */
  lemma HistoriesResponseNeedsCount(s: string)
    requires Scan(Split(s), HISTORIES_RESPONSE, HistoriesResponseHandle).Ok?
    requires forall j :: 0 <= j < |Split(s)| / 2 ==> Split(s)[2 * j] != "count"
    ensures HistoriesResponseFromStr(s) == Err(FieldMissing("count", HISTORIES_RESPONSE))
  {
    CountOnlyUnderCountKey();
    NotFoundWithoutKey(Split(s), HISTORIES_RESPONSE, HistoriesResponseHandle, PickCount, "count");
  }

  // ---------------------------------------------------------------------------
  // History

  const HISTORY := "History"

  /** The message for a list-valued key, which this form cannot read. */
  const CONTAINER_NOT_SUPPORTED := "Parsing a container in this style is not supported in History"

  datatype History = History(pair: Option<string>, rates: Option<seq<real>>)

  /** Each rate's text, in order. */
  function RateTexts(rates: seq<real>, codec: FloatCodec): (texts: seq<string>)
    ensures |texts| == |rates|
  {
    seq(|rates|, i requires 0 <= i < |rates| => codec.show(rates[i]))
  }

  /** `pair,<pair>` and then `rates,<r1>,<r2>,...`, each only when present. */
  function HistoryToString(h: History, codec: FloatCodec): (s: string)
    ensures h.pair.None? && h.rates.None? ==> s == ""
  {
    var pairPart := if h.pair.Some? then ["pair", h.pair.value] else [];
    var ratesPart := if h.rates.Some? then ["rates", Join(RateTexts(h.rates.value, codec))] else [];
    Join(pairPart + ratesPart)
  }

  /** Only `pair` is taken; the `rates` container cannot be read in this form. */
  function HistoryHandle(key: string, value: string): (h: Handled<string>)
    ensures h.Take? <==> key == "pair"
    ensures h.Take? ==> h.entry == value
    ensures h.Reject? ==> h.message == if key == "rates" then CONTAINER_NOT_SUPPORTED else UnexpectedKey(HISTORY)
  {
    if key == "pair" then Take(value)
    else if key == "rates" then Reject(CONTAINER_NOT_SUPPORTED)
    else Reject(UnexpectedKey(HISTORY))
  }

  function PickPair(p: string): Option<string>
  {
    Some(p)
  }

  /** Reads a History: only the pair can be read, so the rates are always absent. */
  function HistoryFromStr(s: string): (r: Result<History, string>)
    ensures r.Ok? ==> r.value.rates.None?
    ensures r.Ok? ==> forall i :: 0 <= i < |Split(s)| && i % 2 == 0 ==> Split(s)[i] == "pair"
  {
    match Scan(Split(s), HISTORY, HistoryHandle)
    case Err(m) => Err(m)
    case Ok(entries) =>
      HistoryKeys(Split(s));
      Ok(History(FirstOf(entries, PickPair), None))
  }

  /** The only key a History handle takes is `pair`. */
  lemma HistoryKeys(tokens: seq<string>)
    requires Scan(tokens, HISTORY, HistoryHandle).Ok?
    ensures forall i :: 0 <= i < |tokens| && i % 2 == 0 ==> tokens[i] == "pair"
  {
    ScanOnlyKey(tokens, HISTORY, HistoryHandle, "pair");
  }

  /** A History with a comma-free pair and no rates reads back as itself. */
  lemma HistoryRoundTrip(h: History, codec: FloatCodec)
    requires h.pair.Some? && ',' !in h.pair.value && h.rates.None?
    ensures HistoryFromStr(HistoryToString(h, codec)) == Ok(h)
  {
    var tokens := ["pair", h.pair.value];
    assert tokens + [] == tokens;
    SplitJoin(tokens);
    ScanCons(tokens, HISTORY, HistoryHandle, h.pair.value, []);
    assert [h.pair.value] + [] == [h.pair.value];
  }

  /** A History with rates writes a `rates` key, which does not read back. */
  lemma HistoryRatesRejected(h: History, codec: FloatCodec)
    requires h.pair.Some? ==> ',' !in h.pair.value
    requires h.rates.Some?
    ensures HistoryFromStr(HistoryToString(h, codec)) == Err(CONTAINER_NOT_SUPPORTED)
  {
    var texts := Join(RateTexts(h.rates.value, codec));
    var tail := ["rates"] + Split(texts);
    RatesTailRejected(texts);
    if h.pair.Some? {
      var p := h.pair.value;
      PairBeforeRates(p, texts);
      assert HistoryToString(h, codec) == Join(["pair", p] + ["rates", texts]);
      var tokens := ["pair", p] + tail;
      assert tokens[2..] == tail;
      assert HistoryHandle(tokens[0], tokens[1]) == Take(p);
      assert Scan(tokens, HISTORY, HistoryHandle) == Err(CONTAINER_NOT_SUPPORTED);
    } else {
      assert [] + ["rates", texts] == ["rates", texts];
      assert HistoryToString(h, codec) == Join(["rates", texts]);
    }
  }

  /** The written `rates` pair splits into the key and the rate texts, and is refused. */
  lemma RatesTailRejected(texts: string)
    ensures Split(Join(["rates", texts])) == ["rates"] + Split(texts)
    ensures Scan(["rates"] + Split(texts), HISTORY, HistoryHandle) == Err(CONTAINER_NOT_SUPPORTED)
  {
    SplitAtComma("rates", texts);
    JoinTwo("rates", texts);
    var tail := ["rates"] + Split(texts);
    assert tail[0] == "rates" && |tail| >= 2;
  }

  /** A comma-free pair written before the `rates` pair splits off as its own two tokens. */
  lemma PairBeforeRates(p: string, texts: string)
    requires ',' !in p
    ensures Split(Join(["pair", p] + ["rates", texts])) == ["pair", p] + Split(Join(["rates", texts]))
  {
    assert ["pair", p] + ["rates", texts] == ["pair"] + ([p] + ["rates", texts]);
    JoinCons("pair", [p] + ["rates", texts]);
    JoinCons(p, ["rates", texts]);
    assert ([p] + ["rates", texts]) == [p, "rates", texts];
    assert [p, "rates", texts][1..] == ["rates", texts];
    SplitAtComma("pair", p + "," + Join(["rates", texts]));
    SplitAtComma(p, Join(["rates", texts]));
  }
}
