/**
 * The request each public endpoint function of the Binance client builds before
 * its network call: the fixed path, whether the `X-MBX-APIKEY` headers go along,
 * and the params dict in insertion order. The call itself, and what `requests`
 * does with the dict, are outside the model.
 */
module PublicApi {
  import opened Wrappers
  import opened Python

  /** One entry of a params dict. A `PyNone` value is kept: the code never removes one. */
  type Param = (string, PyValue)

  /** What an endpoint function passes to `requests.get`; `params` is `None` for `params=None`. */
  datatype Request = Request(path: string, apiKeyHeader: bool, params: Option<seq<Param>>)

  const ServerTimePath := "/api/v1/time"
  const ExchangeInfoPath := "/api/v3/exchangeInfo"
  const DepthPath := "/api/v1/depth"
  const TradesPath := "/api/v3/trades"
  const HistoricalTradesPath := "/api/v3/historicalTrades"
  const AggTradesPath := "/api/v3/aggTrades"
  const KlinesPath := "/api/v3/klines"
  const AvgPricePath := "/api/v3/avgPrice"
  const Ticker24hrPath := "/api/v3/ticker/24hr"
  const TickerPricePath := "/api/v3/ticker/price"
  const BookTickerPath := "/api/v3/ticker/bookTicker"

  const DefaultDepthLimit := PyInt(100)
  const DefaultTradesLimit := PyInt(500)
  const DefaultKlineLimit := PyInt(500)
  const DefaultKlineInterval := PyStr("1h")

  function Keys(ps: seq<Param>): seq<string> {
    seq(|ps|, i requires 0 <= i < |ps| => ps[i].0)
  }

  /** `params[key]`, or `None` when the dict has no such key. */
  function Lookup(ps: seq<Param>, key: string): Option<PyValue> {
    if |ps| == 0 then None
    else if ps[0].0 == key then Some(ps[0].1)
    else Lookup(ps[1..], key)
  }

  /** No key occurs twice, as in any Python dict. */
  predicate DistinctKeys(ps: seq<Param>) {
    forall i, j :: 0 <= i < j < |ps| ==> ps[i].0 != ps[j].0
  }

  lemma {:induction false} LookupAt(ps: seq<Param>, i: nat)
    requires i < |ps| && forall j :: 0 <= j < i ==> ps[j].0 != ps[i].0
    ensures Lookup(ps, ps[i].0) == Some(ps[i].1)
  {
    if i > 0 {
      LookupAt(ps[1..], i - 1);
    }
  }

  /** In a dict every entry is what a lookup of its key finds. */
  lemma LookupEntries(ps: seq<Param>)
    requires DistinctKeys(ps)
    ensures forall i :: 0 <= i < |ps| ==> Lookup(ps, ps[i].0) == Some(ps[i].1)
  {
    forall i | 0 <= i < |ps|
      ensures Lookup(ps, ps[i].0) == Some(ps[i].1)
    {
      LookupAt(ps, i);
    }
  }

  /** The f-string `f'{v}'`: always a string, `"None"` for `None`. */
  function Render(v: PyValue): PyValue {
    PyStr(ToStr(v))
  }

  /** `kwargs.get(name, None)`. */
  function KwArg(kwargs: map<string, PyValue>, name: string): PyValue {
    if name in kwargs then kwargs[name] else PyNone
  }

  /** The keyword arguments among `names` that the caller sent with a value other than `None`. */
  function Sent(kwargs: map<string, PyValue>, names: set<string>): map<string, PyValue> {
    map k | k in kwargs && k in names && kwargs[k] != PyNone :: kwargs[k]
  }

  /** `get_status_code`: `params=None` and no headers. */
  function ServerTime(): (r: Request)
    ensures r.path == ServerTimePath && !r.apiKeyHeader && r.params == None
  {
    Request(ServerTimePath, false, None)
  }

  /** `get_exchange_info`: `params=None` and no headers. */
  function ExchangeInfo(): (r: Request)
    ensures r.path == ExchangeInfoPath && !r.apiKeyHeader && r.params == None
  {
    Request(ExchangeInfoPath, false, None)
  }

  /** `get_order_book(symbol, limit=100)`: the limit goes through unchecked. */
  function OrderBook(symbol: PyValue, limit: Option<PyValue>): (r: Request)
    ensures r.path == DepthPath && r.apiKeyHeader && r.params.Some?
    ensures Keys(r.params.value) == ["symbol", "limit"]
    ensures Lookup(r.params.value, "symbol") == Some(Render(symbol))
    ensures Lookup(r.params.value, "limit") == Some(limit.GetOr(DefaultDepthLimit))
  {
    Request(DepthPath, true, Some([("symbol", Render(symbol)), ("limit", limit.GetOr(DefaultDepthLimit))]))
  }

  /** `get_recent_trades(symbol, limit=500)`. */
  function RecentTrades(symbol: PyValue, limit: Option<PyValue>): (r: Request)
    ensures r.path == TradesPath && r.apiKeyHeader && r.params.Some?
    ensures Keys(r.params.value) == ["symbol", "limit"]
    ensures Lookup(r.params.value, "symbol") == Some(Render(symbol))
    ensures Lookup(r.params.value, "limit") == Some(limit.GetOr(DefaultTradesLimit))
  {
    Request(TradesPath, true, Some([("symbol", Render(symbol)), ("limit", limit.GetOr(DefaultTradesLimit))]))
  }

  /** `get_older_trades(symbol, limit=500, **kwargs)`: `fromId` is always a key. */
  function OlderTrades(symbol: PyValue, limit: Option<PyValue>, kwargs: map<string, PyValue>): (r: Request)
    ensures r.path == HistoricalTradesPath && r.apiKeyHeader && r.params.Some?
    ensures Keys(r.params.value) == ["symbol", "limit", "fromId"]
    ensures Lookup(r.params.value, "symbol") == Some(Render(symbol))
    ensures Lookup(r.params.value, "limit") == Some(limit.GetOr(DefaultTradesLimit))
    ensures Lookup(r.params.value, "fromId") == Some(KwArg(kwargs, "fromId"))
    ensures Lookup(r.params.value, "fromId") == Some(PyNone) <==> "fromId" !in Sent(kwargs, {"fromId"})
  {
    var ps := [
      ("symbol", Render(symbol)),
      ("limit", limit.GetOr(DefaultTradesLimit)),
      ("fromId", KwArg(kwargs, "fromId"))];
    LookupEntries(ps);
    assert ps[2].0 == "fromId";
    Request(HistoricalTradesPath, true, Some(ps))
  }

  /** `get_agg_trades(symbol, limit=500, **kwargs)`: five keys, no combination of them checked. */
  function AggTrades(symbol: PyValue, limit: Option<PyValue>, kwargs: map<string, PyValue>): (r: Request)
    ensures r.path == AggTradesPath && r.apiKeyHeader && r.params.Some?
    ensures Keys(r.params.value) == ["symbol", "limit", "fromId", "startTime", "endTime"]
    ensures Lookup(r.params.value, "symbol") == Some(Render(symbol))
    ensures Lookup(r.params.value, "limit") == Some(limit.GetOr(DefaultTradesLimit))
    ensures forall name :: name in {"fromId", "startTime", "endTime"} ==>
              Lookup(r.params.value, name) == Some(KwArg(kwargs, name))
    ensures forall name :: name in {"fromId", "startTime", "endTime"} ==>
              (Lookup(r.params.value, name) == Some(PyNone) <==> name !in Sent(kwargs, {name}))
  {
    var ps := [
      ("symbol", Render(symbol)),
      ("limit", limit.GetOr(DefaultTradesLimit)),
      ("fromId", KwArg(kwargs, "fromId")),
      ("startTime", KwArg(kwargs, "startTime")),
      ("endTime", KwArg(kwargs, "endTime"))];
    LookupEntries(ps);
    assert ps[1].0 == "limit" && ps[2].0 == "fromId" && ps[3].0 == "startTime" && ps[4].0 == "endTime";
    Request(AggTradesPath, true, Some(ps))
  }

  /** `get_candlesticks(symbol, limit=500, interval='1h', **kwargs)`: interval before limit in the dict. */
  function Candlesticks(symbol: PyValue, limit: Option<PyValue>, interval: Option<PyValue>,
                        kwargs: map<string, PyValue>): (r: Request)
    ensures r.path == KlinesPath && r.apiKeyHeader && r.params.Some?
    ensures Keys(r.params.value) == ["symbol", "interval", "limit", "startTime", "endTime"]
    ensures Lookup(r.params.value, "symbol") == Some(Render(symbol))
    ensures Lookup(r.params.value, "interval") == Some(Render(interval.GetOr(DefaultKlineInterval)))
    ensures Lookup(r.params.value, "limit") == Some(limit.GetOr(DefaultKlineLimit))
    ensures forall name :: name in {"startTime", "endTime"} ==>
              Lookup(r.params.value, name) == Some(KwArg(kwargs, name))
    ensures forall name :: name in {"startTime", "endTime"} ==>
              (Lookup(r.params.value, name) == Some(PyNone) <==> name !in Sent(kwargs, {name}))
  {
    var ps := [
      ("symbol", Render(symbol)),
      ("interval", Render(interval.GetOr(DefaultKlineInterval))),
      ("limit", limit.GetOr(DefaultKlineLimit)),
      ("startTime", KwArg(kwargs, "startTime")),
      ("endTime", KwArg(kwargs, "endTime"))];
    LookupEntries(ps);
    assert ps[1].0 == "interval" && ps[2].0 == "limit" && ps[3].0 == "startTime" && ps[4].0 == "endTime";
    Request(KlinesPath, true, Some(ps))
  }

  /** `get_avg_price(symbol)`: the symbol key is always sent, `"None"` included. */
  function AvgPrice(symbol: PyValue): (r: Request)
    ensures r.path == AvgPricePath && r.apiKeyHeader && r.params.Some?
    ensures Keys(r.params.value) == ["symbol"]
    ensures Lookup(r.params.value, "symbol") == Some(Render(symbol))
  {
    Request(AvgPricePath, true, Some([("symbol", Render(symbol))]))
  }

  /** `get_24_hr_ticker_price_change(symbol)`: the symbol key is always sent, `"None"` included. */
  function Ticker24hr(symbol: PyValue): (r: Request)
    ensures r.path == Ticker24hrPath && r.apiKeyHeader && r.params.Some?
    ensures Keys(r.params.value) == ["symbol"]
    ensures Lookup(r.params.value, "symbol") == Some(Render(symbol))
  {
    Request(Ticker24hrPath, true, Some([("symbol", Render(symbol))]))
  }

  /** The shared shape of `get_latest_price` and `get_top_of_book`: `None` drops every parameter. */
  function OptionalSymbolRequest(path: string, symbol: PyValue): (r: Request)
    ensures r.path == path && r.apiKeyHeader
    ensures r.params.None? <==> symbol == PyNone
    ensures r.params.Some? ==>
              Keys(r.params.value) == ["symbol"] && Lookup(r.params.value, "symbol") == Some(Render(symbol))
  {
    if symbol == PyNone then Request(path, true, None)
    else Request(path, true, Some([("symbol", Render(symbol))]))
  }

  /** `get_latest_price(symbol)`. */
  function LatestPrice(symbol: PyValue): (r: Request)
    ensures r.path == TickerPricePath && r.apiKeyHeader
    ensures r.params.None? <==> symbol == PyNone
    ensures r.params.Some? ==> r.params.value == [("symbol", Render(symbol))]
  {
    OptionalSymbolRequest(TickerPricePath, symbol)
  }

  /** `get_top_of_book(symbol)`. */
  function TopOfBook(symbol: PyValue): (r: Request)
    ensures r.path == BookTickerPath && r.apiKeyHeader
    ensures r.params.None? <==> symbol == PyNone
    ensures r.params.Some? ==> r.params.value == [("symbol", Render(symbol))]
  {
    OptionalSymbolRequest(BookTickerPath, symbol)
  }

  /**
   * A call of one endpoint function with its arguments as the caller wrote them:
   * `None` for an omitted defaulted argument, `kwargs` as passed.
   */
  datatype Call =
    | ServerTimeCall
    | ExchangeInfoCall
    | OrderBookCall(symbol: PyValue, limit: Option<PyValue>)
    | RecentTradesCall(symbol: PyValue, limit: Option<PyValue>)
    | OlderTradesCall(symbol: PyValue, limit: Option<PyValue>, kwargs: map<string, PyValue>)
    | AggTradesCall(symbol: PyValue, limit: Option<PyValue>, kwargs: map<string, PyValue>)
    | CandlesticksCall(symbol: PyValue, limit: Option<PyValue>, interval: Option<PyValue>, kwargs: map<string, PyValue>)
    | AvgPriceCall(symbol: PyValue)
    | Ticker24hrCall(symbol: PyValue)
    | LatestPriceCall(symbol: PyValue)
    | TopOfBookCall(symbol: PyValue)

  function Build(c: Call): Request {
    match c
    case ServerTimeCall => ServerTime()
    case ExchangeInfoCall => ExchangeInfo()
    case OrderBookCall(symbol, limit) => OrderBook(symbol, limit)
    case RecentTradesCall(symbol, limit) => RecentTrades(symbol, limit)
    case OlderTradesCall(symbol, limit, kwargs) => OlderTrades(symbol, limit, kwargs)
    case AggTradesCall(symbol, limit, kwargs) => AggTrades(symbol, limit, kwargs)
    case CandlesticksCall(symbol, limit, interval, kwargs) => Candlesticks(symbol, limit, interval, kwargs)
    case AvgPriceCall(symbol) => AvgPrice(symbol)
    case Ticker24hrCall(symbol) => Ticker24hr(symbol)
    case LatestPriceCall(symbol) => LatestPrice(symbol)
    case TopOfBookCall(symbol) => TopOfBook(symbol)
  }

  /**
   * The call with everything the request cannot tell apart made equal: symbols
   * and intervals as the f-string writes them, defaults filled in, and only the
   * keyword arguments the endpoint reads, without those sent as `None`.
   */
  function Normalize(c: Call): Call {
    match c
    case ServerTimeCall => c
    case ExchangeInfoCall => c
    case OrderBookCall(symbol, limit) =>
      OrderBookCall(Render(symbol), Some(limit.GetOr(DefaultDepthLimit)))
    case RecentTradesCall(symbol, limit) =>
      RecentTradesCall(Render(symbol), Some(limit.GetOr(DefaultTradesLimit)))
    case OlderTradesCall(symbol, limit, kwargs) =>
      OlderTradesCall(Render(symbol), Some(limit.GetOr(DefaultTradesLimit)), Sent(kwargs, {"fromId"}))
    case AggTradesCall(symbol, limit, kwargs) =>
      AggTradesCall(Render(symbol), Some(limit.GetOr(DefaultTradesLimit)),
                    Sent(kwargs, {"fromId", "startTime", "endTime"}))
    case CandlesticksCall(symbol, limit, interval, kwargs) =>
      CandlesticksCall(Render(symbol), Some(limit.GetOr(DefaultKlineLimit)),
                       Some(Render(interval.GetOr(DefaultKlineInterval))), Sent(kwargs, {"startTime", "endTime"}))
    case AvgPriceCall(symbol) => AvgPriceCall(Render(symbol))
    case Ticker24hrCall(symbol) => Ticker24hrCall(Render(symbol))
    case LatestPriceCall(symbol) => LatestPriceCall(if symbol == PyNone then PyNone else Render(symbol))
    case TopOfBookCall(symbol) => TopOfBookCall(if symbol == PyNone then PyNone else Render(symbol))
  }

  /** A keyword argument as a request entry shows it: absent when the entry is `None`. */
  function Given(name: string, v: PyValue): map<string, PyValue> {
    if v == PyNone then map[] else map[name := v]
  }

  /** The symbol of a latest-price or top-of-book request: `None` when no params were sent. */
  function OptionalSymbol(params: Option<seq<Param>>): Option<PyValue> {
    match params
    case None => Some(PyNone)
    case Some(ps) =>
      if Keys(ps) == ["symbol"] && ps[0].1.PyStr? then Some(ps[0].1) else None
  }

  /**
   * The call a request came from, read back from its path, headers and params;
   * `None` for a request no endpoint function builds.
   */
  function Decode(r: Request): Option<Call> {
    if r.path == ServerTimePath then
      if !r.apiKeyHeader && r.params.None? then Some(ServerTimeCall) else None
    else if r.path == ExchangeInfoPath then
      if !r.apiKeyHeader && r.params.None? then Some(ExchangeInfoCall) else None
    else if !r.apiKeyHeader then None
    else if r.path == TickerPricePath then
      match OptionalSymbol(r.params)
      case None => None
      case Some(symbol) => Some(LatestPriceCall(symbol))
    else if r.path == BookTickerPath then
      match OptionalSymbol(r.params)
      case None => None
      case Some(symbol) => Some(TopOfBookCall(symbol))
    else if r.params.None? then None
    else DecodeParams(r.path, r.params.value)
  }

  /** The call behind a request with the API-key header, one of the paths that always sends params. */
  function DecodeParams(path: string, ps: seq<Param>): Option<Call> {
    var ks := Keys(ps);
    if |ps| == 0 || !ps[0].1.PyStr? then None
    else if path == DepthPath && ks == ["symbol", "limit"] then
      Some(OrderBookCall(ps[0].1, Some(ps[1].1)))
    else if path == TradesPath && ks == ["symbol", "limit"] then
      Some(RecentTradesCall(ps[0].1, Some(ps[1].1)))
    else if path == HistoricalTradesPath && ks == ["symbol", "limit", "fromId"] then
      Some(OlderTradesCall(ps[0].1, Some(ps[1].1), Given("fromId", ps[2].1)))
    else if path == AggTradesPath && ks == ["symbol", "limit", "fromId", "startTime", "endTime"] then
      Some(AggTradesCall(ps[0].1, Some(ps[1].1),
                         Given("fromId", ps[2].1) + Given("startTime", ps[3].1) + Given("endTime", ps[4].1)))
    else if path == KlinesPath && ks == ["symbol", "interval", "limit", "startTime", "endTime"]
            && ps[1].1.PyStr? then
      Some(CandlesticksCall(ps[0].1, Some(ps[2].1), Some(ps[1].1),
                            Given("startTime", ps[3].1) + Given("endTime", ps[4].1)))
    else if path == AvgPricePath && ks == ["symbol"] then
      Some(AvgPriceCall(ps[0].1))
    else if path == Ticker24hrPath && ks == ["symbol"] then
      Some(Ticker24hrCall(ps[0].1))
    else None
  }

  lemma SentSingle(kwargs: map<string, PyValue>, name: string)
    ensures Sent(kwargs, {name}) == Given(name, KwArg(kwargs, name))
  {
  }

  lemma SentInsert(kwargs: map<string, PyValue>, names: set<string>, name: string)
    ensures Sent(kwargs, names + {name}) == Sent(kwargs, names) + Given(name, KwArg(kwargs, name))
  {
  }

  /** Reading a built request back gives the caller's call, up to what the request cannot show. */
  lemma DecodeBuild(c: Call)
    ensures Decode(Build(c)) == Some(Normalize(c))
  {
    match c
    case OlderTradesCall(_, _, kwargs) =>
      SentSingle(kwargs, "fromId");
    case AggTradesCall(_, _, kwargs) =>
      SentSingle(kwargs, "fromId");
      SentInsert(kwargs, {"fromId"}, "startTime");
      assert {"fromId"} + {"startTime"} == {"fromId", "startTime"};
      SentInsert(kwargs, {"fromId", "startTime"}, "endTime");
      assert {"fromId", "startTime"} + {"endTime"} == {"fromId", "startTime", "endTime"};
    case CandlesticksCall(_, _, _, kwargs) =>
      SentSingle(kwargs, "startTime");
      assert {"startTime"} + {"endTime"} == {"startTime", "endTime"};
      SentInsert(kwargs, {"startTime"}, "endTime");
    case _ =>
  }

  /** A params dict is its keys, in order, paired with its values. */
  lemma OneEntry(ps: seq<Param>, a: string)
    requires Keys(ps) == [a]
    ensures ps == [(a, ps[0].1)]
  {
    assert ps[0].0 == Keys(ps)[0];
  }

  lemma TwoEntries(ps: seq<Param>, a: string, b: string)
    requires Keys(ps) == [a, b]
    ensures ps == [(a, ps[0].1), (b, ps[1].1)]
  {
    assert ps[0].0 == Keys(ps)[0] && ps[1].0 == Keys(ps)[1];
  }

  lemma ThreeEntries(ps: seq<Param>, a: string, b: string, c: string)
    requires Keys(ps) == [a, b, c]
    ensures ps == [(a, ps[0].1), (b, ps[1].1), (c, ps[2].1)]
  {
    assert ps[0].0 == Keys(ps)[0] && ps[1].0 == Keys(ps)[1] && ps[2].0 == Keys(ps)[2];
  }

  lemma FiveEntries(ps: seq<Param>, a: string, b: string, c: string, d: string, e: string)
    requires Keys(ps) == [a, b, c, d, e]
    ensures ps == [(a, ps[0].1), (b, ps[1].1), (c, ps[2].1), (d, ps[3].1), (e, ps[4].1)]
  {
    assert ps[0].0 == Keys(ps)[0] && ps[1].0 == Keys(ps)[1] && ps[2].0 == Keys(ps)[2];
    assert ps[3].0 == Keys(ps)[3] && ps[4].0 == Keys(ps)[4];
  }

  /** A request with a params dict on an always-params path is the one its decoded call builds. */
  lemma BuildDecodeParams(path: string, ps: seq<Param>)
    requires DecodeParams(path, ps).Some?
    ensures Build(DecodeParams(path, ps).value) == Request(path, true, Some(ps))
  {
    match DecodeParams(path, ps).value
    case OrderBookCall(_, _) => TwoEntries(ps, "symbol", "limit");
    case RecentTradesCall(_, _) => TwoEntries(ps, "symbol", "limit");
    case OlderTradesCall(_, _, _) => ThreeEntries(ps, "symbol", "limit", "fromId");
    case AggTradesCall(_, _, _) =>
      FiveEntries(ps, "symbol", "limit", "fromId", "startTime", "endTime");
    case CandlesticksCall(_, _, _, _) =>
      FiveEntries(ps, "symbol", "interval", "limit", "startTime", "endTime");
    case AvgPriceCall(_) => OneEntry(ps, "symbol");
    case Ticker24hrCall(_) => OneEntry(ps, "symbol");
  }

  /** Only requests an endpoint function builds are read back, and each from a call that builds it. */
  lemma BuildDecode(r: Request)
    requires Decode(r).Some?
    ensures Build(Decode(r).value) == r
  {
    if r.params.Some? {
      if r.path in {TickerPricePath, BookTickerPath} {
        OneEntry(r.params.value, "symbol");
      } else if r.path !in {ServerTimePath, ExchangeInfoPath} {
        BuildDecodeParams(r.path, r.params.value);
      }
    }
  }

  /** Two calls send the same request exactly when they agree after normalising. */
  lemma SameRequestIffSameNormalForm(c1: Call, c2: Call)
    ensures Build(c1) == Build(c2) <==> Normalize(c1) == Normalize(c2)
  {
    DecodeBuild(c1);
    DecodeBuild(c2);
    BuildDecode(Build(c1));
    BuildDecode(Build(c2));
  }
}
