/**
 * What the endpoint functions' documentation declares but the code never checks:
 * the rate-limit weight of each request, the valid order-book limits, the
 * aggregated-trades time-window rule and the candlestick interval tokens.
 * Every definition here reads a built request; none of it constrains the builders.
 */
module Catalog {
  import opened Wrappers
  import opened Python
  import opened PublicApi
  import Decimal
  import Utilities

  /** The order-book limits the documentation calls valid. */
  const DepthLimits: seq<int> := [5, 10, 20, 50, 100, 500, 1000, 5000]

  /** The order-book weight table, by limit. */
  function DepthWeight(limit: int): (w: Option<nat>)
    ensures w.Some? <==> limit in DepthLimits
    ensures w.Some? ==> w.value == if limit <= 100 then 1 else limit / 100
  {
    if limit in {5, 10, 20, 50, 100} then Some(1)
    else if limit == 500 then Some(5)
    else if limit == 1000 then Some(10)
    else if limit == 5000 then Some(50)
    else None
  }

  predicate ValidDepthLimit(limit: PyValue) {
    limit.PyInt? && limit.i in DepthLimits
  }

  /** Whether a request carries a `symbol` parameter at all. */
  predicate SendsSymbol(r: Request) {
    r.params.Some? && Lookup(r.params.value, "symbol").Some?
  }

  /**
   * The weight the documentation declares for a request, or `None` where it
   * declares none (average price) or where the request is outside the table
   * (an order-book limit that is not valid, an unknown path).
   */
  function DeclaredWeight(r: Request): (w: Option<nat>)
    ensures w.Some? ==> w.value > 0
  {
    if r.path == ServerTimePath || r.path == ExchangeInfoPath then Some(1)
    else if r.path == DepthPath then
      var limit := if r.params.Some? then Lookup(r.params.value, "limit").GetOr(DefaultDepthLimit)
                   else DefaultDepthLimit;
      if limit.PyInt? then DepthWeight(limit.i) else None
    else if r.path == TradesPath || r.path == AggTradesPath || r.path == KlinesPath then Some(1)
    else if r.path == HistoricalTradesPath then Some(5)
    else if r.path == Ticker24hrPath then Some(if SendsSymbol(r) then 1 else 40)
    else if r.path == TickerPricePath || r.path == BookTickerPath then Some(if SendsSymbol(r) then 1 else 2)
    else None
  }

  /**
   * The weight of every request an endpoint function sends. The 24-hour ticker
   * always sends a symbol, so its 40-weight form is never produced; latest price
   * and top of book cost 2 exactly when called with `None`.
   */
  lemma BuiltRequestWeight(c: Call)
    ensures DeclaredWeight(Build(c)).None?
        <==> c.AvgPriceCall? || (c.OrderBookCall? && !ValidDepthLimit(c.limit.GetOr(DefaultDepthLimit)))
    ensures c.OrderBookCall? && ValidDepthLimit(c.limit.GetOr(DefaultDepthLimit)) ==>
              DeclaredWeight(Build(c)) == DepthWeight(c.limit.GetOr(DefaultDepthLimit).i)
    ensures c.OlderTradesCall? ==> DeclaredWeight(Build(c)) == Some(5)
    ensures c.Ticker24hrCall? ==> DeclaredWeight(Build(c)) == Some(1)
    ensures c.LatestPriceCall? || c.TopOfBookCall? ==>
              DeclaredWeight(Build(c)) == Some(if c.symbol == PyNone then 2 else 1)
    ensures (|| c.ServerTimeCall? || c.ExchangeInfoCall? || c.RecentTradesCall?
             || c.AggTradesCall? || c.CandlesticksCall?) ==> DeclaredWeight(Build(c)) == Some(1)
  {
  }

  /** The default order-book limit is valid and costs 1. */
  lemma DefaultOrderBookWeight(symbol: PyValue)
    ensures DeclaredWeight(OrderBook(symbol, None)) == Some(1)
  {
    BuiltRequestWeight(OrderBookCall(symbol, None));
  }

  /** The rule's hour, the length of the interval token `1h`. */
  const OneHourMs := 60 * 60 * 1000

  /**
   * The aggregated-trades rule: when both `startTime` and `endTime` are sent,
   * they must lie less than an hour apart.
   */
  predicate AggTradesWindowValid(ps: seq<Param>): (valid: bool)
    ensures !valid ==>
              && Lookup(ps, "startTime").Some? && Lookup(ps, "startTime").value.PyInt?
              && Lookup(ps, "endTime").Some? && Lookup(ps, "endTime").value.PyInt?
    ensures (Lookup(ps, "startTime") == Some(PyInt(0)) && Lookup(ps, "endTime") == Some(PyInt(OneHourMs)))
            ==> !valid
  {
    match (Lookup(ps, "startTime"), Lookup(ps, "endTime"))
    case (Some(PyInt(start)), Some(PyInt(end))) => -OneHourMs < end - start < OneHourMs
    case _ => true
  }

  /** The rule can only fail when the caller sent both times. */
  lemma AggTradesWindowNeedsBothTimes(symbol: PyValue, limit: Option<PyValue>, kwargs: map<string, PyValue>)
    requires "startTime" !in Sent(kwargs, {"startTime"}) || "endTime" !in Sent(kwargs, {"endTime"})
    ensures AggTradesWindowValid(AggTrades(symbol, limit, kwargs).params.value)
  {
  }

  /** The builder does not enforce the rule: a two-hour window is sent as given. */
  lemma AggTradesWindowNotEnforced()
    ensures var r := AggTrades(PyStr("ETHBTC"), None, map["startTime" := PyInt(0), "endTime" := PyInt(2 * OneHourMs)]);
            Lookup(r.params.value, "endTime") == Some(PyInt(2 * OneHourMs))
            && !AggTradesWindowValid(r.params.value)
  {
    var kwargs := map["startTime" := PyInt(0), "endTime" := PyInt(2 * OneHourMs)];
    assert KwArg(kwargs, "startTime") == PyInt(0);
    assert KwArg(kwargs, "endTime") == PyInt(2 * OneHourMs);
  }

  /** The candlestick interval tokens the documentation lists, month last. */
  const KlineIntervals: seq<string> :=
    ["1m", "3m", "5m", "15m", "30m", "1h", "2h", "4h", "6h", "8h", "12h", "1d", "3d", "1w", "1M"]

  /** The interval utility knows every candlestick token but the month, whose unit is upper-case. */
  lemma KlineIntervalsConvertible()
    ensures forall i :: 0 <= i < |KlineIntervals| - 1 ==>
              Utilities.IntervalToMilliseconds(KlineIntervals[i]).Some?
    ensures Utilities.IntervalToMilliseconds(KlineIntervals[|KlineIntervals| - 1]) == None
    ensures Utilities.IntervalToMilliseconds("30m1h") == None
  {
    assert Utilities.Magnitude("30m1h") == "30m1" && !Decimal.IsDigit("30m1"[2]);
    forall i | 0 <= i < |KlineIntervals| - 1
      ensures Utilities.IntervalToMilliseconds(KlineIntervals[i]).Some?
    {
      var t := KlineIntervals[i];
      assert |t| > 0;
      Utilities.IntervalAcceptedIff(t);
      assert Utilities.Magnitude(t)[..0] == [];
      assert Utilities.Magnitude(t)[0..] == Utilities.Magnitude(t);
    }
  }
}
