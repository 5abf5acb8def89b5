/** One market window: open/high/low/close, volumes and the quantity-weighted average price, as the
    28-digit decimal context computes them. */
module Aggregation {
  import opened Events
  import opened Identity
  import opened Ordering
  import opened Sequences
  import opened Rounding
  import opened TwoRoundings

  /** The part of a Gold row that its events determine. */
  datatype Figures = Figures(
    windowId: string,
    symbol: string,
    start: int,
    end: int,
    open: real,
    high: real,
    low: real,
    close: real,
    tradeCount: nat,
    volume: real,
    buyVolume: real,
    sellVolume: real,
    vwap: real)

  /** A Gold row: the figures plus when, and how finally, they were computed. */
  datatype MarketWindow = MarketWindow(figures: Figures, computedAt: int, isFinal: bool)

  // ----- The sums of a window -----

  function ExactNotionalOf(e: InternalEvent): real { PriceOf(e) * QuantityOf(e) }

  /** Price times quantity, rounded as every result is. */
  function NotionalOf(e: InternalEvent): real { Rounded(ExactNotionalOf(e)) }

  function BuyQuantityOf(e: InternalEvent): real { if e.side.Buy? then QuantityOf(e) else 0.0 }

  function SellQuantityOf(e: InternalEvent): real { if e.side.Buy? then 0.0 else QuantityOf(e) }

  /** A running sum, rounded after every addition. */
  function RoundedSum(s: seq<InternalEvent>, f: InternalEvent -> real): real {
    if |s| == 0 then 0.0 else Rounded(RoundedSum(s[..|s| - 1], f) + f(s[|s| - 1]))
  }

  /** `max(prices)`. */
  function High(s: seq<InternalEvent>): real
    requires |s| > 0
  {
    var last := PriceOf(s[|s| - 1]);
    if |s| == 1 then last
    else var rest := High(s[..|s| - 1]); if last > rest then last else rest
  }

  /** `min(prices)`. */
  function Low(s: seq<InternalEvent>): real
    requires |s| > 0
  {
    var last := PriceOf(s[|s| - 1]);
    if |s| == 1 then last
    else var rest := Low(s[..|s| - 1]); if last < rest then last else rest
  }

  lemma {:induction false} Extremes(s: seq<InternalEvent>) returns (highest: InternalEvent, lowest: InternalEvent)
    requires |s| > 0
    ensures highest in s && PriceOf(highest) == High(s)
    ensures lowest in s && PriceOf(lowest) == Low(s)
    ensures forall x :: x in s ==> Low(s) <= PriceOf(x) <= High(s)
  {
    var last, init := s[|s| - 1], s[..|s| - 1];
    assert s == init + [last];
    highest, lowest := last, last;
    if |s| > 1 {
      var h, l := Extremes(init);
      if PriceOf(last) <= High(init) { highest := h; }
      if PriceOf(last) >= Low(init) { lowest := l; }
    }
  }

  predicate AllFinite(s: seq<InternalEvent>) {
    forall i :: 0 <= i < |s| ==> s[i].price.Finite? && s[i].quantity.Finite?
  }

  /** Aware and naive timestamps do not compare, so a mixture cannot be sorted. */
  predicate Comparable(s: seq<InternalEvent>) {
    forall i :: 0 < i < |s| ==> s[i].tradeTimestamp.Aware? == s[0].tradeTimestamp.Aware?
  }

  /** The quotient of the stored totals, before the context rounds it. */
  function MeanPrice(s: seq<InternalEvent>): real
    requires RoundedSum(s, QuantityOf) > 0.0
  {
    RoundedSum(s, NotionalOf) / RoundedSum(s, QuantityOf)
  }

  function FiguresOf(symbol: string, start: int, end: int, ordered: seq<InternalEvent>, vwap: real): Figures
    requires StartInstant(start) && |ordered| > 0
  {
    Figures(
      WindowIdFor(symbol, start), symbol, start, end,
      PriceOf(ordered[0]), High(ordered), Low(ordered), PriceOf(ordered[|ordered| - 1]),
      |ordered|,
      RoundedSum(ordered, QuantityOf), RoundedSum(ordered, BuyQuantityOf), RoundedSum(ordered, SellQuantityOf),
      vwap)
  }

  /** What the aggregation of a window's events must give. */
  function Aggregate(symbol: string, start: int, end: int, events: seq<InternalEvent>, vwapScale: nat): Outcome<Figures>
    requires StartInstant(start)
  {
    var ordered := SortBy(events, TradeKey);
    if |ordered| == 0 || !Comparable(events) || !AllFinite(events) then Raised(DataError)
    else if RoundedSum(ordered, QuantityOf) <= 0.0 then Raised(DataError)
    else
      var vwap :- Quantized(Rounded(MeanPrice(ordered)), vwapScale);
      Done(FiguresOf(symbol, start, end, ordered, vwap))
  }

  lemma RoundedAgain(x: real)
    ensures Rounded(Rounded(x)) == Rounded(x)
  {
    hide Rounded;
    if x >= 0.0 {
      RoundedTwice(x);
    } else {
      RoundedTwice(-x);
      RoundedMonotone(0.0, -x);
      RoundedNegated(x);
      RoundedNegated(Rounded(x));
    }
  }

  lemma RoundedNegated(x: real)
    requires x <= 0.0
    ensures Rounded(x) == -Rounded(-x)
  {
  }

  /** Adding nothing changes nothing: a running sum is a result of the context. */
  lemma RunningSumIsKept(s: seq<InternalEvent>, f: InternalEvent -> real)
    ensures Rounded(RoundedSum(s, f) + 0.0) == RoundedSum(s, f)
  {
    hide Rounded;
    if |s| == 0 {
      RoundedZero();
    } else {
      RoundedAgain(RoundedSum(s[..|s| - 1], f) + f(s[|s| - 1]));
    }
  }

  /** The accumulation loop. */
  method Accumulate(ordered: seq<InternalEvent>) returns (total: real, buys: real, sells: real, notional: real)
    ensures total == RoundedSum(ordered, QuantityOf) && notional == RoundedSum(ordered, NotionalOf)
    ensures buys == RoundedSum(ordered, BuyQuantityOf) && sells == RoundedSum(ordered, SellQuantityOf)
  {
    hide Rounded;
    total, buys, sells, notional := 0.0, 0.0, 0.0, 0.0;
    for i := 0 to |ordered|
      invariant total == RoundedSum(ordered[..i], QuantityOf) && notional == RoundedSum(ordered[..i], NotionalOf)
      invariant buys == RoundedSum(ordered[..i], BuyQuantityOf) && sells == RoundedSum(ordered[..i], SellQuantityOf)
    {
      var event := ordered[i];
      assert ordered[..i + 1][..i] == ordered[..i];
      RunningSumIsKept(ordered[..i], BuyQuantityOf);
      RunningSumIsKept(ordered[..i], SellQuantityOf);
      total := Rounded(total + QuantityOf(event));
      notional := Rounded(notional + NotionalOf(event));
      if event.side.Buy? {
        buys := Rounded(buys + QuantityOf(event));
      } else {
        sells := Rounded(sells + QuantityOf(event));
      }
    }
    assert ordered[..|ordered|] == ordered;
  }

  /** The aggregation as the platform runs it: one pass over the sorted events. */
  method AggregateWindow(symbol: string, start: int, end: int, events: seq<InternalEvent>,
                         computedAt: int, isFinal: bool, vwapScale: nat) returns (r: Outcome<MarketWindow>)
    requires StartInstant(start)
    ensures var f := Aggregate(symbol, start, end, events, vwapScale);
            r == if f.Done? then Done(MarketWindow(f.value, computedAt, isFinal)) else Raised(f.error)
  {
    hide SortBy, Comparable, AllFinite, WindowIdFor, Quantized, Rounded, RoundedSum, High, Low;
    SortByCorrect(events, TradeKey);
    if |events| == 0 || !Comparable(events) || !AllFinite(events) {
      return Raised(DataError);
    }
    var ordered := SortBy(events, TradeKey);
    var open, close, high, low := PriceOf(ordered[0]), PriceOf(ordered[|ordered| - 1]), High(ordered), Low(ordered);
    var total, buys, sells, notional := Accumulate(ordered);
    if total <= 0.0 {
      return Raised(DataError);
    }
    var vwap := Quantized(Rounded(notional / total), vwapScale);
    if vwap.Raised? {
      return Raised(vwap.error);
    }
    r := Done(MarketWindow(
      Figures(WindowIdFor(symbol, start), symbol, start, end, open, high, low, close,
              |ordered|, total, buys, sells, vwap.value),
      computedAt, isFinal));
  }

  // ----- What the figures mean -----

  lemma DistinctIdsSeparate(s: seq<InternalEvent>)
    requires DistinctIds(s)
    ensures Separates(s, TradeKey) && Separates(s, ReplayKey)
  {
  }

  lemma SameMembers<T>(a: seq<T>, b: seq<T>)
    requires multiset(a) == multiset(b)
    ensures |a| == |b| && (forall x :: x in a <==> x in b)
  {
    assert |multiset(a)| == |a| && |multiset(b)| == |b|;
    assert forall x :: x in a <==> x in multiset(a);
  }

  lemma SameGuards(a: seq<InternalEvent>, b: seq<InternalEvent>)
    requires multiset(a) == multiset(b)
    ensures AllFinite(a) == AllFinite(b) && Comparable(a) == Comparable(b)
  {
    SameMembers(a, b);
    GuardsByMembers(a);
    GuardsByMembers(b);
  }

  lemma GuardsByMembers(s: seq<InternalEvent>)
    ensures AllFinite(s) <==> forall e :: e in s ==> e.price.Finite? && e.quantity.Finite?
    ensures Comparable(s) <==> forall d, e :: d in s && e in s ==> d.tradeTimestamp.Aware? == e.tradeTimestamp.Aware?
  {
    if Comparable(s) {
      forall d, e | d in s && e in s ensures d.tradeTimestamp.Aware? == e.tradeTimestamp.Aware? {
        var i :| 0 <= i < |s| && s[i] == d;
        var j :| 0 <= j < |s| && s[j] == e;
      }
    }
  }

  /** Order independence: distinct events give one result, in whatever order they are read. */
  lemma AggregateIgnoresOrder(symbol: string, start: int, end: int, a: seq<InternalEvent>, b: seq<InternalEvent>,
                              vwapScale: nat)
    requires StartInstant(start) && multiset(a) == multiset(b) && DistinctIds(a)
    ensures Aggregate(symbol, start, end, a, vwapScale) == Aggregate(symbol, start, end, b, vwapScale)
  {
    DistinctIdsSeparate(a);
    SortIgnoresOrder(a, b, TradeKey);
    SameGuards(a, b);
  }

  /** Count and volumes are sums over the sorted events, rounded after every addition. */
  lemma AggregateSums(symbol: string, start: int, end: int, events: seq<InternalEvent>, vwapScale: nat, f: Figures)
    requires StartInstant(start) && Aggregate(symbol, start, end, events, vwapScale) == Done(f)
    ensures f.tradeCount == |events| > 0
    ensures var ordered := SortBy(events, TradeKey);
            && f.volume == RoundedSum(ordered, QuantityOf) > 0.0
            && f.buyVolume == RoundedSum(ordered, BuyQuantityOf) && f.sellVolume == RoundedSum(ordered, SellQuantityOf)
            && Quantized(Rounded(MeanPrice(ordered)), vwapScale) == Done(f.vwap)
  {
    hide Quantized, WindowIdFor, Rounded, RoundedSum, SortBy, High, Low;
    SortByCorrect(events, TradeKey);
  }

  /** Open and close are the prices of the first and the last trade: none is earlier, or later, and at the
      same microsecond none comes before, or after, in the dictionary order of the ids. */
  lemma OpenAndClose(symbol: string, start: int, end: int, events: seq<InternalEvent>, vwapScale: nat, f: Figures)
    returns (first: InternalEvent, last: InternalEvent)
    requires StartInstant(start) && Aggregate(symbol, start, end, events, vwapScale) == Done(f)
    ensures first in events && f.open == PriceOf(first)
    ensures last in events && f.close == PriceOf(last)
    ensures forall x :: x in events ==>
              NoLater(first.tradeTimestamp.micros, first.eventId, x.tradeTimestamp.micros, x.eventId)
    ensures forall x :: x in events ==>
              NoLater(x.tradeTimestamp.micros, x.eventId, last.tradeTimestamp.micros, last.eventId)
  {
    hide Rounded, RoundedSum, Quantized, SortBy, KeyLe, NoLater;
    var ordered := SortBy(events, TradeKey);
    SortByCorrect(events, TradeKey);
    SameMembers(ordered, events);
    var n := |ordered| - 1;
    first, last := ordered[0], ordered[n];
    assert first in ordered && last in ordered;
    forall x | x in events
      ensures NoLater(first.tradeTimestamp.micros, first.eventId, x.tradeTimestamp.micros, x.eventId)
      ensures NoLater(x.tradeTimestamp.micros, x.eventId, last.tradeTimestamp.micros, last.eventId)
    {
      KeyTotalOrder(TradeKey(x), TradeKey(x), TradeKey(x));
      assert x in ordered;
      var i :| 0 <= i < |ordered| && ordered[i] == x;
      KeyLeMeaning(TradeKey(first), TradeKey(x));
      KeyLeMeaning(TradeKey(x), TradeKey(last));
    }
  }

  /** High and low are the extreme prices: attained, and bounding every price. */
  lemma HighAndLow(symbol: string, start: int, end: int, events: seq<InternalEvent>, vwapScale: nat, f: Figures)
    returns (highest: InternalEvent, lowest: InternalEvent)
    requires StartInstant(start) && Aggregate(symbol, start, end, events, vwapScale) == Done(f)
    ensures highest in events && f.high == PriceOf(highest)
    ensures lowest in events && f.low == PriceOf(lowest)
    ensures forall x :: x in events ==> f.low <= PriceOf(x) <= f.high
  {
    var ordered := SortBy(events, TradeKey);
    SortByCorrect(events, TradeKey);
    SameMembers(ordered, events);
    highest, lowest := Extremes(ordered);
  }

  lemma {:induction false} SidesAddUp(s: seq<InternalEvent>)
    ensures Sum(s, BuyQuantityOf) + Sum(s, SellQuantityOf) == Sum(s, QuantityOf)
  {
    if |s| > 0 {
      SidesAddUp(s[..|s| - 1]);
    }
  }

  predicate PositiveTrades(s: seq<InternalEvent>) {
    forall i :: 0 <= i < |s| ==>
      && s[i].price.Finite? && s[i].price.value > 0.0
      && s[i].quantity.Finite? && s[i].quantity.value > 0.0
      && s[i].tradeTimestamp.Aware?
  }

  lemma {:induction false} PositiveSums(s: seq<InternalEvent>)
    requires PositiveTrades(s)
    ensures if |s| == 0 then Sum(s, QuantityOf) == 0.0 else Sum(s, QuantityOf) > 0.0
    ensures Sum(s, BuyQuantityOf) >= 0.0 && Sum(s, SellQuantityOf) >= 0.0
  {
    if |s| > 0 {
      PositiveSums(s[..|s| - 1]);
    }
  }

  /** Some terms, none negative. */
  ghost predicate NonNegative(s: seq<InternalEvent>, f: InternalEvent -> real) {
    forall e :: e in s ==> f(e) >= 0.0
  }

  lemma {:induction false} RoundedSumPositive(s: seq<InternalEvent>, f: InternalEvent -> real)
    requires NonNegative(s, f)
    ensures RoundedSum(s, f) >= 0.0
    ensures |s| > 0 && f(s[|s| - 1]) > 0.0 ==> RoundedSum(s, f) > 0.0
  {
    hide Rounded;
    if |s| > 0 {
      var init, last := s[..|s| - 1], s[|s| - 1];
      assert last in s;
      RoundedSumPositive(init, f);
      RoundedMonotone(0.0, RoundedSum(init, f) + f(last));
      RoundedMonotone(RoundedSum(init, f) + f(last), RoundedSum(init, f) + f(last));
    }
  }

  lemma PositiveTerms(s: seq<InternalEvent>)
    requires PositiveTrades(s)
    ensures NonNegative(s, QuantityOf) && NonNegative(s, NotionalOf)
    ensures NonNegative(s, BuyQuantityOf) && NonNegative(s, SellQuantityOf)
    ensures forall e :: e in s ==> QuantityOf(e) > 0.0 && NotionalOf(e) > 0.0 && ExactNotionalOf(e) > 0.0
  {
    hide Rounded;
    forall e | e in s ensures QuantityOf(e) > 0.0 && NotionalOf(e) > 0.0 && ExactNotionalOf(e) > 0.0 {
      Scale(0.0, PriceOf(e), QuantityOf(e));
      Scale(PriceOf(e), 0.0, QuantityOf(e));
      RoundedMonotone(ExactNotionalOf(e), ExactNotionalOf(e));
    }
  }

  /** The totals of trusted trades are positive. */
  lemma PositiveTotals(s: seq<InternalEvent>)
    requires PositiveTrades(s) && |s| > 0
    ensures RoundedSum(s, QuantityOf) > 0.0 && RoundedSum(s, NotionalOf) > 0.0
    ensures RoundedSum(s, BuyQuantityOf) >= 0.0 && RoundedSum(s, SellQuantityOf) >= 0.0
    ensures MeanPrice(s) > 0.0
  {
    hide Rounded, RoundedSum;
    PositiveTerms(s);
    assert s[|s| - 1] in s;
    RoundedSumPositive(s, QuantityOf);
    RoundedSumPositive(s, NotionalOf);
    RoundedSumPositive(s, BuyQuantityOf);
    RoundedSumPositive(s, SellQuantityOf);
    PositiveQuotient(RoundedSum(s, NotionalOf), RoundedSum(s, QuantityOf));
  }

  /** `n` is a sum of prices between `low` and `high` that carry the total weight `t`. */
  ghost predicate Weighted(low: real, n: real, high: real, t: real) {
    low * t <= n <= high * t
  }

  /** A positively weighted sum of prices lies between the extremes times the total weight. */
  lemma {:induction false} WeightedBounds(s: seq<InternalEvent>, low: real, high: real)
    requires PositiveTrades(s)
    requires forall i :: 0 <= i < |s| ==> low <= PriceOf(s[i]) <= high
    ensures Weighted(low, Sum(s, ExactNotionalOf), high, Sum(s, QuantityOf))
  {
    if |s| > 0 {
      var e, init := s[|s| - 1], s[..|s| - 1];
      WeightedBounds(init, low, high);
      AddWeighted(low, high, Sum(init, QuantityOf), Sum(init, ExactNotionalOf), PriceOf(e), QuantityOf(e),
                  ExactNotionalOf(e), Sum(s, QuantityOf), Sum(s, ExactNotionalOf));
    }
  }

  lemma AddWeighted(low: real, high: real, t: real, n: real, p: real, q: real, pq: real, t': real, n': real)
    requires Weighted(low, n, high, t) && low <= p <= high && q > 0.0 && pq == p * q
    requires t' == t + q && n' == n + pq
    ensures Weighted(low, n', high, t')
  {
    Scale(low, p, q);
    Scale(p, high, q);
    assert low * (t + q) == low * t + low * q;
    assert high * (t + q) == high * t + high * q;
  }

  /** The average price fits in 28 digits at the scale: the quotient of the rounded totals, rounded. */
  predicate VwapFits(s: seq<InternalEvent>, scale: nat) {
    var ordered := SortBy(s, TradeKey);
    RoundedSum(ordered, QuantityOf) > 0.0 && Quantizable(Rounded(MeanPrice(ordered)), scale)
  }

  lemma VwapFitsPermuted(a: seq<InternalEvent>, b: seq<InternalEvent>, scale: nat)
    requires multiset(a) == multiset(b) && DistinctIds(a)
    ensures VwapFits(a, scale) == VwapFits(b, scale)
  {
    DistinctIdsSeparate(a);
    SortIgnoresOrder(a, b, TradeKey);
  }

  lemma SortedIsPositive(events: seq<InternalEvent>)
    requires PositiveTrades(events)
    ensures PositiveTrades(SortBy(events, TradeKey)) && |SortBy(events, TradeKey)| == |events|
  {
    var ordered := SortBy(events, TradeKey);
    SortByCorrect(events, TradeKey);
    SameMembers(ordered, events);
    forall i | 0 <= i < |ordered| ensures ordered[i] in events {
      assert ordered[i] in ordered;
    }
  }

  /** Trusted events aggregate exactly when their average price fits in 28 digits at the scale, and
      the row they give meets the Gold table's constraints. */
  lemma TrustedTradesAggregate(symbol: string, start: int, end: int, events: seq<InternalEvent>, vwapScale: nat)
    requires StartInstant(start) && start < end && |events| > 0 && PositiveTrades(events)
    ensures var r := Aggregate(symbol, start, end, events, vwapScale);
            && (r.Done? <==> VwapFits(events, vwapScale))
            && (r.Done? ==>
                  var f := r.value;
                  && f.end > f.start && f.tradeCount >= 1
                  && 0.0 < f.low <= f.open <= f.high && f.low <= f.close <= f.high
                  && f.volume > 0.0 && f.buyVolume >= 0.0 && f.sellVolume >= 0.0)
  {
    hide Quantizable, Quantize, Rounded, RoundedSum, SortBy, WindowIdFor;
    var ordered := SortBy(events, TradeKey);
    SortedIsPositive(events);
    var highest, lowest := Extremes(ordered);
    PositiveTotals(ordered);
    assert ordered[0] in ordered && ordered[|ordered| - 1] in ordered;
    assert forall i :: 0 <= i < |events| ==> events[i].tradeTimestamp.Aware?;
    assert lowest in ordered;
  }

  /** The stored average is within half a unit of the quotient of the stored totals, ties up, exactly
      when the context does not round that quotient onto, or off, a half-way point. */
  lemma VwapIsRoundedMeanIff(symbol: string, start: int, end: int, events: seq<InternalEvent>, vwapScale: nat,
                             f: Figures)
    requires StartInstant(start) && PositiveTrades(events)
    requires Aggregate(symbol, start, end, events, vwapScale) == Done(f)
    ensures var notional := RoundedSum(SortBy(events, TradeKey), NotionalOf);
            && f.volume > 0.0
            && (RoundsMean(f.vwap, notional, f.volume, Unit(vwapScale)) <==>
                !RoundsTwice(notional / f.volume, vwapScale))
  {
    hide Quantizable, Quantize, Rounded, RoundedSum, SortBy, RoundsMean, RoundsTwice, Aggregate;
    AggregateSums(symbol, start, end, events, vwapScale, f);
    SortedIsPositive(events);
    var ordered := SortBy(events, TradeKey);
    PositiveTotals(ordered);
    RaisesAlike(MeanPrice(ordered), vwapScale);
    StoredVwapRoundsMeanIff(RoundedSum(ordered, NotionalOf), f.volume, vwapScale);
  }

  lemma AggregateRaisesData(symbol: string, start: int, end: int, events: seq<InternalEvent>, vwapScale: nat)
    requires StartInstant(start)
    ensures var r := Aggregate(symbol, start, end, events, vwapScale); r.Raised? ==> r.error == DataError
  {
    hide Rounded, RoundedSum, SortBy, Quantizable, WindowIdFor;
  }

  lemma {:induction false} NothingOnThisSide(s: seq<InternalEvent>, f: InternalEvent -> real)
    requires forall e :: e in s ==> f(e) == 0.0
    ensures RoundedSum(s, f) == 0.0
  {
    hide Rounded;
    if |s| > 0 {
      assert s[|s| - 1] in s;
      NothingOnThisSide(s[..|s| - 1], f);
      RoundedZero();
    }
  }

  /** The sides are told apart by the buyer: a window of buys alone has bought its whole volume and sold
      nothing, and a window without buys the other way round. */
  lemma OneSidedWindows(symbol: string, start: int, end: int, events: seq<InternalEvent>, vwapScale: nat, f: Figures)
    requires StartInstant(start) && Aggregate(symbol, start, end, events, vwapScale) == Done(f)
    ensures (forall e :: e in events ==> e.side.Buy?) ==> f.buyVolume == f.volume && f.sellVolume == 0.0
    ensures (forall e :: e in events ==> !e.side.Buy?) ==> f.sellVolume == f.volume && f.buyVolume == 0.0
  {
    hide Rounded, RoundedSum, SortBy, Aggregate;
    AggregateSums(symbol, start, end, events, vwapScale, f);
    var ordered := SortBy(events, TradeKey);
    SortByCorrect(events, TradeKey);
    SameMembers(ordered, events);
    if forall e :: e in events ==> e.side.Buy? {
      RoundedSumAgrees(ordered, BuyQuantityOf, QuantityOf);
      NothingOnThisSide(ordered, SellQuantityOf);
    }
    if forall e :: e in events ==> !e.side.Buy? {
      RoundedSumAgrees(ordered, SellQuantityOf, QuantityOf);
      NothingOnThisSide(ordered, BuyQuantityOf);
    }
  }

  /** On any events at all: the aggregation succeeds exactly when there are some, all timestamps carry a
      timezone or none does, every price and quantity is finite, the running volume is positive and the
      average can be stored. */
  lemma AggregateDoneIff(symbol: string, start: int, end: int, events: seq<InternalEvent>, vwapScale: nat)
    requires StartInstant(start)
    ensures Aggregate(symbol, start, end, events, vwapScale).Done? <==>
              && |events| > 0
              && !(exists d, e :: d in events && e in events && d.tradeTimestamp.Aware? && e.tradeTimestamp.Naive?)
              && (forall e :: e in events ==> e.price.Finite? && e.quantity.Finite?)
              && RoundedSum(SortBy(events, TradeKey), QuantityOf) > 0.0
              && VwapFits(events, vwapScale)
  {
    hide Rounded, RoundedSum, SortBy, Quantizable, WindowIdFor;
    SortByCorrect(events, TradeKey);
    GuardsByMembers(events);
  }

  // ----- Within the precision -----

  /** `x` is a whole number of units of `10 ** -k`. */
  ghost predicate WholeAt(x: real, k: nat) { Times(x, Unit(k)).Floor as real == Times(x, Unit(k)) }

  /** The terms lie on the grid of `10 ** -k`, and their exact sum has at most 28 digits there. */
  ghost predicate WithinPrecision(s: seq<InternalEvent>, f: InternalEvent -> real, k: nat) {
    && NonNegative(s, f)
    && (forall e :: e in s ==> WholeAt(f(e), k))
    && Times(Sum(s, f), Unit(k)) <= COEFFICIENT_LIMIT as real
  }

  lemma TimesAdds(x: real, y: real, u: real)
    ensures Times(x + y, u) == Times(x, u) + Times(y, u)
  {
  }

  lemma TimesOrder(x: real, y: real, u: real)
    requires u > 0.0
    ensures x <= y <==> Times(x, u) <= Times(y, u)
  {
    Scale(x, y, u);
  }

  lemma WholeIsRounded(x: real, k: nat)
    requires x >= 0.0 && WholeAt(x, k) && Times(x, Unit(k)) <= COEFFICIENT_LIMIT as real
    ensures Rounded(x) == x
  {
    hide Rounded, Times, Unit;
    TimesUnit(x, k);
    ShortIsKept(x, k, Times(x, Unit(k)).Floor);
  }

  /** Within the precision the running sum is the sum. */
  lemma {:induction false} RoundedSumIsExact(s: seq<InternalEvent>, f: InternalEvent -> real, k: nat)
    requires WithinPrecision(s, f, k)
    ensures RoundedSum(s, f) == Sum(s, f) >= 0.0 && WholeAt(Sum(s, f), k)
  {
    hide Rounded, Times, Unit, WholeAt;
    if |s| == 0 {
      ZeroIsWhole(k);
    } else {
      var init, last := s[..|s| - 1], s[|s| - 1];
      assert last in s && forall e :: e in init ==> e in s;
      TimesOrder(Sum(init, f), Sum(s, f), Unit(k));
      RoundedSumIsExact(init, f, k);
      WholesAdd(Sum(init, f), f(last), k);
      WholeIsRounded(Sum(s, f), k);
    }
  }

  lemma WholesAdd(x: real, y: real, k: nat)
    requires WholeAt(x, k) && WholeAt(y, k)
    ensures WholeAt(x + y, k)
  {
    hide Times, Unit;
    TimesAdds(x, y, Unit(k));
    WholeSum(Times(x, Unit(k)), Times(y, Unit(k)));
  }

  lemma WholeSum(x: real, y: real)
    requires x.Floor as real == x && y.Floor as real == y
    ensures (x + y).Floor as real == x + y
  {
    FloorIs(x + y, x.Floor + y.Floor);
  }

  lemma ZeroIsWhole(k: nat)
    ensures WholeAt(0.0, k)
  {
  }

  lemma {:induction false} RoundedSumAgrees(s: seq<InternalEvent>, f: InternalEvent -> real, g: InternalEvent -> real)
    requires forall e :: e in s ==> f(e) == g(e)
    ensures RoundedSum(s, f) == RoundedSum(s, g)
  {
    hide Rounded;
    if |s| > 0 {
      RoundedSumAgrees(s[..|s| - 1], f, g);
    }
  }

  lemma {:induction false} TermBelowSum(s: seq<InternalEvent>, f: InternalEvent -> real, e: InternalEvent)
    requires NonNegative(s, f) && e in s
    ensures 0.0 <= f(e) <= Sum(s, f)
  {
    var init, last := s[..|s| - 1], s[|s| - 1];
    assert last in s && s == init + [last];
    if e in init {
      TermBelowSum(init, f, e);
    } else {
      SumNonNegative(init, f);
    }
  }

  lemma {:induction false} SumNonNegative(s: seq<InternalEvent>, f: InternalEvent -> real)
    requires NonNegative(s, f)
    ensures Sum(s, f) >= 0.0
  {
    if |s| > 0 {
      assert s[|s| - 1] in s;
      SumNonNegative(s[..|s| - 1], f);
    }
  }

  lemma WithinPrecisionPermuted(a: seq<InternalEvent>, b: seq<InternalEvent>, f: InternalEvent -> real, k: nat)
    requires multiset(a) == multiset(b) && WithinPrecision(a, f, k)
    ensures WithinPrecision(b, f, k) && Sum(b, f) == Sum(a, f)
  {
    hide WholeAt, Times;
    SameMembers(a, b);
    SumPermutation(a, b, f);
  }

  /** Within the precision products lose nothing either. */
  lemma ProductsAreExact(s: seq<InternalEvent>, m: nat)
    requires WithinPrecision(s, ExactNotionalOf, m)
    ensures forall e :: e in s ==> NotionalOf(e) == ExactNotionalOf(e)
  {
    hide Rounded, Times, Unit, ExactNotionalOf;
    forall e | e in s ensures NotionalOf(e) == ExactNotionalOf(e) {
      TermBelowSum(s, ExactNotionalOf, e);
      TimesOrder(ExactNotionalOf(e), Sum(s, ExactNotionalOf), Unit(m));
      WholeIsRounded(ExactNotionalOf(e), m);
    }
  }

  /** Each side within the precision, when the whole volume is. */
  lemma SidesWithinPrecision(s: seq<InternalEvent>, k: nat)
    requires PositiveTrades(s) && WithinPrecision(s, QuantityOf, k)
    ensures WithinPrecision(s, BuyQuantityOf, k) && WithinPrecision(s, SellQuantityOf, k)
  {
    hide Times, Unit;
    PositiveTerms(s);
    SidesAddUp(s);
    SumNonNegative(s, BuyQuantityOf);
    SumNonNegative(s, SellQuantityOf);
    TimesOrder(Sum(s, BuyQuantityOf), Sum(s, QuantityOf), Unit(k));
    TimesOrder(Sum(s, SellQuantityOf), Sum(s, QuantityOf), Unit(k));
    ZeroIsWhole(k);
  }

  /** While volume and notional have at most 28 digits at their own scales, the figures are the exact
      ones: plain sums in any order, sides that add up, and an average that is the exact mean rounded,
      between the rounded extremes when those need no more digits. */
  lemma FiguresAreExact(symbol: string, start: int, end: int, events: seq<InternalEvent>, vwapScale: nat, f: Figures,
                        k: nat, m: nat)
    requires StartInstant(start) && PositiveTrades(events)
    requires Aggregate(symbol, start, end, events, vwapScale) == Done(f)
    requires WithinPrecision(events, QuantityOf, k) && WithinPrecision(events, ExactNotionalOf, m)
    ensures f.volume == Sum(events, QuantityOf) > 0.0
    ensures f.buyVolume == Sum(events, BuyQuantityOf) && f.sellVolume == Sum(events, SellQuantityOf)
    ensures f.buyVolume + f.sellVolume == f.volume
    ensures Quantized(Rounded(Sum(events, ExactNotionalOf) / f.volume), vwapScale) == Done(f.vwap)
    ensures Rounded(f.low) == f.low && Rounded(f.high) == f.high ==>
              Quantize(f.low, vwapScale) <= f.vwap <= Quantize(f.high, vwapScale)
  {
    hide Quantized, Rounded, RoundedSum, SortBy, Aggregate, WithinPrecision;
    var ordered := SortBy(events, TradeKey);
    SortByCorrect(events, TradeKey);
    AggregateSums(symbol, start, end, events, vwapScale, f);
    SidesWithinPrecision(events, k);
    ExactTotal(events, ordered, QuantityOf, k);
    ExactTotal(events, ordered, BuyQuantityOf, k);
    ExactTotal(events, ordered, SellQuantityOf, k);
    ExactTotal(events, ordered, ExactNotionalOf, m);
    ProductsAreExact(events, m);
    SameMembers(events, ordered);
    RoundedSumAgrees(ordered, NotionalOf, ExactNotionalOf);
    SidesAddUp(events);
    var highest, lowest := HighAndLow(symbol, start, end, events, vwapScale, f);
    MeanBetweenPrices(events, f.low, f.high);
    BracketedVwap(f.low, Sum(events, ExactNotionalOf) / f.volume, f.high, vwapScale, f.vwap);
  }

  lemma ExactTotal(events: seq<InternalEvent>, ordered: seq<InternalEvent>, f: InternalEvent -> real, k: nat)
    requires multiset(events) == multiset(ordered) && WithinPrecision(events, f, k)
    ensures RoundedSum(ordered, f) == Sum(events, f)
  {
    hide Rounded, WithinPrecision;
    WithinPrecisionPermuted(events, ordered, f, k);
    RoundedSumIsExact(ordered, f, k);
  }

  lemma BracketedVwap(low: real, mean: real, high: real, scale: nat, vwap: real)
    requires 0.0 <= low <= mean <= high && Quantized(Rounded(mean), scale) == Done(vwap)
    ensures Rounded(low) == low && Rounded(high) == high ==> Quantize(low, scale) <= vwap <= Quantize(high, scale)
  {
    hide Rounded, RoundTo, Quantizable, Unit;
    RoundedMonotone(low, mean);
    RoundedMonotone(mean, high);
    if Rounded(low) == low && Rounded(high) == high {
      RoundToMonotone(low, Rounded(mean), Unit(scale));
      RoundToMonotone(Rounded(mean), high, Unit(scale));
    }
  }

  /** The exact weighted mean lies between any bounds on the prices. */
  lemma MeanBetweenPrices(events: seq<InternalEvent>, low: real, high: real)
    requires PositiveTrades(events) && |events| > 0
    requires forall x :: x in events ==> low <= PriceOf(x) <= high
    ensures Sum(events, QuantityOf) > 0.0
    ensures low <= Sum(events, ExactNotionalOf) / Sum(events, QuantityOf) <= high
  {
    hide Sum, ExactNotionalOf;
    forall i | 0 <= i < |events| ensures low <= PriceOf(events[i]) <= high {
      assert events[i] in events;
    }
    PositiveSums(events);
    WeightedBounds(events, low, high);
    QuotientBounds(Sum(events, ExactNotionalOf), Sum(events, QuantityOf), low, high);
  }

  // ----- Prices and quantities that always fit -----

  /** The price is at most `10 ** (27 - scale)`, and the quantity has at most 28 digits. */
  predicate Modest(e: InternalEvent, scale: nat) {
    Times(PriceOf(e), Unit(scale)) <= SMALLEST as real && Rounded(QuantityOf(e)) == QuantityOf(e)
  }

  /** The rounded notional is at most `10 ** (27 - scale)` times the rounded volume. */
  ghost predicate Capped(n: real, t: real, scale: nat) { Times(n, Unit(scale)) <= Times(t, Unit(27)) }

  lemma {:induction false} ModestTotals(s: seq<InternalEvent>, scale: nat)
    requires PositiveTrades(s) && forall i :: 0 <= i < |s| ==> Modest(s[i], scale)
    ensures Capped(RoundedSum(s, NotionalOf), RoundedSum(s, QuantityOf), scale)
    ensures RoundedSum(s, NotionalOf) >= 0.0 && RoundedSum(s, QuantityOf) >= 0.0
  {
    hide Rounded, Unit, Times;
    if |s| == 0 {
      TimesZero(Unit(scale));
      TimesZero(Unit(27));
    } else {
      var init, e := s[..|s| - 1], s[|s| - 1];
      ModestTotals(init, scale);
      ModestProduct(PriceOf(e), QuantityOf(e), ExactNotionalOf(e), scale);
      ModestStep(RoundedSum(init, NotionalOf), RoundedSum(init, QuantityOf), NotionalOf(e), QuantityOf(e), scale);
    }
  }

  lemma TimesZero(u: real)
    ensures Times(0.0, u) == 0.0
  {
  }

  lemma UnitOf27()
    ensures Unit(27) == SMALLEST as real
  {
    assert Unit(9) == 1_000_000_000.0;
    assert Unit(18) == 1_000_000_000_000_000_000.0;
  }

  lemma ModestProduct(p: real, q: real, pq: real, scale: nat)
    requires p > 0.0 && q > 0.0 && Times(p, Unit(scale)) <= SMALLEST as real && Rounded(q) == q && pq == p * q
    ensures Rounded(pq) >= 0.0 && Capped(Rounded(pq), q, scale)
  {
    hide Rounded, Unit, Times;
    Scale(0.0, p, q);
    RoundedMonotone(0.0, pq);
    ProductCap(p, q, pq, Unit(scale));
    CapOfUnit27(q);
    RoundedShift(pq, scale);
    RoundedShift(q, 27);
    TimesUnit(pq, scale);
    RoundedMonotone(Times(pq, Unit(scale)), Times(q, Unit(27)));
  }

  lemma CapOfUnit27(t: real)
    ensures Times(t, Unit(27)) == t * SMALLEST as real
  {
    UnitOf27();
  }

  lemma ProductCap(p: real, q: real, pq: real, u: real)
    requires q > 0.0 && Times(p, u) <= SMALLEST as real && pq == p * q
    ensures Times(pq, u) <= q * SMALLEST as real
  {
    Scale(p * u, SMALLEST as real, q);
    assert p * q * u == p * u * q;
  }

  lemma ModestStep(n: real, t: real, pq: real, q: real, scale: nat)
    requires n >= 0.0 && t >= 0.0 && pq >= 0.0 && q >= 0.0 && Capped(n, t, scale) && Capped(pq, q, scale)
    ensures Capped(Rounded(n + pq), Rounded(t + q), scale)
    ensures Rounded(n + pq) >= 0.0 && Rounded(t + q) >= 0.0
  {
    hide Rounded, Unit, Times;
    TimesAdds(n, pq, Unit(scale));
    TimesAdds(t, q, Unit(27));
    TimesUnit(n + pq, scale);
    RoundedShift(n + pq, scale);
    RoundedShift(t + q, 27);
    RoundedMonotone(Times(n + pq, Unit(scale)), Times(t + q, Unit(27)));
    RoundedMonotone(0.0, n + pq);
    RoundedMonotone(0.0, t + q);
  }

  /** Conditions to check event by event: with modest prices and quantities the average always fits. */
  lemma ModestTradesFit(events: seq<InternalEvent>, scale: nat)
    requires PositiveTrades(events) && |events| > 0
    requires forall x :: x in events ==> Modest(x, scale)
    ensures VwapFits(events, scale)
  {
    hide Rounded, RoundedSum, Unit, Times, Quantizable, SortBy, Modest;
    var ordered := SortBy(events, TradeKey);
    SortByCorrect(events, TradeKey);
    SameMembers(ordered, events);
    SortedIsPositive(events);
    forall i | 0 <= i < |ordered| ensures Modest(ordered[i], scale) {
      assert ordered[i] in ordered;
    }
    ModestTotals(ordered, scale);
    PositiveTotals(ordered);
    CappedMeanFits(RoundedSum(ordered, NotionalOf), RoundedSum(ordered, QuantityOf), scale);
  }

  lemma CappedMeanFits(n: real, t: real, scale: nat)
    requires n > 0.0 && t > 0.0 && Capped(n, t, scale)
    ensures Quantizable(Rounded(n / t), scale)
  {
    hide Rounded, Unit, Quantizable;
    PositiveQuotient(n, t);
    ExactQuotient(n, t);
    CapAsProduct(n, t, scale);
    MeanCap(n, t, n / t, Unit(scale));
    RaisesAlike(n / t, scale);
    SmallFits(n / t, scale);
  }

  lemma CapAsProduct(n: real, t: real, scale: nat)
    requires Capped(n, t, scale)
    ensures n * Unit(scale) <= t * SMALLEST as real
  {
    CapOfUnit27(t);
  }

  lemma MeanCap(n: real, t: real, mean: real, u: real)
    requires t > 0.0 && mean * t == n && n * u <= t * SMALLEST as real
    ensures Times(mean, u) <= SMALLEST as real
  {
    assert mean * u * t == mean * t * u;
    Scale(mean * u, SMALLEST as real, t);
  }

  lemma SmallFits(x: real, scale: nat)
    requires x >= 0.0 && Times(x, Unit(scale)) <= SMALLEST as real
    ensures Quantizable(x, scale)
  {
    hide Unit, Nearest, Times;
    TimesUnit(x, scale);
    AtLimit(Times(x, Unit(scale)));
  }

  // ----- Growth -----

  /** A running sum from a given start. */
  function SumFrom(start: real, s: seq<InternalEvent>, f: InternalEvent -> real): real
    decreases |s|
  {
    if |s| == 0 then start else SumFrom(Rounded(start + f(s[0])), s[1..], f)
  }

  lemma {:induction false} SumFromConcat(a: seq<InternalEvent>, b: seq<InternalEvent>, f: InternalEvent -> real)
    ensures RoundedSum(a + b, f) == SumFrom(RoundedSum(a, f), b, f)
    decreases |b|
  {
    hide Rounded;
    if |b| == 0 {
      assert a + b == a;
    } else {
      var next := a + [b[0]];
      assert next[..|a|] == a && a + b == next + b[1..];
      SumFromConcat(next, b[1..], f);
    }
  }

  /** Leaving trades out never makes a running sum larger. */
  lemma {:induction false} ThinnedSum(start: real, a: seq<InternalEvent>, start': real, b: seq<InternalEvent>,
                                      f: InternalEvent -> real)
    requires 0.0 <= start <= start' && Rounded(start) == start && Rounded(start') == start'
    requires Thinned(a, b) && NonNegative(b, f)
    ensures SumFrom(start, a, f) <= SumFrom(start', b, f)
    decreases |b|
  {
    hide Rounded;
    if |b| > 0 {
      assert b[0] in b && forall e :: e in b[1..] ==> e in b;
      RoundedMonotone(start', start' + f(b[0]));
      RoundedAgain(start' + f(b[0]));
      if |a| > 0 && a[0] == b[0] && Thinned(a[1..], b[1..]) {
        RoundedMonotone(start + f(a[0]), start' + f(b[0]));
        RoundedAgain(start + f(a[0]));
        ThinnedSum(Rounded(start + f(a[0])), a[1..], Rounded(start' + f(b[0])), b[1..], f);
      } else {
        ThinnedSum(start, a, Rounded(start' + f(b[0])), b[1..], f);
      }
    }
  }

  lemma SortedSumGrows(older: seq<InternalEvent>, newer: seq<InternalEvent>, f: InternalEvent -> real)
    requires NonNegative(older + newer, f)
    ensures RoundedSum(SortBy(older, TradeKey), f) <= RoundedSum(SortBy(older + newer, TradeKey), f)
  {
    hide Rounded, SortBy, RoundedSum;
    var a, b := SortBy(older, TradeKey), SortBy(older + newer, TradeKey);
    SortByCorrect(older + newer, TradeKey);
    SameMembers(b, older + newer);
    SortIsThinned(older, newer, TradeKey);
    NothingSummed(f);
    SumFromConcat([], a, f);
    SumFromConcat([], b, f);
    assert [] + a == a && [] + b == b;
    RoundedZero();
    ThinnedSum(0.0, a, 0.0, b, f);
  }

  lemma NothingSummed(f: InternalEvent -> real)
    ensures RoundedSum([], f) == 0.0
  {
  }

  /** More events never take anything away: the stored figures of a window evolve monotonically, since
      every rounding keeps order and the events are summed in one order. */
  lemma FiguresGrow(symbol: string, start: int, end: int, older: seq<InternalEvent>, newer: seq<InternalEvent>,
                    vwapScale: nat, f: Figures, g: Figures)
    requires StartInstant(start) && PositiveTrades(older + newer)
    requires Aggregate(symbol, start, end, older, vwapScale) == Done(f)
    requires Aggregate(symbol, start, end, older + newer, vwapScale) == Done(g)
    ensures f.tradeCount <= g.tradeCount && f.volume <= g.volume
    ensures f.buyVolume <= g.buyVolume && f.sellVolume <= g.sellVolume
    ensures g.low <= f.low && f.high <= g.high
  {
    hide Aggregate, RoundedSum, Rounded, SortBy;
    AggregateSums(symbol, start, end, older, vwapScale, f);
    AggregateSums(symbol, start, end, older + newer, vwapScale, g);
    PositiveTerms(older + newer);
    SortedSumGrows(older, newer, QuantityOf);
    SortedSumGrows(older, newer, BuyQuantityOf);
    SortedSumGrows(older, newer, SellQuantityOf);
    var highest, lowest := HighAndLow(symbol, start, end, older, vwapScale, f);
    var h, l := HighAndLow(symbol, start, end, older + newer, vwapScale, g);
    assert highest in older + newer && lowest in older + newer;
  }
}
