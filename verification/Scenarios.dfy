/** Small whole stories: the smallest run, a price too long to store, a trade that comes too late. */
module Scenarios {
  import opened Events
  import opened Identity
  import opened Ordering
  import opened Sequences
  import opened Rounding
  import opened TwoRoundings
  import opened Windows
  import opened Aggregation
  import opened Validation
  import opened Warehouse
  import opened Ingestion
  import opened IngestionProperties
  import opened TrustRouting
  import opened Gold
  import opened GoldProperties
  import opened GoldHistory
  import opened GoldFaults
  import opened Pipeline
  import opened Runs
  import opened EndToEnd
  import opened Faults

  // ----- One trade -----

  /** What is stored for the average of a single trade, before it is quantized: price times quantity, and
      the quotient by the quantity, each rounded. It need not be the price. */
  function StoredMean(e: InternalEvent): real
    requires Rounded(QuantityOf(e)) > 0.0
  {
    Rounded(NotionalOf(e) / Rounded(QuantityOf(e)))
  }

  /** The trade has a window within the calendar, and an average price there that can be stored. */
  predicate Storable(cfg: GoldSettings, e: InternalEvent) {
    HasWindow(cfg, e) && Rounded(QuantityOf(e)) > 0.0 && Quantizable(StoredMean(e), cfg.vwapScale)
  }

  /** One trusted trade that lies in its window, produced and processed without faults, is in Silver
      alone. The run succeeds exactly when the trade is storable; then Gold holds its window and no
      other, and otherwise nothing. */
  lemma OneTradeMakesItsWindowIff(env: Environment, cfg: Settings, e: InternalEvent)
    requires cfg.rules == DefaultRules() && StrictClock(env) && forall k :: !env.fails(k)
    requires Trustworthy(e) && Contained(cfg.gold, e)
    ensures var t := Reached(env, cfg, 1, [Produce(0, Readable(e)), Process(1)]);
            var done := RestartableRun(env, cfg, 1, [Produce(0, Readable(e))], 1).outcome.Done?;
            && Cores(t.silver) == [e]
            && (done <==> Storable(cfg.gold, e))
            && (!done && cfg.gold.windowSeconds > 0 ==>
                  RestartableRun(env, cfg, 1, [Produce(0, Readable(e))], 1).outcome.error == DataError)
            && t.gold.Keys == (if done then {IdOf(KeyFor(cfg.gold, e).value)} else {})
            && (done ==> GroupFigures(cfg.gold, [e], KeyFor(cfg.gold, e).value)
                         == Done(t.gold[IdOf(KeyFor(cfg.gold, e).value)].figures))
  {
    hide RunOnce, ProcessingRun, StrictClock, GroupFigures, IdOf, KeyFor, Healthy, Timely, Unclashed, Judge,
         Trustworthy, Safe, Quantizable, SpansFit, Complete, PositiveTrades, Contained, Storable, HasWindow;
    var actions := [Produce(0, Readable(e))];
    var s := Reached(env, cfg, 1, actions);
    assert actions[..0] == [] && actions + [Process(1)] == [Produce(0, Readable(e)), Process(1)];
    ProducedLog(env, cfg, Readable(e));
    assert Total(s.feed.log, 1) == Total(s.feed.log, 0) + 1;
    FaultFreeRunSucceedsIff(env, cfg, 1, actions, 1);
    var t := Reached(env, cfg, 1, actions + [Process(1)]);
    ValidMeansTrustworthy(e);
    OneLanded(cfg, t, e);
    TrustworthyIsPositive(e);
    OneSpanFitsIff(cfg.gold, e);
    var done := RestartableRun(env, cfg, 1, actions, 1).outcome.Done?;
    if done {
      OneContained(cfg, e);
      CompleteIsGroupBy(cfg, [[Readable(e)]], t);
      GroupOfOne(cfg.gold, t.gold, e);
    } else {
      ReachedIsSnapshots(env, cfg, 1, actions + [Process(1)]);
      HealthyIsSafe(cfg, t);
      NoRowWithoutFit(cfg, t, e);
    }
  }

  lemma OneContained(cfg: Settings, e: InternalEvent)
    requires Contained(cfg.gold, e)
    ensures LogContained(cfg, [[Readable(e)]])
  {
    hide Contained, Valid;
  }

  lemma ReachedIsSnapshots(env: Environment, cfg: Settings, partitions: nat, actions: seq<Action>)
    requires StrictClock(env)
    ensures var t := Reached(env, cfg, partitions, actions);
            RowsAreSnapshots(cfg.gold, cfg.targeted, t.silver, t.gold)
  {
    hide StrictClock, RowsAreSnapshots, Healthy;
  }

  lemma TrustworthyIsPositive(e: InternalEvent)
    requires Trustworthy(e)
    ensures PositiveTrades([e])
  {
  }

  lemma CompleteIsGroupBy(cfg: Settings, log: seq<seq<Message>>, t: Platform)
    requires Complete(cfg, log, t)
    ensures IsGroupBy(cfg.gold, t.gold, ValidFirsts(cfg.rules, t.feed.landed))
  {
    hide IsGroupBy;
  }

  lemma MeanOfOne(e: InternalEvent, scale: nat)
    requires PositiveTrades([e])
    ensures VwapFits([e], scale) <==> Rounded(QuantityOf(e)) > 0.0 && Quantizable(StoredMean(e), scale)
  {
    hide Quantizable, Rounded;
    assert SortBy([e], TradeKey) == [e] by { SortOfOne(e); }
    SumOfOne(e, QuantityOf);
    SumOfOne(e, NotionalOf);
    RoundedAgain(ExactNotionalOf(e));
  }

  lemma SortOfOne(e: InternalEvent)
    ensures SortBy([e], TradeKey) == [e]
  {
    assert [e][1..] == [] && SortBy([e][1..], TradeKey) == [];
  }

  lemma SumOfOne(e: InternalEvent, f: InternalEvent -> real)
    ensures RoundedSum([e], f) == Rounded(f(e))
  {
    hide Rounded;
    assert [e][..0] == [] && RoundedSum([e][..0], f) == 0.0;
  }

  lemma OneSpanFitsIff(cfg: GoldSettings, e: InternalEvent)
    requires PositiveTrades([e]) && Contained(cfg, e)
    ensures SpansFit(cfg, [e]) <==> Storable(cfg, e)
  {
    hide KeyFor, VwapFits, Quantizable, Rounded;
    assert e in [e];
    MeanOfOne(e, cfg.vwapScale);
    if HasWindow(cfg, e) {
      var start := KeyFor(cfg, e).value.time;
      var span := InSpan(e.symbol, start, EndOf(cfg, start));
      assert [e][..0] == [] && Select([e][..0], span) == [];
      assert Select([e], span) == [e];
    }
  }

  /** A row that Gold holds was computed from a read of some Silver rows; with one event in Silver,
      of that event. */
  lemma NoRowWithoutFit(cfg: Settings, t: Platform, e: InternalEvent)
    requires RowsAreSnapshots(cfg.gold, cfg.targeted, t.silver, t.gold) && OnlyNamesWindows(cfg.gold, t.silver, t.gold)
    requires Cores(t.silver) == [e] && PositiveTrades([e]) && !Storable(cfg.gold, e)
    ensures t.gold.Keys == {}
  {
    hide Quantizable, ReadFor, Aggregate, Rounded, KeyFor, WindowIdFor, StoredMean, Representable;
    forall id | id in t.gold ensures false {
      var n: nat :| SnapshotAt(cfg.gold, cfg.targeted, t.silver, id, t.gold[id], n);
      assert NamesWindow(cfg.gold, Cores(t.silver), id);
      var k := RowKey(t.gold[id]);
      var end := EndOf(cfg.gold, k.time);
      var read := ReadFor(t.silver[..n], cfg.targeted, k.id, k.time, end);
      AggregateNames(k.id, k.time, end, read, cfg.gold.vwapScale);
      WindowIdInjective(k.id, k.time, KeyFor(cfg.gold, e).value.id, KeyFor(cfg.gold, e).value.time);
      AggregateSums(k.id, k.time, end, read, cfg.gold.vwapScale, t.gold[id].figures);
      ReadMembers(t.silver[..n], cfg.targeted, k.id, k.time, end);
      ReadIsShort(t.silver[..n], cfg.targeted, k.id, k.time, end);
      assert read[0] in read;
      assert Cores(t.silver[..n]) == [e][..n];
      assert read == [e];
      MeanOfOne(e, cfg.gold.vwapScale);
    }
  }

  lemma ReadIsShort(silver: seq<TrustedEvent>, targeted: bool, symbol: string, start: int, end: int)
    ensures |ReadFor(silver, targeted, symbol, start, end)| <= |silver|
  {
    SortByCorrect(Select(Cores(silver), InSpan(symbol, start, end)), TradeKey);
    SortByCorrect(silver, SilverKey);
  }

  lemma ProducedLog(env: Environment, cfg: Settings, m: Message)
    ensures Reached(env, cfg, 1, [Produce(0, m)]).feed.log == [[m]]
  {
    hide Healthy, Timely, Unclashed, Safe;
    var empty := Reached(env, cfg, 1, []);
    assert empty == Initial(1);
    assert empty.feed.log == [[]];
    assert [Produce(0, m)][..0] == [];
    assert empty.feed.log[0] + [m] == [m];
    assert Produced(empty.feed, 0, m).log == [[m]];
    ActKeeps(env, cfg, empty, Produce(0, m));
    assert Reached(env, cfg, 1, [Produce(0, m)]) == Act(env, cfg, empty, Produce(0, m));
  }

  lemma OneLanded(cfg: Settings, t: Platform, e: InternalEvent)
    requires Healthy(cfg, t) && AllRouted(cfg, [[Readable(e)]], t) && Valid(cfg.rules, e)
    ensures Cores(t.silver) == [e] == ValidFirsts(cfg.rules, t.feed.landed)
  {
    hide KeyFor, GroupFigures, IdOf, Valid, Select, Deliveries, LandAll, Cores, IsGroupBy, OnlyNamesWindows,
         Separated, Safe;
    HealthyIsSafe(cfg, t);
    LandsOnly(t.feed, e);
    OnlySelected(cfg.rules, e);
    assert ValidFirsts(cfg.rules, t.feed.landed) == [e];
    OnlyElement(Cores(t.silver), e);
  }

  lemma LandsOnly(s: Feed, e: InternalEvent)
    requires Safe(s) && s.log == [[Readable(e)]]
    requires Select(s.landed, FromPartition(0)) == Deliveries(0, s.log[0])
    ensures LandAll(s.landed) == [e]
  {
    hide Left, Select, Deliveries, LandAll, PartitionSafe;
    SelectAll(s.landed, FromPartition(0));
    OneDelivery(e);
    LandAllSnoc([], ConsumedEvent(0, 0, e));
    assert [] + [ConsumedEvent(0, 0, e)] == [ConsumedEvent(0, 0, e)];
    assert LandAll([]) == [] by { NothingLands(); }
  }

  lemma OneDelivery(e: InternalEvent)
    ensures Deliveries(0, [Readable(e)]) == [ConsumedEvent(0, 0, e)]
  {
    assert [Readable(e)][..0] == [];
  }

  lemma NothingLands()
    ensures LandAll([]) == []
  {
  }

  lemma OnlySelected(rules: seq<Rule>, e: InternalEvent)
    requires Valid(rules, e)
    ensures Select([e], Passing(rules)) == [e]
  {
    hide Valid;
    assert [e][..0] == [];
  }

  lemma GroupOfOne(cfg: GoldSettings, gold: GoldTable, e: InternalEvent)
    requires IsGroupBy(cfg, gold, [e])
    ensures KeyFor(cfg, e).Done?
    ensures gold.Keys == {IdOf(KeyFor(cfg, e).value)}
    ensures GroupFigures(cfg, [e], KeyFor(cfg, e).value) == Done(gold[IdOf(KeyFor(cfg, e).value)].figures)
  {
    hide KeyFor, GroupFigures, WindowIdFor;
    assert e in [e];
    forall id | id in gold ensures id == IdOf(KeyFor(cfg, e).value) {
      assert NamesWindow(cfg, [e], id);
    }
  }

  lemma OnlyElement<T>(s: seq<T>, x: T)
    requires multiset(s) == multiset([x])
    ensures s == [x]
  {
    assert |multiset(s)| == |s| == 1;
    assert s[0] in multiset(s);
  }

  // ----- Prices too long to store -----

  /** A trade of `quantity` units, with every field in order. */
  function PlainTrade(id: string, price: real, quantity: real, micros: int): InternalEvent {
    InternalEvent(id, "coinbase", Trade, Aware(micros), "BTC-USD", Finite(price), Finite(quantity), Buy, id,
                  Aware(micros), true)
  }

  const MINUTES := GoldSettings(60, 0, 8)

  lemma PlainTradeIsTrusted(id: string, price: real, quantity: real, micros: int)
    requires price > 0.0 && quantity > 0.0 && id in {"a", "b"}
    ensures Trustworthy(PlainTrade(id, price, quantity, micros))
  {
    var e := PlainTrade(id, price, quantity, micros);
    assert !IsSpace(e.eventId[0]) && !IsSpace(e.source[0]) && !IsSpace(e.symbol[0]) && !IsSpace(e.symbol[6]);
  }

  lemma FirstMinute(e: InternalEvent)
    requires e.tradeTimestamp.Aware? && 0 <= e.tradeTimestamp.micros < 60 * SECOND
    ensures Placed(MINUTES, e) && KeyFor(MINUTES, e) == Done(Key(0, e.symbol))
  {
    hide TruncatedSeconds;
    WindowsPartitionTime(e.tradeTimestamp.micros, 60, 0);
  }

  const LONG_PRICE: real := 100_000_000_000_000_000_000.0

  lemma UnitOf8()
    ensures Unit(8) == 100_000_000.0
  {
    assert Unit(4) == 10_000.0;
  }

  /** At the default scale of 8 digits `1E+20` needs 29, and the next smaller price with as many digits
      28. */
  lemma LongPriceNeedsMore()
    ensures !Quantizable(LONG_PRICE, 8) && Quantizable(LONG_PRICE - 0.00000001, 8)
  {
    UnitOf8();
    assert Times(LONG_PRICE, Unit(8)) == COEFFICIENT_LIMIT as real;
    assert Times(LONG_PRICE - 0.00000001, Unit(8)) == (COEFFICIENT_LIMIT - 1) as real;
  }

  lemma WholeIsResult(n: nat, x: real)
    requires n <= COEFFICIENT_LIMIT && x == n as real
    ensures Rounded(x) == x
  {
    WholeIsKept(n);
  }

  /** A run without any fault over one trade that is not storable: the event is in Silver, and Gold raises. */
  lemma UnstorableStopsGold(env: Environment, cfg: Settings, e: InternalEvent)
    requires cfg.rules == DefaultRules() && StrictClock(env) && forall k :: !env.fails(k)
    requires Trustworthy(e) && Contained(cfg.gold, e) && !Storable(cfg.gold, e) && cfg.gold.windowSeconds > 0
    ensures RestartableRun(env, cfg, 1, [Produce(0, Readable(e))], 1).outcome == Raised(DataError)
    ensures var t := Reached(env, cfg, 1, [Produce(0, Readable(e)), Process(1)]);
            Cores(t.silver) == [e] && t.gold == map[]
  {
    hide Reached, RestartableRun, StrictClock, Trustworthy, Contained, Storable;
    OneTradeMakesItsWindowIff(env, cfg, e);
  }

  /** Concrete failure: one trade of price `1E+20` passes every rule, and stops Gold. */
  lemma LongPriceStopsGold(env: Environment, targeted: bool)
    requires StrictClock(env) && forall k :: !env.fails(k)
    ensures var cfg, e := Settings(DefaultRules(), MINUTES, targeted), PlainTrade("a", LONG_PRICE, 1.0, 0);
            var t := Reached(env, cfg, 1, [Produce(0, Readable(e)), Process(1)]);
            && Trustworthy(e)
            && RestartableRun(env, cfg, 1, [Produce(0, Readable(e))], 1).outcome == Raised(DataError)
            && Cores(t.silver) == [e] && t.gold == map[]
  {
    hide Reached, RestartableRun, StrictClock, Trustworthy, Quantizable, Rounded, KeyFor, InWindow, Representable;
    var e := PlainTrade("a", LONG_PRICE, 1.0, 0);
    LongPriceNeedsMore();
    WholeIsResult(100_000_000_000_000_000_000, LONG_PRICE);
    WholeIsResult(1, 1.0);
    assert ExactNotionalOf(e) == LONG_PRICE && StoredMean(e) == LONG_PRICE;
    PlainTradeIsTrusted("a", LONG_PRICE, 1.0, 0);
    FirstMinute(e);
    UnstorableStopsGold(env, Settings(DefaultRules(), MINUTES, targeted), e);
  }

  /** Concrete failure although the price itself fits: two units at `99999999999999999999.99999999`. Their
      product needs 29 digits and is rounded up to `2E+20`, so that the stored quotient is `1E+20`. */
  lemma RoundedProductStopsGold(env: Environment, targeted: bool)
    requires StrictClock(env) && forall k :: !env.fails(k)
    ensures var cfg, e := Settings(DefaultRules(), MINUTES, targeted), PlainTrade("a", LONG_PRICE - 0.00000001, 2.0, 0);
            var t := Reached(env, cfg, 1, [Produce(0, Readable(e)), Process(1)]);
            && Trustworthy(e) && Quantizable(PriceOf(e), MINUTES.vwapScale)
            && RestartableRun(env, cfg, 1, [Produce(0, Readable(e))], 1).outcome == Raised(DataError)
            && Cores(t.silver) == [e] && t.gold == map[]
  {
    hide Reached, RestartableRun, StrictClock, Trustworthy, Quantizable, Rounded, KeyFor, InWindow, Representable;
    var e := PlainTrade("a", LONG_PRICE - 0.00000001, 2.0, 0);
    LongPriceNeedsMore();
    ProductIsRoundedUp();
    WholeIsResult(100_000_000_000_000_000_000, LONG_PRICE);
    WholeIsResult(2, 2.0);
    assert ExactNotionalOf(e) == 199_999_999_999_999_999_999.99999998;
    assert StoredMean(e) == LONG_PRICE;
    PlainTradeIsTrusted("a", LONG_PRICE - 0.00000001, 2.0, 0);
    FirstMinute(e);
    UnstorableStopsGold(env, Settings(DefaultRules(), MINUTES, targeted), e);
  }

  lemma ProductIsRoundedUp()
    ensures Rounded(199_999_999_999_999_999_999.99999998) == 200_000_000_000_000_000_000.0
  {
    var x := 199_999_999_999_999_999_999.99999998;
    assert Unit(7) == 10_000_000.0 by { UnitOf8(); }
    CountedBy(x, 7, 10_000_000.0);
    FloorIs(1_999_999_999_999_999_999_999_999_999.9998, 1_999_999_999_999_999_999_999_999_999);
    assert NearestEven(Counted(x, 7)) == 2_000_000_000_000_000_000_000_000_000;
    CountedBy(Significant(x, 7), 7, 10_000_000.0);
    CountedSignificant(x, 7);
    RoundedIsSignificant(x, 7);
  }

  lemma CountedBy(x: real, s: nat, u: real)
    requires Unit(s) == u
    ensures Counted(x, s) == x * u
  {
  }

  // ----- A window beyond the calendar -----

  /** Half a minute before the end of the year 9999. */
  const LAST_MINUTE: int := MAX_INSTANT + 1 - 30 * SECOND

  /** Concrete failure: a trade of the last minute of the year 9999 passes every rule, and its window ends
      beyond the calendar. */
  lemma LastMinuteStopsGold(env: Environment, targeted: bool)
    requires StrictClock(env) && forall k :: !env.fails(k)
    ensures var cfg, e := Settings(DefaultRules(), MINUTES, targeted), PlainTrade("a", 1.0, 1.0, LAST_MINUTE);
            var t := Reached(env, cfg, 1, [Produce(0, Readable(e)), Process(1)]);
            && Trustworthy(e) && KeyFor(MINUTES, e).Done?
            && RestartableRun(env, cfg, 1, [Produce(0, Readable(e))], 1).outcome == Raised(DataError)
            && Cores(t.silver) == [e] && t.gold == map[]
  {
    hide Reached, RestartableRun, StrictClock, Trustworthy, Quantizable, Rounded, StoredMean;
    var e := PlainTrade("a", 1.0, 1.0, LAST_MINUTE);
    PlainTradeIsTrusted("a", 1.0, 1.0, LAST_MINUTE);
    LastWindow(e);
    UnstorableStopsGold(env, Settings(DefaultRules(), MINUTES, targeted), e);
  }

  lemma LastWindow(e: InternalEvent)
    requires e.tradeTimestamp == Aware(LAST_MINUTE)
    ensures KeyFor(MINUTES, e).Done? && Contained(MINUTES, e) && !HasWindow(MINUTES, e)
  {
    hide TruncatedSeconds;
    assert LAST_MINUTE == 253_402_300_770_000_000;
    TruncatedNear(LAST_MINUTE);
    assert 253_402_300_770 % 60 == 30;
  }

  // ----- A trade that comes too late -----

  /** Trusted trades of one minute, and nothing else in Silver. */
  ghost predicate OneMinute(silver: seq<TrustedEvent>, k: Key) {
    && 0 < |silver| <= WINDOW_READ_LIMIT && DistinctIds(Cores(silver)) && PositiveTrades(Cores(silver))
    && forall e :: e in Cores(silver) ==>
         Placed(MINUTES, e) && KeyFor(MINUTES, e) == Done(k) && Modest(e, MINUTES.vwapScale)
  }

  /** A faultless recomputation of that minute, once it is over, stores a final row of all its trades. */
  lemma MinuteRow(env: Environment, targeted: bool, silver: seq<TrustedEvent>, s: Ledger, k: Key)
    requires OneMinute(silver, k) && Keyed(s.gold) && StartInstant(k.time) && forall i :: !env.fails(i)
    requires env.now(s.meter.ticks) >= EndOf(MINUTES, k.time)
    ensures var r := Recompute(env, MINUTES, silver, targeted, s, k);
            && r.outcome.Done? && r.outcome.value.Some? && Keyed(r.ledger.gold)
            && r.ledger.meter.ticks == s.meter.ticks + 1
            && r.outcome.value.value.isFinal && r.outcome.value.value.figures.tradeCount == |silver|
  {
    hide Recompute, PositiveTrades, Modest, KeyFor, WindowIdFor, Aggregate, ReadFor, Keyed, Select, SomeFailed,
         WindowFits;
    var r, e := Recompute(env, MINUTES, silver, targeted, s, k), Cores(silver)[0];
    assert e in Cores(silver);
    ModestTradesFitWindows(MINUTES, silver, targeted, k);
    TrustedRecomputeSucceedsIff(env, MINUTES, targeted, silver, s, k);
    NoneFailed(env, s.meter.ops, r.ledger.meter.ops);
    RecomputeEffect(env, MINUTES, silver, targeted, s, k);
    RecomputationReadsGroup(MINUTES, silver, targeted, e);
    SelectAll(Cores(silver), InGroup(MINUTES, k));
    AggregateSums(k.id, k.time, EndOf(MINUTES, k.time), Cores(silver), MINUTES.vwapScale,
                  r.outcome.value.value.figures);
  }

  /** Concrete failure of finality: a minute's row is final, a second trade of that minute reaches
      Silver, and the next recomputation counts two trades where the final row counted one. */
  lemma LateTradeChangesFinalRow(env: Environment, targeted: bool, at: int, later: int)
    requires (forall k :: !env.fails(k)) && env.now(0) >= 60 * SECOND && env.now(1) >= 60 * SECOND
    ensures var k := Key(0, "BTC-USD");
            var silver := [TrustedEvent(PlainTrade("a", 1.0, 1.0, 0), at)];
            var first := Recompute(env, MINUTES, silver, targeted, Ledger(map[], Meter(0, 0)), k);
            var grown := Admit(silver, TrustedEvent(PlainTrade("b", 1.0, 1.0, 1), later));
            var second := Recompute(env, MINUTES, grown, targeted, first.ledger, k);
            && first.outcome.Done? && first.outcome.value.Some? && second.outcome.Done? && second.outcome.value.Some?
            && first.outcome.value.value.isFinal && first.outcome.value.value.figures.tradeCount == 1
            && second.outcome.value.value.isFinal && second.outcome.value.value.figures.tradeCount == 2
  {
    hide Recompute, Placed, KeyFor, Modest, Trustworthy;
    var a, b := PlainTrade("a", 1.0, 1.0, 0), PlainTrade("b", 1.0, 1.0, 1);
    var silver := [TrustedEvent(a, at)];
    var grown := silver + [TrustedEvent(b, later)];
    assert Cores(silver) == [a] && Cores(grown) == [a, b];
    FirstMinute(a);
    FirstMinute(b);
    OneIsModest(a);
    OneIsModest(b);
    var k, s := Key(0, "BTC-USD"), Ledger(map[], Meter(0, 0));
    assert !HasId(Cores(silver), b.eventId);
    MinuteRow(env, targeted, silver, s, k);
    MinuteRow(env, targeted, grown, Recompute(env, MINUTES, silver, targeted, s, k).ledger, k);
  }

  lemma OneIsModest(e: InternalEvent)
    requires PriceOf(e) == 1.0 && QuantityOf(e) == 1.0
    ensures Modest(e, 8)
  {
    hide Rounded;
    UnitOf8();
    WholeIsResult(1, 1.0);
  }
}
