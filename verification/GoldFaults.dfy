/** Exactly when the Gold stage succeeds: on trusted data nothing goes wrong but failed operations,
    windows beyond the calendar and average prices too long to store. */
module GoldFaults {
  import opened Events
  import opened Identity
  import opened Ordering
  import opened Sequences
  import opened Aggregation
  import opened Validation
  import opened Warehouse
  import opened TrustRouting
  import opened Gold
  import opened GoldProperties
  import opened GoldHistory

  /** The rows of a Gold that aggregation alone has written. */
  ghost predicate Keyed(gold: GoldTable) {
    forall id :: id in gold ==>
      var f := gold[id].figures;
      f.windowId == id && StartInstant(f.start) && id == WindowIdFor(f.symbol, f.start)
  }

  lemma SnapshotsAreKeyed(cfg: GoldSettings, targeted: bool, silver: seq<TrustedEvent>, gold: GoldTable)
    requires RowsAreSnapshots(cfg, targeted, silver, gold)
    ensures Keyed(gold)
  {
    hide Aggregate, ReadFor, WindowIdFor;
    forall id | id in gold
      ensures gold[id].figures.windowId == id && StartInstant(gold[id].figures.start)
      ensures id == WindowIdFor(gold[id].figures.symbol, gold[id].figures.start)
    {
      var n: nat :| SnapshotAt(cfg, targeted, silver, id, gold[id], n);
      var k := RowKey(gold[id]);
      AggregateNames(k.id, k.time, EndOf(cfg, k.time), ReadFor(silver[..n], targeted, k.id, k.time, EndOf(cfg, k.time)),
                     cfg.vwapScale);
    }
  }

  /** Some operation of a stretch of the run failed. */
  ghost predicate SomeFailed(env: Environment, from: nat, to: nat) {
    exists i: nat :: from <= i < to && env.fails(i)
  }

  /** The kind of error tells what went wrong: storage where an operation failed, the data otherwise. */
  ghost predicate RaisesFor<T>(env: Environment, from: nat, to: nat, outcome: Outcome<T>) {
    outcome.Raised? ==> outcome.error == if SomeFailed(env, from, to) then StorageError else DataError
  }

  lemma SomeFailedSplits(env: Environment, a: nat, b: nat, c: nat)
    requires a <= b <= c
    ensures SomeFailed(env, a, c) <==> SomeFailed(env, a, b) || SomeFailed(env, b, c)
  {
    if SomeFailed(env, a, c) {
      var i: nat :| a <= i < c && env.fails(i);
      assert i < b ==> SomeFailed(env, a, b);
    }
    if i: nat :| a <= i < b && env.fails(i) {
      assert SomeFailed(env, a, c);
    }
    if i: nat :| b <= i < c && env.fails(i) {
      assert SomeFailed(env, a, c);
    }
  }

  /** The window ends within the calendar, and what its recomputation reads is nothing, or has an
      average price that can be stored. */
  predicate WindowFits(cfg: GoldSettings, silver: seq<TrustedEvent>, targeted: bool, k: Key) {
    var read := ReadFor(silver, targeted, k.id, k.time, EndOf(cfg, k.time));
    Representable(EndOf(cfg, k.time)) && (|read| == 0 || VwapFits(read, cfg.vwapScale))
  }

  lemma PositiveByMembers(s: seq<InternalEvent>)
    ensures PositiveTrades(s) <==>
            forall e :: e in s ==> && e.price.Finite? && e.price.value > 0.0
                                   && e.quantity.Finite? && e.quantity.value > 0.0 && e.tradeTimestamp.Aware?
  {
  }

  lemma ReadMembers(silver: seq<TrustedEvent>, targeted: bool, symbol: string, start: int, end: int)
    ensures forall e :: e in ReadFor(silver, targeted, symbol, start, end) ==> e in Cores(silver)
  {
    var span := InSpan(symbol, start, end);
    if targeted {
      var all := Select(Cores(silver), span);
      SortByCorrect(all, TradeKey);
      SameMembers(SortBy(all, TradeKey), all);
      SelectMembers(Cores(silver), span);
      forall e | e in ReadFor(silver, targeted, symbol, start, end) ensures e in Cores(silver) {
        assert e in SortBy(all, TradeKey);
      }
    } else {
      SelectMembers(Cores(SilverPage(silver, 0, WINDOW_READ_LIMIT)), span);
      PageMembers(silver, 0, WINDOW_READ_LIMIT);
    }
  }

  lemma PositiveRead(silver: seq<TrustedEvent>, targeted: bool, symbol: string, start: int, end: int)
    requires PositiveTrades(Cores(silver))
    ensures PositiveTrades(ReadFor(silver, targeted, symbol, start, end))
  {
    hide ReadFor, PositiveTrades;
    ReadMembers(silver, targeted, symbol, start, end);
    PositiveByMembers(Cores(silver));
    PositiveByMembers(ReadFor(silver, targeted, symbol, start, end));
  }

  /** Conditions to check event by event: while prices and quantities are modest, every window that
      ends within the calendar fits. */
  lemma ModestTradesFitWindows(cfg: GoldSettings, silver: seq<TrustedEvent>, targeted: bool, k: Key)
    requires PositiveTrades(Cores(silver)) && Representable(EndOf(cfg, k.time))
    requires forall e :: e in Cores(silver) ==> Modest(e, cfg.vwapScale)
    ensures WindowFits(cfg, silver, targeted, k)
  {
    hide ReadFor, PositiveTrades, Modest, VwapFits;
    var end := EndOf(cfg, k.time);
    var read := ReadFor(silver, targeted, k.id, k.time, end);
    ReadMembers(silver, targeted, k.id, k.time, end);
    PositiveRead(silver, targeted, k.id, k.time, end);
    if |read| > 0 {
      ModestTradesFit(read, cfg.vwapScale);
    }
  }

  lemma FreshRowAccepted(gold: GoldTable, f: Figures)
    requires Keyed(gold) && MeetsChecks(f) && StartInstant(f.start) && f.windowId == WindowIdFor(f.symbol, f.start)
    ensures !PairTaken(gold, f)
  {
    hide WindowIdFor;
  }

  /** Trusted events: the recomputation succeeds exactly when none of its operations fails, the window
      ends within the calendar and the average price fits in 28 digits. What it stores meets every
      constraint of the table. */
  lemma TrustedRecomputeSucceedsIff(env: Environment, cfg: GoldSettings, targeted: bool, silver: seq<TrustedEvent>,
                                    s: Ledger, k: Key)
    requires Keyed(s.gold) && PositiveTrades(Cores(silver))
    requires StartInstant(k.time) && cfg.windowSeconds > 0
    ensures var r := Recompute(env, cfg, silver, targeted, s, k);
            && Keyed(r.ledger.gold) && r.ledger.meter.ops >= s.meter.ops
            && (r.outcome.Done? <==>
                  !SomeFailed(env, s.meter.ops, r.ledger.meter.ops) && WindowFits(cfg, silver, targeted, k))
            && (r.outcome.Done? && r.outcome.value.Some? ==> MeetsChecks(r.outcome.value.value.figures))
            && RaisesFor(env, s.meter.ops, r.ledger.meter.ops, r.outcome)
  {
    hide Aggregate, ReadFor, WindowIdFor, PositiveTrades, VwapFits, PairTaken;
    var end := EndOf(cfg, k.time);
    var read := ReadFor(silver, targeted, k.id, k.time, end);
    var r := Recompute(env, cfg, silver, targeted, s, k);
    AggregateNames(k.id, k.time, end, read, cfg.vwapScale);
    NothingFailed(env, s.meter.ops);
    if Representable(end) {
      StretchOfTwo(env, s.meter.ops, r.ledger.meter.ops);
    }
    if Representable(end) && !env.fails(s.meter.ops) && |read| > 0 {
      PositiveRead(silver, targeted, k.id, k.time, end);
      TrustedTradesAggregate(k.id, k.time, end, read, cfg.vwapScale);
      AggregateRaisesData(k.id, k.time, end, read, cfg.vwapScale);
      var f := Aggregate(k.id, k.time, end, read, cfg.vwapScale);
      if f.Done? {
        FreshRowAccepted(s.gold, f.value);
      }
    }
  }

  lemma StretchOfTwo(env: Environment, from: nat, to: nat)
    requires from < to <= from + 2
    ensures SomeFailed(env, from, to) <==> env.fails(from) || (to == from + 2 && env.fails(from + 1))
  {
    if env.fails(from) {
      assert SomeFailed(env, from, to);
    }
    if to == from + 2 && env.fails(from + 1) {
      assert SomeFailed(env, from, to);
    }
  }

  /** What the default rules admit to Silver is exactly what the aggregation needs. */
  lemma TrustedEventsArePositive(bronze: seq<InternalEvent>, silver: seq<TrustedEvent>,
                                 quarantine: seq<QuarantineRecord>)
    requires Separated(DefaultRules(), bronze, silver, quarantine)
    ensures PositiveTrades(Cores(silver))
  {
    hide Valid;
    forall i | 0 <= i < |silver| ensures Trustworthy(silver[i].event) {
      assert silver[i] in silver;
      ValidMeansTrustworthy(silver[i].event);
    }
  }

  lemma {:induction false} TrustedLoopSucceedsIff(env: Environment, cfg: GoldSettings, targeted: bool,
                                                  silver: seq<TrustedEvent>,
                                                  s: Ledger, keys: seq<Key>)
    requires Keyed(s.gold) && PositiveTrades(Cores(silver)) && cfg.windowSeconds > 0
    requires forall k :: k in keys ==> StartInstant(k.time)
    ensures var r := RecomputeAll(env, cfg, silver, targeted, s, keys);
            && Keyed(r.ledger.gold) && r.ledger.meter.ops >= s.meter.ops
            && (r.outcome.Done? <==> !SomeFailed(env, s.meter.ops, r.ledger.meter.ops)
                                     && forall k :: k in keys ==> WindowFits(cfg, silver, targeted, k))
            && RaisesFor(env, s.meter.ops, r.ledger.meter.ops, r.outcome)
  {
    hide Recompute, Keyed, PositiveTrades, WindowFits, SomeFailed;
    if |keys| == 0 {
      NothingFailed(env, s.meter.ops);
    } else {
      var init, k := keys[..|keys| - 1], keys[|keys| - 1];
      assert k in keys && keys == init + [k];
      TrustedLoopSucceedsIff(env, cfg, targeted, silver, s, init);
      var before := RecomputeAll(env, cfg, silver, targeted, s, init);
      if before.outcome.Done? {
        TrustedRecomputeSucceedsIff(env, cfg, targeted, silver, before.ledger, k);
        var after := Recompute(env, cfg, silver, targeted, before.ledger, k);
        SomeFailedSplits(env, s.meter.ops, before.ledger.meter.ops, after.ledger.meter.ops);
      }
    }
  }

  lemma NothingFailed(env: Environment, at: nat)
    ensures !SomeFailed(env, at, at)
  {
  }

  /** Every event of a page has a window, and it fits. */
  ghost predicate PageFits(cfg: GoldSettings, silver: seq<TrustedEvent>, targeted: bool, page: seq<InternalEvent>) {
    forall e :: e in page ==> KeyFor(cfg, e).Done? && WindowFits(cfg, silver, targeted, KeyFor(cfg, e).value)
  }

  /** Exactly what trust leaves open: over a Silver filled through the default rules a well-formed batch
      succeeds exactly when none of its operations fails, and every event of its page has a window
      that starts and ends within the calendar and an average price there that fits in 28 digits. */
  lemma TrustedBatchSucceedsIff(env: Environment, cfg: GoldSettings, targeted: bool, bronze: seq<InternalEvent>,
                                silver: seq<TrustedEvent>, quarantine: seq<QuarantineRecord>, s: Ledger, offset: nat,
                                limit: nat)
    requires Separated(DefaultRules(), bronze, silver, quarantine)
    requires RowsAreSnapshots(cfg, targeted, silver, s.gold) && limit >= 1
    ensures var r := GoldBatch(env, cfg, silver, targeted, s, offset, limit);
            && r.ledger.meter.ops >= s.meter.ops
            && (r.outcome.Done? <==> !SomeFailed(env, s.meter.ops, r.ledger.meter.ops)
                                     && PageFits(cfg, silver, targeted, Cores(SilverPage(silver, offset, limit))))
            && (cfg.windowSeconds > 0 ==> RaisesFor(env, s.meter.ops, r.ledger.meter.ops, r.outcome))
  {
    hide PageFits, Cores, Separated, RecomputeAll, RowsAreSnapshots, KeyFor, SilverPage, SortBy, PositiveTrades, Keyed,
         WindowFits, SomeFailed;
    var page := Cores(SilverPage(silver, offset, limit));
    var read := s.(meter := Meter(s.meter.ticks, s.meter.ops + 1));
    OneOperation(env, s.meter.ops);
    if !env.fails(s.meter.ops) {
      KeysIff(cfg, page);
      if KeysOf(cfg, page).Done? {
        KeysOfMeaning(cfg, page);
        var keys := SortBy(KeysOf(cfg, page).value, Self);
        SortedKeys(KeysOf(cfg, page).value);
        KeysFitIff(cfg, silver, targeted, page, keys);
        if page == [] {
          assert keys == [];
          NothingFailed(env, read.meter.ops);
          EmptyLoop(env, cfg, silver, targeted, read, keys);
        } else {
          KeysNeedSize(cfg, page);
          TrustedEventsArePositive(bronze, silver, quarantine);
          SnapshotsAreKeyed(cfg, targeted, silver, s.gold);
          TrustedLoopSucceedsIff(env, cfg, targeted, silver, read, keys);
        }
        SomeFailedSplits(env, s.meter.ops, s.meter.ops + 1,
                         RecomputeAll(env, cfg, silver, targeted, read, keys).ledger.meter.ops);
      } else {
        NoKeysNoFit(cfg, silver, targeted, page);
        if cfg.windowSeconds > 0 {
          NoKeysIsData(cfg, page);
        }
      }
    }
  }

  lemma EmptyLoop(env: Environment, cfg: GoldSettings, silver: seq<TrustedEvent>, targeted: bool, s: Ledger,
                  keys: seq<Key>)
    requires keys == []
    ensures RecomputeAll(env, cfg, silver, targeted, s, keys) == Written(s, Done(0))
  {
  }

  lemma KeysNeedSize(cfg: GoldSettings, page: seq<InternalEvent>)
    requires |page| > 0 && KeysOf(cfg, page).Done?
    ensures cfg.windowSeconds > 0
  {
  }

  lemma {:induction false} NoKeysIsData(cfg: GoldSettings, page: seq<InternalEvent>)
    requires cfg.windowSeconds > 0
    ensures KeysOf(cfg, page).Raised? ==> KeysOf(cfg, page).error == DataError
  {
    if |page| > 0 {
      NoKeysIsData(cfg, page[..|page| - 1]);
    }
  }

  lemma NoKeysNoFit(cfg: GoldSettings, silver: seq<TrustedEvent>, targeted: bool, page: seq<InternalEvent>)
    requires KeysOf(cfg, page).Raised?
    ensures !PageFits(cfg, silver, targeted, page)
  {
    hide KeyFor, WindowFits;
    KeysIff(cfg, page);
  }

  /** Candidates are found exactly when every event of the page has a window. */
  lemma {:induction false} KeysIff(cfg: GoldSettings, events: seq<InternalEvent>)
    ensures KeysOf(cfg, events).Done? <==> forall e :: e in events ==> KeyFor(cfg, e).Done?
  {
    hide KeyFor;
    if |events| > 0 {
      var init, last := events[..|events| - 1], events[|events| - 1];
      assert events == init + [last];
      KeysIff(cfg, init);
    }
  }

  lemma OneOperation(env: Environment, at: nat)
    ensures SomeFailed(env, at, at + 1) <==> env.fails(at)
  {
    if env.fails(at) {
      assert SomeFailed(env, at, at + 1);
    }
  }

  lemma KeysFitIff(cfg: GoldSettings, silver: seq<TrustedEvent>, targeted: bool, page: seq<InternalEvent>,
                   keys: seq<Key>)
    requires forall k :: k in keys <==> exists e :: e in page && KeyFor(cfg, e) == Done(k)
    requires forall e :: e in page ==> KeyFor(cfg, e).Done?
    ensures PageFits(cfg, silver, targeted, page) <==> forall k :: k in keys ==> WindowFits(cfg, silver, targeted, k)
  {
    hide KeyFor, WindowFits;
    if PageFits(cfg, silver, targeted, page) {
      forall k | k in keys ensures WindowFits(cfg, silver, targeted, k) {
        var e :| e in page && KeyFor(cfg, e) == Done(k);
      }
    }
  }
}
