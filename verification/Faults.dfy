/** Exactly when a processing run succeeds: with the default rules and a strictly increasing clock
    nothing goes wrong but failed operations, windows beyond the calendar and average prices too long
    to store. */
module Faults {
  import opened Events
  import opened Identity
  import opened Sequences
  import opened Aggregation
  import opened Validation
  import opened Warehouse
  import opened Ingestion
  import opened IngestionProperties
  import opened Connections
  import opened TrustRouting
  import opened Gold
  import opened GoldProperties
  import opened GoldHistory
  import opened GoldFaults
  import opened Pipeline
  import opened Runs
  import opened EndToEnd

  /** A stretch of operations: it ends in an error exactly when one of them failed. */
  ghost predicate OnlyFaults<T>(env: Environment, from: nat, to: nat, outcome: Outcome<T>) {
    from <= to && (outcome.Raised? <==> SomeFailed(env, from, to))
  }

  lemma {:induction false} NextEventOnlyFaults(env: Environment, s: Feed, m: Meter)
    requires Shaped(s)
    ensures OnlyFaults(env, m.ops, NextEvent(env, s, m).meter.ops, NextEvent(env, s, m).outcome)
    decreases Remaining(s)
  {
    hide Left, SomeFailed;
    NothingFailed(env, m.ops);
    OneOperation(env, m.ops);
    match Serve(s, env.turn(m.ops))
    case None =>
    case Some(p) =>
      if !env.fails(m.ops) && s.log[p][s.position[p]].Unreadable? {
        NextEventOnlyFaults(env, Fetched(s, p), Meter(m.ticks, m.ops + 1));
        SomeFailedSplits(env, m.ops, m.ops + 1, NextEvent(env, s, m).meter.ops);
      }
  }

  lemma PersistOnlyFaults(env: Environment, s: Feed, m: Meter, c: ConsumedEvent)
    requires Shaped(s) && c.partition < |s.log|
    ensures OnlyFaults(env, m.ops, Persist(env, s, m, c).meter.ops, Persist(env, s, m, c).outcome)
  {
    hide Appended, Acknowledged;
    StretchOfTwo(env, m.ops, Persist(env, s, m, c).meter.ops);
  }

  lemma {:induction false} IngestLoopOnlyFaults(env: Environment, s: Feed, m: Meter, persisted: nat, maxEvents: int)
    requires Shaped(s)
    ensures var r := IngestLoop(env, s, m, persisted, maxEvents); OnlyFaults(env, m.ops, r.meter.ops, r.outcome)
    decreases Remaining(s)
  {
    hide Left, NextEvent, Persist, SomeFailed;
    NextEventOnlyFaults(env, s, m);
    var next := NextEvent(env, s, m);
    if next.outcome.Done? && next.outcome.value.Some? {
      var c := next.outcome.value.value;
      var step := Persist(env, next.feed, next.meter, c);
      PersistOnlyFaults(env, next.feed, next.meter, c);
      SomeFailedSplits(env, m.ops, next.meter.ops, step.meter.ops);
      if step.outcome.Done? && persisted + 1 < maxEvents {
        IngestLoopOnlyFaults(env, step.feed, step.meter, persisted + 1, maxEvents);
        SomeFailedSplits(env, m.ops, step.meter.ops,
                         IngestLoop(env, step.feed, step.meter, persisted + 1, maxEvents).meter.ops);
      }
    }
  }

  lemma {:induction false} RoutePageOnlyFaults(env: Environment, rules: seq<Rule>, s: Shelves, page: seq<InternalEvent>)
    requires StrictClock(env) && StampedBefore(env, s.quarantine, s.meter.ticks)
    ensures var r := RoutePage(env, rules, s, page); OnlyFaults(env, s.meter.ops, r.shelves.meter.ops, r.outcome)
  {
    hide Shelve, StrictClock, StampedBefore, Valid, Judge, SomeFailed;
    if |page| == 0 {
      NothingFailed(env, s.meter.ops);
    } else {
      var init, e := page[..|page| - 1], page[|page| - 1];
      RoutePageOnlyFaults(env, rules, s, init);
      StrictClockNeverClashes(env, rules, s, init);
      var before := RoutePage(env, rules, s, init);
      if before.outcome.Done? {
        var at := before.shelves.meter.ops;
        NeverRefused(env, rules, before.shelves, e);
        OneOperation(env, at);
        SomeFailedSplits(env, s.meter.ops, at, at + 1);
      }
    }
  }

  lemma NeverRefused(env: Environment, rules: seq<Rule>, s: Shelves, e: InternalEvent)
    requires StampedBefore(env, s.quarantine, s.meter.ticks)
    ensures !Refuses(rules, s, e, env.now(s.meter.ticks))
  {
  }

  lemma RouteBatchOnlyFaults(env: Environment, rules: seq<Rule>, bronze: seq<InternalEvent>, s: Shelves, limit: int)
    requires StrictClock(env) && StampedBefore(env, s.quarantine, s.meter.ticks) && limit >= 1
    ensures var r := RouteBatch(env, rules, bronze, s, limit); OnlyFaults(env, s.meter.ops, r.shelves.meter.ops,
          r.outcome)
  {
    hide RoutePage, ReplayPage, StrictClock, StampedBefore, SomeFailed;
    OneOperation(env, s.meter.ops);
    if !env.fails(s.meter.ops) {
      var t := s.(meter := Meter(s.meter.ticks, s.meter.ops + 1));
      var page := ReplayPage(bronze, 0, limit);
      RoutePageOnlyFaults(env, rules, t, page);
      SomeFailedSplits(env, s.meter.ops, t.meter.ops, RoutePage(env, rules, t, page).shelves.meter.ops);
    }
  }

  lemma IngestStageOnlyFaults(env: Environment, cfg: Settings, s: Platform, batchSize: int)
    requires Shaped(s.feed) && batchSize >= 1
    requires Timely(env, cfg, s) && Unclashed(env, s) && Healthy(cfg, s) && Streaming(s.feed)
    ensures var r := IngestStage(env, s, batchSize);
            && OnlyFaults(env, s.meter.ops, r.platform.meter.ops, r.outcome)
            && Timely(env, cfg, r.platform) && Unclashed(env, r.platform)
  {
    hide IngestLoop, Left, Safe, Separated, OnlyNamesWindows, Stamped, RowsAreSnapshots, StampedBefore, Streaming,
         Advances,
         SomeFailed;
    IngestLoopOnlyFaults(env, s.feed, s.meter, 0, batchSize);
    IngestStageKeeps(env, cfg, s, batchSize);
  }

  lemma TrustStageOnlyFaults(env: Environment, cfg: Settings, s: Platform, batchSize: int)
    requires StrictClock(env) && Unclashed(env, s) && batchSize >= 1
    ensures var r := TrustStage(env, cfg, s, batchSize); OnlyFaults(env, s.meter.ops, r.platform.meter.ops, r.outcome)
  {
    hide RouteBatch, StampedBefore, StrictClock, SomeFailed;
    RouteBatchOnlyFaults(env, cfg.rules, s.feed.bronze, Shelves(s.silver, s.quarantine, s.meter), batchSize);
  }

  /** Every event of the first `limit` rows of Silver has a window within the calendar, and an average
      price there that fits. */
  ghost predicate WindowsFit(cfg: Settings, silver: seq<TrustedEvent>, limit: int) {
    limit >= 1 && PageFits(cfg.gold, silver, cfg.targeted, Cores(SilverPage(silver, 0, limit)))
  }

  lemma GoldStageSucceedsIff(env: Environment, cfg: Settings, s: Platform, batchSize: int)
    requires cfg.rules == DefaultRules() && batchSize >= 1
    requires Healthy(cfg, s) && Timely(env, cfg, s)
    ensures var r := GoldStage(env, cfg, s, batchSize);
            && r.platform.meter.ops >= s.meter.ops && r.platform.silver == s.silver
            && (r.outcome.Done? <==>
                  !SomeFailed(env, s.meter.ops, r.platform.meter.ops) && WindowsFit(cfg, s.silver, batchSize))
            && (cfg.gold.windowSeconds > 0 ==> RaisesFor(env, s.meter.ops, r.platform.meter.ops, r.outcome))
  {
    hide GoldBatch, Safe, Separated, RowsAreSnapshots, Stamped, OnlyNamesWindows, SomeFailed, PageFits;
    TrustedBatchSucceedsIff(env, cfg.gold, cfg.targeted, s.feed.bronze, s.silver, s.quarantine, Ledger(s.gold, s.meter),
                            0, batchSize);
  }

  lemma PassSucceedsIff(env: Environment, cfg: Settings, s: Platform, batchSize: int)
    requires cfg.rules == DefaultRules() && StrictClock(env) && batchSize >= 1
    requires Shaped(s.feed) && Healthy(cfg, s) && Streaming(s.feed) && Timely(env, cfg, s) && Unclashed(env, s)
    ensures var r := RunOnce(env, cfg, s, batchSize);
            && (r.outcome.Done? <==>
                  !SomeFailed(env, s.meter.ops, r.platform.meter.ops) && WindowsFit(cfg, r.platform.silver, batchSize))
            && (r.outcome.Raised? && !SomeFailed(env, s.meter.ops, r.platform.meter.ops) &&
                cfg.gold.windowSeconds > 0 ==>
                  r.outcome.error == DataError)
  {
    hide IngestStage, TrustStage, GoldStage, Streaming, MonotoneClock, StrictClock, Advances, Healthy, Timely,
         Unclashed, SomeFailed, WindowsFit;
    StrictIsMonotone(env);
    var ingested := IngestStage(env, s, batchSize);
    IngestStageKeeps(env, cfg, s, batchSize);
    IngestStageOnlyFaults(env, cfg, s, batchSize);
    var trust := TrustStage(env, cfg, ingested.platform, batchSize);
    TrustStageKeeps(env, cfg, ingested.platform, batchSize);
    TrustStageOnlyFaults(env, cfg, ingested.platform, batchSize);
    var gold := GoldStage(env, cfg, trust.platform, batchSize);
    GoldStageSucceedsIff(env, cfg, trust.platform, batchSize);
    var a, b, c, d := s.meter.ops, ingested.platform.meter.ops, trust.platform.meter.ops, gold.platform.meter.ops;
    SomeFailedSplits(env, a, b, c);
    SomeFailedSplits(env, a, c, d);
  }

  lemma RestartedIsHealthy(env: Environment, cfg: Settings, s: Platform)
    requires Healthy(cfg, s)
    ensures Healthy(cfg, s.(feed := Restarted(s.feed)))
    ensures Timely(env, cfg, s) ==> Timely(env, cfg, s.(feed := Restarted(s.feed)))
    ensures Unclashed(env, s) ==> Unclashed(env, s.(feed := Restarted(s.feed)))
  {
    hide Safe, Separated, OnlyNamesWindows, Stamped, RowsAreSnapshots, StampedBefore;
    RestartKeeps(s.feed);
  }

  /** In every reachable state, with the default rules and a strictly increasing clock, the next
      processing run succeeds exactly when none of its operations fails and every event that its Gold
      stage takes up has a window within the calendar and an average price of at most 28 digits. */
  lemma RunSucceedsIff(env: Environment, cfg: Settings, partitions: nat, actions: seq<Action>, batchSize: int)
    requires cfg.rules == DefaultRules() && StrictClock(env) && batchSize >= 1
    ensures var s := Reached(env, cfg, partitions, actions);
            var r := RestartableRun(env, cfg, partitions, actions, batchSize);
            && (r.outcome.Done? <==>
                  !SomeFailed(env, s.meter.ops, r.platform.meter.ops) && WindowsFit(cfg, r.platform.silver, batchSize))
            && (r.outcome.Raised? && !SomeFailed(env, s.meter.ops, r.platform.meter.ops) &&
                cfg.gold.windowSeconds > 0 ==>
                  r.outcome.error == DataError)
  {
    hide Safe, RunOnce, StrictClock, Timely, Unclashed, Healthy, Reached, WindowsFit, SomeFailed;
    StrictIsMonotone(env);
    var s := Reached(env, cfg, partitions, actions);
    assert Safe(s.feed) by { HealthyIsSafe(cfg, s); }
    RestartKeeps(s.feed);
    RestartedIsHealthy(env, cfg, s);
    PassSucceedsIff(env, cfg, s.(feed := Restarted(s.feed)), batchSize);
  }

  /** With a consumer that waits for more when the log is at its end, a run comes back only if the log
      holds as many decodable messages as it may take, or an operation fails first. */
  ghost predicate Waits(env: Environment, s: Platform, batchSize: int)
    requires Shaped(Restarted(s.feed))
  {
    batchSize >= 1 && MeetsEnd(env, Restarted(s.feed), s.meter, 0, batchSize)
  }

  /** So with the Kafka consumer the next run comes back with success exactly when, in addition, at
      least a whole batch of decodable messages is left. */
  lemma LiveRunSucceedsIff(env: Environment, cfg: Settings, partitions: nat, actions: seq<Action>, batchSize: int)
    requires cfg.rules == DefaultRules() && StrictClock(env) && batchSize >= 1
    ensures Shaped(Restarted(Reached(env, cfg, partitions, actions).feed))
    ensures var s := Reached(env, cfg, partitions, actions);
            var r := RestartableRun(env, cfg, partitions, actions, batchSize);
            r.outcome.Done? && !Waits(env, s, batchSize) <==>
              && !SomeFailed(env, s.meter.ops, r.platform.meter.ops) && WindowsFit(cfg, r.platform.silver, batchSize)
              && DecodableLeft(Restarted(s.feed)) >= batchSize
  {
    hide Safe, StrictClock, Timely, Unclashed, Healthy, Reached, WindowsFit, SomeFailed, IngestLoop, TrustStage,
         GoldStage, MeetsEnd, DecodableLeft, Streaming;
    var s := Reached(env, cfg, partitions, actions);
    assert Safe(s.feed) by { HealthyIsSafe(cfg, s); }
    RestartKeeps(s.feed);
    RunSucceedsIff(env, cfg, partitions, actions, batchSize);
    IngestTakesMinimum(env, Restarted(s.feed), s.meter, 0, batchSize);
  }

  /** A log of at most a million messages never meets a read cap. */
  lemma SmallLogFits(cfg: Settings, s: Platform)
    requires Healthy(cfg, s) && Total(s.feed.log, |s.feed.log|) <= 1_000_000
    ensures AllFit(cfg.gold, s.silver, cfg.targeted)
  {
    hide Safe, Separated, Total, KeyFor;
    HealthyIsSafe(cfg, s);
    BronzeIsAtMostTheLog(s.feed);
    SilverIsAtMostBronze(cfg.rules, s.feed.bronze, s.silver, s.quarantine);
  }

  // ----- A run without faults -----

  /** The event has a window within the calendar, and the trades of its span have an average price
      that fits. */
  ghost predicate SpanFits(cfg: GoldSettings, trades: seq<InternalEvent>, e: InternalEvent) {
    && HasWindow(cfg, e)
    && var start := KeyFor(cfg, e).value.time;
    && var span := Select(trades, InSpan(e.symbol, start, EndOf(cfg, start)));
    && (|span| == 0 || VwapFits(span, cfg.vwapScale))
  }

  ghost predicate SpansFit(cfg: GoldSettings, trades: seq<InternalEvent>) {
    forall e :: e in trades ==> SpanFits(cfg, trades, e)
  }

  /** What a recomputation reads fits exactly when the span does, in any read mode and any order. */
  lemma ReadFitsIffSpanFits(cfg: GoldSettings, silver: seq<TrustedEvent>, targeted: bool, trades: seq<InternalEvent>,
                            e: InternalEvent)
    requires DistinctIds(Cores(silver)) && AllFit(cfg, silver, targeted) && e in Cores(silver)
    requires multiset(Cores(silver)) == multiset(trades) && KeyFor(cfg, e).Done?
    ensures WindowFits(cfg, silver, targeted, KeyFor(cfg, e).value) <==> SpanFits(cfg, trades, e)
  {
    hide VwapFits, ReadFor, Cores, Fits, Select, DistinctIds, KeyFor;
    KeyNamesSymbol(cfg, e);
    var k := KeyFor(cfg, e).value;
    var span := InSpan(k.id, k.time, EndOf(cfg, k.time));
    ReadsWholeWindow(silver, targeted, k.id, k.time, EndOf(cfg, k.time));
    SelectPermutation(Cores(silver), trades, span);
    SelectDistinct(Cores(silver), span);
    var read := ReadFor(silver, targeted, k.id, k.time, EndOf(cfg, k.time));
    DistinctPermutation(Select(Cores(silver), span), read);
    SameMembers(read, Select(trades, span));
    VwapFitsPermuted(read, Select(trades, span), cfg.vwapScale);
  }

  lemma KeyNamesSymbol(cfg: GoldSettings, e: InternalEvent)
    requires KeyFor(cfg, e).Done?
    ensures KeyFor(cfg, e).value.id == e.symbol
  {
  }

  /** All of Silver is on the first page. */
  lemma WindowsFitIffSpansFit(cfg: Settings, silver: seq<TrustedEvent>, limit: int, trades: seq<InternalEvent>)
    requires DistinctIds(Cores(silver)) && AllFit(cfg.gold, silver, cfg.targeted)
    requires |silver| <= limit && limit >= 1 && multiset(Cores(silver)) == multiset(trades)
    ensures WindowsFit(cfg, silver, limit) <==> SpansFit(cfg.gold, trades)
  {
    hide KeyFor, SilverPage, WindowFits, VwapFits, Select, Cores, AllFit, DistinctIds, Representable;
    var page := Cores(SilverPage(silver, 0, limit));
    PageMembers(silver, 0, limit);
    SameMembers(Cores(silver), trades);
    forall e | e in trades
      ensures e in page
      ensures KeyFor(cfg.gold, e).Done? ==>
                (WindowFits(cfg.gold, silver, cfg.targeted, KeyFor(cfg.gold, e).value) <==>
                 SpanFits(cfg.gold, trades, e))
    {
      WholePage(silver, limit, e);
      if KeyFor(cfg.gold, e).Done? {
        ReadFitsIffSpanFits(cfg.gold, silver, cfg.targeted, trades, e);
      }
    }
  }

  /** Everything that decodes has landed, and Silver holds exactly the valid first occurrences. */
  ghost predicate AllRouted(cfg: Settings, log: seq<seq<Message>>, t: Platform) {
    && t.feed.log == log
    && (forall p :: 0 <= p < |log| ==> Select(t.feed.landed, FromPartition(p)) == Deliveries(p, log[p]))
    && multiset(Cores(t.silver)) == multiset(ValidFirsts(cfg.rules, t.feed.landed))
  }

  /** A covering pass without faults lands and routes everything, even if its Gold stage then raises. */
  lemma FaultFreePassRoutes(env: Environment, cfg: Settings, s: Platform, batchSize: int)
    requires StrictClock(env) && batchSize >= 1 && forall k :: k >= s.meter.ops ==> !env.fails(k)
    requires Shaped(s.feed) && Healthy(cfg, s) && Streaming(s.feed) && Timely(env, cfg, s) && Unclashed(env, s)
    requires Total(s.feed.log, |s.feed.log|) <= batchSize
    ensures AllRouted(cfg, s.feed.log, RunOnce(env, cfg, s, batchSize).platform)
  {
    hide Safe, IngestStage, TrustStage, GoldStage, Healthy, Deliveries, LandAll, Passing, Streaming, Total, Timely,
         Unclashed,
         StrictClock, MonotoneClock, Advances, Cores;
    StrictIsMonotone(env);
    var ingested := IngestStage(env, s, batchSize);
    IngestStageKeeps(env, cfg, s, batchSize);
    IngestStageOnlyFaults(env, cfg, s, batchSize);
    IngestConverges(env, cfg, s, batchSize);
    var trust := TrustStage(env, cfg, ingested.platform, batchSize);
    TrustStageKeeps(env, cfg, ingested.platform, batchSize);
    TrustStageOnlyFaults(env, cfg, ingested.platform, batchSize);
    HealthyIsSafe(cfg, ingested.platform);
    BronzeIsAtMostTheLog(ingested.platform.feed);
    TrustStageConverges(env, cfg, ingested.platform, batchSize);
    GoldStageKeeps(env, cfg, trust.platform, batchSize);
  }

  /** One fault-free run, whatever happened before, with a batch that covers the log: it always lands
      and routes everything. It succeeds exactly when every valid first occurrence has a window within
      the calendar with an average price there that fits; on one partition that is a condition on the
      log. When it succeeds and the valid events lie in the windows they are assigned to, Gold is
      their group-by. */
  lemma FaultFreeRunSucceedsIff(env: Environment, cfg: Settings, partitions: nat, actions: seq<Action>, batchSize: int)
    requires cfg.rules == DefaultRules() && StrictClock(env)
    requires var s := Reached(env, cfg, partitions, actions); var total := Total(s.feed.log, |s.feed.log|);
             && total <= batchSize && batchSize >= 1 && total <= 1_000_000
             && forall k :: k >= s.meter.ops ==> !env.fails(k)
    ensures var log := Reached(env, cfg, partitions, actions).feed.log;
            var t := Reached(env, cfg, partitions, actions + [Process(batchSize)]);
            var done := RestartableRun(env, cfg, partitions, actions, batchSize).outcome.Done?;
            && AllRouted(cfg, log, t)
            && (done <==> SpansFit(cfg.gold, ValidFirsts(cfg.rules, t.feed.landed)))
            && (|log| == 1 ==> (done <==> SpansFit(cfg.gold, ValidFirsts(cfg.rules, Deliveries(0, log[0])))))
            && (done && LogContained(cfg, log) ==> Complete(cfg, log, t))
            && (!done && cfg.gold.windowSeconds > 0 ==>
                  RestartableRun(env, cfg, partitions, actions, batchSize).outcome.error == DataError)
  {
    hide RunOnce, StrictClock, LogContained, Timely, Unclashed, Healthy, Complete, AllFit, Total, WindowsFit, Safe,
         SpansFit, Deliveries, LandAll, Passing;
    StrictIsMonotone(env);
    var s := Reached(env, cfg, partitions, actions);
    var t := Reached(env, cfg, partitions, actions + [Process(batchSize)]);
    assert (actions + [Process(batchSize)])[..|actions|] == actions;
    HealthyIsSafe(cfg, s);
    RestartKeeps(s.feed);
    RestartedIsHealthy(env, cfg, s);
    FaultFreePassRoutes(env, cfg, s.(feed := Restarted(s.feed)), batchSize);
    RunSucceedsIff(env, cfg, partitions, actions, batchSize);
    NoneFailed(env, s.meter.ops, t.meter.ops);
    SmallLogFits(cfg, t);
    HealthyIsSafe(cfg, t);
    BronzeIsAtMostTheLog(t.feed);
    SilverIsAtMostBronze(cfg.rules, t.feed.bronze, t.silver, t.quarantine);
    DistinctSilver(cfg, t);
    WindowsFitIffSpansFit(cfg, t.silver, batchSize, ValidFirsts(cfg.rules, t.feed.landed));
    if |s.feed.log| == 1 {
      LandedIsTheLog(cfg, s.feed.log, t);
    }
    if RestartableRun(env, cfg, partitions, actions, batchSize).outcome.Done? && LogContained(cfg, s.feed.log) {
      EndToEndRefinement(env, cfg, partitions, actions, batchSize);
    }
  }

  lemma LandedIsTheLog(cfg: Settings, log: seq<seq<Message>>, t: Platform)
    requires AllRouted(cfg, log, t) && Safe(t.feed) && |log| == 1
    ensures t.feed.landed == Deliveries(0, log[0])
  {
    hide LandAll, Deliveries, Left;
    SelectAll(t.feed.landed, FromPartition(0));
  }

  lemma DistinctSilver(cfg: Settings, s: Platform)
    requires Healthy(cfg, s)
    ensures DistinctIds(Cores(s.silver))
  {
    hide Safe;
  }

  /** Every valid event of the log has a window within the calendar and lies in it, a price of at most
      `10 ** (27 - scale)` and a quantity of at most 28 digits. */
  ghost predicate LogModest(cfg: Settings, log: seq<seq<Message>>) {
    forall p, o :: 0 <= p < |log| && 0 <= o < |log[p]| && log[p][o].Readable? && Valid(cfg.rules, log[p][o].event) ==>
                   Placed(cfg.gold, log[p][o].event) && Modest(log[p][o].event, cfg.gold.vwapScale)
  }

  lemma ModestIsContained(cfg: Settings, log: seq<seq<Message>>)
    requires LogModest(cfg, log)
    ensures LogContained(cfg, log)
  {
    hide HasWindow, Contained, Modest, Valid;
  }

  /** Modest events make windows that fit, whatever has been routed. */
  lemma ModestLogFits(cfg: Settings, s: Platform, limit: int)
    requires cfg.rules == DefaultRules() && Healthy(cfg, s) && LogModest(cfg, s.feed.log) && limit >= 1
    ensures WindowsFit(cfg, s.silver, limit)
  {
    hide Safe, Valid, Modest, SilverPage, KeyFor, WindowFits, PositiveTrades, Representable;
    HealthyIsSafe(cfg, s);
    TrustedEventsArePositive(s.feed.bronze, s.silver, s.quarantine);
    CoresMembers(s.silver);
    forall e | e in Cores(s.silver) ensures Modest(e, cfg.gold.vwapScale) && HasWindow(cfg.gold, e) {
      var t :| t in s.silver && t.event == e;
      var p, o := BronzeComesFromTheLog(s.feed, e);
      assert Placed(cfg.gold, e);
    }
    PageMembers(s.silver, 0, limit);
    forall e | e in Cores(SilverPage(s.silver, 0, limit))
      ensures KeyFor(cfg.gold, e).Done? && WindowFits(cfg.gold, s.silver, cfg.targeted, KeyFor(cfg.gold, e).value)
    {
      assert HasWindow(cfg.gold, e);
      ModestTradesFitWindows(cfg.gold, s.silver, cfg.targeted, KeyFor(cfg.gold, e).value);
    }
  }

  /** Replay safety, from conditions a caller can check beforehand, event by event: whatever happened
      before, one processing run that meets no fault and whose batch covers the log succeeds, and
      leaves every decodable message landed, Silver exactly the valid first occurrences, and Gold
      their group-by. */
  lemma OneGoodRunConverges(env: Environment, cfg: Settings, partitions: nat, actions: seq<Action>, batchSize: int)
    requires cfg.rules == DefaultRules() && StrictClock(env)
    requires var s := Reached(env, cfg, partitions, actions); var total := Total(s.feed.log, |s.feed.log|);
             && total <= batchSize && batchSize >= 1 && total <= 1_000_000 && LogModest(cfg, s.feed.log)
             && forall k :: k >= s.meter.ops ==> !env.fails(k)
    ensures RestartableRun(env, cfg, partitions, actions, batchSize).outcome.Done?
    ensures Complete(cfg, Reached(env, cfg, partitions, actions).feed.log,
                     Reached(env, cfg, partitions, actions + [Process(batchSize)]))
  {
    hide RunOnce, StrictClock, LogContained, LogModest, Timely, Unclashed, Healthy, Complete, Total, WindowsFit,
         SomeFailed, SpansFit;
    RunSucceedsIff(env, cfg, partitions, actions, batchSize);
    var t := Reached(env, cfg, partitions, actions + [Process(batchSize)]);
    assert (actions + [Process(batchSize)])[..|actions|] == actions;
    SameLog(env, cfg, partitions, actions, batchSize);
    ModestIsContained(cfg, t.feed.log);
    ModestLogFits(cfg, t, batchSize);
    NoneFailed(env, Reached(env, cfg, partitions, actions).meter.ops, t.meter.ops);
    FaultFreeRunSucceedsIff(env, cfg, partitions, actions, batchSize);
  }

  lemma NoneFailed(env: Environment, from: nat, to: nat)
    requires forall k :: k >= from ==> !env.fails(k)
    ensures !SomeFailed(env, from, to)
  {
  }

  lemma SameLog(env: Environment, cfg: Settings, partitions: nat, actions: seq<Action>, batchSize: int)
    ensures Reached(env, cfg, partitions, actions + [Process(batchSize)]).feed.log ==
            Reached(env, cfg, partitions, actions).feed.log
  {
    hide RunOnce, Streaming, Separated, OnlyNamesWindows, PartitionSafe;
    var s := Reached(env, cfg, partitions, actions);
    assert (actions + [Process(batchSize)])[..|actions|] == actions;
    RestartKeeps(s.feed);
    RunOnceKeeps(env, cfg, s.(feed := Restarted(s.feed)), batchSize);
  }
}
