/** What a pass reports about itself, and what it refuses to begin. */
module Reports {
  import opened Events
  import opened Identity
  import opened Ordering
  import opened Sequences
  import opened Rounding
  import opened Aggregation
  import opened Validation
  import opened Warehouse
  import opened Ingestion
  import opened IngestionProperties
  import opened Connections
  import opened TrustRouting
  import opened Gold
  import opened GoldProperties
  import opened GoldHistory
  import opened GoldFaults
  import opened Pipeline
  import opened Runs
  import opened EndToEnd
  import opened Faults
  import opened Scenarios

  // ----- The four numbers -----

  lemma IngestReports(env: Environment, s: Platform, batchSize: int)
    requires Shaped(s.feed) && IngestStage(env, s, batchSize).outcome.Done?
    ensures batchSize >= 1
    ensures var left := DecodableLeft(s.feed);
            IngestStage(env, s, batchSize).outcome.value == if left < batchSize then left else batchSize
  {
    hide IngestLoop, DecodableLeft;
    if batchSize >= 1 {
      IngestTakesMinimum(env, s.feed, s.meter, 0, batchSize);
    }
  }

  lemma {:induction false} SplitSizes(page: seq<InternalEvent>, rules: seq<Rule>)
    ensures |Select(page, Passing(rules))| + |Select(page, Failing(rules))| == |page|
  {
    hide Valid;
    if |page| > 0 {
      SplitSizes(page[..|page| - 1], rules);
    }
  }

  lemma TrustReports(env: Environment, cfg: Settings, s: Platform, batchSize: int)
    requires Healthy(cfg, s) && batchSize >= 1 && TrustStage(env, cfg, s, batchSize).outcome.Done?
    ensures var page, r := ReplayPage(s.feed.bronze, 0, batchSize), TrustStage(env, cfg, s, batchSize).outcome.value;
            && r.validated == Select(page, Passing(cfg.rules)) && r.quarantined == Select(page, Failing(cfg.rules))
  {
    hide Safe, ReplayPage, RoutePage, OnlyNamesWindows, AllJudged, Separated;
    HealthyIsSafe(cfg, s);
    ReplayMembers(s.feed.bronze, batchSize);
    SuccessSplitsPage(env, cfg.rules, s.feed.bronze,
                      Shelves(s.silver, s.quarantine, Meter(s.meter.ticks, s.meter.ops + 1)),
                      ReplayPage(s.feed.bronze, 0, batchSize));
  }

  lemma GoldReports(env: Environment, cfg: Settings, s: Platform, batchSize: int)
    requires batchSize >= 1 && GoldStage(env, cfg, s, batchSize).outcome.Done?
    ensures var named := WindowsOf(cfg.gold, Cores(SilverPage(s.silver, 0, batchSize)));
            var counted := GoldStage(env, cfg, s, batchSize).outcome.value;
            && counted == |set k | k in named && Nonempty(cfg.gold, s.silver, cfg.targeted, k)|
            && (Groupable(cfg.gold, s.silver, cfg.targeted) ==> counted == |named|)
  {
    hide GoldBatch, Groupable, WindowsOf, SilverPage, Nonempty;
    BatchCounts(env, cfg.gold, s.silver, cfg.targeted, Ledger(s.gold, s.meter), 0, batchSize);
    if Groupable(cfg.gold, s.silver, cfg.targeted) {
      BatchRefreshes(env, cfg.gold, s.silver, cfg.targeted, Ledger(s.gold, s.meter), 0, batchSize);
    }
  }

  /** What a successful pass reports: as many messages ingested as the batch allows or the log has left that
      decode; the valid and the rejected events of the page of Bronze it routed; and the distinct windows
      of the page of Silver it took up, those that Silver has events for. */
  lemma PassReports(env: Environment, cfg: Settings, s: Platform, batchSize: int)
    requires Shaped(s.feed) && Healthy(cfg, s) && Streaming(s.feed) && RunOnce(env, cfg, s, batchSize).outcome.Done?
    ensures batchSize >= 1
    ensures var t, report := RunOnce(env, cfg, s, batchSize).platform, RunOnce(env, cfg, s, batchSize).outcome.value;
            var left, page := DecodableLeft(s.feed), ReplayPage(t.feed.bronze, 0, batchSize);
            var named := WindowsOf(cfg.gold, Cores(SilverPage(t.silver, 0, batchSize)));
            && report.ingested == (if left < batchSize then left else batchSize)
            && report.validated == |Select(page, Passing(cfg.rules))|
            && report.quarantined == |Select(page, Failing(cfg.rules))|
            && report.validated + report.quarantined == |page|
            && report.goldWindows == |set k | k in named && Nonempty(cfg.gold, t.silver, cfg.targeted, k)|
            && (Groupable(cfg.gold, t.silver, cfg.targeted) ==> report.goldWindows == |named|)
  {
    hide Healthy, IngestStage, TrustStage, GoldStage, Streaming, DecodableLeft, ReplayPage, Groupable, WindowsOf,
         SilverPage, Nonempty, MonotoneClock, StrictClock, Advances;
    IngestReports(env, s, batchSize);
    var ingested := IngestStage(env, s, batchSize).platform;
    IngestStageKeeps(env, cfg, s, batchSize);
    TrustReports(env, cfg, ingested, batchSize);
    var trust := TrustStage(env, cfg, ingested, batchSize).platform;
    TrustStageKeeps(env, cfg, ingested, batchSize);
    GoldStageKeeps(env, cfg, trust, batchSize);
    GoldReports(env, cfg, trust, batchSize);
    SplitSizes(ReplayPage(ingested.feed.bronze, 0, batchSize), cfg.rules);
  }

  /** The same of the run that follows any history. */
  lemma ReportsOverAllRuns(env: Environment, cfg: Settings, partitions: nat, actions: seq<Action>, batchSize: int)
    requires RestartableRun(env, cfg, partitions, actions, batchSize).outcome.Done?
    ensures Shaped(Restarted(Reached(env, cfg, partitions, actions).feed)) && batchSize >= 1
    ensures var s, r := Reached(env, cfg, partitions, actions),
            RestartableRun(env, cfg, partitions, actions, batchSize);
            var t, report := r.platform, r.outcome.value;
            var left, page := DecodableLeft(Restarted(s.feed)), ReplayPage(t.feed.bronze, 0, batchSize);
            var named := WindowsOf(cfg.gold, Cores(SilverPage(t.silver, 0, batchSize)));
            && report.ingested == (if left < batchSize then left else batchSize)
            && report.validated == |Select(page, Passing(cfg.rules))|
            && report.quarantined == |Select(page, Failing(cfg.rules))|
            && report.validated + report.quarantined == |page|
            && report.goldWindows == |set k | k in named && Nonempty(cfg.gold, t.silver, cfg.targeted, k)|
            && (Groupable(cfg.gold, t.silver, cfg.targeted) ==> report.goldWindows == |named|)
  {
    hide Healthy, RunOnce, Streaming, DecodableLeft, ReplayPage, Groupable, WindowsOf, SilverPage, Nonempty, Timely,
         Unclashed,
         Reached, Safe;
    var s := Reached(env, cfg, partitions, actions);
    HealthyIsSafe(cfg, s);
    RestartKeeps(s.feed);
    RestartedIsHealthy(env, cfg, s);
    PassReports(env, cfg, s.(feed := Restarted(s.feed)), batchSize);
  }

  // ----- One event -----

  lemma OneLeft(s: Feed, e: InternalEvent)
    requires Shaped(s) && s.log == [[Readable(e)]] && s.position == [0]
    ensures DecodableLeft(s) == 1
  {
    assert s.log[0][0..] == [Readable(e)] && [Readable(e)][1..] == [];
    assert CountReadable([Readable(e)]) == 1 + CountReadable([]);
    assert Decodable(s.log, s.position, 1) == Decodable(s.log, s.position, 0) + CountReadable(s.log[0][0..]);
  }

  lemma ReplayOfOne(e: InternalEvent)
    ensures ReplayPage([e], 0, 1) == [e]
  {
    assert [e][1..] == [] && SortBy([e][1..], ReplayKey) == [];
  }

  lemma SplitOfOne(rules: seq<Rule>, e: InternalEvent)
    ensures |Select([e], Passing(rules))| == if Valid(rules, e) then 1 else 0
    ensures |Select([e], Failing(rules))| == if Valid(rules, e) then 0 else 1
  {
    hide Valid;
    assert [e][..0] == [];
  }

  /** The feed after one produced message: nothing read, nothing committed. */
  lemma ProducedFeed(env: Environment, cfg: Settings, m: Message)
    ensures var s := Reached(env, cfg, 1, [Produce(0, m)]);
            s.feed.log == [[m]] && s.feed.committed == [0] && s.silver == [] && s.quarantine == [] && s.gold == map[]
  {
    hide Healthy, Timely, Unclashed, Safe;
    var empty := Reached(env, cfg, 1, []);
    assert empty == Initial(1);
    assert empty.feed.log == [[]] && empty.feed.log[0] + [m] == [m];
    assert Produced(empty.feed, 0, m).log == [[m]];
    assert [Produce(0, m)][..0] == [];
    ActKeeps(env, cfg, empty, Produce(0, m));
    assert Reached(env, cfg, 1, [Produce(0, m)]) == Act(env, cfg, empty, Produce(0, m));
  }

  /** One event, produced and processed without faults, is the only row of Bronze, trusted or not. */
  lemma OneRouted(env: Environment, cfg: Settings, e: InternalEvent)
    requires cfg.rules == DefaultRules() && StrictClock(env) && forall k :: !env.fails(k)
    ensures var t := Reached(env, cfg, 1, [Produce(0, Readable(e)), Process(1)]);
            && t == RestartableRun(env, cfg, 1, [Produce(0, Readable(e))], 1).platform
            && t.feed.bronze == [e] && multiset(Cores(t.silver)) == multiset(Select([e], Passing(cfg.rules)))
            && (RestartableRun(env, cfg, 1, [Produce(0, Readable(e))], 1).outcome.Done?
                <==> SpansFit(cfg.gold, Select([e], Passing(cfg.rules))))
  {
    hide RunOnce, StrictClock, Healthy, Timely, Unclashed, Safe, Select, SpansFit, Complete, LogContained, LandAll,
         Deliveries;
    var actions := [Produce(0, Readable(e))];
    ProducedFeed(env, cfg, Readable(e));
    assert Total([[Readable(e)]], 1) == Total([[Readable(e)]], 0) + 1;
    assert actions + [Process(1)] == [Produce(0, Readable(e)), Process(1)];
    assert (actions + [Process(1)])[..1] == actions;
    FaultFreeRunSucceedsIff(env, cfg, 1, actions, 1);
    OneInBronze(env, cfg, e, Reached(env, cfg, 1, actions + [Process(1)]));
  }

  /** The report of a successful run over one event. */
  lemma OneReport(env: Environment, cfg: Settings, e: InternalEvent)
    requires cfg.rules == DefaultRules() && StrictClock(env) && forall k :: !env.fails(k)
    requires RestartableRun(env, cfg, 1, [Produce(0, Readable(e))], 1).outcome.Done?
    ensures var r := RestartableRun(env, cfg, 1, [Produce(0, Readable(e))], 1);
            && r.outcome.value.ingested == 1
            && r.outcome.value.validated == (if Valid(cfg.rules, e) then 1 else 0)
            && r.outcome.value.quarantined == (if Valid(cfg.rules, e) then 0 else 1)
            && (Groupable(cfg.gold, r.platform.silver, cfg.targeted) ==>
                  r.outcome.value.goldWindows == |WindowsOf(cfg.gold, Cores(SilverPage(r.platform.silver, 0, 1)))|)
  {
    hide RestartableRun, Reached, StrictClock, Groupable, WindowsOf, DecodableLeft, Valid, Select, SilverPage,
         ReplayPage, SpansFit;
    OneRouted(env, cfg, e);
    ProducedFeed(env, cfg, Readable(e));
    ReportsOverAllRuns(env, cfg, 1, [Produce(0, Readable(e))], 1);
    OneLeft(Restarted(Reached(env, cfg, 1, [Produce(0, Readable(e))]).feed), e);
    ReplayOfOne(e);
    SplitOfOne(cfg.rules, e);
  }

  /** One storable trusted trade is reported as one ingested, one validated and one window. */
  lemma OneTradeReport(env: Environment, cfg: Settings, e: InternalEvent)
    requires cfg.rules == DefaultRules() && StrictClock(env) && forall k :: !env.fails(k)
    requires Trustworthy(e) && Contained(cfg.gold, e) && Storable(cfg.gold, e)
    ensures RestartableRun(env, cfg, 1, [Produce(0, Readable(e))], 1).outcome == Done(PipelineResult(1, 1, 0, 1))
  {
    hide RestartableRun, Reached, StrictClock, Trustworthy, Contained, Groupable, WindowsOf, Valid, SpansFit, Select,
         SilverPage, Quantizable, Rounded, StoredMean, HasWindow;
    OneTradeMakesItsWindowIff(env, cfg, e);
    OneRouted(env, cfg, e);
    OneReport(env, cfg, e);
    ValidMeansTrustworthy(e);
    OneGroupable(cfg, Reached(env, cfg, 1, [Produce(0, Readable(e)), Process(1)]).silver, e);
  }

  /** One event that the rules reject is reported as one ingested and one quarantined, and no window. */
  lemma OneRejectedReport(env: Environment, cfg: Settings, e: InternalEvent)
    requires cfg.rules == DefaultRules() && StrictClock(env) && (forall k :: !env.fails(k)) && !Trustworthy(e)
    ensures RestartableRun(env, cfg, 1, [Produce(0, Readable(e))], 1).outcome == Done(PipelineResult(1, 0, 1, 0))
  {
    hide RestartableRun, Reached, StrictClock, Trustworthy, Groupable, WindowsOf, Valid, SpansFit, Select, SilverPage;
    OneRouted(env, cfg, e);
    ValidMeansTrustworthy(e);
    NoneSelected(cfg.rules, e);
    NothingToFit(cfg.gold);
    OneReport(env, cfg, e);
    EmptySilver(cfg, Reached(env, cfg, 1, [Produce(0, Readable(e)), Process(1)]).silver);
  }

  lemma OneInBronze(env: Environment, cfg: Settings, e: InternalEvent, t: Platform)
    requires Healthy(cfg, t) && AllRouted(cfg, [[Readable(e)]], t)
    ensures t.feed.bronze == [e] && LandAll(t.feed.landed) == [e]
  {
    hide Separated, OnlyNamesWindows, AllJudged, LandAll, Deliveries, Select, Cores;
    LandsOnly(t.feed, e);
    HealthyIsSafe(cfg, t);
  }

  lemma NoneSelected(rules: seq<Rule>, e: InternalEvent)
    requires !Valid(rules, e)
    ensures Select([e], Passing(rules)) == []
  {
    hide Valid;
    assert [e][..0] == [];
  }

  lemma NothingToFit(cfg: GoldSettings)
    ensures SpansFit(cfg, [])
  {
  }

  lemma EmptySilver(cfg: Settings, silver: seq<TrustedEvent>)
    requires multiset(Cores(silver)) == multiset([])
    ensures Groupable(cfg.gold, silver, cfg.targeted)
    ensures |WindowsOf(cfg.gold, Cores(SilverPage(silver, 0, 1)))| == 0
  {
    hide KeyFor;
    assert |multiset(Cores(silver))| == |silver|;
    assert Cores(SilverPage(silver, 0, 1)) == [];
    assert WindowsOf(cfg.gold, []) == {};
  }

  lemma OneGroupable(cfg: Settings, silver: seq<TrustedEvent>, e: InternalEvent)
    requires Cores(silver) == [e] && Contained(cfg.gold, e) && HasWindow(cfg.gold, e)
    ensures Groupable(cfg.gold, silver, cfg.targeted)
    ensures |WindowsOf(cfg.gold, Cores(SilverPage(silver, 0, 1)))| == 1
  {
    hide KeyFor, Representable;
    SortByCorrect(silver, SilverKey);
    CoresPermutation(SortBy(silver, SilverKey), silver);
    assert Cores(SilverPage(silver, 0, 1)) == [e] by { OnlyElement(Cores(SilverPage(silver, 0, 1)), e); }
    assert e in [e];
    assert WindowsOf(cfg.gold, [e]) == {KeyFor(cfg.gold, e).value};
  }

  // ----- Arguments -----

  lemma {:induction false} IngestRaises(env: Environment, s: Feed, m: Meter, persisted: nat, maxEvents: int)
    requires Shaped(s)
    ensures IngestLoop(env, s, m, persisted, maxEvents).outcome.Raised? ==>
              IngestLoop(env, s, m, persisted, maxEvents).outcome.error in {StorageError, ConsumeError}
    decreases Remaining(s)
  {
    hide Left, NextEvent;
    NextRaises(env, s, m);
    var next := NextEvent(env, s, m);
    if next.outcome.Done? && next.outcome.value.Some? {
      var step := Persist(env, next.feed, next.meter, next.outcome.value.value);
      if step.outcome.Done? && persisted + 1 < maxEvents {
        IngestRaises(env, step.feed, step.meter, persisted + 1, maxEvents);
      }
    }
  }

  lemma {:induction false} NextRaises(env: Environment, s: Feed, m: Meter)
    requires Shaped(s)
    ensures NextEvent(env, s, m).outcome.Raised? ==> NextEvent(env, s, m).outcome.error == ConsumeError
    decreases Remaining(s)
  {
    hide Left;
    match Serve(s, env.turn(m.ops))
    case None =>
    case Some(p) =>
      if !env.fails(m.ops) && s.log[p][s.position[p]].Unreadable? {
        NextRaises(env, Fetched(s, p), Meter(m.ticks, m.ops + 1));
      }
  }

  /** Each stage takes a batch of one or more: it refuses its arguments exactly when there are none to take,
      and then nothing has happened. */
  lemma ArgumentsIff(env: Environment, cfg: Settings, s: Platform, batchSize: int)
    requires Shaped(s.feed)
    ensures IngestStage(env, s, batchSize).outcome == Raised(ArgumentError) <==> batchSize < 1
    ensures TrustStage(env, cfg, s, batchSize).outcome == Raised(ArgumentError) <==> batchSize < 1
    ensures batchSize < 1 ==>
              && GoldStage(env, cfg, s, batchSize).outcome == Raised(ArgumentError)
              && IngestStage(env, s, batchSize).platform == s && TrustStage(env, cfg, s, batchSize).platform == s
              && GoldStage(env, cfg, s, batchSize).platform == s
  {
    hide IngestLoop, RoutePage, ReplayPage;
    if batchSize >= 1 {
      IngestRaises(env, s.feed, s.meter, 0, batchSize);
      RoutingRaisesStorage(env, cfg.rules, Shelves(s.silver, s.quarantine, Meter(s.meter.ticks, s.meter.ops + 1)),
                           ReplayPage(s.feed.bronze, 0, batchSize));
    }
  }

  /** A Gold batch refuses a negative offset and a limit below one, and nothing else. */
  lemma GoldArgumentsIff(env: Environment, cfg: GoldSettings, silver: seq<TrustedEvent>, targeted: bool, s: Ledger,
                         offset: int, limit: int)
    requires cfg.windowSeconds > 0
    ensures GoldBatch(env, cfg, silver, targeted, s, offset, limit).outcome == Raised(ArgumentError) <==>
            offset < 0 || limit < 1
  {
    hide RecomputeAll, SilverPage, SortBy, KeyFor;
    if offset >= 0 && limit >= 1 && !env.fails(s.meter.ops) {
      var page := Cores(SilverPage(silver, offset, limit));
      NoKeysIsData(cfg, page);
      if KeysOf(cfg, page).Done? {
        SortedKeys(KeysOf(cfg, page).value);
        LoopRaises(env, cfg, silver, targeted, s.(meter := Meter(s.meter.ticks, s.meter.ops + 1)),
                   SortBy(KeysOf(cfg, page).value, Self));
      }
    }
  }

  lemma {:induction false} LoopRaises(env: Environment, cfg: GoldSettings, silver: seq<TrustedEvent>, targeted: bool,
                                      s: Ledger, keys: seq<Key>)
    requires forall k :: k in keys ==> StartInstant(k.time)
    ensures RecomputeAll(env, cfg, silver, targeted, s, keys).outcome.Raised? ==>
              RecomputeAll(env, cfg, silver, targeted, s, keys).outcome.error in {StorageError, DataError}
  {
    hide Aggregate, ReadFor, Rejects;
    if |keys| > 0 {
      var init, k := keys[..|keys| - 1], keys[|keys| - 1];
      assert k in keys && forall x :: x in init ==> x in keys;
      LoopRaises(env, cfg, silver, targeted, s, init);
      AggregateRaisesData(k.id, k.time, EndOf(cfg, k.time), ReadFor(silver, targeted, k.id, k.time, EndOf(cfg, k.time)),
                          cfg.vwapScale);
    }
  }
}
