/** The platform over all runs: any interleaving of produced messages and processing runs, each
    failing wherever the environment says, each followed by a restart. */
module Runs {
  import opened Events
  import opened Identity
  import opened Ordering
  import opened Sequences
  import opened Aggregation
  import opened Validation
  import opened Warehouse
  import opened Ingestion
  import opened IngestionProperties
  import opened TrustRouting
  import opened Gold
  import opened GoldProperties
  import opened GoldHistory
  import opened Pipeline

  /** What can happen next: a producer appends a message, or a processing run starts. */
  datatype Action = Produce(partition: nat, message: Message) | Process(batchSize: int)

  function Initial(partitions: nat): Platform {
    Platform(
      Feed(seq(partitions, i => []), seq(partitions, i => 0), seq(partitions, i => 0), [], [], seq(partitions, i => 0)),
      [], [], map[], Meter(0, 0))
  }

  /** A processing run: connect, pass through the stages, disconnect. A failed one leaves what its
      stages had done; the next connection resumes from the committed offsets. */
  function ProcessingRun(env: Environment, cfg: Settings, s: Platform, batchSize: int): (r: Passed<PipelineResult>)
    requires Shaped(Restarted(s.feed))
  {
    RunOnce(env, cfg, s.(feed := Restarted(s.feed)), batchSize)
  }

  function Act(env: Environment, cfg: Settings, s: Platform, a: Action): Platform
    requires Shaped(Restarted(s.feed))
  {
    match a
    case Produce(p, m) => if p < |s.feed.log| then s.(feed := Produced(s.feed, p, m)) else s
    case Process(n) => ProcessingRun(env, cfg, s, n).platform
  }

  // ----- What every reachable state keeps -----

  /** Safe delivery, separated trust, no Gold row for a window Silver does not know, and none whose
      finality does not suit the instant it shows. */
  ghost predicate Healthy(cfg: Settings, s: Platform) {
    && Safe(s.feed)
    && Separated(cfg.rules, s.feed.bronze, s.silver, s.quarantine)
    && OnlyNamesWindows(cfg.gold, s.silver, s.gold)
    && AllJudged(cfg.gold, s.gold)
  }

  /** ... and, under a clock that never goes back, every Gold row is a snapshot of Silver. */
  ghost predicate Timely(env: Environment, cfg: Settings, s: Platform) {
    Stamped(env, s.silver, s.gold, s.meter.ticks) && RowsAreSnapshots(cfg.gold, cfg.targeted, s.silver, s.gold)
  }

  /** ... and, under a strictly increasing one, every Quarantine stamp is in the past. */
  ghost predicate Unclashed(env: Environment, s: Platform) { StampedBefore(env, s.quarantine, s.meter.ticks) }

  lemma StrictIsMonotone(env: Environment)
    ensures StrictClock(env) ==> MonotoneClock(env)
  {
    if StrictClock(env) {
      forall i: nat, j: nat | i <= j ensures env.now(i) <= env.now(j) {
        if i < j { assert env.now(i) < env.now(j); }
      }
    }
  }

  lemma InitialIsHealthy(env: Environment, cfg: Settings, partitions: nat)
    ensures Healthy(cfg, Initial(partitions)) && Timely(env, cfg, Initial(partitions)) &&
            Unclashed(env, Initial(partitions))
  {
    var s := Initial(partitions).feed;
    forall p | 0 <= p < |s.log| ensures PartitionSafe(s, p) {
      assert s.log[p][..0] == [];
    }
  }

  lemma SafeFeedIsNamed(s: Feed)
    requires Safe(s)
    ensures DistinctIds(s.bronze)
  {
  }

  /** The stage keeps Health, and what it does not own stays as it was. */
  lemma IngestStageKeeps(env: Environment, cfg: Settings, s: Platform, batchSize: int)
    requires Shaped(s.feed) && Healthy(cfg, s) && Streaming(s.feed)
    ensures var r := IngestStage(env, s, batchSize);
            && Healthy(cfg, r.platform) && Advances(s.feed, r.platform.feed)
            && r.platform.silver == s.silver && r.platform.quarantine == s.quarantine && r.platform.gold == s.gold
            && r.platform.meter.ticks == s.meter.ticks
            && (r.outcome.Done? ==> Streaming(r.platform.feed))
            && (r.outcome.Done? && Remaining(s.feed) <= batchSize ==>
                  forall p :: 0 <= p < |s.feed.log| ==> r.platform.feed.position[p] == |s.feed.log[p]|)
  {
    hide Safe, Streaming, IngestLoop, OnlyNamesWindows, Left, Valid, Judge;
    if batchSize >= 1 {
      IngestLoopKeeps(env, s.feed, s.meter, 0, batchSize);
    } else {
      AdvancesItself(s.feed);
    }
    var t := IngestStage(env, s, batchSize).platform;
    assert forall e :: e in s.feed.bronze ==> e in t.feed.bronze;
  }

  lemma ReplayMembers(bronze: seq<InternalEvent>, limit: nat)
    ensures forall e :: e in ReplayPage(bronze, 0, limit) ==> e in bronze
    ensures |bronze| <= limit ==> forall e :: e in bronze ==> e in ReplayPage(bronze, 0, limit)
  {
    SortByCorrect(bronze, ReplayKey);
    SameMembers(SortBy(bronze, ReplayKey), bronze);
  }

  lemma PrefixCores(silver: seq<TrustedEvent>, more: seq<TrustedEvent>, e: InternalEvent)
    requires silver <= more && e in Cores(silver)
    ensures e in Cores(more)
  {
    var i :| 0 <= i < |silver| && Cores(silver)[i] == e;
    assert Cores(more)[i] == e;
  }

  lemma NamesMore(cfg: GoldSettings, silver: seq<TrustedEvent>, more: seq<TrustedEvent>, id: string)
    requires NamesWindow(cfg, Cores(silver), id) && silver <= more
    ensures NamesWindow(cfg, Cores(more), id)
  {
    hide KeyFor, Cores, WindowIdFor;
    var e :| e in Cores(silver) && KeyFor(cfg, e).Done? && id == IdOf(KeyFor(cfg, e).value);
    PrefixCores(silver, more, e);
  }

  lemma MoreSilverNamesMore(cfg: GoldSettings, silver: seq<TrustedEvent>, more: seq<TrustedEvent>, gold: GoldTable)
    requires OnlyNamesWindows(cfg, silver, gold) && silver <= more
    ensures OnlyNamesWindows(cfg, more, gold)
  {
    hide NamesWindow, Cores;
    forall id | id in gold ensures NamesWindow(cfg, Cores(more), id) {
      NamesMore(cfg, silver, more, id);
    }
  }

  lemma TrustStageKeeps(env: Environment, cfg: Settings, s: Platform, batchSize: int)
    requires Healthy(cfg, s)
    ensures var r := TrustStage(env, cfg, s, batchSize);
            && Healthy(cfg, r.platform) && r.platform.feed == s.feed && r.platform.gold == s.gold
            && s.silver <= r.platform.silver && s.quarantine <= r.platform.quarantine
            && (MonotoneClock(env) && Timely(env, cfg, s) ==> Timely(env, cfg, r.platform))
            && (StrictClock(env) && Unclashed(env, s) ==> Unclashed(env, r.platform))
  {
    hide Safe, RoutePage, ReplayPage, Separated, OnlyNamesWindows, Stamped, RowsAreSnapshots, MonotoneClock,
         StrictClock, StampedBefore;
    var shelves := Shelves(s.silver, s.quarantine, Meter(s.meter.ticks, s.meter.ops + 1));
    SafeFeedIsNamed(s.feed);
    if batchSize >= 1 && !env.fails(s.meter.ops) {
      var page := ReplayPage(s.feed.bronze, 0, batchSize);
      ReplayMembers(s.feed.bronze, batchSize);
      RoutingKeepsSeparation(env, cfg.rules, s.feed.bronze, shelves, page);
      if MonotoneClock(env) && Timely(env, cfg, s) {
        RoutingKeepsSnapshots(env, cfg.rules, cfg.gold, cfg.targeted, shelves, page, s.gold);
      }
      if StrictClock(env) && Unclashed(env, s) {
        StrictClockNeverClashes(env, cfg.rules, shelves, page);
      }
    }
    MoreSilverNamesMore(cfg.gold, s.silver, TrustStage(env, cfg, s, batchSize).platform.silver, s.gold);
  }

  lemma GoldStageKeeps(env: Environment, cfg: Settings, s: Platform, batchSize: int)
    requires Healthy(cfg, s)
    ensures var r := GoldStage(env, cfg, s, batchSize);
            && Healthy(cfg, r.platform) && r.platform == s.(gold := r.platform.gold, meter := r.platform.meter)
            && (MonotoneClock(env) && Timely(env, cfg, s) ==>
                  Timely(env, cfg, r.platform) && (Unclashed(env, s) ==> Unclashed(env, r.platform)))
  {
    hide Safe, GoldBatch, Separated, OnlyNamesWindows, Stamped, RowsAreSnapshots, MonotoneClock;
    BatchOnlyNamesWindows(env, cfg.gold, s.silver, cfg.targeted, Ledger(s.gold, s.meter), 0, batchSize);
    BatchKeepsJudged(env, cfg.gold, s.silver, cfg.targeted, Ledger(s.gold, s.meter), 0, batchSize);
    if MonotoneClock(env) && Timely(env, cfg, s) {
      BatchKeepsSnapshots(env, cfg.gold, cfg.targeted, s.silver, Ledger(s.gold, s.meter), 0, batchSize);
    }
  }

  /** A pass, wherever it fails, keeps every invariant, and only adds to Bronze and Silver. */
  lemma RunOnceKeeps(env: Environment, cfg: Settings, s: Platform, batchSize: int)
    requires Shaped(s.feed) && Healthy(cfg, s) && Streaming(s.feed)
    ensures var t := RunOnce(env, cfg, s, batchSize).platform;
            && Healthy(cfg, t) && Advances(s.feed, t.feed) && s.silver <= t.silver && s.quarantine <= t.quarantine
            && (MonotoneClock(env) && Timely(env, cfg, s) ==> Timely(env, cfg, t))
            && (StrictClock(env) && Timely(env, cfg, s) && Unclashed(env, s) ==> Unclashed(env, t))
  {
    hide Healthy, IngestStage, TrustStage, GoldStage, Streaming, MonotoneClock, Advances, StrictClock, StampedBefore,
         Stamped, RowsAreSnapshots;
    StrictIsMonotone(env);
    var ingested := IngestStage(env, s, batchSize);
    IngestStageKeeps(env, cfg, s, batchSize);
    var trust := TrustStage(env, cfg, ingested.platform, batchSize);
    TrustStageKeeps(env, cfg, ingested.platform, batchSize);
    GoldStageKeeps(env, cfg, trust.platform, batchSize);
  }

  /** One action keeps every invariant, never moves a committed offset back, and never loses a row
      of Bronze, Silver or Quarantine. */
  lemma ActKeeps(env: Environment, cfg: Settings, s: Platform, a: Action)
    requires Healthy(cfg, s)
    ensures Shaped(Restarted(s.feed))
    ensures var t := Act(env, cfg, s, a);
            && Healthy(cfg, t)
            && |t.feed.committed| == |s.feed.committed|
            && (forall p :: 0 <= p < |s.feed.committed| ==> s.feed.committed[p] <= t.feed.committed[p])
            && s.feed.bronze <= t.feed.bronze && s.silver <= t.silver && s.quarantine <= t.quarantine
            && (MonotoneClock(env) && Timely(env, cfg, s) ==> Timely(env, cfg, t))
            && (StrictClock(env) && Timely(env, cfg, s) && Unclashed(env, s) ==> Unclashed(env, t))
  {
    hide Safe, RunOnce, Separated, OnlyNamesWindows, MonotoneClock, Stamped, RowsAreSnapshots, Streaming, StrictClock,
         StampedBefore;
    RestartKeeps(s.feed);
    match a
    case Produce(p, m) =>
      if p < |s.feed.log| {
        ProduceKeeps(s.feed, p, m);
      }
    case Process(n) =>
      RunOnceKeeps(env, cfg, s.(feed := Restarted(s.feed)), n);
  }

  /** Any run from the empty platform. */
  ghost function Reached(env: Environment, cfg: Settings, partitions: nat, actions: seq<Action>): (s: Platform)
    ensures Healthy(cfg, s)
    ensures MonotoneClock(env) ==> Timely(env, cfg, s)
    ensures StrictClock(env) ==> Timely(env, cfg, s) && Unclashed(env, s)
  {
    if |actions| == 0 then
      InitialIsHealthy(env, cfg, partitions);
      Initial(partitions)
    else
      var s := Reached(env, cfg, partitions, actions[..|actions| - 1]);
      ActKeeps(env, cfg, s, actions[|actions| - 1]);
      StrictIsMonotone(env);
      Act(env, cfg, s, actions[|actions| - 1])
  }

  // ----- The theorems, over every run -----

  /** At-least-once delivery: in every reachable state, every decodable message below a committed
      offset is in Bronze, and at most one stored message per partition is not yet committed. */
  lemma AckSafetyOverAllRuns(env: Environment, cfg: Settings, partitions: nat, actions: seq<Action>, p: nat)
    requires p < |Reached(env, cfg, partitions, actions).feed.log|
    ensures var s := Reached(env, cfg, partitions, actions).feed;
            && Bounded(s)
            && (forall o :: 0 <= o < s.committed[p] && s.log[p][o].Readable? ==>
                HasId(s.bronze, s.log[p][o].event.eventId))
            && (forall o, o' :: (s.committed[p] <= o < s.high[p] && s.committed[p] <= o' < s.high[p]
                                 && s.log[p][o].Readable? && s.log[p][o'].Readable?) ==> o == o')
  {
    AckSafety(Reached(env, cfg, partitions, actions).feed, p);
  }

  /** Nothing that `s` has committed or stored is missing from `t`. */
  ghost predicate Keeps(s: Platform, t: Platform) {
    && |s.feed.committed| == |t.feed.committed|
    && (forall p :: 0 <= p < |s.feed.committed| ==> s.feed.committed[p] <= t.feed.committed[p])
    && s.feed.bronze <= t.feed.bronze && s.silver <= t.silver && s.quarantine <= t.quarantine
  }

  /** Committed offsets never go back, and nothing stored is ever lost, however a run continues. */
  lemma {:induction false} NothingIsEverLost(env: Environment, cfg: Settings, partitions: nat, actions: seq<Action>,
                                             more: seq<Action>)
    ensures Keeps(Reached(env, cfg, partitions, actions), Reached(env, cfg, partitions, actions + more))
    decreases |more|
  {
    hide Healthy, Act, Timely, Unclashed;
    if |more| == 0 {
      assert actions + more == actions;
    } else {
      var init, last := more[..|more| - 1], more[|more| - 1];
      assert actions + more == (actions + init) + [last];
      assert (actions + more)[..|actions + init|] == actions + init;
      NothingIsEverLost(env, cfg, partitions, actions, init);
      ActKeeps(env, cfg, Reached(env, cfg, partitions, actions + init), last);
    }
  }

  /** In every reachable state an undecodable message is committed past exactly when a later message of
      its partition that decodes is; and unless that is so, the next run reads it again. */
  lemma CommittedPastOverAllRuns(env: Environment, cfg: Settings, partitions: nat, actions: seq<Action>, p: nat, o: nat)
    requires var s := Reached(env, cfg, partitions, actions).feed;
             p < |s.log| && o < |s.log[p]| && s.log[p][o].Unreadable?
    ensures var s := Reached(env, cfg, partitions, actions).feed;
            && Bounded(s)
            && (o < s.committed[p] <==> exists o' :: o < o' < s.committed[p] && s.log[p][o'].Readable?)
            && (Restarted(s).position[p] <= o <==> forall o' :: o < o' < s.committed[p] ==> s.log[p][o'].Unreadable?)
  {
    hide Reached, LandAll, PartitionSafe;
    CommittedPastIff(Reached(env, cfg, partitions, actions).feed, p, o);
  }

  /** Exactly-once effect: on one partition, Bronze is the insert-if-absent fold of the decodable
      messages of a prefix of the log; on many, of an interleaving of such prefixes. */
  lemma ExactlyOnceOverAllRuns(env: Environment, cfg: Settings, partitions: nat, actions: seq<Action>)
    ensures var s := Reached(env, cfg, partitions, actions).feed;
            && Bounded(s) && s.bronze == LandAll(s.landed)
            && (forall p :: 0 <= p < |s.log| ==>
                  Select(s.landed, FromPartition(p)) == Deliveries(p, s.log[p][..s.high[p]]))
            && (|s.log| == 1 ==> s.bronze == LandAll(Deliveries(0, s.log[0][..s.high[0]])))
  {
    hide LandAll, Deliveries;
    var s := Reached(env, cfg, partitions, actions).feed;
    if |s.log| == 1 {
      ExactlyOnceEffect(s);
    }
    forall p | 0 <= p < |s.log| ensures Select(s.landed, FromPartition(p)) == Deliveries(p, s.log[p][..s.high[p]]) {
      assert PartitionSafe(s, p);
    }
  }

  /** Trust separation in every reachable state. */
  lemma TrustSeparationOverAllRuns(env: Environment, cfg: Settings, partitions: nat, actions: seq<Action>)
    ensures var s := Reached(env, cfg, partitions, actions);
            && (forall t, q :: t in s.silver && q in s.quarantine ==> t.event.eventId != q.event.eventId)
            && (forall t :: t in s.silver ==> t.event in s.feed.bronze && Valid(cfg.rules, t.event))
            && (forall q :: q in s.quarantine ==> q.event in s.feed.bronze && !Valid(cfg.rules, q.event))
  {
    hide Safe, Valid, Reached;
    var s := Reached(env, cfg, partitions, actions);
    SafeFeedIsNamed(s.feed);
    TrustSeparation(cfg.rules, s.feed.bronze, s.silver, s.quarantine);
  }

  /** Finality in every reachable state, whatever the clock does: a row is final exactly when it was computed
      no earlier than the allowed lateness after the end of its window. */
  lemma FinalityOverAllRuns(env: Environment, cfg: Settings, partitions: nat, actions: seq<Action>, id: string)
    requires id in Reached(env, cfg, partitions, actions).gold
    ensures var row := Reached(env, cfg, partitions, actions).gold[id];
            row.isFinal <==>
              row.computedAt >= row.figures.start + (cfg.gold.windowSeconds + cfg.gold.latenessSeconds) * SECOND
  {
    hide Safe, Separated, OnlyNamesWindows, Reached;
    var s := Reached(env, cfg, partitions, actions);
    assert AllJudged(cfg.gold, s.gold);
  }

  /** Watermark safety in every reachable state: a final row whose window's events were all
      validated in time is the aggregate of every event the window has. */
  lemma WatermarkOverAllRuns(env: Environment, cfg: Settings, partitions: nat, actions: seq<Action>, id: string)
    requires MonotoneClock(env) && id in Reached(env, cfg, partitions, actions).gold
    requires var s := Reached(env, cfg, partitions, actions);
             && s.gold[id].isFinal && InTime(cfg.gold, s.silver, s.gold[id])
             && Fits(s.silver, cfg.targeted, s.gold[id].figures.symbol, s.gold[id].figures.start,
                     EndOf(cfg.gold, s.gold[id].figures.start))
    ensures var s := Reached(env, cfg, partitions, actions); var f := s.gold[id].figures;
            && StartInstant(f.start)
            && Aggregate(f.symbol, f.start, EndOf(cfg.gold, f.start),
                         Select(Cores(s.silver), InSpan(f.symbol, f.start, EndOf(cfg.gold, f.start))),
                             cfg.gold.vwapScale) == Done(f)
  {
    hide Aggregate, Safe, Reached, InTime, Fits, Select, RowsAreSnapshots;
    var s := Reached(env, cfg, partitions, actions);
    FinalRowIsComplete(cfg.gold, cfg.targeted, s.silver, s.gold, id);
  }
}
