/** Passes smaller than the tables: which rows of Bronze a bounded pass routes, and which it never
    reaches however often it is repeated. */
module BoundedPasses {
  import opened Events
  import opened Ordering
  import opened Sequences
  import opened Aggregation
  import opened Validation
  import opened Warehouse
  import opened Ingestion
  import opened IngestionProperties
  import opened TrustRouting
  import opened GoldProperties
  import opened GoldHistory
  import opened Pipeline
  import opened Runs

  // ----- A batch of distinct events -----

  lemma ReplayPageIsDistinct(bronze: seq<InternalEvent>, limit: nat)
    requires DistinctIds(bronze)
    ensures DistinctIds(ReplayPage(bronze, 0, limit))
  {
    SortByCorrect(bronze, ReplayKey);
    DistinctPermutation(bronze, SortBy(bronze, ReplayKey));
  }

  /** Whatever the clock does, a batch succeeds exactly when its read succeeds, none of its writes
      fails, and no rejected event meets its own key from an earlier rejection. */
  lemma BatchSucceedsIff(env: Environment, rules: seq<Rule>, bronze: seq<InternalEvent>, s: Shelves, limit: nat)
    requires DistinctIds(bronze) && limit >= 1
    ensures var page, read := ReplayPage(bronze, 0, limit), s.(meter := Meter(s.meter.ticks, s.meter.ops + 1));
            RouteBatch(env, rules, bronze, s, limit).outcome.Done? <==>
            !env.fails(s.meter.ops) && forall i :: 0 <= i < |page| ==> WriteSucceeds(env, rules, read, page, i)
  {
    hide RoutePage, ReplayPage, WriteSucceeds;
    ReplayPageIsDistinct(bronze, limit);
    PageSucceedsIff(env, rules, s.(meter := Meter(s.meter.ticks, s.meter.ops + 1)), ReplayPage(bronze, 0, limit));
  }

  // ----- Rank in the replay order -----

  /** `x` comes before `e` in the replay order. */
  function Earlier(e: InternalEvent): InternalEvent -> bool {
    (x: InternalEvent) => x.eventId != e.eventId && KeyLe(ReplayKey(x), ReplayKey(e))
  }

  /** How many rows come before `e`. */
  function Rank(rows: seq<InternalEvent>, e: InternalEvent): nat { |Select(rows, Earlier(e))| }

  lemma RankInOrder(sorted: seq<InternalEvent>, i: nat)
    requires SortedBy(sorted, ReplayKey) && DistinctIds(sorted) && i < |sorted|
    ensures Rank(sorted, sorted[i]) == i
  {
    var e := sorted[i];
    var before, after := sorted[..i], sorted[i..];
    assert sorted == before + after;
    SelectConcat(before, after, Earlier(e));
    SelectAll(before, Earlier(e));
    forall j | 0 <= j < |after| ensures !Earlier(e)(after[j]) {
      if j > 0 {
        KeyTotalOrder(ReplayKey(e), ReplayKey(sorted[i + j]), ReplayKey(e));
      }
    }
    SelectNothing(after, Earlier(e));
  }

  /** The first `limit` rows of the replay order are those of rank below `limit`. */
  lemma OnPageIffRank(rows: seq<InternalEvent>, limit: nat, e: InternalEvent)
    requires DistinctIds(rows) && e in rows
    ensures e in ReplayPage(rows, 0, limit) <==> Rank(rows, e) < limit
  {
    var sorted := SortBy(rows, ReplayKey);
    SortByCorrect(rows, ReplayKey);
    DistinctPermutation(rows, sorted);
    SameMembers(rows, sorted);
    SelectPermutation(rows, sorted, Earlier(e));
    SameMembers(Select(rows, Earlier(e)), Select(sorted, Earlier(e)));
    var i :| 0 <= i < |sorted| && sorted[i] == e;
    RankInOrder(sorted, i);
    OnceOnPage(sorted, limit, i);
  }

  lemma OnceOnPage(sorted: seq<InternalEvent>, limit: nat, i: nat)
    requires DistinctIds(sorted) && i < |sorted|
    ensures sorted[i] in Page(sorted, 0, limit) <==> i < limit
  {
    var page := Page(sorted, 0, limit);
    if i < limit {
      assert page[i] == sorted[i];
    }
  }

  lemma RankGrows(rows: seq<InternalEvent>, more: seq<InternalEvent>, e: InternalEvent)
    requires rows <= more
    ensures Rank(rows, e) <= Rank(more, e)
  {
    assert more == rows + more[|rows|..];
    SelectConcat(rows, more[|rows|..], Earlier(e));
  }

  // ----- What a bounded batch covers -----

  /** After a successful batch a valid event of Bronze is in Silver exactly when it was, or when
      fewer than `limit` rows come before it in the replay order. */
  lemma RoutedIff(env: Environment, rules: seq<Rule>, bronze: seq<InternalEvent>, s: Shelves, limit: nat,
                  e: InternalEvent)
    requires DistinctIds(bronze) && Separated(rules, bronze, s.silver, s.quarantine) && e in bronze && Valid(rules, e)
    requires RouteBatch(env, rules, bronze, s, limit).outcome.Done?
    ensures e in Cores(RouteBatch(env, rules, bronze, s, limit).shelves.silver) <==>
            e in Cores(s.silver) || Rank(bronze, e) < limit
  {
    hide ReplayPage, RoutePage, Separated, Valid, Cores, DistinctIds, Rank, Extends;
    var page, start := ReplayPage(bronze, 0, limit), s.(meter := Meter(s.meter.ticks, s.meter.ops + 1));
    ReplayMembers(bronze, limit);
    OnPageIffRank(bronze, limit, e);
    SuccessSplitsPage(env, rules, bronze, start, page);
    RoutingKeepsSeparation(env, rules, bronze, start, page);
    var t := RoutePage(env, rules, start, page).shelves;
    if e in Cores(s.silver) {
      PrefixCores(s.silver, t.silver, e) by { assert Extends(start, t); ExtendsSilver(start, t); }
    }
  }

  lemma ExtendsSilver(s: Shelves, t: Shelves)
    requires Extends(s, t)
    ensures s.silver <= t.silver
  {
  }

  /** So a successful batch covers Bronze exactly when every valid row beyond the first `limit` of the
      replay order was in Silver already. */
  lemma BatchCoversIff(env: Environment, rules: seq<Rule>, bronze: seq<InternalEvent>, s: Shelves, limit: nat)
    requires DistinctIds(bronze) && Separated(rules, bronze, s.silver, s.quarantine)
    requires RouteBatch(env, rules, bronze, s, limit).outcome.Done?
    ensures (forall e :: e in bronze && Valid(rules, e) ==>
             e in Cores(RouteBatch(env, rules, bronze, s, limit).shelves.silver)) <==>
            (forall e :: e in bronze && Valid(rules, e) && Rank(bronze, e) >= limit ==> e in Cores(s.silver))
  {
    hide RouteBatch, Separated, Valid, Cores, DistinctIds, Rank;
    forall e | e in bronze && Valid(rules, e)
      ensures e in Cores(RouteBatch(env, rules, bronze, s, limit).shelves.silver) <==>
              e in Cores(s.silver) || Rank(bronze, e) < limit
    {
      RoutedIff(env, rules, bronze, s, limit, e);
    }
  }

  // ----- What repeated bounded passes never reach -----

  /** The event has been neither admitted nor rejected. */
  ghost predicate Unrouted(silver: seq<TrustedEvent>, quarantine: seq<QuarantineRecord>, e: InternalEvent) {
    e !in Cores(silver) && forall q :: q in quarantine ==> q.event != e
  }

  /** Routing a page, whatever fails, routes nothing else. */
  lemma {:induction false} PageRoutesOnlyItself(env: Environment, rules: seq<Rule>, s: Shelves,
                                                page: seq<InternalEvent>,
                                                e: InternalEvent)
    requires Unrouted(s.silver, s.quarantine, e) && e !in page
    ensures var t := RoutePage(env, rules, s, page).shelves; Unrouted(t.silver, t.quarantine, e)
  {
    hide Cores, Clashes, Valid, Judge;
    if |page| > 0 {
      var init, last := page[..|page| - 1], page[|page| - 1];
      assert last in page && forall x :: x in init ==> x in page;
      PageRoutesOnlyItself(env, rules, s, init, e);
      var before := RoutePage(env, rules, s, init).shelves;
      AdmittedCores(before.silver, TrustedEvent(last, env.now(before.meter.ticks)));
    }
  }

  /** A row of Bronze with at least `limit` rows before it, neither admitted nor rejected. */
  ghost predicate OutOfReach(s: Platform, limit: nat, e: InternalEvent) {
    e in s.feed.bronze && Rank(s.feed.bronze, e) >= limit && Unrouted(s.silver, s.quarantine, e)
  }

  lemma TrustStageSkips(env: Environment, cfg: Settings, s: Platform, batchSize: int, limit: nat, e: InternalEvent)
    requires Healthy(cfg, s) && OutOfReach(s, limit, e) && batchSize <= limit
    ensures OutOfReach(TrustStage(env, cfg, s, batchSize).platform, limit, e)
  {
    hide Safe, RoutePage, ReplayPage, Separated, OnlyNamesWindows, Unrouted, Rank;
    SafeFeedIsNamed(s.feed);
    if batchSize >= 1 && !env.fails(s.meter.ops) {
      OnPageIffRank(s.feed.bronze, batchSize, e);
      PageRoutesOnlyItself(env, cfg.rules, Shelves(s.silver, s.quarantine, Meter(s.meter.ticks, s.meter.ops + 1)),
                           ReplayPage(s.feed.bronze, 0, batchSize), e);
    }
  }

  lemma PassSkips(env: Environment, cfg: Settings, s: Platform, batchSize: int, limit: nat, e: InternalEvent)
    requires Shaped(s.feed) && Healthy(cfg, s) && Streaming(s.feed)
    requires OutOfReach(s, limit, e) && batchSize <= limit
    ensures OutOfReach(RunOnce(env, cfg, s, batchSize).platform, limit, e)
  {
    hide Healthy, IngestStage, TrustStage, GoldStage, Streaming, Unrouted, Rank, MonotoneClock, StrictClock;
    var ingested := IngestStage(env, s, batchSize);
    IngestStageKeeps(env, cfg, s, batchSize);
    RankGrows(s.feed.bronze, ingested.platform.feed.bronze, e);
    TrustStageSkips(env, cfg, ingested.platform, batchSize, limit, e);
    TrustStageKeeps(env, cfg, ingested.platform, batchSize);
    GoldStageKeeps(env, cfg, TrustStage(env, cfg, ingested.platform, batchSize).platform, batchSize);
  }

  lemma ActSkips(env: Environment, cfg: Settings, s: Platform, a: Action, limit: nat, e: InternalEvent)
    requires Healthy(cfg, s) && OutOfReach(s, limit, e) && (a.Process? ==> a.batchSize <= limit)
    requires Shaped(Restarted(s.feed))
    ensures OutOfReach(Act(env, cfg, s, a), limit, e)
  {
    hide Safe, RunOnce, Separated, OnlyNamesWindows, Streaming, Unrouted, Rank;
    match a
    case Produce(p, m) =>
    case Process(n) =>
      RestartKeeps(s.feed);
      PassSkips(env, cfg, s.(feed := Restarted(s.feed)), n, limit, e);
  }

  /** Bounded passes always start over: a row beyond the first `limit` of the replay order that has not
      been routed never is, however often passes of at most that size are run, and whatever arrives. */
  lemma {:induction false} BoundedRunsNeverReach(env: Environment, cfg: Settings, partitions: nat, actions: seq<Action>,
                                                 more: seq<Action>, limit: nat, e: InternalEvent)
    requires OutOfReach(Reached(env, cfg, partitions, actions), limit, e)
    requires forall i :: 0 <= i < |more| && more[i].Process? ==> more[i].batchSize <= limit
    ensures OutOfReach(Reached(env, cfg, partitions, actions + more), limit, e)
    decreases |more|
  {
    hide Healthy, Timely, Unclashed, OutOfReach, Act;
    if |more| == 0 {
      assert actions + more == actions;
    } else {
      var init, last := more[..|more| - 1], more[|more| - 1];
      assert actions + more == (actions + init) + [last];
      assert (actions + more)[..|actions + init|] == actions + init;
      BoundedRunsNeverReach(env, cfg, partitions, actions, init, limit, e);
      var mid := Reached(env, cfg, partitions, actions + init);
      ActKeeps(env, cfg, mid, last);
      ActSkips(env, cfg, mid, last, limit, e);
    }
  }
}
