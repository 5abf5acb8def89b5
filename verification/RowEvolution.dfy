/** How one Gold row changes over a whole run: it only grows, its clock reading never goes back,
    and once final, with every event of its window in time, only the reading changes. */
module RowEvolution {
  import opened Events
  import opened Identity
  import opened Ordering
  import opened Aggregation
  import opened Validation
  import opened Warehouse
  import opened Ingestion
  import opened IngestionProperties
  import opened TrustRouting
  import opened Gold
  import opened GoldProperties
  import opened GoldHistory
  import opened GoldFaults
  import opened Pipeline
  import opened Runs

  /** Nothing but the instant of the computation has changed. */
  predicate Settled(before: MarketWindow, after: MarketWindow) {
    after == before.(computedAt := after.computedAt)
  }

  ghost predicate Evolves(cfg: GoldSettings, silver: seq<TrustedEvent>, before: MarketWindow, after: MarketWindow) {
    && before.computedAt <= after.computedAt
    && (PositiveTrades(Cores(silver)) ==> Grown(before.figures, after.figures))
    && (before.isFinal && InTime(cfg, silver, before) ==> Settled(before, after))
  }

  lemma EvolvesTransitively(cfg: GoldSettings, silver: seq<TrustedEvent>, a: MarketWindow, b: MarketWindow,
                            c: MarketWindow)
    requires Evolves(cfg, silver, a, b) && Evolves(cfg, silver, b, c)
    ensures Evolves(cfg, silver, a, c)
  {
    hide PositiveTrades;
  }

  /** What holds with more of Silver in view holds with less. */
  lemma LessSilver(cfg: GoldSettings, silver: seq<TrustedEvent>, more: seq<TrustedEvent>, a: MarketWindow,
                   b: MarketWindow)
    requires silver <= more && Evolves(cfg, silver, a, b)
    ensures Evolves(cfg, more, a, b)
  {
    assert forall i :: 0 <= i < |silver| ==> Cores(silver)[i] == Cores(more)[i];
  }

  /** A row of the table, the key it is stored under, and reads that no cap cuts short. */
  ghost predicate Tracked(cfg: GoldSettings, targeted: bool, silver: seq<TrustedEvent>, gold: GoldTable, k: Key) {
    && StartInstant(k.time) && IdOf(k) in gold
    && DistinctIds(Cores(silver)) && Fits(silver, targeted, k.id, k.time, EndOf(cfg, k.time))
  }

  lemma RecomputeEvolves(env: Environment, cfg: GoldSettings, targeted: bool, silver: seq<TrustedEvent>, s: Ledger,
                         key: Key, k: Key)
    requires StartInstant(key.time) && MonotoneClock(env) && Tracked(cfg, targeted, silver, s.gold, k)
    requires Stamped(env, silver, s.gold, s.meter.ticks) && RowsAreSnapshots(cfg, targeted, silver, s.gold)
    ensures var gold := Recompute(env, cfg, silver, targeted, s, key).ledger.gold;
            Tracked(cfg, targeted, silver, gold, k) && Evolves(cfg, silver, s.gold[IdOf(k)], gold[IdOf(k)])
  {
    hide Recompute, RowFigures, Nonempty, DistinctIds, Fits, PositiveTrades, RowsAreSnapshots, InTime, WindowIdFor;
    RecomputeEffect(env, cfg, silver, targeted, s, key);
    var gold := Recompute(env, cfg, silver, targeted, s, key).ledger.gold;
    if gold != s.gold && IdOf(key) == IdOf(k) {
      WindowIdInjective(key.id, key.time, k.id, k.time);
      if PositiveTrades(Cores(silver)) {
        RewrittenRowGrows(env, cfg, targeted, silver, s, k);
      }
      if s.gold[IdOf(k)].isFinal && InTime(cfg, silver, s.gold[IdOf(k)]) {
        FinalRowStays(env, cfg, targeted, silver, s, k);
      }
    }
  }

  lemma {:induction false} LoopEvolves(env: Environment, cfg: GoldSettings, targeted: bool, silver: seq<TrustedEvent>,
                                       s: Ledger, keys: seq<Key>, k: Key)
    requires (forall x :: x in keys ==> StartInstant(x.time)) && MonotoneClock(env) &&
             Tracked(cfg, targeted, silver, s.gold, k)
    requires Stamped(env, silver, s.gold, s.meter.ticks) && RowsAreSnapshots(cfg, targeted, silver, s.gold)
    ensures var gold := RecomputeAll(env, cfg, silver, targeted, s, keys).ledger.gold;
            Tracked(cfg, targeted, silver, gold, k) && Evolves(cfg, silver, s.gold[IdOf(k)], gold[IdOf(k)])
  {
    hide Recompute, Evolves, Stamped, RowsAreSnapshots, MonotoneClock, Fits, DistinctIds, WindowIdFor;
    if |keys| == 0 {
      Unchanged(cfg, silver, s.gold[IdOf(k)]);
    } else {
      var init, last := keys[..|keys| - 1], keys[|keys| - 1];
      assert last in keys && forall x :: x in init ==> x in keys;
      LoopEvolves(env, cfg, targeted, silver, s, init, k);
      RecomputeAllKeepsSnapshots(env, cfg, targeted, silver, s, init);
      var before := RecomputeAll(env, cfg, silver, targeted, s, init);
      if before.outcome.Done? {
        RecomputeEvolves(env, cfg, targeted, silver, before.ledger, last, k);
        EvolvesTransitively(cfg, silver, s.gold[IdOf(k)], before.ledger.gold[IdOf(k)],
                            Recompute(env, cfg, silver, targeted, before.ledger, last).ledger.gold[IdOf(k)]);
      }
    }
  }

  lemma Unchanged(cfg: GoldSettings, silver: seq<TrustedEvent>, row: MarketWindow)
    ensures Evolves(cfg, silver, row, row)
  {
  }

  /** One batch, whatever fails. */
  lemma BatchEvolves(env: Environment, cfg: GoldSettings, targeted: bool, silver: seq<TrustedEvent>, s: Ledger,
                     offset: int, limit: int, k: Key)
    requires MonotoneClock(env) && Tracked(cfg, targeted, silver, s.gold, k)
    requires Stamped(env, silver, s.gold, s.meter.ticks) && RowsAreSnapshots(cfg, targeted, silver, s.gold)
    ensures var gold := GoldBatch(env, cfg, silver, targeted, s, offset, limit).ledger.gold;
            Tracked(cfg, targeted, silver, gold, k) && Evolves(cfg, silver, s.gold[IdOf(k)], gold[IdOf(k)])
  {
    hide RecomputeAll, Evolves, Stamped, RowsAreSnapshots, MonotoneClock, SilverPage, SortBy, Fits, DistinctIds,
         WindowIdFor;
    Unchanged(cfg, silver, s.gold[IdOf(k)]);
    if offset >= 0 && limit >= 1 && !env.fails(s.meter.ops) {
      var keys := KeysOf(cfg, Cores(SilverPage(silver, offset, limit)));
      if keys.Done? {
        SortedKeys(keys.value);
        LoopEvolves(env, cfg, targeted, silver, s.(meter := Meter(s.meter.ticks, s.meter.ops + 1)),
                    SortBy(keys.value, Self), k);
      }
    }
  }

  /** One pass, whatever fails: routing leaves the row alone, and the Gold stage lets it evolve. */
  lemma PassEvolves(env: Environment, cfg: Settings, s: Platform, batchSize: int, k: Key)
    requires Shaped(s.feed) && Healthy(cfg, s) && Streaming(s.feed) && MonotoneClock(env) && Timely(env, cfg, s)
    requires StartInstant(k.time) && IdOf(k) in s.gold
    requires Fits(RunOnce(env, cfg, s, batchSize).platform.silver, cfg.targeted, k.id, k.time, EndOf(cfg.gold, k.time))
    ensures var t := RunOnce(env, cfg, s, batchSize).platform;
            IdOf(k) in t.gold && Evolves(cfg.gold, t.silver, s.gold[IdOf(k)], t.gold[IdOf(k)])
  {
    hide IngestStage, TrustStage, GoldStage, Healthy, Streaming, MonotoneClock, Evolves, Fits, DistinctIds, WindowIdFor,
         Stamped, RowsAreSnapshots, Advances;
    var ingested := IngestStage(env, s, batchSize);
    IngestStageKeeps(env, cfg, s, batchSize);
    IngestStageTimely(env, cfg, s, batchSize);
    var trust := TrustStage(env, cfg, ingested.platform, batchSize);
    TrustStageKeeps(env, cfg, ingested.platform, batchSize);
    var t := RunOnce(env, cfg, s, batchSize).platform;
    Unchanged(cfg.gold, t.silver, s.gold[IdOf(k)]);
    if ingested.outcome.Done? && trust.outcome.Done? {
      GoldStageEvolves(env, cfg, trust.platform, batchSize, k);
    }
  }

  lemma IngestStageTimely(env: Environment, cfg: Settings, s: Platform, batchSize: int)
    requires Shaped(s.feed) && Healthy(cfg, s) && Streaming(s.feed) && Timely(env, cfg, s)
    ensures Timely(env, cfg, IngestStage(env, s, batchSize).platform)
  {
    hide IngestStage, Healthy, Streaming, Stamped, RowsAreSnapshots, Advances;
    IngestStageKeeps(env, cfg, s, batchSize);
  }

  lemma GoldStageEvolves(env: Environment, cfg: Settings, s: Platform, batchSize: int, k: Key)
    requires Healthy(cfg, s) && MonotoneClock(env) && Timely(env, cfg, s) && StartInstant(k.time) && IdOf(k) in s.gold
    requires var t := GoldStage(env, cfg, s, batchSize).platform;
             Fits(t.silver, cfg.targeted, k.id, k.time, EndOf(cfg.gold, k.time))
    ensures var t := GoldStage(env, cfg, s, batchSize).platform;
            IdOf(k) in t.gold && Evolves(cfg.gold, t.silver, s.gold[IdOf(k)], t.gold[IdOf(k)])
  {
    hide GoldBatch, Safe, OnlyNamesWindows, MonotoneClock, Evolves, Fits, DistinctIds, WindowIdFor, Stamped,
         RowsAreSnapshots;
    BatchEvolves(env, cfg.gold, cfg.targeted, s.silver, Ledger(s.gold, s.meter), 0, batchSize, k);
  }

  lemma ActEvolves(env: Environment, cfg: Settings, s: Platform, a: Action, k: Key)
    requires Healthy(cfg, s) && MonotoneClock(env) && Timely(env, cfg, s) && StartInstant(k.time) && IdOf(k) in s.gold
    requires Shaped(Restarted(s.feed))
    requires Fits(Act(env, cfg, s, a).silver, cfg.targeted, k.id, k.time, EndOf(cfg.gold, k.time))
    ensures var t := Act(env, cfg, s, a);
            IdOf(k) in t.gold && Evolves(cfg.gold, t.silver, s.gold[IdOf(k)], t.gold[IdOf(k)])
  {
    hide Safe, RunOnce, Separated, OnlyNamesWindows, MonotoneClock, Evolves, Fits, WindowIdFor, Stamped,
         RowsAreSnapshots, Streaming;
    match a
    case Produce(p, m) =>
      Unchanged(cfg.gold, s.silver, s.gold[IdOf(k)]);
    case Process(n) =>
      RestartKeeps(s.feed);
      PassEvolves(env, cfg, s.(feed := Restarted(s.feed)), n, k);
  }

  /** However a run continues, a row that Gold holds is still there, and has only evolved. */
  lemma {:induction false} RowEvolvesOverAllRuns(env: Environment, cfg: Settings, partitions: nat,
                                                 actions: seq<Action>, more: seq<Action>, k: Key)
    requires MonotoneClock(env) && StartInstant(k.time) && IdOf(k) in Reached(env, cfg, partitions, actions).gold
    requires Fits(Reached(env, cfg, partitions, actions + more).silver, cfg.targeted, k.id, k.time,
                  EndOf(cfg.gold, k.time))
    ensures var s, t := Reached(env, cfg, partitions, actions), Reached(env, cfg, partitions, actions + more);
            IdOf(k) in t.gold && Evolves(cfg.gold, t.silver, s.gold[IdOf(k)], t.gold[IdOf(k)])
    decreases |more|
  {
    hide Healthy, Timely, MonotoneClock, Evolves, Fits, WindowIdFor, Act;
    var s := Reached(env, cfg, partitions, actions);
    if |more| == 0 {
      assert actions + more == actions;
      Unchanged(cfg.gold, s.silver, s.gold[IdOf(k)]);
    } else {
      var init, last := more[..|more| - 1], more[|more| - 1];
      assert actions + more == (actions + init) + [last];
      assert ((actions + init) + [last])[..|actions + init|] == actions + init;
      var mid := Reached(env, cfg, partitions, actions + init);
      var t := Reached(env, cfg, partitions, actions + more);
      ActKeeps(env, cfg, mid, last);
      FitsPrefix(mid.silver, t.silver, cfg.targeted, k.id, k.time, EndOf(cfg.gold, k.time));
      RowEvolvesOverAllRuns(env, cfg, partitions, actions, init, k);
      ActEvolves(env, cfg, mid, last, k);
      LessSilver(cfg.gold, mid.silver, t.silver, s.gold[IdOf(k)], mid.gold[IdOf(k)]);
      EvolvesTransitively(cfg.gold, t.silver, s.gold[IdOf(k)], mid.gold[IdOf(k)], t.gold[IdOf(k)]);
    }
  }

  /** Watermark safety over time: as long as no event of its window is validated too late, a final
      row stays final, and nothing but `computed_at` ever changes. */
  lemma FinalRowIsSettled(env: Environment, cfg: Settings, partitions: nat, actions: seq<Action>, more: seq<Action>,
                          k: Key)
    requires MonotoneClock(env) && StartInstant(k.time) && IdOf(k) in Reached(env, cfg, partitions, actions).gold
    requires var s, t := Reached(env, cfg, partitions, actions), Reached(env, cfg, partitions, actions + more);
             && Fits(t.silver, cfg.targeted, k.id, k.time, EndOf(cfg.gold, k.time))
             && s.gold[IdOf(k)].isFinal && InTime(cfg.gold, t.silver, s.gold[IdOf(k)])
    ensures var s, t := Reached(env, cfg, partitions, actions), Reached(env, cfg, partitions, actions + more);
            && IdOf(k) in t.gold && t.gold[IdOf(k)].isFinal
            && t.gold[IdOf(k)].figures == s.gold[IdOf(k)].figures
            && s.gold[IdOf(k)].computedAt <= t.gold[IdOf(k)].computedAt
  {
    hide Reached, MonotoneClock, Fits, InTime, WindowIdFor;
    RowEvolvesOverAllRuns(env, cfg, partitions, actions, more, k);
  }

  /** With the default rules a row never loses a trade, volume or range, however a run continues. */
  lemma RowsOnlyGrow(env: Environment, cfg: Settings, partitions: nat, actions: seq<Action>, more: seq<Action>, k: Key)
    requires cfg.rules == DefaultRules()
    requires MonotoneClock(env) && StartInstant(k.time) && IdOf(k) in Reached(env, cfg, partitions, actions).gold
    requires Fits(Reached(env, cfg, partitions, actions + more).silver, cfg.targeted, k.id, k.time,
                  EndOf(cfg.gold, k.time))
    ensures var s, t := Reached(env, cfg, partitions, actions), Reached(env, cfg, partitions, actions + more);
            IdOf(k) in t.gold && Grown(s.gold[IdOf(k)].figures, t.gold[IdOf(k)].figures)
  {
    hide Reached, MonotoneClock, Fits, InTime, WindowIdFor, Separated, PositiveTrades, Safe, Grown;
    var t := Reached(env, cfg, partitions, actions + more);
    RowEvolvesOverAllRuns(env, cfg, partitions, actions, more, k);
    TrustedEventsArePositive(t.feed.bronze, t.silver, t.quarantine);
  }
}
