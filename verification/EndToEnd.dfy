/** Replay safety end to end: after any failures, one complete pass makes Gold the plain group-by of
    the valid events of the log. */
module EndToEnd {
  import opened Events
  import opened Identity
  import opened Ordering
  import opened Sequences
  import opened Aggregation
  import opened Validation
  import opened Warehouse
  import opened Ingestion
  import opened IngestionProperties
  import opened TrustRouting
  import opened Gold
  import opened GoldProperties
  import opened GoldHistory
  import opened Pipeline
  import opened Runs

  // ----- Counting -----

  /** How many messages the first `n` partitions hold. */
  function Total(log: seq<seq<Message>>, n: nat): nat
    requires n <= |log|
  {
    if n == 0 then 0 else Total(log, n - 1) + |log[n - 1]|
  }

  lemma {:induction false} LeftIsAtMostTotal(log: seq<seq<Message>>, position: seq<nat>, n: nat)
    requires n <= |log| && n <= |position| && forall p :: 0 <= p < n ==> position[p] <= |log[p]|
    ensures Left(log, position, n) <= Total(log, n)
  {
    if n > 0 {
      LeftIsAtMostTotal(log, position, n - 1);
    }
  }

  function Below(n: nat): ConsumedEvent -> bool { (c: ConsumedEvent) => c.partition < n }

  lemma {:induction false} SplitByPartition(landed: seq<ConsumedEvent>, n: nat)
    ensures |Select(landed, Below(n + 1))| == |Select(landed, Below(n))| + |Select(landed, FromPartition(n))|
  {
    if |landed| > 0 {
      SplitByPartition(landed[..|landed| - 1], n);
    }
  }

  lemma {:induction false} NoMoreDeliveriesThanMessages(p: nat, messages: seq<Message>)
    ensures |Deliveries(p, messages)| <= |messages|
  {
    if |messages| > 0 {
      NoMoreDeliveriesThanMessages(p, messages[..|messages| - 1]);
    }
  }

  lemma {:induction false} LandedBelow(s: Feed, n: nat)
    requires Safe(s) && n <= |s.log|
    ensures |Select(s.landed, Below(n))| <= Total(s.log, n)
  {
    hide LandAll, Deliveries, Left;
    if n == 0 {
      SelectNothing(s.landed, Below(0));
    } else {
      LandedBelow(s, n - 1);
      SplitByPartition(s.landed, n - 1);
      assert PartitionSafe(s, n - 1);
      NoMoreDeliveriesThanMessages(n - 1, s.log[n - 1][..s.high[n - 1]]);
    }
  }

  /** Bronze never holds more rows than the log holds messages. */
  lemma BronzeIsAtMostTheLog(s: Feed)
    requires Safe(s)
    ensures |s.bronze| <= Total(s.log, |s.log|)
  {
    LandedBelow(s, |s.log|);
    forall c | c in s.landed ensures Below(|s.log|)(c) {}
    SelectAll(s.landed, Below(|s.log|));
  }

  function Ids(s: seq<InternalEvent>): set<string> { set e | e in s :: e.eventId }

  lemma {:induction false} CountIds(s: seq<InternalEvent>)
    requires DistinctIds(s)
    ensures |Ids(s)| == |s|
  {
    if |s| > 0 {
      var init, last := s[..|s| - 1], s[|s| - 1];
      CountIds(init);
      assert s == init + [last];
      assert Ids(s) == Ids(init) + {last.eventId};
    }
  }

  lemma Subset<T>(a: set<T>, b: set<T>)
    requires a <= b
    ensures |a| <= |b|
  {
    assert b == a + (b - a);
  }

  /** Silver never holds more rows than Bronze. */
  lemma SilverIsAtMostBronze(rules: seq<Rule>, bronze: seq<InternalEvent>, silver: seq<TrustedEvent>,
                             quarantine: seq<QuarantineRecord>)
    requires DistinctIds(bronze) && Separated(rules, bronze, silver, quarantine)
    ensures |silver| <= |bronze|
  {
    CountIds(bronze);
    CountIds(Cores(silver));
    CoresMembers(silver);
    Subset(Ids(Cores(silver)), Ids(bronze));
  }

  // ----- Silver after a complete trust batch -----

  lemma DistinctSameMembers(a: seq<InternalEvent>, b: seq<InternalEvent>)
    requires DistinctIds(a) && DistinctIds(b) && forall e :: e in a <==> e in b
    ensures multiset(a) == multiset(b)
  {
    forall e ensures multiset(a)[e] == multiset(b)[e] {
      OccursOnce(a, e);
      OccursOnce(b, e);
      assert e in a <==> e in multiset(a);
      assert e in b <==> e in multiset(b);
    }
  }

  /** Retry convergence: after any history, one successful batch over all of Bronze leaves in Silver
      exactly the valid events of Bronze, each once. */
  lemma TrustConverges(env: Environment, rules: seq<Rule>, bronze: seq<InternalEvent>, s: Shelves, limit: nat)
    requires DistinctIds(bronze) && Separated(rules, bronze, s.silver, s.quarantine) && |bronze| <= limit
    requires RouteBatch(env, rules, bronze, s, limit).outcome.Done?
    ensures multiset(Cores(RouteBatch(env, rules, bronze, s, limit).shelves.silver)) ==
            multiset(Select(bronze, Passing(rules)))
    ensures s.silver <= RouteBatch(env, rules, bronze, s, limit).shelves.silver
  {
    hide ReplayPage, RoutePage, Separated, Select, Passing, Splits, DistinctIds, Cores, Extends;
    var page := ReplayPage(bronze, 0, limit);
    var start := s.(meter := Meter(s.meter.ticks, s.meter.ops + 1));
    ReplayMembers(bronze, limit);
    RoutingKeepsSeparation(env, rules, bronze, start, page);
    SuccessSplitsPage(env, rules, bronze, start, page);
    var t := RoutePage(env, rules, start, page);
    SplitMembers(rules, bronze, start, page, t.shelves, t.outcome.value);
  }

  lemma SplitMembers(rules: seq<Rule>, bronze: seq<InternalEvent>, s: Shelves, page: seq<InternalEvent>, t: Shelves,
                     r: TrustRoutingResult)
    requires DistinctIds(bronze) && Separated(rules, bronze, t.silver, t.quarantine)
    requires Splits(rules, s, page, t, r) && forall e :: e in bronze ==> e in page
    ensures multiset(Cores(t.silver)) == multiset(Select(bronze, Passing(rules)))
  {
    hide Valid, Cores, Select, DistinctIds, RecordEvents;
    CoresMembers(t.silver);
    SelectMembers(bronze, Passing(rules));
    SelectDistinct(bronze, Passing(rules));
    forall e ensures e in Cores(t.silver) <==> e in Select(bronze, Passing(rules)) {
      assert e in Select(bronze, Passing(rules)) <==> e in bronze && Valid(rules, e);
    }
    DistinctSameMembers(Cores(t.silver), Select(bronze, Passing(rules)));
  }

  // ----- Gold after a complete gold batch -----

  lemma PermutedGroup(cfg: GoldSettings, a: seq<InternalEvent>, b: seq<InternalEvent>, k: Key)
    requires StartInstant(k.time) && multiset(a) == multiset(b) && DistinctIds(a)
    ensures GroupFigures(cfg, a, k) == GroupFigures(cfg, b, k)
  {
    hide Aggregate;
    SelectPermutation(a, b, InGroup(cfg, k));
    SelectDistinct(a, InGroup(cfg, k));
    AggregateIgnoresOrder(k.id, k.time, EndOf(cfg, k.time), Select(a, InGroup(cfg, k)), Select(b, InGroup(cfg, k)),
                          cfg.vwapScale);
  }

  lemma NamesPermuted(cfg: GoldSettings, a: seq<InternalEvent>, b: seq<InternalEvent>, id: string)
    requires multiset(a) == multiset(b) && NamesWindow(cfg, a, id)
    ensures NamesWindow(cfg, b, id)
  {
    hide KeyFor, WindowIdFor;
    SameMembers(a, b);
    var e :| e in a && KeyFor(cfg, e).Done? && id == IdOf(KeyFor(cfg, e).value);
    assert e in b;
  }

  lemma RefreshedPermuted(cfg: GoldSettings, a: seq<InternalEvent>, b: seq<InternalEvent>, gold: GoldTable, k: Key)
    requires StartInstant(k.time) && multiset(a) == multiset(b) && DistinctIds(a) && Refreshed(cfg, a, gold, k)
    ensures Refreshed(cfg, b, gold, k)
  {
    hide GroupFigures, WindowIdFor, DistinctIds;
    PermutedGroup(cfg, a, b, k);
  }

  /** A group-by does not depend on the order of the events. */
  lemma GroupByIgnoresOrder(cfg: GoldSettings, gold: GoldTable, a: seq<InternalEvent>, b: seq<InternalEvent>)
    requires multiset(a) == multiset(b) && DistinctIds(a) && IsGroupBy(cfg, gold, a)
    ensures IsGroupBy(cfg, gold, b)
  {
    hide KeyFor, Refreshed, NamesWindow, DistinctIds, StartInstant;
    SameMembers(a, b);
    forall e | e in b ensures KeyFor(cfg, e).Done? && Refreshed(cfg, b, gold, KeyFor(cfg, e).value) {
      assert e in a;
      RefreshedPermuted(cfg, a, b, gold, KeyFor(cfg, e).value);
    }
    forall id | id in gold ensures NamesWindow(cfg, b, id) {
      NamesPermuted(cfg, a, b, id);
    }
  }

  /** One successful batch over all of Silver leaves Gold equal to the group-by of Silver. */
  lemma GoldConverges(env: Environment, cfg: GoldSettings, silver: seq<TrustedEvent>, targeted: bool, s: Ledger,
                      limit: nat)
    requires Groupable(cfg, silver, targeted) && OnlyNamesWindows(cfg, silver, s.gold) && |silver| <= limit
    requires GoldBatch(env, cfg, silver, targeted, s, 0, limit).outcome.Done?
    ensures IsGroupBy(cfg, GoldBatch(env, cfg, silver, targeted, s, 0, limit).ledger.gold, Cores(silver))
  {
    hide Groupable, OnlyNamesWindows, GoldBatch, IsGroupBy;
    BatchArguments(env, cfg, silver, targeted, s, limit);
    var pages := [PageRequest(0, limit)];
    assert pages[..0] == [];
    assert RunBatches(env, cfg, silver, targeted, s, pages[..0]) == Written(s, Done(()));
    forall e | e in Cores(silver) ensures OnSomePage(silver, pages, e) {
      WholePage(silver, limit, e);
      assert OnPage(silver, pages[0], e);
    }
    PagedRecomputationIsGroupBy(env, cfg, silver, targeted, s, pages);
  }

  lemma BatchArguments(env: Environment, cfg: GoldSettings, silver: seq<TrustedEvent>, targeted: bool, s: Ledger,
                       limit: nat)
    requires GoldBatch(env, cfg, silver, targeted, s, 0, limit).outcome.Done?
    ensures limit >= 1
  {
  }

  lemma WholePage(silver: seq<TrustedEvent>, limit: nat, e: InternalEvent)
    requires |silver| <= limit && e in Cores(silver)
    ensures e in Cores(SilverPage(silver, 0, limit))
  {
    SortByCorrect(silver, SilverKey);
    CoresPermutation(SortBy(silver, SilverKey), silver);
    SameMembers(Cores(SortBy(silver, SilverKey)), Cores(silver));
  }

  // ----- The end-to-end theorem -----

  /** The valid first occurrences of what has landed. */
  function ValidFirsts(rules: seq<Rule>, landed: seq<ConsumedEvent>): seq<InternalEvent> {
    Select(LandAll(landed), Passing(rules))
  }

  /** Every valid event of the log lies in the window it is assigned to, if it has one. */
  ghost predicate LogContained(cfg: Settings, log: seq<seq<Message>>) {
    forall p, o :: 0 <= p < |log| && 0 <= o < |log[p]| && log[p][o].Readable? && Valid(cfg.rules, log[p][o].event) ==>
                   Contained(cfg.gold, log[p][o].event)
  }

  lemma BronzeComesFromTheLog(s: Feed, e: InternalEvent) returns (p: nat, o: nat)
    requires Safe(s) && e in s.bronze
    ensures p < |s.log| && o < |s.log[p]| && s.log[p][o] == Readable(e)
  {
    hide LandAll, Deliveries, Left;
    LandAllMembers(s.landed);
    var c :| c in s.landed && c.event == e;
    p, o := c.partition, c.offset;
    assert PartitionSafe(s, p);
    SelectMembers(s.landed, FromPartition(p));
    DeliveriesMembers(p, s.log[p][..s.high[p]]);
  }

  lemma SilverIsContained(cfg: Settings, s: Platform)
    requires Safe(s.feed) && Separated(cfg.rules, s.feed.bronze, s.silver, s.quarantine)
    requires LogContained(cfg, s.feed.log)
    ensures forall e :: e in Cores(s.silver) ==> Contained(cfg.gold, e)
  {
    hide Safe, Contained, Valid;
    CoresMembers(s.silver);
    forall e | e in Cores(s.silver) ensures Contained(cfg.gold, e) {
      var t :| t in s.silver && t.event == e;
      var p, o := BronzeComesFromTheLog(s.feed, e);
    }
  }

  lemma {:induction false} LoopStaysInCalendar(env: Environment, cfg: GoldSettings, silver: seq<TrustedEvent>,
                                               targeted: bool, s: Ledger, keys: seq<Key>)
    requires forall k :: k in keys ==> StartInstant(k.time)
    requires RecomputeAll(env, cfg, silver, targeted, s, keys).outcome.Done?
    ensures forall k :: k in keys ==> Representable(EndOf(cfg, k.time))
  {
    hide Aggregate, ReadFor, Rejects;
    if |keys| > 0 {
      var init, last := keys[..|keys| - 1], keys[|keys| - 1];
      assert last in keys && keys == init + [last];
      LoopStaysInCalendar(env, cfg, silver, targeted, s, init);
    }
  }

  /** A batch that succeeds over all of Silver shows that every event there has a window. */
  lemma SuccessShowsWindows(env: Environment, cfg: GoldSettings, silver: seq<TrustedEvent>, targeted: bool, s: Ledger,
                            limit: nat)
    requires |silver| <= limit && GoldBatch(env, cfg, silver, targeted, s, 0, limit).outcome.Done?
    ensures forall e :: e in Cores(silver) ==> HasWindow(cfg, e)
  {
    hide KeyFor, RecomputeAll, SilverPage, SortBy, Representable, Cores;
    var page := Cores(SilverPage(silver, 0, limit));
    KeysOfMeaning(cfg, page);
    var keys := KeysOf(cfg, page).value;
    SortedKeys(keys);
    LoopStaysInCalendar(env, cfg, silver, targeted, s.(meter := Meter(s.meter.ticks, s.meter.ops + 1)),
                        SortBy(keys, Self));
    forall e | e in Cores(silver) ensures HasWindow(cfg, e) {
      WholePage(silver, limit, e);
      assert KeyFor(cfg, e).value in keys;
    }
  }

  /** A complete ingest stage: everything decodable has landed. */
  lemma IngestConverges(env: Environment, cfg: Settings, s: Platform, batchSize: int)
    requires Shaped(s.feed) && Healthy(cfg, s) && Streaming(s.feed) && Total(s.feed.log, |s.feed.log|) <= batchSize
    requires IngestStage(env, s, batchSize).outcome.Done?
    ensures var t := IngestStage(env, s, batchSize).platform.feed;
            Safe(t) && t.log == s.feed.log
            && forall p :: 0 <= p < |t.log| ==> Select(t.landed, FromPartition(p)) == Deliveries(p, t.log[p])
  {
    hide Safe, IngestStage, Healthy, Deliveries, Select, Streaming;
    LeftIsAtMostTotal(s.feed.log, s.feed.position, |s.feed.log|);
    IngestStageKeeps(env, cfg, s, batchSize);
    var t := IngestStage(env, s, batchSize).platform.feed;
    assert Safe(t) by { HealthyIsSafe(cfg, IngestStage(env, s, batchSize).platform); }
    forall p | 0 <= p < |t.log| ensures Select(t.landed, FromPartition(p)) == Deliveries(p, t.log[p]) {
      DrainedHasLanded(t, p);
    }
  }

  lemma HealthyIsSafe(cfg: Settings, s: Platform)
    requires Healthy(cfg, s)
    ensures Safe(s.feed) && DistinctIds(s.feed.bronze) && Separated(cfg.rules, s.feed.bronze, s.silver, s.quarantine)
    ensures OnlyNamesWindows(cfg.gold, s.silver, s.gold) && s.feed.bronze == LandAll(s.feed.landed)
  {
  }

  /** What a complete pass leaves. */
  ghost predicate Complete(cfg: Settings, log: seq<seq<Message>>, t: Platform) {
    && t.feed.log == log
    && (forall p :: 0 <= p < |log| ==> Select(t.feed.landed, FromPartition(p)) == Deliveries(p, log[p]))
    && multiset(Cores(t.silver)) == multiset(ValidFirsts(cfg.rules, t.feed.landed))
    && IsGroupBy(cfg.gold, t.gold, ValidFirsts(cfg.rules, t.feed.landed))
  }

  lemma PassConverges(env: Environment, cfg: Settings, s: Platform, batchSize: int)
    requires Shaped(s.feed) && Healthy(cfg, s) && Streaming(s.feed)
    requires Total(s.feed.log, |s.feed.log|) <= batchSize && LogContained(cfg, s.feed.log)
    requires RunOnce(env, cfg, s, batchSize).outcome.Done?
    requires AllFit(cfg.gold, RunOnce(env, cfg, s, batchSize).platform.silver, cfg.targeted)
    ensures Complete(cfg, s.feed.log, RunOnce(env, cfg, s, batchSize).platform)
  {
    hide Safe, IngestStage, TrustStage, GoldStage, Healthy, LogContained, AllFit, Deliveries, LandAll, Passing,
         IsGroupBy, Streaming, Total;
    var ingested := IngestStage(env, s, batchSize);
    IngestStageKeeps(env, cfg, s, batchSize);
    IngestConverges(env, cfg, s, batchSize);
    var trust := TrustStage(env, cfg, ingested.platform, batchSize);
    TrustStageKeeps(env, cfg, ingested.platform, batchSize);
    HealthyIsSafe(cfg, ingested.platform);
    BronzeIsAtMostTheLog(ingested.platform.feed);
    TrustStageConverges(env, cfg, ingested.platform, batchSize);
    GoldStageKeeps(env, cfg, trust.platform, batchSize);
    GoldStageConverges(env, cfg, trust.platform, batchSize);
  }

  lemma TrustStageConverges(env: Environment, cfg: Settings, s: Platform, batchSize: int)
    requires DistinctIds(s.feed.bronze) && Separated(cfg.rules, s.feed.bronze, s.silver, s.quarantine) &&
             |s.feed.bronze| <= batchSize
    requires s.feed.bronze == LandAll(s.feed.landed) && TrustStage(env, cfg, s, batchSize).outcome.Done?
    ensures multiset(Cores(TrustStage(env, cfg, s, batchSize).platform.silver)) ==
            multiset(ValidFirsts(cfg.rules, s.feed.landed))
  {
    hide RouteBatch, Separated, Select, LandAll, Cores;
    TrustConverges(env, cfg.rules, s.feed.bronze, Shelves(s.silver, s.quarantine, s.meter), batchSize);
  }

  lemma GoldStageConverges(env: Environment, cfg: Settings, s: Platform, batchSize: int)
    requires Healthy(cfg, s) && |s.feed.bronze| <= batchSize && LogContained(cfg, s.feed.log)
    requires AllFit(cfg.gold, s.silver, cfg.targeted) && GoldStage(env, cfg, s, batchSize).outcome.Done?
    requires multiset(Cores(s.silver)) == multiset(ValidFirsts(cfg.rules, s.feed.landed))
    ensures IsGroupBy(cfg.gold, GoldStage(env, cfg, s, batchSize).platform.gold, ValidFirsts(cfg.rules, s.feed.landed))
  {
    hide Safe, GoldBatch, LogContained, AllFit, ValidFirsts, IsGroupBy, OnlyNamesWindows, HasWindow, Contained, Valid;
    HealthyIsSafe(cfg, s);
    SilverIsAtMostBronze(cfg.rules, s.feed.bronze, s.silver, s.quarantine);
    SilverIsContained(cfg, s);
    StageArguments(env, cfg, s, batchSize);
    SuccessShowsWindows(env, cfg.gold, s.silver, cfg.targeted, Ledger(s.gold, s.meter), batchSize);
    GoldConverges(env, cfg.gold, s.silver, cfg.targeted, Ledger(s.gold, s.meter), batchSize);
    GroupByIgnoresOrder(cfg.gold, GoldStage(env, cfg, s, batchSize).platform.gold, Cores(s.silver),
                        ValidFirsts(cfg.rules, s.feed.landed));
  }

  lemma StageArguments(env: Environment, cfg: Settings, s: Platform, batchSize: int)
    requires GoldStage(env, cfg, s, batchSize).outcome.Done?
    ensures batchSize >= 1 && GoldBatch(env, cfg.gold, s.silver, cfg.targeted, Ledger(s.gold, s.meter), 0,
                                        batchSize).outcome.Done?
  {
  }

  /** End to end: after any run whatever, with any failures anywhere, one processing run that
      succeeds with a batch at least as long as the log leaves every decodable message landed,
      Silver holding exactly the valid first occurrences, and Gold equal to their plain group-by. */
  lemma EndToEndRefinement(env: Environment, cfg: Settings, partitions: nat, actions: seq<Action>, batchSize: int)
    requires var s := Reached(env, cfg, partitions, actions);
             Total(s.feed.log, |s.feed.log|) <= batchSize && LogContained(cfg, s.feed.log)
    requires var r := Reached(env, cfg, partitions, actions + [Process(batchSize)]);
             AllFit(cfg.gold, r.silver, cfg.targeted)
    requires RestartableRun(env, cfg, partitions, actions, batchSize).outcome.Done?
    ensures Complete(cfg, Reached(env, cfg, partitions, actions).feed.log,
                     Reached(env, cfg, partitions, actions + [Process(batchSize)]))
  {
    hide Safe, RunOnce, LogContained, AllFit, Complete, Total, Streaming;
    var s := Reached(env, cfg, partitions, actions);
    assert (actions + [Process(batchSize)])[..|actions|] == actions;
    RestartKeeps(s.feed);
    PassConverges(env, cfg, s.(feed := Restarted(s.feed)), batchSize);
  }

  /** The processing run that follows a history. */
  ghost function RestartableRun(env: Environment, cfg: Settings, partitions: nat, actions: seq<Action>,
                                batchSize: int): Passed<PipelineResult> {
    var s := Reached(env, cfg, partitions, actions);
    RestartKeeps(s.feed);
    ProcessingRun(env, cfg, s, batchSize)
  }

  /** On a single partition the reference is a function of the log alone. */
  lemma SinglePartitionReference(cfg: Settings, log: seq<seq<Message>>, t: Platform)
    requires Complete(cfg, log, t) && Safe(t.feed) && |log| == 1
    ensures IsGroupBy(cfg.gold, t.gold, ValidFirsts(cfg.rules, Deliveries(0, log[0])))
  {
    hide LandAll, Deliveries, IsGroupBy, Left, Passing;
    SelectAll(t.feed.landed, FromPartition(0));
  }
}
