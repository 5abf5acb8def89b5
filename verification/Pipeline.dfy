/** One bounded pass through the three stages, and any run of passes, failures and restarts. */
module Pipeline {
  import opened Events
  import opened Validation
  import opened Warehouse
  import opened Ingestion
  import opened TrustRouting
  import opened Gold

  datatype Settings = Settings(rules: seq<Rule>, gold: GoldSettings, targeted: bool)

  datatype PipelineResult = PipelineResult(ingested: nat, validated: nat, quarantined: nat, goldWindows: nat)

  /** Everything a pass reads and writes. */
  datatype Platform = Platform(
    feed: Feed,
    silver: seq<TrustedEvent>,
    quarantine: seq<QuarantineRecord>,
    gold: GoldTable,
    meter: Meter)

  datatype Passed<T> = Passed(platform: Platform, outcome: Outcome<T>)

  function IngestStage(env: Environment, s: Platform, batchSize: int): (r: Passed<nat>)
    requires Shaped(s.feed)
    ensures Shaped(r.platform.feed)
  {
    var i := IngestUpTo(env, s.feed, s.meter, batchSize);
    Passed(s.(feed := i.feed, meter := i.meter), i.outcome)
  }

  function TrustStage(env: Environment, cfg: Settings, s: Platform, batchSize: int): Passed<TrustRoutingResult> {
    var r := RouteBatch(env, cfg.rules, s.feed.bronze, Shelves(s.silver, s.quarantine, s.meter), batchSize);
    Passed(s.(silver := r.shelves.silver, quarantine := r.shelves.quarantine, meter := r.shelves.meter), r.outcome)
  }

  function GoldStage(env: Environment, cfg: Settings, s: Platform, batchSize: int): Passed<nat> {
    var g := GoldBatch(env, cfg.gold, s.silver, cfg.targeted, Ledger(s.gold, s.meter), 0, batchSize);
    Passed(s.(gold := g.ledger.gold, meter := g.ledger.meter), g.outcome)
  }

  /** The stages in sequence; the first failure ends the pass and propagates. */
  function RunOnce(env: Environment, cfg: Settings, s: Platform, batchSize: int): (r: Passed<PipelineResult>)
    requires Shaped(s.feed)
    ensures Shaped(r.platform.feed)
  {
    var ingested := IngestStage(env, s, batchSize);
    if ingested.outcome.Raised? then Passed(ingested.platform, Raised(ingested.outcome.error))
    else
      var trust := TrustStage(env, cfg, ingested.platform, batchSize);
      if trust.outcome.Raised? then Passed(trust.platform, Raised(trust.outcome.error))
      else
        var gold := GoldStage(env, cfg, trust.platform, batchSize);
        if gold.outcome.Raised? then Passed(gold.platform, Raised(gold.outcome.error))
        else Passed(gold.platform, Done(PipelineResult(
          ingested.outcome.value,
          |trust.outcome.value.validated|, |trust.outcome.value.quarantined|,
          gold.outcome.value)))
  }

  class ProcessingPipeline {
    const world: World
    const ingestion: BronzeIngestionService
    const trust: TrustRoutingService
    const gold: GoldProcessingService
    const batchSize: int

    constructor (world: World, ingestion: BronzeIngestionService, trust: TrustRoutingService,
                 gold: GoldProcessingService, batchSize: int)
      requires batchSize >= 1
      requires ingestion.Wired() && trust.Wired() && gold.Wired()
      requires ingestion.world == trust.world == gold.world == world
      requires ingestion.repository == trust.bronze && trust.silver == gold.silver
      ensures Wired() && this.batchSize == batchSize
      ensures this.world == world && this.ingestion == ingestion && this.trust == trust && this.gold == gold
    {
      this.world, this.ingestion, this.trust, this.gold, this.batchSize := world, ingestion, trust, gold, batchSize;
    }

    predicate Wired() {
      && ingestion.Wired() && trust.Wired() && gold.Wired()
      && ingestion.world == trust.world == gold.world == world
      && ingestion.repository == trust.bronze && trust.silver == gold.silver
    }

    function Config(): Settings { Settings(trust.rules, gold.settings, gold.silver.targeted) }

    ghost function Now(): Platform
      requires ingestion.consumer.position.Some?
      reads world, ingestion, ingestion.broker, ingestion.consumer, ingestion.repository,
            trust.silver, trust.quarantine, gold.gold
    {
      Platform(ingestion.Now(), trust.silver.rows, trust.quarantine.records, gold.gold.rows, world.meter)
    }

    method Start()
      modifies ingestion.consumer
      ensures ingestion.consumer.position ==
              if old(ingestion.consumer.position).Some? then old(ingestion.consumer.position)
                  else Some(ingestion.consumer.broker.committed)
    {
      ingestion.consumer.Start();
    }

    method Close()
      modifies ingestion.consumer
      ensures ingestion.consumer.position == None
    {
      ingestion.consumer.Close();
    }

    /** One bounded pass through the three stages; without a connection nothing happens. */
    method RunStages() returns (r: Outcome<PipelineResult>)
      requires Wired() && (ingestion.consumer.position.Some? ==> Shaped(ingestion.Now()))
      modifies world, ingestion, ingestion.broker, ingestion.consumer, ingestion.repository,
               trust.silver, trust.quarantine, gold.gold
      ensures ingestion.consumer.position.Some? <==> old(ingestion.consumer.position).Some?
      ensures old(ingestion.consumer.position).Some? ==>
                Passed(Now(), r) == RunOnce(world.env, Config(), old(Now()), batchSize)
      ensures old(ingestion.consumer.position).None? ==>
                && r == Raised(if batchSize < 1 then ArgumentError else ConsumeError)
                && world.meter == old(world.meter) && ingestion.broker.log == old(ingestion.broker.log)
                && ingestion.broker.committed == old(ingestion.broker.committed)
                && ingestion.repository.rows == old(ingestion.repository.rows)
                && trust.silver.rows == old(trust.silver.rows)
                && trust.quarantine.records == old(trust.quarantine.records) && gold.gold.rows == old(gold.gold.rows)
    {
      hide IngestUpTo, RouteBatch, GoldBatch;
      var ingested := ingestion.Ingest(batchSize);
      if ingested.Raised? { return Raised(ingested.error); }
      var routed := trust.ProcessBatch(batchSize);
      if routed.Raised? { return Raised(routed.error); }
      var windows := gold.ProcessBatch(0, batchSize);
      if windows.Raised? { return Raised(windows.error); }
      r := Done(PipelineResult(ingested.value, |routed.value.validated|, |routed.value.quarantined|, windows.value));
    }

    /** A whole processing run: start, one pass, and close whatever happened. */
    method Run() returns (r: Outcome<PipelineResult>)
      requires Wired() && ingestion.consumer.position.None?
      requires |ingestion.broker.committed| == |ingestion.high| == |ingestion.broker.log|
      requires forall p :: 0 <= p < |ingestion.broker.log| ==>
               ingestion.broker.committed[p] <= |ingestion.broker.log[p]|
      modifies world, ingestion, ingestion.broker, ingestion.consumer, ingestion.repository,
               trust.silver, trust.quarantine, gold.gold
      ensures ingestion.consumer.position.None?
      ensures exists before: Platform, after: Platform ::
                && before == Platform(
                     Feed(old(ingestion.broker.log), old(ingestion.broker.committed), old(ingestion.broker.committed),
                          old(ingestion.repository.rows), old(ingestion.landed), old(ingestion.high)),
                     old(trust.silver.rows), old(trust.quarantine.records), old(gold.gold.rows), old(world.meter))
                && Shaped(before.feed) && RunOnce(world.env, Config(), before, batchSize) == Passed(after, r)
                && after == Platform(
                     Feed(ingestion.broker.log, ingestion.broker.committed, after.feed.position,
                          ingestion.repository.rows, ingestion.landed, ingestion.high),
                     trust.silver.rows, trust.quarantine.records, gold.gold.rows, world.meter)
    {
      hide RunOnce;
      Start();
      ghost var before := Now();
      r := RunStages();
      ghost var after := Now();
      Close();
      assert RunOnce(world.env, Config(), before, batchSize) == Passed(after, r);
    }
  }
}
