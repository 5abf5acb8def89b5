/** The Gold stage: discover windows from a page of Silver, recompute each from all of Silver,
    and replace its row. */
module Gold {
  import opened Events
  import opened Identity
  import opened Ordering
  import opened Sequences
  import opened Windows
  import opened Aggregation
  import opened Warehouse

  datatype GoldSettings = GoldSettings(windowSeconds: int, latenessSeconds: int, vwapScale: nat)

  /** What the Gold stage may change. */
  datatype Ledger = Ledger(gold: GoldTable, meter: Meter)

  datatype Written<T> = Written(ledger: Ledger, outcome: Outcome<T>)

  /** A window of the grid, ordered as candidates are processed: by start, then by symbol. */
  function KeyFor(cfg: GoldSettings, e: InternalEvent): (k: Outcome<Key>)
    ensures k.Done? ==> StartInstant(k.value.time) && k.value.id == e.symbol
  {
    var start :- WindowStartFor(e.tradeTimestamp, cfg.windowSeconds);
    Done(Key(start, e.symbol))
  }

  function EndOf(cfg: GoldSettings, start: int): int { start + cfg.windowSeconds * SECOND }

  function Self(k: Key): Key { k }

  /** The set comprehension over a page; the first event without a window makes it raise. */
  function KeysOf(cfg: GoldSettings, events: seq<InternalEvent>): (r: Outcome<seq<Key>>)
    ensures r.Done? ==> forall k :: k in r.value ==> StartInstant(k.time)
  {
    if |events| == 0 then Done([])
    else
      var before :- KeysOf(cfg, events[..|events| - 1]);
      var k :- KeyFor(cfg, events[|events| - 1]);
      if k in before then Done(before) else Done(before + [k])
  }

  /** The events a recomputation reads: the targeted query, or the fallback scan of a page. */
  function ReadFor(silver: seq<TrustedEvent>, targeted: bool, symbol: string, start: int,
                   end: int): seq<InternalEvent> {
    if targeted then WindowQuery(silver, symbol, start, end, WINDOW_READ_LIMIT)
    else Select(Cores(SilverPage(silver, 0, WINDOW_READ_LIMIT)), InSpan(symbol, start, end))
  }

  function Recompute(env: Environment, cfg: GoldSettings, silver: seq<TrustedEvent>, targeted: bool, s: Ledger,
                     k: Key): Written<Option<MarketWindow>>
    requires StartInstant(k.time)
  {
    var end := EndOf(cfg, k.time);
    if !Representable(end) then Written(s, Raised(DataError))
    else
      var read := Meter(s.meter.ticks, s.meter.ops + 1);
      var events := ReadFor(silver, targeted, k.id, k.time, end);
      if env.fails(s.meter.ops) then Written(s.(meter := read), Raised(StorageError))
      else if |events| == 0 then Written(s.(meter := read), Done(None))
      else
        var now := env.now(s.meter.ticks);
        var timed := Meter(s.meter.ticks + 1, s.meter.ops + 1);
        var f := Aggregate(k.id, k.time, end, events, cfg.vwapScale);
        if f.Raised? then Written(s.(meter := timed), Raised(f.error))
        else
          var w := MarketWindow(f.value, now, IsFinalFor(end, now, cfg.latenessSeconds));
          var rejected := Rejects(s.gold, w);
          var stored := if env.Takes(timed.ops) && !rejected then s.gold[w.figures.windowId := w] else s.gold;
          Written(Ledger(stored, Meter(s.meter.ticks + 1, s.meter.ops + 2)),
                  if env.fails(timed.ops) || rejected then Raised(StorageError) else Done(Some(w)))
  }

  function RecomputeNext(env: Environment, cfg: GoldSettings, silver: seq<TrustedEvent>, targeted: bool,
                         before: Written<nat>, k: Key): Written<nat>
    requires StartInstant(k.time)
  {
    if before.outcome.Raised? then before
    else
      var step := Recompute(env, cfg, silver, targeted, before.ledger, k);
      if step.outcome.Raised? then Written(step.ledger, Raised(step.outcome.error))
      else Written(step.ledger, Done(before.outcome.value + if step.outcome.value.Some? then 1 else 0))
  }

  function RecomputeAll(env: Environment, cfg: GoldSettings, silver: seq<TrustedEvent>, targeted: bool, s: Ledger,
                        keys: seq<Key>): Written<nat>
    requires forall k :: k in keys ==> StartInstant(k.time)
  {
    if |keys| == 0 then Written(s, Done(0))
    else
      assert keys[|keys| - 1] in keys;
      RecomputeNext(env, cfg, silver, targeted, RecomputeAll(env, cfg, silver, targeted, s, keys[..|keys| - 1]),
                    keys[|keys| - 1])
  }

  lemma SortedKeys(keys: seq<Key>)
    ensures forall k :: k in SortBy(keys, Self) <==> k in keys
    ensures multiset(SortBy(keys, Self)) == multiset(keys) && |SortBy(keys, Self)| == |keys|
  {
    SortByCorrect(keys, Self);
    SameMembers(SortBy(keys, Self), keys);
  }

  /** One batch: a page of Silver, its windows in order, each recomputed. */
  function GoldBatch(env: Environment, cfg: GoldSettings, silver: seq<TrustedEvent>, targeted: bool, s: Ledger,
                     offset: int, limit: int): Written<nat> {
    if offset < 0 || limit < 1 then Written(s, Raised(ArgumentError))
    else
      var read := s.(meter := Meter(s.meter.ticks, s.meter.ops + 1));
      if env.fails(s.meter.ops) then Written(read, Raised(StorageError))
      else
        var keys := KeysOf(cfg, Cores(SilverPage(silver, offset, limit)));
        if keys.Raised? then Written(read, Raised(keys.error))
        else
          SortedKeys(keys.value);
          RecomputeAll(env, cfg, silver, targeted, read, SortBy(keys.value, Self))
  }

  lemma {:induction false} RecomputeStops(env: Environment, cfg: GoldSettings, silver: seq<TrustedEvent>,
                                          targeted: bool, s: Ledger, keys: seq<Key>, n: nat)
    requires (forall k :: k in keys ==> StartInstant(k.time)) && n <= |keys|
    requires RecomputeAll(env, cfg, silver, targeted, s, keys[..n]).outcome.Raised?
    ensures RecomputeAll(env, cfg, silver, targeted, s, keys) == RecomputeAll(env, cfg, silver, targeted, s, keys[..n])
    decreases |keys|
  {
    if n == |keys| {
      assert keys[..n] == keys;
    } else {
      assert keys[..|keys| - 1][..n] == keys[..n];
      assert keys[|keys| - 1] in keys;
      RecomputeStops(env, cfg, silver, targeted, s, keys[..|keys| - 1], n);
    }
  }

  class GoldProcessingService {
    const world: World
    const silver: SilverRepository
    const gold: GoldRepository
    const settings: GoldSettings

    constructor (world: World, silver: SilverRepository, gold: GoldRepository, settings: GoldSettings)
      requires silver.world == gold.world == world
      ensures Wired()
      ensures this.world == world && this.silver == silver && this.gold == gold && this.settings == settings
    {
      this.world, this.silver, this.gold, this.settings := world, silver, gold, settings;
    }

    predicate Wired() { silver.world == gold.world == world }

    function Now(): Ledger
      reads world, gold
    {
      Ledger(gold.rows, world.meter)
    }

    /** Reads a window's events, preferring the targeted query. */
    method ReadEvents(symbol: string, start: int, end: int) returns (r: Outcome<seq<InternalEvent>>)
      requires Wired()
      modifies world
      ensures world.meter == Meter(old(world.meter).ticks, old(world.meter).ops + 1)
      ensures r == if world.env.fails(old(world.meter).ops) then Raised(StorageError)
                   else Done(ReadFor(silver.rows, silver.targeted, symbol, start, end))
    {
      if silver.targeted {
        r := silver.ReadWindow(symbol, start, end, WINDOW_READ_LIMIT);
      } else {
        var page := silver.Read(0, WINDOW_READ_LIMIT);
        if page.Raised? { return Raised(page.error); }
        r := Done(Select(Cores(page.value), InSpan(symbol, start, end)));
      }
    }

    /** Recomputes one window from all of Silver and replaces its row. */
    method RecomputeWindow(key: Key) returns (r: Outcome<Option<MarketWindow>>)
      requires Wired() && StartInstant(key.time)
      modifies world, gold
      ensures Written(Now(), r) == Recompute(world.env, settings, silver.rows, silver.targeted, old(Now()), key)
    {
      hide Aggregate, ReadFor, Rejects;
      var end := EndOf(settings, key.time);
      if !Representable(end) { return Raised(DataError); }
      var events := ReadEvents(key.id, key.time, end);
      if events.Raised? { return Raised(events.error); }
      if |events.value| == 0 { return Done(None); }
      var now := world.Now();
      var window := AggregateWindow(key.id, key.time, end, events.value, now,
                                    IsFinalFor(end, now, settings.latenessSeconds), settings.vwapScale);
      if window.Raised? { return Raised(window.error); }
      var stored := gold.Upsert(window.value);
      if stored.Raised? { return Raised(stored.error); }
      r := Done(Some(window.value));
    }

    /** The candidate loop, counting the rows it writes. */
    method RecomputeEach(candidates: seq<Key>) returns (r: Outcome<nat>)
      requires Wired() && forall k :: k in candidates ==> StartInstant(k.time)
      modifies world, gold
      ensures Written(Now(), r) == RecomputeAll(world.env, settings, silver.rows, silver.targeted, old(Now()),
                                                candidates)
    {
      hide Recompute;
      var written := 0;
      ghost var start := Now();
      for i := 0 to |candidates|
        invariant Written(Now(), Done(written)) ==
                  RecomputeAll(world.env, settings, silver.rows, silver.targeted, start, candidates[..i])
      {
        assert candidates[..i + 1][..i] == candidates[..i] && candidates[..i + 1][i] == candidates[i];
        assert candidates[i] in candidates;
        ghost var before := RecomputeAll(world.env, settings, silver.rows, silver.targeted, start, candidates[..i]);
        assert RecomputeAll(world.env, settings, silver.rows, silver.targeted, start, candidates[..i + 1])
            == RecomputeNext(world.env, settings, silver.rows, silver.targeted, before, candidates[i]);
        var window := RecomputeWindow(candidates[i]);
        if window.Raised? {
          RecomputeStops(world.env, settings, silver.rows, silver.targeted, start, candidates, i + 1);
          return Raised(window.error);
        }
        if window.value.Some? { written := written + 1; }
      }
      assert candidates[..|candidates|] == candidates;
      r := Done(written);
    }

    /** Recomputes every window that a page of Silver mentions; returns how many rows it wrote. */
    method ProcessBatch(offset: int, limit: int) returns (r: Outcome<nat>)
      requires Wired()
      modifies world, gold
      ensures Written(Now(), r) == GoldBatch(world.env, settings, silver.rows, silver.targeted, old(Now()), offset,
                                             limit)
    {
      hide RecomputeNext, KeyFor, SilverPage, SortBy;
      if offset < 0 || limit < 1 { return Raised(ArgumentError); }
      var page := silver.Read(offset, limit);
      if page.Raised? { return Raised(page.error); }
      var keys := KeysOf(settings, Cores(page.value));
      if keys.Raised? { return Raised(keys.error); }
      SortedKeys(keys.value);
      if |page.value| == 0 { return Done(0); }
      r := RecomputeEach(SortBy(keys.value, Self));
    }
  }
}
