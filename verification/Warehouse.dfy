/** The four tables: what one insert does, what an ordered read returns, and the repositories
    that wrap them. Every repository operation is one input/output operation of the world; one that
    fails either changed nothing or had taken its whole effect. */
module Warehouse {
  import opened Events
  import opened Ordering
  import opened Sequences
  import opened Aggregation

  const WINDOW_READ_LIMIT: nat := 1_000_000

  // ----- Bronze: insert if absent, replay by arrival -----

  predicate HasId(rows: seq<InternalEvent>, id: string) {
    exists i :: 0 <= i < |rows| && rows[i].eventId == id
  }

  /** `INSERT ... ON CONFLICT (event_id) DO NOTHING`. */
  function Land(rows: seq<InternalEvent>, e: InternalEvent): (r: seq<InternalEvent>)
    ensures DistinctIds(rows) ==> DistinctIds(r)
    ensures HasId(r, e.eventId) && rows <= r
    ensures forall id :: HasId(rows, id) ==> HasId(r, id)
  {
    if HasId(rows, e.eventId) then rows
    else
      assert (rows + [e])[|rows|].eventId == e.eventId;
      assert forall i :: 0 <= i < |rows| ==> (rows + [e])[i] == rows[i];
      rows + [e]
  }

  /** `ORDER BY received_at, event_id OFFSET .. LIMIT ..`. */
  function ReplayPage(rows: seq<InternalEvent>, offset: nat, limit: nat): seq<InternalEvent> {
    Page(SortBy(rows, ReplayKey), offset, limit)
  }

  /** The replay order: earlier received first, and at the same microsecond by id. */
  lemma ReplayAscends(rows: seq<InternalEvent>, offset: nat, limit: nat)
    ensures var page := ReplayPage(rows, offset, limit);
            forall i, j :: 0 <= i < j < |page| ==>
              NoLater(page[i].receivedAt.micros, page[i].eventId, page[j].receivedAt.micros, page[j].eventId)
  {
    hide KeyLe, NoLater;
    var sorted, page := SortBy(rows, ReplayKey), ReplayPage(rows, offset, limit);
    SortByCorrect(rows, ReplayKey);
    PageRows(sorted, offset, limit);
    forall i, j | 0 <= i < j < |page|
      ensures NoLater(page[i].receivedAt.micros, page[i].eventId, page[j].receivedAt.micros, page[j].eventId)
    {
      KeyLeMeaning(ReplayKey(sorted[offset + i]), ReplayKey(sorted[offset + j]));
    }
  }

  class BronzeRepository {
    const world: World
    var rows: seq<InternalEvent>

    constructor (world: World)
      ensures this.world == world && rows == []
    {
      this.world := world;
      rows := [];
    }

    method Append(event: InternalEvent) returns (r: Outcome<()>)
      modifies this, world
      ensures world.meter == Meter(old(world.meter).ticks, old(world.meter).ops + 1)
      ensures r == if world.env.fails(old(world.meter).ops) then Raised(StorageError) else Done(())
      ensures rows == if world.env.Takes(old(world.meter).ops) then Land(old(rows), event) else old(rows)
    {
      var failed, takes := world.Attempt();
      if takes && !HasId(rows, event.eventId) {
        rows := rows + [event];
      }
      r := if failed then Raised(StorageError) else Done(());
    }

    method Replay(offset: int, limit: int) returns (r: Outcome<seq<InternalEvent>>)
      modifies world
      ensures if offset < 0 || limit < 1 then r == Raised(ArgumentError) && world.meter == old(world.meter)
              else && world.meter == Meter(old(world.meter).ticks, old(world.meter).ops + 1)
                   && r == if world.env.fails(old(world.meter).ops) then Raised(StorageError)
                           else Done(ReplayPage(rows, offset, limit))
    {
      if offset < 0 || limit < 1 { return Raised(ArgumentError); }
      var failed, _ := world.Attempt();
      if failed { return Raised(StorageError); }
      r := Done(ReplayPage(rows, offset, limit));
    }
  }

  // ----- Silver: insert if absent, page by validation, query by window -----

  /** `INSERT ... ON CONFLICT (event_id) DO NOTHING`. */
  function Admit(rows: seq<TrustedEvent>, t: TrustedEvent): seq<TrustedEvent> {
    if HasId(Cores(rows), t.event.eventId) then rows else rows + [t]
  }

  /** `ORDER BY validated_at, event_id OFFSET .. LIMIT ..`. */
  function SilverPage(rows: seq<TrustedEvent>, offset: nat, limit: nat): seq<TrustedEvent> {
    Page(SortBy(rows, SilverKey), offset, limit)
  }

  /** `symbol = .. AND trade_timestamp >= start AND trade_timestamp < end`. */
  function InSpan(symbol: string, start: int, end: int): InternalEvent -> bool {
    (e: InternalEvent) => e.symbol == symbol && start <= e.tradeTimestamp.micros < end
  }

  /** The targeted window query, ordered by `(trade_timestamp, event_id)` and capped. */
  function WindowQuery(rows: seq<TrustedEvent>, symbol: string, start: int, end: int, limit: nat): seq<InternalEvent> {
    Page(SortBy(Select(Cores(rows), InSpan(symbol, start, end)), TradeKey), 0, limit)
  }

  /** The order of Silver's pages: earlier validated first, and at the same microsecond by id. */
  lemma SilverAscends(rows: seq<TrustedEvent>, offset: nat, limit: nat)
    ensures var page := SilverPage(rows, offset, limit);
            forall i, j :: 0 <= i < j < |page| ==>
              NoLater(page[i].validatedAt, page[i].event.eventId, page[j].validatedAt, page[j].event.eventId)
  {
    hide KeyLe, NoLater;
    var sorted, page := SortBy(rows, SilverKey), SilverPage(rows, offset, limit);
    SortByCorrect(rows, SilverKey);
    PageRows(sorted, offset, limit);
    forall i, j | 0 <= i < j < |page|
      ensures NoLater(page[i].validatedAt, page[i].event.eventId, page[j].validatedAt, page[j].event.eventId)
    {
      KeyLeMeaning(SilverKey(sorted[offset + i]), SilverKey(sorted[offset + j]));
    }
  }

  /** The targeted query holds trades of the symbol from the start to before the end, earliest first. */
  lemma WindowQueryAscends(rows: seq<TrustedEvent>, symbol: string, start: int, end: int, limit: nat)
    ensures var page := WindowQuery(rows, symbol, start, end, limit);
            && (forall e :: e in page ==>
                  e in Cores(rows) && e.symbol == symbol && start <= e.tradeTimestamp.micros < end)
            && (forall i, j :: 0 <= i < j < |page| ==>
                  NoLater(page[i].tradeTimestamp.micros, page[i].eventId,
                          page[j].tradeTimestamp.micros, page[j].eventId))
  {
    hide KeyLe, NoLater, SortBy, Select, Page;
    var all := Select(Cores(rows), InSpan(symbol, start, end));
    var sorted, page := SortBy(all, TradeKey), WindowQuery(rows, symbol, start, end, limit);
    SortByCorrect(all, TradeKey);
    SameMembers(sorted, all);
    SelectMembers(Cores(rows), InSpan(symbol, start, end));
    PageRows(sorted, 0, limit);
    TradesAscend(sorted);
    forall e | e in page ensures e in all {
      var i :| 0 <= i < |page| && page[i] == e;
      assert sorted[0 + i] in sorted;
    }
  }

  lemma TradesAscend(sorted: seq<InternalEvent>)
    requires SortedBy(sorted, TradeKey)
    ensures forall i, j :: 0 <= i < j < |sorted| ==>
              NoLater(sorted[i].tradeTimestamp.micros, sorted[i].eventId,
                      sorted[j].tradeTimestamp.micros, sorted[j].eventId)
  {
    hide KeyLe, NoLater;
    forall i, j | 0 <= i < j < |sorted|
      ensures NoLater(sorted[i].tradeTimestamp.micros, sorted[i].eventId,
                      sorted[j].tradeTimestamp.micros, sorted[j].eventId)
    {
      KeyLeMeaning(TradeKey(sorted[i]), TradeKey(sorted[j]));
    }
  }

  /** What the targeted query leaves out comes after all that it holds, and only when it holds `limit`. */
  lemma WindowQueryIsFirst(rows: seq<TrustedEvent>, symbol: string, start: int, end: int, limit: nat, e: InternalEvent)
    requires e in Cores(rows) && e.symbol == symbol && start <= e.tradeTimestamp.micros < end
    requires e !in WindowQuery(rows, symbol, start, end, limit)
    ensures var page := WindowQuery(rows, symbol, start, end, limit);
            && |page| == limit
            && forall x :: x in page ==>
                 NoLater(x.tradeTimestamp.micros, x.eventId, e.tradeTimestamp.micros, e.eventId)
  {
    hide KeyLe, NoLater, SortBy, Select, Page;
    var all := Select(Cores(rows), InSpan(symbol, start, end));
    var sorted, page := SortBy(all, TradeKey), WindowQuery(rows, symbol, start, end, limit);
    SortByCorrect(all, TradeKey);
    SameMembers(sorted, all);
    SelectMembers(Cores(rows), InSpan(symbol, start, end));
    PageRows(sorted, 0, limit);
    TradesAscend(sorted);
    assert e in sorted;
    var j :| 0 <= j < |sorted| && sorted[j] == e;
    OffPage(sorted, limit, j);
    forall x | x in page ensures NoLater(x.tradeTimestamp.micros, x.eventId, e.tradeTimestamp.micros, e.eventId) {
      var i :| 0 <= i < |page| && page[i] == x;
      assert sorted[0 + i] == x;
    }
  }

  class SilverRepository {
    const world: World
    /** Whether this repository implements the targeted window query. */
    const targeted: bool
    var rows: seq<TrustedEvent>

    constructor (world: World, targeted: bool)
      ensures this.world == world && this.targeted == targeted && rows == []
    {
      this.world := world;
      this.targeted := targeted;
      rows := [];
    }

    method Append(trusted: TrustedEvent) returns (r: Outcome<()>)
      modifies this, world
      ensures world.meter == Meter(old(world.meter).ticks, old(world.meter).ops + 1)
      ensures r == if world.env.fails(old(world.meter).ops) then Raised(StorageError) else Done(())
      ensures rows == if world.env.Takes(old(world.meter).ops) then Admit(old(rows), trusted) else old(rows)
    {
      var failed, takes := world.Attempt();
      if takes && !HasId(Cores(rows), trusted.event.eventId) {
        rows := rows + [trusted];
      }
      r := if failed then Raised(StorageError) else Done(());
    }

    method Read(offset: int, limit: int) returns (r: Outcome<seq<TrustedEvent>>)
      modifies world
      ensures if offset < 0 || limit < 1 then r == Raised(ArgumentError) && world.meter == old(world.meter)
              else && world.meter == Meter(old(world.meter).ticks, old(world.meter).ops + 1)
                   && r == if world.env.fails(old(world.meter).ops) then Raised(StorageError)
                           else Done(SilverPage(rows, offset, limit))
    {
      if offset < 0 || limit < 1 { return Raised(ArgumentError); }
      var failed, _ := world.Attempt();
      if failed { return Raised(StorageError); }
      r := Done(SilverPage(rows, offset, limit));
    }

    method ReadWindow(symbol: string, start: int, end: int, limit: int) returns (r: Outcome<seq<InternalEvent>>)
      requires targeted
      modifies world
      ensures if limit < 1 then r == Raised(ArgumentError) && world.meter == old(world.meter)
              else && world.meter == Meter(old(world.meter).ticks, old(world.meter).ops + 1)
                   && r == if world.env.fails(old(world.meter).ops) then Raised(StorageError)
                           else Done(WindowQuery(rows, symbol, start, end, limit))
    {
      if limit < 1 { return Raised(ArgumentError); }
      var failed, _ := world.Attempt();
      if failed { return Raised(StorageError); }
      r := Done(WindowQuery(rows, symbol, start, end, limit));
    }
  }

  // ----- Quarantine: append under (event_id, quarantined_at) -----

  predicate Clashes(records: seq<QuarantineRecord>, id: string, at: int) {
    exists i :: 0 <= i < |records| && records[i].event.eventId == id && records[i].quarantinedAt == at
  }

  class QuarantineRepository {
    const world: World
    var records: seq<QuarantineRecord>

    constructor (world: World)
      ensures this.world == world && records == []
    {
      this.world := world;
      records := [];
    }

    method AppendRecord(event: InternalEvent, quarantinedAt: int, failures: seq<ValidationFailure>)
      returns (r: Outcome<()>)
      modifies this, world
      ensures world.meter == Meter(old(world.meter).ticks, old(world.meter).ops + 1)
      ensures var clash := Clashes(old(records), event.eventId, quarantinedAt);
              && r == (if world.env.fails(old(world.meter).ops) || clash then Raised(StorageError) else Done(()))
              && records == (if world.env.Takes(old(world.meter).ops) && !clash
                             then old(records) + [QuarantineRecord(event, quarantinedAt, failures)] else old(records))
    {
      var failed, takes := world.Attempt();
      if Clashes(records, event.eventId, quarantinedAt) { return Raised(StorageError); }
      if takes {
        records := records + [QuarantineRecord(event, quarantinedAt, failures)];
      }
      r := if failed then Raised(StorageError) else Done(());
    }
  }

  // ----- Gold: replace by window_id -----

  type GoldTable = map<string, MarketWindow>

  /** The table's CHECK constraints. */
  predicate MeetsChecks(f: Figures) { f.end > f.start && f.high >= f.low && f.tradeCount >= 0 }

  /** `UNIQUE (symbol, window_start)`: another row already names this pair. */
  predicate PairTaken(gold: GoldTable, f: Figures) {
    exists id :: id in gold && id != f.windowId
                 && gold[id].figures.symbol == f.symbol && gold[id].figures.start == f.start
  }

  predicate Rejects(gold: GoldTable, w: MarketWindow) { !MeetsChecks(w.figures) || PairTaken(gold, w.figures) }

  /** What the table's constraints are for: every row is stored under its own id, ends after it starts, has
      a range, and no two rows are about the same symbol and start. */
  ghost predicate TableSound(gold: GoldTable) {
    && (forall id :: id in gold ==>
          var f := gold[id].figures; f.windowId == id && f.start < f.end && f.low <= f.high)
    && (forall id, id' :: id in gold && id' in gold && id != id' ==>
          gold[id].figures.symbol != gold[id'].figures.symbol || gold[id].figures.start != gold[id'].figures.start)
  }

  /** A row is accepted exactly when the table stays sound with it. */
  lemma AcceptedIffSound(gold: GoldTable, w: MarketWindow)
    requires TableSound(gold)
    ensures !Rejects(gold, w) <==> TableSound(gold[w.figures.windowId := w])
  {
    var after := gold[w.figures.windowId := w];
    assert after[w.figures.windowId] == w;
    assert forall id :: id in gold && id != w.figures.windowId ==> id in after && after[id] == gold[id];
  }

  class GoldRepository {
    const world: World
    var rows: GoldTable

    constructor (world: World)
      ensures this.world == world && rows == map[]
    {
      this.world := world;
      rows := map[];
    }

    method Upsert(window: MarketWindow) returns (r: Outcome<()>)
      modifies this, world
      ensures world.meter == Meter(old(world.meter).ticks, old(world.meter).ops + 1)
      ensures var rejected := Rejects(old(rows), window);
              && r == (if world.env.fails(old(world.meter).ops) || rejected then Raised(StorageError) else Done(()))
              && rows == (if world.env.Takes(old(world.meter).ops) && !rejected
                          then old(rows)[window.figures.windowId := window] else old(rows))
    {
      var failed, takes := world.Attempt();
      if Rejects(rows, window) { return Raised(StorageError); }
      if takes {
        rows := rows[window.figures.windowId := window];
      }
      r := if failed then Raised(StorageError) else Done(());
    }
  }
}
