/** Gold over time: any sequence of batches, growing Silver, late events and finality. */
module GoldHistory {
  import opened Events
  import opened Identity
  import opened Ordering
  import opened Sequences
  import opened Aggregation
  import opened Validation
  import opened Warehouse
  import opened TrustRouting
  import opened Gold
  import opened GoldProperties

  // ----- Paging -----

  datatype PageRequest = PageRequest(offset: int, limit: int)

  /** Any sequence of batches over a fixed Silver. */
  function RunBatches(env: Environment, cfg: GoldSettings, silver: seq<TrustedEvent>, targeted: bool, s: Ledger,
                      pages: seq<PageRequest>): Written<()> {
    if |pages| == 0 then Written(s, Done(()))
    else
      var before := RunBatches(env, cfg, silver, targeted, s, pages[..|pages| - 1]);
      if before.outcome.Raised? then before
      else
        var last := pages[|pages| - 1];
        var r := GoldBatch(env, cfg, silver, targeted, before.ledger, last.offset, last.limit);
        Written(r.ledger, if r.outcome.Raised? then Raised(r.outcome.error) else Done(()))
  }

  ghost predicate OnPage(silver: seq<TrustedEvent>, p: PageRequest, e: InternalEvent) {
    p.offset >= 0 && p.limit >= 1 && e in Cores(SilverPage(silver, p.offset, p.limit))
  }

  ghost predicate OnSomePage(silver: seq<TrustedEvent>, pages: seq<PageRequest>, e: InternalEvent) {
    exists i :: 0 <= i < |pages| && OnPage(silver, pages[i], e)
  }

  /** No row is about a window Silver does not know; its figures may be stale. */
  ghost predicate OnlyNamesWindows(cfg: GoldSettings, silver: seq<TrustedEvent>, gold: GoldTable) {
    forall id :: id in gold ==> NamesWindow(cfg, Cores(silver), id)
  }

  /** A batch, successful or not, never writes a row for a window Silver does not know. */
  lemma BatchOnlyNamesWindows(env: Environment, cfg: GoldSettings, silver: seq<TrustedEvent>, targeted: bool,
                              s: Ledger, offset: int, limit: int)
    requires OnlyNamesWindows(cfg, silver, s.gold)
    ensures OnlyNamesWindows(cfg, silver, GoldBatch(env, cfg, silver, targeted, s, offset, limit).ledger.gold)
  {
    hide GoldBatch, KeyFor, RowFigures, Nonempty, Cores;
    var keys := BatchRewrites(env, cfg, silver, targeted, s, offset, limit);
    var gold := GoldBatch(env, cfg, silver, targeted, s, offset, limit).ledger.gold;
    forall id | id in gold ensures NamesWindow(cfg, Cores(silver), id) {
      if id !in s.gold || gold[id] != s.gold[id] {
        var k :| k in keys && id == IdOf(k) && Nonempty(cfg, silver, targeted, k);
        var e :| e in Cores(silver) && KeyFor(cfg, e) == Done(k);
      }
    }
  }

  lemma {:induction false} BatchesRefresh(env: Environment, cfg: GoldSettings, silver: seq<TrustedEvent>,
                                          targeted: bool, s: Ledger, pages: seq<PageRequest>)
    requires Groupable(cfg, silver, targeted) && OnlyNamesWindows(cfg, silver, s.gold)
    requires RunBatches(env, cfg, silver, targeted, s, pages).outcome.Done?
    ensures var gold := RunBatches(env, cfg, silver, targeted, s, pages).ledger.gold;
            && OnlyNamesWindows(cfg, silver, gold)
            && (forall e :: OnSomePage(silver, pages, e) ==>
                  KeyFor(cfg, e).Done? && Refreshed(cfg, Cores(silver), gold, KeyFor(cfg, e).value))
  {
    hide GoldBatch, KeyFor, Refreshed, Groupable, OnlyNamesWindows, Cores, SilverPage, StartInstant;
    if |pages| > 0 {
      var init, last := pages[..|pages| - 1], pages[|pages| - 1];
      BatchesRefresh(env, cfg, silver, targeted, s, init);
      var before := RunBatches(env, cfg, silver, targeted, s, init).ledger;
      BatchOnlyNamesWindows(env, cfg, silver, targeted, before, last.offset, last.limit);
      BatchRefreshes(env, cfg, silver, targeted, before, last.offset, last.limit);
      forall e | OnSomePage(silver, pages, e) && !OnPage(silver, last, e) ensures OnSomePage(silver, init, e) {
        var i :| 0 <= i < |pages| && OnPage(silver, pages[i], e);
        assert init[i] == pages[i];
      }
    }
  }

  /** Page boundaries do not matter: over a fixed Silver, any successful batches whose pages
      together cover it, in any order and with any overlaps, leave Gold equal to the plain
      group-by, whatever stale rows it held before. */
  lemma PagedRecomputationIsGroupBy(env: Environment, cfg: GoldSettings, silver: seq<TrustedEvent>, targeted: bool,
                                    s: Ledger, pages: seq<PageRequest>)
    requires Groupable(cfg, silver, targeted) && OnlyNamesWindows(cfg, silver, s.gold)
    requires RunBatches(env, cfg, silver, targeted, s, pages).outcome.Done?
    requires forall e :: e in Cores(silver) ==> OnSomePage(silver, pages, e)
    ensures IsGroupBy(cfg, RunBatches(env, cfg, silver, targeted, s, pages).ledger.gold, Cores(silver))
  {
    hide RunBatches, KeyFor, Refreshed, Groupable, NamesWindow, OnSomePage, StartInstant;
    BatchesRefresh(env, cfg, silver, targeted, s, pages);
  }

  // ----- Finality and order -----

  ghost predicate AllJudged(cfg: GoldSettings, gold: GoldTable) {
    forall id :: id in gold ==> Judged(cfg, gold[id])
  }

  lemma {:induction false} LoopKeepsJudged(env: Environment, cfg: GoldSettings, silver: seq<TrustedEvent>,
                                           targeted: bool, s: Ledger, keys: seq<Key>)
    requires (forall k :: k in keys ==> StartInstant(k.time)) && AllJudged(cfg, s.gold)
    ensures AllJudged(cfg, RecomputeAll(env, cfg, silver, targeted, s, keys).ledger.gold)
  {
    hide Recompute, Judged, RowFigures, Nonempty, IdOf;
    if |keys| > 0 {
      var init, last := keys[..|keys| - 1], keys[|keys| - 1];
      assert last in keys && forall x :: x in init ==> x in keys;
      LoopKeepsJudged(env, cfg, silver, targeted, s, init);
      var before := RecomputeAll(env, cfg, silver, targeted, s, init);
      RecomputeEffect(env, cfg, silver, targeted, before.ledger, last);
    }
  }

  /** A batch, successful or not, writes no row whose finality is wrong for the instant it shows. */
  lemma BatchKeepsJudged(env: Environment, cfg: GoldSettings, silver: seq<TrustedEvent>, targeted: bool, s: Ledger,
                         offset: int, limit: int)
    requires AllJudged(cfg, s.gold)
    ensures AllJudged(cfg, GoldBatch(env, cfg, silver, targeted, s, offset, limit).ledger.gold)
  {
    hide RecomputeAll, AllJudged, SilverPage, SortBy;
    if offset >= 0 && limit >= 1 && !env.fails(s.meter.ops) {
      var keys := KeysOf(cfg, Cores(SilverPage(silver, offset, limit)));
      if keys.Done? {
        SortedKeys(keys.value);
        LoopKeepsJudged(env, cfg, silver, targeted, s.(meter := Meter(s.meter.ticks, s.meter.ops + 1)),
                        SortBy(keys.value, Self));
      }
    }
  }

  /** The candidate loop reads the clock once for each window, in the order of the candidates. */
  lemma {:induction false} LoopStamps(env: Environment, cfg: GoldSettings, silver: seq<TrustedEvent>, targeted: bool,
                                      s: Ledger, keys: seq<Key>)
    requires forall k :: k in keys ==> StartInstant(k.time) && Nonempty(cfg, silver, targeted, k)
    requires forall i, j :: 0 <= i < j < |keys| ==> keys[i] != keys[j]
    requires RecomputeAll(env, cfg, silver, targeted, s, keys).outcome.Done?
    ensures var r := RecomputeAll(env, cfg, silver, targeted, s, keys).ledger;
            && r.meter.ticks == s.meter.ticks + |keys|
            && forall i :: 0 <= i < |keys| ==>
                 && keys[i] in keys && IdOf(keys[i]) in r.gold
                 && r.gold[IdOf(keys[i])].computedAt == env.now(s.meter.ticks + i)
  {
    hide Recompute, RowFigures, Nonempty, WindowIdFor, Judged;
    if |keys| > 0 {
      var init, last := keys[..|keys| - 1], keys[|keys| - 1];
      assert last in keys && (forall x :: x in init ==> x in keys);
      LoopStamps(env, cfg, silver, targeted, s, init);
      var before := RecomputeAll(env, cfg, silver, targeted, s, init);
      RecomputeEffect(env, cfg, silver, targeted, before.ledger, last);
      forall i | 0 <= i < |init| ensures IdOf(init[i]) != IdOf(last) {
        WindowIdInjective(init[i].id, init[i].time, last.id, last.time);
      }
    }
  }

  /** Windows are recomputed by start, then by symbol: under a strictly increasing clock the row of an earlier
      window of the page shows an earlier instant. */
  lemma EarlierWindowsFirst(env: Environment, cfg: GoldSettings, silver: seq<TrustedEvent>, targeted: bool, s: Ledger,
                            offset: int, limit: int, d: InternalEvent, e: InternalEvent)
    requires StrictClock(env) && Groupable(cfg, silver, targeted)
    requires GoldBatch(env, cfg, silver, targeted, s, offset, limit).outcome.Done?
    requires offset >= 0 && limit >= 1
    requires d in Cores(SilverPage(silver, offset, limit)) && e in Cores(SilverPage(silver, offset, limit))
    requires KeyFor(cfg, d).Done? && KeyFor(cfg, e).Done? && KeyFor(cfg, d) != KeyFor(cfg, e)
    requires var j, k := KeyFor(cfg, d).value, KeyFor(cfg, e).value; NoLater(j.time, j.id, k.time, k.id)
    ensures var gold := GoldBatch(env, cfg, silver, targeted, s, offset, limit).ledger.gold;
            var j, k := IdOf(KeyFor(cfg, d).value), IdOf(KeyFor(cfg, e).value);
            j in gold && k in gold && gold[j].computedAt < gold[k].computedAt
  {
    hide KeyFor, RecomputeAll, Groupable, SilverPage, SortBy, Cores, Nonempty, RowFigures, GroupFigures, NoLater, KeyLe,
         WindowsOf, WindowIdFor, GoldBatch, KeysOf, StartInstant, SortedBy;
    var page := Cores(SilverPage(silver, offset, limit));
    BatchIsLoop(env, cfg, silver, targeted, s, offset, limit);
    PageMembers(silver, offset, limit);
    PageCandidates(cfg, silver, targeted, page);
    KeysOfMeaning(cfg, page);
    var found := KeysOf(cfg, page).value;
    var keys := SortBy(found, Self);
    SortByCorrect(found, Self);
    DistinctKeys(found, keys);
    LoopStamps(env, cfg, silver, targeted, s.(meter := Meter(s.meter.ticks, s.meter.ops + 1)), keys);
    var i, j := PositionsAscend(keys, KeyFor(cfg, d).value, KeyFor(cfg, e).value);
  }

  /** A successful batch is its candidate loop. */
  lemma BatchIsLoop(env: Environment, cfg: GoldSettings, silver: seq<TrustedEvent>, targeted: bool, s: Ledger,
                    offset: int, limit: int)
    requires GoldBatch(env, cfg, silver, targeted, s, offset, limit).outcome.Done? && offset >= 0 && limit >= 1
    ensures KeysOf(cfg, Cores(SilverPage(silver, offset, limit))).Done?
    ensures var keys := SortBy(KeysOf(cfg, Cores(SilverPage(silver, offset, limit))).value, Self);
            && (forall k :: k in keys ==> StartInstant(k.time))
            && GoldBatch(env, cfg, silver, targeted, s, offset, limit)
            == RecomputeAll(env, cfg, silver, targeted, s.(meter := Meter(s.meter.ticks, s.meter.ops + 1)), keys)
  {
    hide KeyFor, RecomputeAll, SilverPage, SortBy, StartInstant;
    SortedKeys(KeysOf(cfg, Cores(SilverPage(silver, offset, limit))).value);
  }

  /** The windows that Silver has events to read for. */
  ghost function Recomputable(cfg: GoldSettings, silver: seq<TrustedEvent>, targeted: bool, keys: seq<Key>): set<Key> {
    set k | k in keys && Nonempty(cfg, silver, targeted, k)
  }

  lemma NothingToRecompute(cfg: GoldSettings, silver: seq<TrustedEvent>, targeted: bool)
    ensures Recomputable(cfg, silver, targeted, []) == {}
  {
  }

  lemma RecomputableSnoc(cfg: GoldSettings, silver: seq<TrustedEvent>, targeted: bool, keys: seq<Key>, last: Key)
    requires last !in keys
    ensures |Recomputable(cfg, silver, targeted, keys + [last])|
         == |Recomputable(cfg, silver, targeted, keys)| + if Nonempty(cfg, silver, targeted, last) then 1 else 0
  {
    hide Nonempty;
    var before := Recomputable(cfg, silver, targeted, keys);
    assert Recomputable(cfg, silver, targeted, keys + [last])
        == if Nonempty(cfg, silver, targeted, last) then before + {last} else before;
  }

  /** The candidate loop counts the windows that had something to read. */
  lemma {:induction false} LoopCounts(env: Environment, cfg: GoldSettings, silver: seq<TrustedEvent>, targeted: bool,
                                      s: Ledger, keys: seq<Key>)
    requires forall k :: k in keys ==> StartInstant(k.time)
    requires forall i, j :: 0 <= i < j < |keys| ==> keys[i] != keys[j]
    requires RecomputeAll(env, cfg, silver, targeted, s, keys).outcome.Done?
    ensures RecomputeAll(env, cfg, silver, targeted, s, keys).outcome.value
         == |Recomputable(cfg, silver, targeted, keys)|
  {
    hide Recompute, RowFigures, Nonempty, WindowIdFor, Judged, WroteRow, StartInstant, EndOf, Recomputable;
    if |keys| == 0 {
      NothingToRecompute(cfg, silver, targeted);
      assert keys == [];
    } else {
      var init, last := keys[..|keys| - 1], keys[|keys| - 1];
      assert last in keys && (forall x :: x in init ==> x in keys);
      LoopCounts(env, cfg, silver, targeted, s, init);
      var before := RecomputeAll(env, cfg, silver, targeted, s, init);
      RecomputeEffect(env, cfg, silver, targeted, before.ledger, last);
      RecomputableSnoc(cfg, silver, targeted, init, last);
      assert keys == init + [last];
    }
  }

  /** A successful batch counts the distinct windows of its page for which Silver has events to read; a window
      that all its events escaped is not counted. */
  lemma BatchCounts(env: Environment, cfg: GoldSettings, silver: seq<TrustedEvent>, targeted: bool, s: Ledger,
                    offset: int, limit: int)
    requires GoldBatch(env, cfg, silver, targeted, s, offset, limit).outcome.Done? && offset >= 0 && limit >= 1
    ensures GoldBatch(env, cfg, silver, targeted, s, offset, limit).outcome.value
         == |set k | k in WindowsOf(cfg, Cores(SilverPage(silver, offset, limit)))
                     && Nonempty(cfg, silver, targeted, k)|
  {
    hide KeyFor, RecomputeAll, SilverPage, SortBy, Nonempty, GoldBatch, KeysOf, StartInstant, SortedBy;
    var page := Cores(SilverPage(silver, offset, limit));
    BatchIsLoop(env, cfg, silver, targeted, s, offset, limit);
    KeysOfMeaning(cfg, page);
    var found := KeysOf(cfg, page).value;
    var keys := SortBy(found, Self);
    SortByCorrect(found, Self);
    DistinctKeys(found, keys);
    LoopCounts(env, cfg, silver, targeted, s.(meter := Meter(s.meter.ticks, s.meter.ops + 1)), keys);
    SameMembers(found, keys);
    assert Recomputable(cfg, silver, targeted, keys)
        == set k | k in WindowsOf(cfg, page) && Nonempty(cfg, silver, targeted, k);
  }

  lemma PositionsAscend(keys: seq<Key>, a: Key, b: Key) returns (i: nat, j: nat)
    requires SortedBy(keys, Self) && a in keys && b in keys && a != b && NoLater(a.time, a.id, b.time, b.id)
    ensures i < j < |keys| && keys[i] == a && keys[j] == b
  {
    hide KeyLe, NoLater;
    i :| 0 <= i < |keys| && keys[i] == a;
    j :| 0 <= j < |keys| && keys[j] == b;
    KeyLeMeaning(a, b);
    KeyTotalOrder(a, b, b);
  }

  lemma DistinctKeys(a: seq<Key>, b: seq<Key>)
    requires multiset(a) == multiset(b) && forall i, j :: 0 <= i < j < |a| ==> a[i] != a[j]
    ensures forall i, j :: 0 <= i < j < |b| ==> b[i] != b[j]
  {
    SameMembers(a, b);
    CountDistinct(a);
    assert (set k | k in a) == (set k | k in b);
    NoRepeats(b);
  }

  lemma {:induction false} NoRepeats(s: seq<Key>)
    requires |set k | k in s| == |s|
    ensures forall i, j :: 0 <= i < j < |s| ==> s[i] != s[j]
  {
    if |s| > 0 {
      var init, last := s[..|s| - 1], s[|s| - 1];
      assert s == init + [last];
      assert (set k | k in s) == (set k | k in init) + {last};
      AtMostAsMany(init);
      NoRepeats(init);
    }
  }

  lemma {:induction false} AtMostAsMany(s: seq<Key>)
    ensures |set k | k in s| <= |s|
  {
    if |s| > 0 {
      var init, last := s[..|s| - 1], s[|s| - 1];
      assert s == init + [last];
      assert (set k | k in s) == (set k | k in init) + {last};
      AtMostAsMany(init);
    }
  }

  // ----- Snapshots -----

  function FiguresAt(cfg: GoldSettings, targeted: bool, silver: seq<TrustedEvent>, k: Key): Outcome<Figures> {
    if StartInstant(k.time) then RowFigures(cfg, silver, targeted, k) else Raised(DataError)
  }

  function RowKey(row: MarketWindow): Key { Key(row.figures.start, row.figures.symbol) }

  /** The row was computed, and judged final or not, from the first `n` rows of Silver, and every
      later row was validated no earlier than that. */
  ghost predicate SnapshotAt(cfg: GoldSettings, targeted: bool, silver: seq<TrustedEvent>, id: string,
                             row: MarketWindow, n: nat) {
    && n <= |silver|
    && row.figures.windowId == id
    && Representable(EndOf(cfg, row.figures.start))
    && FiguresAt(cfg, targeted, silver[..n], RowKey(row)) == Done(row.figures)
    && Judged(cfg, row)
    && (forall i :: n <= i < |silver| ==> row.computedAt <= silver[i].validatedAt)
  }

  ghost predicate RowsAreSnapshots(cfg: GoldSettings, targeted: bool, silver: seq<TrustedEvent>, gold: GoldTable) {
    forall id :: id in gold ==> exists n: nat :: SnapshotAt(cfg, targeted, silver, id, gold[id], n)
  }

  /** Every stored instant is one the clock showed before. */
  ghost predicate Stamped(env: Environment, silver: seq<TrustedEvent>, gold: GoldTable, ticks: nat) {
    && (forall i, k: nat :: 0 <= i < |silver| && k >= ticks ==> silver[i].validatedAt <= env.now(k))
    && (forall id, k: nat :: id in gold && k >= ticks ==> gold[id].computedAt <= env.now(k))
  }

  /** Admitting an event later than every row was computed leaves every row a snapshot. */
  lemma AdmitKeepsSnapshots(env: Environment, cfg: GoldSettings, targeted: bool, silver: seq<TrustedEvent>,
                            gold: GoldTable, ticks: nat, e: InternalEvent)
    requires MonotoneClock(env) && Stamped(env, silver, gold, ticks) && RowsAreSnapshots(cfg, targeted, silver, gold)
    ensures var silver' := Admit(silver, TrustedEvent(e, env.now(ticks)));
            Stamped(env, silver', gold, ticks + 1) && RowsAreSnapshots(cfg, targeted, silver', gold)
  {
    hide FiguresAt, HasId, Judged;
    var t := TrustedEvent(e, env.now(ticks));
    forall id | id in gold ensures exists n: nat :: SnapshotAt(cfg, targeted, Admit(silver, t), id, gold[id], n) {
      var n: nat :| SnapshotAt(cfg, targeted, silver, id, gold[id], n);
      assert (silver + [t])[..n] == silver[..n];
      assert SnapshotAt(cfg, targeted, silver + [t], id, gold[id], n);
      assert SnapshotAt(cfg, targeted, Admit(silver, t), id, gold[id], n);
    }
  }

  lemma TickKeepsStamps(env: Environment, silver: seq<TrustedEvent>, gold: GoldTable, ticks: nat, later: nat)
    requires Stamped(env, silver, gold, ticks) && ticks <= later
    ensures Stamped(env, silver, gold, later)
  {
  }

  /** Routing a page, whatever fails, leaves every Gold row a snapshot. */
  lemma {:induction false} RoutingKeepsSnapshots(env: Environment, rules: seq<Rule>, cfg: GoldSettings,
                                                 targeted: bool, s: Shelves, page: seq<InternalEvent>, gold: GoldTable)
    requires MonotoneClock(env) && Stamped(env, s.silver, gold, s.meter.ticks) &&
             RowsAreSnapshots(cfg, targeted, s.silver, gold)
    ensures var t := RoutePage(env, rules, s, page).shelves;
            Stamped(env, t.silver, gold, t.meter.ticks) && RowsAreSnapshots(cfg, targeted, t.silver, gold)
  {
    hide RowsAreSnapshots, Stamped, Admit, Judge, MonotoneClock;
    if |page| > 0 {
      var init, e := page[..|page| - 1], page[|page| - 1];
      RoutingKeepsSnapshots(env, rules, cfg, targeted, s, init, gold);
      var before := RoutePage(env, rules, s, init).shelves;
      AdmitKeepsSnapshots(env, cfg, targeted, before.silver, gold, before.meter.ticks, e);
      TickKeepsStamps(env, before.silver, gold, before.meter.ticks, before.meter.ticks + 1);
    }
  }

  /** Recomputing a window, whatever fails, leaves every Gold row a snapshot. */
  lemma RecomputeKeepsSnapshots(env: Environment, cfg: GoldSettings, targeted: bool, silver: seq<TrustedEvent>,
                                s: Ledger, k: Key)
    requires StartInstant(k.time) && MonotoneClock(env)
    requires Stamped(env, silver, s.gold, s.meter.ticks) && RowsAreSnapshots(cfg, targeted, silver, s.gold)
    ensures var t := Recompute(env, cfg, silver, targeted, s, k).ledger;
            && Stamped(env, silver, t.gold, t.meter.ticks) && RowsAreSnapshots(cfg, targeted, silver, t.gold)
            && t.meter.ticks >= s.meter.ticks && t.meter.ops >= s.meter.ops
  {
    hide RowFigures, Recompute, IdOf, Nonempty;
    var t := Recompute(env, cfg, silver, targeted, s, k).ledger;
    RecomputeEffect(env, cfg, silver, targeted, s, k);
    TickKeepsStamps(env, silver, s.gold, s.meter.ticks, t.meter.ticks);
    if t.gold != s.gold {
      FiguresNamed(cfg, silver, targeted, k);
      assert silver[..|silver|] == silver;
      assert SnapshotAt(cfg, targeted, silver, IdOf(k), t.gold[IdOf(k)], |silver|);
      forall id | id in t.gold ensures exists n: nat :: SnapshotAt(cfg, targeted, silver, id, t.gold[id], n) {
        if id != IdOf(k) {
          var n: nat :| SnapshotAt(cfg, targeted, silver, id, s.gold[id], n);
        }
      }
    }
  }

  lemma FiguresNamed(cfg: GoldSettings, silver: seq<TrustedEvent>, targeted: bool, k: Key)
    requires StartInstant(k.time) && RowFigures(cfg, silver, targeted, k).Done?
    ensures var f := RowFigures(cfg, silver, targeted, k).value;
            f.windowId == IdOf(k) && f.symbol == k.id && f.start == k.time && f.end == EndOf(cfg, k.time)
  {
    hide Aggregate, ReadFor;
    AggregateNames(k.id, k.time, EndOf(cfg, k.time), ReadFor(silver, targeted, k.id, k.time, EndOf(cfg, k.time)),
                   cfg.vwapScale);
  }

  lemma {:induction false} RecomputeAllKeepsSnapshots(env: Environment, cfg: GoldSettings, targeted: bool,
                                                      silver: seq<TrustedEvent>, s: Ledger, keys: seq<Key>)
    requires (forall k :: k in keys ==> StartInstant(k.time)) && MonotoneClock(env)
    requires Stamped(env, silver, s.gold, s.meter.ticks) && RowsAreSnapshots(cfg, targeted, silver, s.gold)
    ensures var t := RecomputeAll(env, cfg, silver, targeted, s, keys).ledger;
            && Stamped(env, silver, t.gold, t.meter.ticks) && RowsAreSnapshots(cfg, targeted, silver, t.gold)
            && t.meter.ticks >= s.meter.ticks && t.meter.ops >= s.meter.ops
  {
    hide Recompute, Stamped, RowsAreSnapshots, MonotoneClock;
    if |keys| > 0 {
      var init, k := keys[..|keys| - 1], keys[|keys| - 1];
      assert k in keys && forall x :: x in init ==> x in keys;
      RecomputeAllKeepsSnapshots(env, cfg, targeted, silver, s, init);
      var before := RecomputeAll(env, cfg, silver, targeted, s, init);
      RecomputeKeepsSnapshots(env, cfg, targeted, silver, before.ledger, k);
    }
  }

  /** Every row a batch leaves equals the aggregate of some earlier state of Silver. */
  lemma BatchKeepsSnapshots(env: Environment, cfg: GoldSettings, targeted: bool, silver: seq<TrustedEvent>, s: Ledger,
                            offset: int, limit: int)
    requires MonotoneClock(env)
    requires Stamped(env, silver, s.gold, s.meter.ticks) && RowsAreSnapshots(cfg, targeted, silver, s.gold)
    ensures var t := GoldBatch(env, cfg, silver, targeted, s, offset, limit).ledger;
            && Stamped(env, silver, t.gold, t.meter.ticks) && RowsAreSnapshots(cfg, targeted, silver, t.gold)
            && t.meter.ticks >= s.meter.ticks && t.meter.ops >= s.meter.ops
  {
    hide RecomputeAll, Stamped, RowsAreSnapshots, MonotoneClock, SilverPage;
    if offset >= 0 && limit >= 1 && !env.fails(s.meter.ops) {
      var keys := KeysOf(cfg, Cores(SilverPage(silver, offset, limit)));
      if keys.Done? {
        SortedKeys(keys.value);
        RecomputeAllKeepsSnapshots(env, cfg, targeted, silver, s.(meter := Meter(s.meter.ticks, s.meter.ops + 1)),
                                   SortBy(keys.value, Self));
      }
    }
  }

  // ----- Watermark safety -----

  /** No event of the row's window was validated at or after its end plus the allowed lateness. */
  ghost predicate InTime(cfg: GoldSettings, silver: seq<TrustedEvent>, row: MarketWindow) {
    forall i :: 0 <= i < |silver| && InSpan(row.figures.symbol, row.figures.start,
                                            EndOf(cfg, row.figures.start))(silver[i].event) ==>
                silver[i].validatedAt < EndOf(cfg, row.figures.start) + cfg.latenessSeconds * SECOND
  }

  lemma {:induction false} SelectNothing<T(!new)>(s: seq<T>, p: T -> bool)
    requires forall i :: 0 <= i < |s| ==> !p(s[i])
    ensures Select(s, p) == []
  {
    if |s| > 0 {
      SelectNothing(s[..|s| - 1], p);
    }
  }

  /** Nothing of a final row's window came after its snapshot. */
  lemma NothingAfterFinal(cfg: GoldSettings, targeted: bool, silver: seq<TrustedEvent>, id: string, row: MarketWindow,
                          n: nat)
    requires SnapshotAt(cfg, targeted, silver, id, row, n) && row.isFinal && InTime(cfg, silver, row)
    ensures var span := InSpan(row.figures.symbol, row.figures.start, EndOf(cfg, row.figures.start));
            Select(Cores(silver), span) == Select(Cores(silver[..n]), span)
  {
    hide FiguresAt;
    var span := InSpan(row.figures.symbol, row.figures.start, EndOf(cfg, row.figures.start));
    var late := Cores(silver)[n..];
    assert Cores(silver) == Cores(silver[..n]) + late;
    SelectNothing(late, span);
    SelectConcat(Cores(silver[..n]), late, span);
  }

  /** Watermark safety: once a row is final and its window's events are in time, it is the
      aggregate of every event the window has, however much Silver has grown since. */
  lemma FinalRowIsComplete(cfg: GoldSettings, targeted: bool, silver: seq<TrustedEvent>, gold: GoldTable, id: string)
    requires RowsAreSnapshots(cfg, targeted, silver, gold) && id in gold && gold[id].isFinal
    requires DistinctIds(Cores(silver)) && InTime(cfg, silver, gold[id])
    requires Fits(silver, targeted, gold[id].figures.symbol, gold[id].figures.start, EndOf(cfg, gold[id].figures.start))
    ensures StartInstant(gold[id].figures.start)
    ensures var f := gold[id].figures;
            Aggregate(f.symbol, f.start, EndOf(cfg, f.start),
                      Select(Cores(silver), InSpan(f.symbol, f.start, EndOf(cfg, f.start))), cfg.vwapScale) == Done(f)
  {
    hide Aggregate, ReadFor, InTime;
    var row := gold[id];
    var f := row.figures;
    var n: nat :| SnapshotAt(cfg, targeted, silver, id, row, n);
    NothingAfterFinal(cfg, targeted, silver, id, row, n);
    DistinctPrefix(silver, n);
    ReadModeIsIrrelevant(silver[..n], targeted, f.symbol, f.start, EndOf(cfg, f.start), cfg.vwapScale);
  }

  lemma DistinctPrefix(silver: seq<TrustedEvent>, n: nat)
    requires n <= |silver| && DistinctIds(Cores(silver))
    ensures DistinctIds(Cores(silver[..n]))
  {
    assert Cores(silver[..n]) == Cores(silver)[..n];
  }

  /** ... and recomputing it, whatever fails, changes nothing but `computed_at`: it stays final. */
  lemma FinalRowStays(env: Environment, cfg: GoldSettings, targeted: bool, silver: seq<TrustedEvent>, s: Ledger, k: Key)
    requires MonotoneClock(env) && Stamped(env, silver, s.gold, s.meter.ticks)
    requires RowsAreSnapshots(cfg, targeted, silver, s.gold) && DistinctIds(Cores(silver))
    requires StartInstant(k.time) && IdOf(k) in s.gold && s.gold[IdOf(k)].isFinal
    requires InTime(cfg, silver, s.gold[IdOf(k)]) && Fits(silver, targeted, k.id, k.time, EndOf(cfg, k.time))
    ensures var gold := Recompute(env, cfg, silver, targeted, s, k).ledger.gold;
            && IdOf(k) in gold
            && var before, after := s.gold[IdOf(k)], gold[IdOf(k)];
            && gold == s.gold[IdOf(k) := after]
            && after == before.(computedAt := after.computedAt) && after.computedAt >= before.computedAt
  {
    hide Aggregate, ReadFor, Recompute, InTime, Fits, DistinctIds, Nonempty, WindowIdFor;
    var row := s.gold[IdOf(k)];
    var n := SnapshotOfKey(cfg, targeted, silver, s.gold, k);
    FinalRowIsComplete(cfg, targeted, silver, s.gold, IdOf(k));
    ReadModeIsIrrelevant(silver, targeted, k.id, k.time, EndOf(cfg, k.time), cfg.vwapScale);
    RecomputeEffect(env, cfg, silver, targeted, s, k);
    assert s.gold == s.gold[IdOf(k) := row];
  }

  /** The row stored under a key's id is that key's row. */
  lemma SnapshotOfKey(cfg: GoldSettings, targeted: bool, silver: seq<TrustedEvent>, gold: GoldTable, k: Key)
    returns (n: nat)
    requires RowsAreSnapshots(cfg, targeted, silver, gold) && StartInstant(k.time) && IdOf(k) in gold
    ensures SnapshotAt(cfg, targeted, silver, IdOf(k), gold[IdOf(k)], n)
    ensures RowKey(gold[IdOf(k)]) == k && RowFigures(cfg, silver[..n], targeted, k) == Done(gold[IdOf(k)].figures)
  {
    hide Aggregate, ReadFor, WindowIdFor;
    n :| SnapshotAt(cfg, targeted, silver, IdOf(k), gold[IdOf(k)], n);
    var f := gold[IdOf(k)].figures;
    AggregateNames(f.symbol, f.start, EndOf(cfg, f.start),
                   ReadFor(silver[..n], targeted, f.symbol, f.start, EndOf(cfg, f.start)), cfg.vwapScale);
    WindowIdInjective(f.symbol, f.start, k.id, k.time);
  }

  // ----- Row evolution -----

  /** Nothing was lost from `f` to `g`: trades, volumes and range only grow. */
  predicate Grown(f: Figures, g: Figures) {
    && f.tradeCount <= g.tradeCount && f.volume <= g.volume
    && f.buyVolume <= g.buyVolume && f.sellVolume <= g.sellVolume
    && g.low <= f.low && f.high <= g.high
  }

  /** Successive writes of one window never lose volume, trades or range. */
  lemma RewrittenRowGrows(env: Environment, cfg: GoldSettings, targeted: bool, silver: seq<TrustedEvent>, s: Ledger,
                          k: Key)
    requires RowsAreSnapshots(cfg, targeted, silver, s.gold) && DistinctIds(Cores(silver)) &&
             PositiveTrades(Cores(silver))
    requires StartInstant(k.time) && IdOf(k) in s.gold && Fits(silver, targeted, k.id, k.time, EndOf(cfg, k.time))
    ensures var gold := Recompute(env, cfg, silver, targeted, s, k).ledger.gold;
            && IdOf(k) in gold && gold == s.gold[IdOf(k) := gold[IdOf(k)]]
            && Grown(s.gold[IdOf(k)].figures, gold[IdOf(k)].figures)
  {
    hide RowFigures, Recompute, DistinctIds, PositiveTrades, Fits, RowsAreSnapshots, WindowIdFor, Nonempty;
    var gold := Recompute(env, cfg, silver, targeted, s, k).ledger.gold;
    var n := SnapshotOfKey(cfg, targeted, silver, s.gold, k);
    RecomputeEffect(env, cfg, silver, targeted, s, k);
    assert s.gold == s.gold[IdOf(k) := s.gold[IdOf(k)]];
    if gold != s.gold {
      PrefixFiguresGrow(cfg, targeted, silver, n, k, s.gold[IdOf(k)].figures, gold[IdOf(k)].figures);
    }
  }

  // ----- Exactly when a rewrite changes a row -----

  /** The events of Silver that a window's recomputation is about. */
  function WindowEvents(cfg: GoldSettings, silver: seq<TrustedEvent>, k: Key): seq<InternalEvent> {
    Select(Cores(silver), InSpan(k.id, k.time, EndOf(cfg, k.time)))
  }

  /** A snapshot has the figures of all of Silver exactly when it counted every event of its window. */
  lemma SnapshotIsCurrentIff(cfg: GoldSettings, targeted: bool, silver: seq<TrustedEvent>, gold: GoldTable, k: Key)
    requires RowsAreSnapshots(cfg, targeted, silver, gold) && DistinctIds(Cores(silver))
    requires StartInstant(k.time) && IdOf(k) in gold && Fits(silver, targeted, k.id, k.time, EndOf(cfg, k.time))
    ensures RowFigures(cfg, silver, targeted, k) == Done(gold[IdOf(k)].figures) <==>
            gold[IdOf(k)].figures.tradeCount == |WindowEvents(cfg, silver, k)|
  {
    hide Aggregate, ReadFor, WindowIdFor, DistinctIds, RowsAreSnapshots;
    var end, f := EndOf(cfg, k.time), gold[IdOf(k)].figures;
    var n := SnapshotOfKey(cfg, targeted, silver, gold, k);
    var older, later := Cores(silver)[..n], Cores(silver)[n..];
    assert Cores(silver) == older + later && Cores(silver[..n]) == older;
    SelectConcat(older, later, InSpan(k.id, k.time, end));
    FitsPrefix(silver[..n], silver, targeted, k.id, k.time, end);
    DistinctPrefix(silver, n);
    ReadModeIsIrrelevant(silver[..n], targeted, k.id, k.time, end, cfg.vwapScale);
    ReadModeIsIrrelevant(silver, targeted, k.id, k.time, end, cfg.vwapScale);
    AggregateSums(k.id, k.time, end, WindowEvents(cfg, silver[..n], k), cfg.vwapScale, f);
    if RowFigures(cfg, silver, targeted, k) == Done(f) {
      AggregateSums(k.id, k.time, end, WindowEvents(cfg, silver, k), cfg.vwapScale, f);
    }
    if f.tradeCount == |WindowEvents(cfg, silver, k)| {
      assert Select(later, InSpan(k.id, k.time, end)) == [];
      assert WindowEvents(cfg, silver, k) == WindowEvents(cfg, silver[..n], k);
    }
  }

  /** Final or not, a recomputation that writes keeps the figures exactly when no event of the window
      has reached Silver since they were computed. */
  lemma RewriteKeepsFiguresIff(env: Environment, cfg: GoldSettings, targeted: bool, silver: seq<TrustedEvent>,
                               s: Ledger, k: Key)
    requires RowsAreSnapshots(cfg, targeted, silver, s.gold) && DistinctIds(Cores(silver))
    requires StartInstant(k.time) && IdOf(k) in s.gold && Fits(silver, targeted, k.id, k.time, EndOf(cfg, k.time))
    requires WroteRow(env, cfg, silver, targeted, s, k, Recompute(env, cfg, silver, targeted, s, k).ledger)
    ensures Recompute(env, cfg, silver, targeted, s, k).ledger.gold[IdOf(k)].figures == s.gold[IdOf(k)].figures <==>
            s.gold[IdOf(k)].figures.tradeCount == |WindowEvents(cfg, silver, k)|
  {
    hide Recompute, RowFigures, RowsAreSnapshots, DistinctIds, Fits, WindowIdFor, Nonempty, WindowEvents;
    SnapshotIsCurrentIff(cfg, targeted, silver, s.gold, k);
  }

  lemma FitsPrefix(silver: seq<TrustedEvent>, more: seq<TrustedEvent>, targeted: bool, symbol: string, start: int,
                   end: int)
    requires silver <= more && Fits(more, targeted, symbol, start, end)
    ensures Fits(silver, targeted, symbol, start, end)
  {
    var later := Cores(more)[|silver|..];
    assert Cores(more) == Cores(silver) + later;
    SelectConcat(Cores(silver), later, InSpan(symbol, start, end));
  }

  lemma PrefixFiguresGrow(cfg: GoldSettings, targeted: bool, silver: seq<TrustedEvent>, n: nat, k: Key, f: Figures,
                          g: Figures)
    requires n <= |silver| && DistinctIds(Cores(silver)) && PositiveTrades(Cores(silver))
    requires StartInstant(k.time) && Fits(silver, targeted, k.id, k.time, EndOf(cfg, k.time))
    requires RowFigures(cfg, silver[..n], targeted, k) == Done(f) && RowFigures(cfg, silver, targeted, k) == Done(g)
    ensures Grown(f, g)
  {
    hide Aggregate, ReadFor;
    var end := EndOf(cfg, k.time);
    var span := InSpan(k.id, k.time, end);
    var older, later := Cores(silver)[..n], Cores(silver)[n..];
    assert Cores(silver) == older + later && Cores(silver[..n]) == older;
    SelectConcat(older, later, span);
    DistinctPrefix(silver, n);
    ReadModeIsIrrelevant(silver[..n], targeted, k.id, k.time, end, cfg.vwapScale);
    ReadModeIsIrrelevant(silver, targeted, k.id, k.time, end, cfg.vwapScale);
    PositiveSelection(Cores(silver), span);
    FiguresGrow(k.id, k.time, end, Select(older, span), Select(later, span), cfg.vwapScale, f, g);
  }

  lemma PositiveSelection(s: seq<InternalEvent>, p: InternalEvent -> bool)
    requires PositiveTrades(s)
    ensures PositiveTrades(Select(s, p))
  {
    SelectMembers(s, p);
    forall i | 0 <= i < |Select(s, p)| ensures Select(s, p)[i] in s {
      assert Select(s, p)[i] in Select(s, p);
    }
  }
}
