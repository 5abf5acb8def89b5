/** Gold is a cache: what its rows say about Silver after any batches, pages and failures. */
module GoldProperties {
  import opened Events
  import opened Identity
  import opened Ordering
  import opened Sequences
  import opened Rounding
  import opened Windows
  import opened Aggregation
  import opened Warehouse
  import opened Gold

  // ----- The plain group-by that Gold must agree with -----

  /** The event belongs to the group `k`: same symbol, same window start. */
  function InGroup(cfg: GoldSettings, k: Key): InternalEvent -> bool {
    (e: InternalEvent) => KeyFor(cfg, e) == Done(k)
  }

  function GroupFigures(cfg: GoldSettings, trades: seq<InternalEvent>, k: Key): Outcome<Figures>
    requires StartInstant(k.time)
  {
    Aggregate(k.id, k.time, EndOf(cfg, k.time), Select(trades, InGroup(cfg, k)), cfg.vwapScale)
  }

  function IdOf(k: Key): string
    requires StartInstant(k.time)
  {
    WindowIdFor(k.id, k.time)
  }

  /** `id` names the window of some event. */
  ghost predicate NamesWindow(cfg: GoldSettings, trades: seq<InternalEvent>, id: string) {
    exists e :: e in trades && KeyFor(cfg, e).Done? && id == IdOf(KeyFor(cfg, e).value)
  }

  ghost predicate Refreshed(cfg: GoldSettings, trades: seq<InternalEvent>, gold: GoldTable, k: Key)
    requires StartInstant(k.time)
  {
    IdOf(k) in gold && GroupFigures(cfg, trades, k) == Done(gold[IdOf(k)].figures)
  }

  /** Gold, without `computed_at` and `is_final`, is the trades grouped by (symbol, window) and
      aggregated: one row per group, no other row, the right figures. */
  ghost predicate IsGroupBy(cfg: GoldSettings, gold: GoldTable, trades: seq<InternalEvent>) {
    && (forall id :: id in gold ==> NamesWindow(cfg, trades, id))
    && (forall e :: e in trades ==> KeyFor(cfg, e).Done? && Refreshed(cfg, trades, gold, KeyFor(cfg, e).value))
  }

  /** The event lies in the window it is assigned to, if it has one; `AssignedWindowContains` says
      exactly when. */
  predicate Contained(cfg: GoldSettings, e: InternalEvent) {
    KeyFor(cfg, e).Done? ==> InWindow(e.tradeTimestamp.micros, KeyFor(cfg, e).value.time, cfg.windowSeconds)
  }

  /** The event has a window, which starts and ends within the calendar. */
  predicate HasWindow(cfg: GoldSettings, e: InternalEvent) {
    KeyFor(cfg, e).Done? && Representable(EndOf(cfg, KeyFor(cfg, e).value.time))
  }

  predicate Placed(cfg: GoldSettings, e: InternalEvent) { HasWindow(cfg, e) && Contained(cfg, e) }

  ghost predicate AllPlaced(cfg: GoldSettings, trades: seq<InternalEvent>) {
    forall e :: e in trades ==> Placed(cfg, e)
  }

  lemma {:induction false} SelectAgree<T(!new)>(s: seq<T>, p: T -> bool, q: T -> bool)
    requires forall x :: x in s ==> p(x) == q(x)
    ensures Select(s, p) == Select(s, q)
  {
    if |s| > 0 {
      SelectAgree(s[..|s| - 1], p, q);
    }
  }

  /** For placed events the time span of a window is its group. */
  lemma GroupIsSpan(cfg: GoldSettings, trades: seq<InternalEvent>, k: Key)
    requires AllPlaced(cfg, trades) && cfg.windowSeconds > 0 && Aligned(k.time, cfg.windowSeconds)
    ensures Select(trades, InGroup(cfg, k)) == Select(trades, InSpan(k.id, k.time, EndOf(cfg, k.time)))
  {
    forall e | e in trades ensures InGroup(cfg, k)(e) == InSpan(k.id, k.time, EndOf(cfg, k.time))(e) {
      KeyIsAligned(cfg, e);
      if InWindow(e.tradeTimestamp.micros, k.time, cfg.windowSeconds) {
        OneWindow(e.tradeTimestamp.micros, cfg.windowSeconds, k.time, KeyFor(cfg, e).value.time);
      }
    }
    SelectAgree(trades, InGroup(cfg, k), InSpan(k.id, k.time, EndOf(cfg, k.time)));
  }

  // ----- What a recomputation reads -----

  /** No cap cuts the read short. */
  ghost predicate Fits(silver: seq<TrustedEvent>, targeted: bool, symbol: string, start: int, end: int) {
    if targeted then |Select(Cores(silver), InSpan(symbol, start, end))| <= WINDOW_READ_LIMIT
    else |silver| <= WINDOW_READ_LIMIT
  }

  lemma CoresWithout(s: seq<TrustedEvent>, i: nat, rest: seq<TrustedEvent>)
    requires i < |s| && rest == s[..i] + s[i + 1..]
    ensures multiset(Cores(s)) == multiset(Cores(rest)) + multiset{s[i].event}
    ensures multiset(s) == multiset(rest) + multiset{s[i]}
  {
    assert Cores(rest) == Cores(s)[..i] + Cores(s)[i + 1..];
    assert Cores(s) == Cores(s)[..i] + [s[i].event] + Cores(s)[i + 1..];
    assert s == s[..i] + [s[i]] + s[i + 1..];
  }

  lemma {:induction false} CoresPermutation(a: seq<TrustedEvent>, b: seq<TrustedEvent>)
    requires multiset(a) == multiset(b)
    ensures multiset(Cores(a)) == multiset(Cores(b))
    decreases |a|
  {
    if |a| == 0 {
      assert |multiset(b)| == 0;
    } else {
      assert a[0] in multiset(b);
      var i :| 0 <= i < |b| && b[i] == a[0];
      var a', b' := a[..0] + a[1..], b[..i] + b[i + 1..];
      CoresWithout(a, 0, a');
      CoresWithout(b, i, b');
      Cancel(multiset(a'), multiset(b'), a[0]);
      CoresPermutation(a', b');
    }
  }

  lemma Cancel<T>(a: multiset<T>, b: multiset<T>, x: T)
    requires a + multiset{x} == b + multiset{x}
    ensures a == b
  {
    assert a == (a + multiset{x}) - multiset{x};
    assert b == (b + multiset{x}) - multiset{x};
  }

  /** Up to a million events of the window, or of Silver for the fallback scan, are read whole; the targeted
      query never reads more. */
  lemma ReadsUpToAMillion(silver: seq<TrustedEvent>, targeted: bool, symbol: string, start: int, end: int)
    ensures var all := Select(Cores(silver), InSpan(symbol, start, end));
            var read := ReadFor(silver, targeted, symbol, start, end);
            && (targeted ==> |read| == if |all| < 1_000_000 then |all| else 1_000_000)
            && ((if targeted then |all| else |silver|) <= 1_000_000 ==>
                  multiset(read) == multiset(all) && |read| == |all|)
  {
    hide Select, SortBy, Page;
    var all := Select(Cores(silver), InSpan(symbol, start, end));
    var read := ReadFor(silver, targeted, symbol, start, end);
    SortByCorrect(all, TradeKey);
    PageRows(SortBy(all, TradeKey), 0, 1_000_000);
    if (if targeted then |all| else |silver|) <= 1_000_000 {
      ReadsWholeWindow(silver, targeted, symbol, start, end);
      SameMembers(read, all);
    }
  }

  /** The targeted query and the fallback scan read the same events, if no cap cuts them short. */
  lemma ReadsWholeWindow(silver: seq<TrustedEvent>, targeted: bool, symbol: string, start: int, end: int)
    requires Fits(silver, targeted, symbol, start, end)
    ensures multiset(ReadFor(silver, targeted, symbol, start, end))
         == multiset(Select(Cores(silver), InSpan(symbol, start, end)))
  {
    if targeted {
      SortByCorrect(Select(Cores(silver), InSpan(symbol, start, end)), TradeKey);
    } else {
      SortByCorrect(silver, SilverKey);
      CoresPermutation(SortBy(silver, SilverKey), silver);
      SelectPermutation(Cores(SortBy(silver, SilverKey)), Cores(silver), InSpan(symbol, start, end));
    }
  }

  lemma {:induction false} SelectDistinct(s: seq<InternalEvent>, p: InternalEvent -> bool)
    requires DistinctIds(s)
    ensures DistinctIds(Select(s, p))
  {
    if |s| > 0 {
      var init, last := s[..|s| - 1], s[|s| - 1];
      SelectDistinct(init, p);
      SelectMembers(init, p);
      forall i | 0 <= i < |Select(init, p)| ensures Select(init, p)[i].eventId != last.eventId {
        assert Select(init, p)[i] in init;
      }
    }
  }

  lemma DistinctPermutation(a: seq<InternalEvent>, b: seq<InternalEvent>)
    requires multiset(a) == multiset(b) && DistinctIds(a)
    ensures DistinctIds(b)
  {
    forall i, j | 0 <= i < j < |b| ensures b[i].eventId != b[j].eventId {
      if b[i].eventId == b[j].eventId {
        assert b[i] in multiset(a) && b[j] in multiset(a);
        assert b[i] == b[j];
        assert b == b[..i] + [b[i]] + b[i + 1..j] + [b[j]] + b[j + 1..];
        assert multiset(b)[b[i]] >= 2;
        OccursOnce(a, b[i]);
      }
    }
  }

  lemma {:induction false} OccursOnce(s: seq<InternalEvent>, e: InternalEvent)
    requires DistinctIds(s)
    ensures multiset(s)[e] <= 1
  {
    if |s| > 0 {
      OccursOnce(s[..|s| - 1], e);
      assert s == s[..|s| - 1] + [s[|s| - 1]];
      if s[|s| - 1] == e {
        assert e !in s[..|s| - 1];
      }
    }
  }

  /** The figures of a recomputation are those of the whole window, in any read mode. */
  lemma ReadModeIsIrrelevant(silver: seq<TrustedEvent>, targeted: bool, symbol: string, start: int, end: int,
                             vwapScale: nat)
    requires StartInstant(start) && DistinctIds(Cores(silver)) && Fits(silver, targeted, symbol, start, end)
    ensures Aggregate(symbol, start, end, ReadFor(silver, targeted, symbol, start, end), vwapScale)
         == Aggregate(symbol, start, end, Select(Cores(silver), InSpan(symbol, start, end)), vwapScale)
  {
    ReadsWholeWindow(silver, targeted, symbol, start, end);
    SelectDistinct(Cores(silver), InSpan(symbol, start, end));
    AggregateIgnoresOrder(symbol, start, end, Select(Cores(silver), InSpan(symbol, start, end)),
                          ReadFor(silver, targeted, symbol, start, end), vwapScale);
  }

  ghost predicate AllFit(cfg: GoldSettings, silver: seq<TrustedEvent>, targeted: bool) {
    forall e :: e in Cores(silver) && KeyFor(cfg, e).Done? ==>
      Fits(silver, targeted, e.symbol, KeyFor(cfg, e).value.time, EndOf(cfg, KeyFor(cfg, e).value.time))
  }

  /** Silver is fit to be grouped: distinct, placed, and no read of it is cut short. */
  ghost predicate Groupable(cfg: GoldSettings, silver: seq<TrustedEvent>, targeted: bool) {
    DistinctIds(Cores(silver)) && AllPlaced(cfg, Cores(silver)) && AllFit(cfg, silver, targeted)
  }

  lemma KeyIsAligned(cfg: GoldSettings, e: InternalEvent)
    requires Placed(cfg, e)
    ensures cfg.windowSeconds > 0 && Aligned(KeyFor(cfg, e).value.time, cfg.windowSeconds)
  {
    StartIsAligned(e.tradeTimestamp, cfg.windowSeconds);
  }

  /** The key of a Silver event: what a recomputation reads for it is its group, event for event. */
  lemma GroupRead(cfg: GoldSettings, silver: seq<TrustedEvent>, targeted: bool, e: InternalEvent)
    requires Groupable(cfg, silver, targeted) && e in Cores(silver)
    ensures KeyFor(cfg, e).Done?
    ensures var k := KeyFor(cfg, e).value;
            && multiset(ReadFor(silver, targeted, k.id, k.time, EndOf(cfg, k.time)))
            == multiset(Select(Cores(silver), InGroup(cfg, k)))
            && e in Select(Cores(silver), InGroup(cfg, k))
  {
    hide ReadFor, Fits, Select, Cores;
    assert Placed(cfg, e);
    var k := KeyFor(cfg, e).value;
    KeyIsAligned(cfg, e);
    GroupIsSpan(cfg, Cores(silver), k);
    ReadsWholeWindow(silver, targeted, k.id, k.time, EndOf(cfg, k.time));
    SelectMembers(Cores(silver), InGroup(cfg, k));
  }

  /** So it is never empty, and its aggregate is that of the group. */
  lemma RecomputationReadsGroup(cfg: GoldSettings, silver: seq<TrustedEvent>, targeted: bool, e: InternalEvent)
    requires Groupable(cfg, silver, targeted) && e in Cores(silver)
    ensures KeyFor(cfg, e).Done?
    ensures var k := KeyFor(cfg, e).value; var read := ReadFor(silver, targeted, k.id, k.time, EndOf(cfg, k.time));
            && |read| > 0
            && Aggregate(k.id, k.time, EndOf(cfg, k.time), read, cfg.vwapScale) == GroupFigures(cfg, Cores(silver), k)
  {
    hide Aggregate, ReadFor, Select, Cores, KeyFor, DistinctIds, AllPlaced, AllFit;
    GroupRead(cfg, silver, targeted, e);
    var k := KeyFor(cfg, e).value;
    var end, group := EndOf(cfg, k.time), Select(Cores(silver), InGroup(cfg, k));
    SelectDistinct(Cores(silver), InGroup(cfg, k));
    SameMembers(ReadFor(silver, targeted, k.id, k.time, end), group);
    AggregateIgnoresOrder(k.id, k.time, end, group, ReadFor(silver, targeted, k.id, k.time, end), cfg.vwapScale);
  }

  // ----- One batch -----

  lemma {:induction false} KeysOfMeaning(cfg: GoldSettings, events: seq<InternalEvent>)
    requires KeysOf(cfg, events).Done?
    ensures forall k :: k in KeysOf(cfg, events).value <==> exists e :: e in events && KeyFor(cfg, e) == Done(k)
    ensures forall i, j :: 0 <= i < j < |KeysOf(cfg, events).value| ==>
            KeysOf(cfg, events).value[i] != KeysOf(cfg, events).value[j]
    ensures forall e :: e in events ==> KeyFor(cfg, e).Done?
  {
    hide KeyFor;
    if |events| > 0 {
      var init, last := events[..|events| - 1], events[|events| - 1];
      assert events == init + [last];
      KeysOfMeaning(cfg, init);
      var before, keys := KeysOf(cfg, init).value, KeysOf(cfg, events).value;
      forall k ensures k in keys <==> exists e :: e in events && KeyFor(cfg, e) == Done(k) {
        assert k in keys <==> k in before || KeyFor(cfg, last) == Done(k);
        if e :| e in events && KeyFor(cfg, e) == Done(k) {
          assert e in init || e == last;
        }
        if k in before {
          var e :| e in init && KeyFor(cfg, e) == Done(k);
          assert e in events;
        }
        assert last in events;
      }
    }
  }

  /** What a key's recomputation would store: nothing when it reads nothing. */
  ghost predicate Nonempty(cfg: GoldSettings, silver: seq<TrustedEvent>, targeted: bool, k: Key) {
    |ReadFor(silver, targeted, k.id, k.time, EndOf(cfg, k.time))| > 0
  }

  function RowFigures(cfg: GoldSettings, silver: seq<TrustedEvent>, targeted: bool, k: Key): Outcome<Figures>
    requires StartInstant(k.time)
  {
    Aggregate(k.id, k.time, EndOf(cfg, k.time), ReadFor(silver, targeted, k.id, k.time, EndOf(cfg, k.time)),
              cfg.vwapScale)
  }

  lemma AggregateNames(symbol: string, start: int, end: int, events: seq<InternalEvent>, vwapScale: nat)
    requires StartInstant(start)
    ensures var f := Aggregate(symbol, start, end, events, vwapScale);
            f.Done? ==> && f.value.windowId == WindowIdFor(symbol, start)
                        && f.value.symbol == symbol && f.value.start == start && f.value.end == end
  {
    hide Quantized;
  }

  /** The row is final exactly when it was computed no earlier than the allowed lateness after the end of
      its window. */
  predicate Judged(cfg: GoldSettings, row: MarketWindow) {
    row.isFinal <==> row.computedAt >= row.figures.start + (cfg.windowSeconds + cfg.latenessSeconds) * SECOND
  }

  /** The recomputation stored a row: that of its key, with the figures of what it read. */
  ghost predicate WroteRow(env: Environment, cfg: GoldSettings, silver: seq<TrustedEvent>, targeted: bool,
                           s: Ledger, k: Key, t: Ledger)
    requires StartInstant(k.time)
  {
    && IdOf(k) in t.gold
    && Representable(EndOf(cfg, k.time))
    && Nonempty(cfg, silver, targeted, k)
    && t.meter.ticks == s.meter.ticks + 1
    && var row := t.gold[IdOf(k)];
    && t.gold == s.gold[IdOf(k) := row]
    && RowFigures(cfg, silver, targeted, k) == Done(row.figures)
    && row.computedAt == env.now(s.meter.ticks)
    && row.figures.start == k.time && Judged(cfg, row)
  }

  /** What the service asks of the end of a window, said of its start. */
  lemma FinalSince(cfg: GoldSettings, start: int, now: int)
    ensures IsFinalFor(EndOf(cfg, start), now, cfg.latenessSeconds) <==>
            now >= start + (cfg.windowSeconds + cfg.latenessSeconds) * SECOND
  {
  }

  /** One recomputation, successful or not, touches one row, and only by giving it the figures of
      what it read; a successful one stores exactly what it returns. */
  lemma RecomputeEffect(env: Environment, cfg: GoldSettings, silver: seq<TrustedEvent>, targeted: bool, s: Ledger,
                        k: Key)
    requires StartInstant(k.time)
    ensures var r := Recompute(env, cfg, silver, targeted, s, k);
            && r.ledger.meter.ticks >= s.meter.ticks && r.ledger.meter.ops >= s.meter.ops
            && (r.ledger.gold == s.gold || WroteRow(env, cfg, silver, targeted, s, k, r.ledger))
            && (r.outcome.Done? ==> (r.outcome.value.Some? <==> Nonempty(cfg, silver, targeted, k)))
            && (r.outcome == Done(None) ==> r.ledger.gold == s.gold)
            && (r.outcome.Done? && r.outcome.value.Some? ==>
                  && WroteRow(env, cfg, silver, targeted, s, k, r.ledger)
                  && r.ledger.gold[IdOf(k)] == r.outcome.value.value)
  {
    hide Aggregate, ReadFor, Rejects, WindowIdFor, EndOf, IsFinalFor, Representable;
    forall now ensures IsFinalFor(EndOf(cfg, k.time), now, cfg.latenessSeconds) <==>
                       now >= k.time + (cfg.windowSeconds + cfg.latenessSeconds) * SECOND {
      FinalSince(cfg, k.time, now);
    }
    AggregateNames(k.id, k.time, EndOf(cfg, k.time), ReadFor(silver, targeted, k.id, k.time, EndOf(cfg, k.time)),
                   cfg.vwapScale);
  }

  /** The finality a successful recomputation returns, by its one reading of the clock. */
  lemma RecomputeFinality(env: Environment, cfg: GoldSettings, silver: seq<TrustedEvent>, targeted: bool, s: Ledger,
                          k: Key)
    requires StartInstant(k.time)
    requires var r := Recompute(env, cfg, silver, targeted, s, k); r.outcome.Done? && r.outcome.value.Some?
    ensures var row := Recompute(env, cfg, silver, targeted, s, k).outcome.value.value;
            && row.computedAt == env.now(s.meter.ticks)
            && (row.isFinal <==>
                  env.now(s.meter.ticks) >= k.time + (cfg.windowSeconds + cfg.latenessSeconds) * SECOND)
  {
    hide Recompute, RowFigures, WindowIdFor, Nonempty;
    RecomputeEffect(env, cfg, silver, targeted, s, k);
  }

  /** What the candidate loop does to Gold, for any list of keys. */
  ghost predicate Rewrites(cfg: GoldSettings, silver: seq<TrustedEvent>, targeted: bool, keys: seq<Key>,
                           before: GoldTable, after: GoldTable)
    requires forall k :: k in keys ==> StartInstant(k.time)
  {
    && before.Keys <= after.Keys
    && (forall id :: id in after ==>
          || (id in before && after[id] == before[id])
          || exists k :: k in keys && id == IdOf(k) && Nonempty(cfg, silver, targeted, k)
                         && RowFigures(cfg, silver, targeted, k) == Done(after[id].figures))
  }

  lemma {:induction false} RecomputeAllRewrites(env: Environment, cfg: GoldSettings, silver: seq<TrustedEvent>,
                                                targeted: bool, s: Ledger, keys: seq<Key>)
    requires forall k :: k in keys ==> StartInstant(k.time)
    ensures Rewrites(cfg, silver, targeted, keys, s.gold, RecomputeAll(env, cfg, silver, targeted, s, keys).ledger.gold)
  {
    hide Recompute, RowFigures, Nonempty, IdOf;
    if |keys| > 0 {
      var init, k := keys[..|keys| - 1], keys[|keys| - 1];
      assert k in keys && forall x :: x in init ==> x in keys;
      RecomputeAllRewrites(env, cfg, silver, targeted, s, init);
      var before := RecomputeAll(env, cfg, silver, targeted, s, init);
      RecomputeEffect(env, cfg, silver, targeted, before.ledger, k);
    }
  }

  /** A successful candidate loop leaves every key it was given up to date, and counts them. */
  lemma {:induction false} RecomputeAllRefreshes(env: Environment, cfg: GoldSettings, silver: seq<TrustedEvent>,
                                                 targeted: bool, s: Ledger, keys: seq<Key>)
    requires forall k :: k in keys ==> StartInstant(k.time) && Nonempty(cfg, silver, targeted, k)
    requires RecomputeAll(env, cfg, silver, targeted, s, keys).outcome.Done?
    ensures var r := RecomputeAll(env, cfg, silver, targeted, s, keys);
            && r.outcome.value == |keys|
            && (forall k :: k in keys ==>
                  IdOf(k) in r.ledger.gold && RowFigures(cfg, silver, targeted, k) ==
                      Done(r.ledger.gold[IdOf(k)].figures))
  {
    hide Recompute, RowFigures, Nonempty, WindowIdFor;
    if |keys| > 0 {
      var init, k := keys[..|keys| - 1], keys[|keys| - 1];
      assert k in keys && (forall x :: x in init ==> x in keys) && keys == init + [k];
      RecomputeAllRefreshes(env, cfg, silver, targeted, s, init);
      var before := RecomputeAll(env, cfg, silver, targeted, s, init);
      RecomputeEffect(env, cfg, silver, targeted, before.ledger, k);
      forall x | x in init ensures IdOf(x) == IdOf(k) ==> x == k {
        WindowIdInjective(x.id, x.time, k.id, k.time);
      }
    }
  }

  lemma PageMembers(silver: seq<TrustedEvent>, offset: nat, limit: nat)
    ensures forall t :: t in SilverPage(silver, offset, limit) ==> t in silver
    ensures forall e :: e in Cores(SilverPage(silver, offset, limit)) ==> e in Cores(silver)
  {
    SortByCorrect(silver, SilverKey);
    SameMembers(SortBy(silver, SilverKey), silver);
    forall e | e in Cores(SilverPage(silver, offset, limit)) ensures e in Cores(silver) {
      var page := SilverPage(silver, offset, limit);
      var i :| 0 <= i < |page| && Cores(page)[i] == e;
      assert page[i] in silver;
      var j :| 0 <= j < |silver| && silver[j] == page[i];
      assert Cores(silver)[j] == e;
    }
  }

  /** Whatever happens to a batch, every row it writes holds the figures of a window of Silver. */
  lemma BatchRewrites(env: Environment, cfg: GoldSettings, silver: seq<TrustedEvent>, targeted: bool, s: Ledger,
                      offset: int, limit: int)
    returns (keys: seq<Key>)
    ensures forall k :: k in keys ==>
              StartInstant(k.time) && exists e :: e in Cores(silver) && KeyFor(cfg, e) == Done(k)
    ensures Rewrites(cfg, silver, targeted, keys, s.gold,
                     GoldBatch(env, cfg, silver, targeted, s, offset, limit).ledger.gold)
  {
    hide KeyFor, RecomputeAll, Rewrites, Recompute, RowFigures, SilverPage, SortBy, Cores;
    keys := [];
    RewritesNothing(cfg, silver, targeted, s.gold);
    if offset >= 0 && limit >= 1 && !env.fails(s.meter.ops) {
      PageMembers(silver, offset, limit);
      var found := KeysOf(cfg, Cores(SilverPage(silver, offset, limit)));
      if found.Done? {
        KeysOfMeaning(cfg, Cores(SilverPage(silver, offset, limit)));
        SortedKeys(found.value);
        keys := SortBy(found.value, Self);
        RecomputeAllRewrites(env, cfg, silver, targeted, s.(meter := Meter(s.meter.ticks, s.meter.ops + 1)), keys);
      }
    }
  }

  lemma RewritesNothing(cfg: GoldSettings, silver: seq<TrustedEvent>, targeted: bool, gold: GoldTable)
    ensures Rewrites(cfg, silver, targeted, [], gold, gold)
  {
  }

  /** The distinct (symbol, window) pairs of some events. */
  function WindowsOf(cfg: GoldSettings, events: seq<InternalEvent>): set<Key> {
    set e | e in events && KeyFor(cfg, e).Done? :: KeyFor(cfg, e).value
  }

  /** The candidates of a page: its distinct windows, each of which has events to read. */
  lemma PageCandidates(cfg: GoldSettings, silver: seq<TrustedEvent>, targeted: bool, page: seq<InternalEvent>)
    requires Groupable(cfg, silver, targeted) && KeysOf(cfg, page).Done?
    requires forall e :: e in page ==> e in Cores(silver)
    ensures var keys := SortBy(KeysOf(cfg, page).value, Self);
            && (forall k :: k in keys ==>
                  && StartInstant(k.time) && Nonempty(cfg, silver, targeted, k)
                  && RowFigures(cfg, silver, targeted, k) == GroupFigures(cfg, Cores(silver), k))
            && (forall e :: e in page ==> KeyFor(cfg, e).Done? && KeyFor(cfg, e).value in keys)
            && |keys| == |WindowsOf(cfg, page)|
  {
    hide KeyFor, Aggregate, ReadFor, Select, AllFit;
    KeysOfMeaning(cfg, page);
    var found := KeysOf(cfg, page).value;
    SortedKeys(found);
    forall k | k in SortBy(found, Self)
      ensures StartInstant(k.time) && Nonempty(cfg, silver, targeted, k)
      ensures RowFigures(cfg, silver, targeted, k) == GroupFigures(cfg, Cores(silver), k)
    {
      var e :| e in page && KeyFor(cfg, e) == Done(k);
      RecomputationReadsGroup(cfg, silver, targeted, e);
    }
    CountDistinct(found);
    assert (set k | k in found) == WindowsOf(cfg, page);
  }

  lemma RefreshedBy(cfg: GoldSettings, silver: seq<TrustedEvent>, targeted: bool, gold: GoldTable, k: Key)
    requires StartInstant(k.time) && IdOf(k) in gold
    requires RowFigures(cfg, silver, targeted, k) == GroupFigures(cfg, Cores(silver), k)
    requires RowFigures(cfg, silver, targeted, k) == Done(gold[IdOf(k)].figures)
    ensures Refreshed(cfg, Cores(silver), gold, k)
  {
  }

  /** Rewriting rows with the figures of their groups keeps up to date what was. */
  lemma RewritesKeepRefreshed(cfg: GoldSettings, silver: seq<TrustedEvent>, targeted: bool, keys: seq<Key>,
                              before: GoldTable, after: GoldTable, k: Key)
    requires StartInstant(k.time)
    requires forall x :: x in keys ==>
               StartInstant(x.time) && RowFigures(cfg, silver, targeted, x) == GroupFigures(cfg, Cores(silver), x)
    requires Rewrites(cfg, silver, targeted, keys, before, after) && Refreshed(cfg, Cores(silver), before, k)
    ensures Refreshed(cfg, Cores(silver), after, k)
  {
    hide RowFigures, GroupFigures, WindowIdFor;
    var id := IdOf(k);
    if after[id] != before[id] {
      var x :| x in keys && id == IdOf(x) && RowFigures(cfg, silver, targeted, x) == Done(after[id].figures);
      WindowIdInjective(x.id, x.time, k.id, k.time);
    }
  }

  /** The candidate loop, run to its end over keys whose reads are whole groups. */
  lemma LoopRefreshes(env: Environment, cfg: GoldSettings, silver: seq<TrustedEvent>, targeted: bool, s: Ledger,
                      keys: seq<Key>)
    requires forall k :: k in keys ==>
               && StartInstant(k.time) && Nonempty(cfg, silver, targeted, k)
               && RowFigures(cfg, silver, targeted, k) == GroupFigures(cfg, Cores(silver), k)
    requires RecomputeAll(env, cfg, silver, targeted, s, keys).outcome.Done?
    ensures var r := RecomputeAll(env, cfg, silver, targeted, s, keys);
            && r.outcome.value == |keys|
            && (forall k :: k in keys ==> Refreshed(cfg, Cores(silver), r.ledger.gold, k))
            && (forall k: Key :: StartInstant(k.time) && Refreshed(cfg, Cores(silver), s.gold, k) ==>
                                 Refreshed(cfg, Cores(silver), r.ledger.gold, k))
  {
    hide RecomputeAll, Rewrites, RowFigures, Refreshed, GroupFigures, Nonempty, Cores, StartInstant, IdOf;
    var r := RecomputeAll(env, cfg, silver, targeted, s, keys);
    RecomputeAllRefreshes(env, cfg, silver, targeted, s, keys);
    RecomputeAllRewrites(env, cfg, silver, targeted, s, keys);
    forall k | k in keys ensures Refreshed(cfg, Cores(silver), r.ledger.gold, k) {
      RefreshedBy(cfg, silver, targeted, r.ledger.gold, k);
    }
    forall k: Key | StartInstant(k.time) && Refreshed(cfg, Cores(silver), s.gold, k)
      ensures Refreshed(cfg, Cores(silver), r.ledger.gold, k)
    {
      RewritesKeepRefreshed(cfg, silver, targeted, keys, s.gold, r.ledger.gold, k);
    }
  }

  /** A successful batch brings every window of its page up to date, keeps up to date what was, and
      returns the number of distinct (symbol, window) pairs of the page. */
  lemma BatchRefreshes(env: Environment, cfg: GoldSettings, silver: seq<TrustedEvent>, targeted: bool, s: Ledger,
                       offset: int, limit: int)
    requires Groupable(cfg, silver, targeted)
    requires GoldBatch(env, cfg, silver, targeted, s, offset, limit).outcome.Done?
    ensures offset >= 0 && limit >= 1
    ensures var r := GoldBatch(env, cfg, silver, targeted, s, offset, limit); var trades := Cores(silver);
            && r.outcome.value == |WindowsOf(cfg, Cores(SilverPage(silver, offset, limit)))|
            && (forall e :: e in Cores(SilverPage(silver, offset, limit)) ==>
                  KeyFor(cfg, e).Done? && Refreshed(cfg, trades, r.ledger.gold, KeyFor(cfg, e).value))
            && (forall k: Key :: StartInstant(k.time) && Refreshed(cfg, trades, s.gold, k) ==>
                Refreshed(cfg, trades, r.ledger.gold, k))
  {
    hide WindowsOf, KeysOf, KeyFor, RecomputeAll, RowFigures, Refreshed, GroupFigures, Groupable, Nonempty,
         SilverPage, SortBy, Cores, StartInstant;
    var page := Cores(SilverPage(silver, offset, limit));
    PageMembers(silver, offset, limit);
    PageCandidates(cfg, silver, targeted, page);
    LoopRefreshes(env, cfg, silver, targeted, s.(meter := Meter(s.meter.ticks, s.meter.ops + 1)),
                  SortBy(KeysOf(cfg, page).value, Self));
  }

  lemma {:induction false} CountDistinct(keys: seq<Key>)
    requires forall i, j :: 0 <= i < j < |keys| ==> keys[i] != keys[j]
    ensures |set k | k in keys| == |keys|
  {
    if |keys| > 0 {
      var init, last := keys[..|keys| - 1], keys[|keys| - 1];
      CountDistinct(init);
      assert keys == init + [last];
      assert (set k | k in keys) == (set k | k in init) + {last};
    }
  }
}
