/** Routing from Bronze: every valid event to Silver, every rejected one to Quarantine. */
module TrustRouting {
  import opened Events
  import opened Sequences
  import opened Validation
  import opened Warehouse

  datatype TrustRoutingResult = TrustRoutingResult(
    validated: seq<InternalEvent>,
    quarantined: seq<InternalEvent>,
    outcomes: map<string, ValidationOutcome>)

  /** What routing may change. */
  datatype Shelves = Shelves(silver: seq<TrustedEvent>, quarantine: seq<QuarantineRecord>, meter: Meter)

  datatype Routed<T> = Routed(shelves: Shelves, outcome: Outcome<T>)

  /** The table refuses the write: a rejected event's key is taken. */
  predicate Refuses(rules: seq<Rule>, s: Shelves, e: InternalEvent, now: int) {
    !Valid(rules, e) && Clashes(s.quarantine, e.eventId, now)
  }

  /** The effect of the one write that the verdict calls for. */
  function Shelve(rules: seq<Rule>, s: Shelves, e: InternalEvent, now: int): Shelves {
    if Valid(rules, e) then s.(silver := Admit(s.silver, TrustedEvent(e, now)))
    else if Refuses(rules, s, e, now) then s
    else s.(quarantine := s.quarantine + [QuarantineRecord(e, now, Judge(rules, e).failures)])
  }

  /** Routing one event: the clock is read first, then the one write is attempted. */
  function RouteEvent(env: Environment, rules: seq<Rule>, s: Shelves, e: InternalEvent): Routed<ValidationOutcome> {
    var now := env.now(s.meter.ticks);
    var t := if env.Takes(s.meter.ops) then Shelve(rules, s, e, now) else s;
    Routed(
      t.(meter := Meter(s.meter.ticks + 1, s.meter.ops + 1)),
      if env.fails(s.meter.ops) || Refuses(rules, s, e, now) then Raised(StorageError) else Done(Judge(rules, e)))
  }

  function Record(r: TrustRoutingResult, e: InternalEvent, verdict: ValidationOutcome): TrustRoutingResult {
    if verdict.valid then r.(validated := r.validated + [e])
    else r.(quarantined := r.quarantined + [e], outcomes := r.outcomes[e.eventId := verdict])
  }

  /** One more event, unless an earlier one failed. */
  function RouteNext(env: Environment, rules: seq<Rule>, before: Routed<TrustRoutingResult>,
                     e: InternalEvent): Routed<TrustRoutingResult> {
    if before.outcome.Raised? then before
    else
      var step := RouteEvent(env, rules, before.shelves, e);
      if step.outcome.Raised? then Routed(step.shelves, Raised(step.outcome.error))
      else Routed(step.shelves, Done(Record(before.outcome.value, e, step.outcome.value)))
  }

  /** Routing a page event by event; the first failure stops it. */
  function RoutePage(env: Environment, rules: seq<Rule>, s: Shelves,
                     page: seq<InternalEvent>): Routed<TrustRoutingResult> {
    if |page| == 0 then Routed(s, Done(TrustRoutingResult([], [], map[])))
    else RouteNext(env, rules, RoutePage(env, rules, s, page[..|page| - 1]), page[|page| - 1])
  }

  /** One batch: replay a page of Bronze from its start, then route it. */
  function RouteBatch(env: Environment, rules: seq<Rule>, bronze: seq<InternalEvent>, s: Shelves,
                      limit: int): Routed<TrustRoutingResult> {
    if limit < 1 then Routed(s, Raised(ArgumentError))
    else
      var t := s.(meter := Meter(s.meter.ticks, s.meter.ops + 1));
      if env.fails(s.meter.ops) then Routed(t, Raised(StorageError))
      else RoutePage(env, rules, t, ReplayPage(bronze, 0, limit))
  }

  lemma {:induction false} FailureStops(env: Environment, rules: seq<Rule>, s: Shelves, page: seq<InternalEvent>,
                                        n: nat)
    requires n <= |page| && RoutePage(env, rules, s, page[..n]).outcome.Raised?
    ensures RoutePage(env, rules, s, page) == RoutePage(env, rules, s, page[..n])
    decreases |page|
  {
    if n == |page| {
      assert page[..n] == page;
    } else {
      assert page[..|page| - 1][..n] == page[..n];
      FailureStops(env, rules, s, page[..|page| - 1], n);
    }
  }

  class TrustRoutingService {
    const world: World
    const bronze: BronzeRepository
    const silver: SilverRepository
    const quarantine: QuarantineRepository
    const rules: seq<Rule>

    constructor (world: World, bronze: BronzeRepository, silver: SilverRepository, quarantine: QuarantineRepository,
                 rules: seq<Rule>)
      requires bronze.world == silver.world == quarantine.world == world
      ensures Wired()
      ensures this.world == world && this.bronze == bronze && this.silver == silver && this.quarantine == quarantine &&
              this.rules == rules
    {
      this.world, this.bronze, this.silver, this.quarantine := world, bronze, silver, quarantine;
      this.rules := rules;
    }

    predicate Wired() { bronze.world == silver.world == quarantine.world == world }

    function Now(): Shelves
      reads world, silver, quarantine
    {
      Shelves(silver.rows, quarantine.records, world.meter)
    }

    /** Validates and routes one event. */
    method ProcessEvent(event: InternalEvent) returns (r: Outcome<ValidationOutcome>)
      requires Wired()
      modifies world, silver, quarantine
      ensures Routed(Now(), r) == RouteEvent(world.env, rules, old(Now()), event)
    {
      var verdict := Validate(rules, event);
      var now := world.Now();
      var written: Outcome<()>;
      if verdict.valid {
        written := silver.Append(TrustedEvent(event, now));
      } else {
        written := quarantine.AppendRecord(event, now, verdict.failures);
      }
      if written.Raised? { return Raised(written.error); }
      r := Done(verdict);
    }

    /** Routes up to `limit` events from the start of Bronze's replay order. */
    method ProcessBatch(limit: int) returns (r: Outcome<TrustRoutingResult>)
      requires Wired()
      modifies world, silver, quarantine
      ensures Routed(Now(), r) == RouteBatch(world.env, rules, bronze.rows, old(Now()), limit)
    {
      hide RouteEvent, ReplayPage, Record;
      if limit < 1 { return Raised(ArgumentError); }
      var read := bronze.Replay(0, limit);
      if read.Raised? { return Raised(read.error); }
      var events := read.value;
      ghost var start := Now();
      var result := TrustRoutingResult([], [], map[]);
      for i := 0 to |events|
        invariant Routed(Now(), Done(result)) == RoutePage(world.env, rules, start, events[..i])
      {
        assert events[..i + 1][..i] == events[..i] && events[..i + 1][i] == events[i];
        ghost var before := RoutePage(world.env, rules, start, events[..i]);
        assert RoutePage(world.env, rules, start, events[..i + 1]) == RouteNext(world.env, rules, before, events[i]);
        var verdict := ProcessEvent(events[i]);
        if verdict.Raised? {
          FailureStops(world.env, rules, start, events, i + 1);
          return Raised(verdict.error);
        }
        result := Record(result, events[i], verdict.value);
      }
      assert events[..|events|] == events;
      r := Done(result);
    }
  }

  // ----- What routing keeps, in every state -----

  /** Silver and Quarantine hold only Bronze events, told apart by the rules. */
  ghost predicate Separated(rules: seq<Rule>, bronze: seq<InternalEvent>, silver: seq<TrustedEvent>,
                            quarantine: seq<QuarantineRecord>) {
    && DistinctIds(Cores(silver))
    && (forall t :: t in silver ==> t.event in bronze && Valid(rules, t.event))
    && (forall q :: q in quarantine ==> q.event in bronze && !Valid(rules, q.event)
                                        && q.failures == Judge(rules, q.event).failures)
  }

  lemma CoresMembers(silver: seq<TrustedEvent>)
    ensures forall e :: e in Cores(silver) <==> exists t :: t in silver && t.event == e
  {
    forall e ensures e in Cores(silver) <==> exists t :: t in silver && t.event == e {
      if e in Cores(silver) {
        var i :| 0 <= i < |silver| && Cores(silver)[i] == e;
        assert silver[i] in silver && silver[i].event == e;
      }
      if t :| t in silver && t.event == e {
        var i :| 0 <= i < |silver| && silver[i] == t;
        assert Cores(silver)[i] == e;
      }
    }
  }

  /** Bronze names its events: one identity, one event. */
  lemma SameIdSameEvent(rows: seq<InternalEvent>, d: InternalEvent, e: InternalEvent)
    requires DistinctIds(rows) && d in rows && e in rows && d.eventId == e.eventId
    ensures d == e
  {
  }

  /** Silver ids and Quarantine ids are disjoint subsets of the Bronze ids, and a Silver row
      agrees with its Bronze row on every shared field. */
  lemma TrustSeparation(rules: seq<Rule>, bronze: seq<InternalEvent>, silver: seq<TrustedEvent>,
                        quarantine: seq<QuarantineRecord>)
    requires DistinctIds(bronze) && Separated(rules, bronze, silver, quarantine)
    ensures forall t, q :: t in silver && q in quarantine ==> t.event.eventId != q.event.eventId
    ensures forall t, e :: t in silver && e in bronze && e.eventId == t.event.eventId ==> t.event == e
    ensures forall q, e :: q in quarantine && e in bronze && e.eventId == q.event.eventId ==> q.event == e
  {
    forall t, q | t in silver && q in quarantine ensures t.event.eventId != q.event.eventId {
      if t.event.eventId == q.event.eventId {
        SameIdSameEvent(bronze, t.event, q.event);
      }
    }
  }

  lemma AdmitKeeps(rules: seq<Rule>, bronze: seq<InternalEvent>, silver: seq<TrustedEvent>,
                   quarantine: seq<QuarantineRecord>, t: TrustedEvent)
    requires DistinctIds(bronze) && Separated(rules, bronze, silver, quarantine)
    requires t.event in bronze && Valid(rules, t.event)
    ensures Separated(rules, bronze, Admit(silver, t), quarantine)
    ensures silver <= Admit(silver, t) && t.event in Cores(Admit(silver, t))
    ensures |Admit(silver, t)| <= |silver| + 1
    ensures t.event in Cores(silver) ==> Admit(silver, t) == silver
  {
    if HasId(Cores(silver), t.event.eventId) {
      var i :| 0 <= i < |silver| && Cores(silver)[i].eventId == t.event.eventId;
      assert silver[i] in silver;
      SameIdSameEvent(bronze, silver[i].event, t.event);
    } else {
      CoresSnoc(silver, t);
      assert Cores(silver + [t])[|silver|] == t.event;
    }
  }

  ghost predicate Extends(s: Shelves, t: Shelves) {
    && s.silver <= t.silver && s.quarantine <= t.quarantine
    && s.meter.ticks <= t.meter.ticks && s.meter.ops <= t.meter.ops
  }

  lemma RouteEventKeeps(env: Environment, rules: seq<Rule>, bronze: seq<InternalEvent>, s: Shelves, e: InternalEvent)
    requires DistinctIds(bronze) && Separated(rules, bronze, s.silver, s.quarantine) && e in bronze
    ensures var t := RouteEvent(env, rules, s, e).shelves;
            Separated(rules, bronze, t.silver, t.quarantine) && Extends(s, t)
  {
    if Valid(rules, e) {
      AdmitKeeps(rules, bronze, s.silver, s.quarantine, TrustedEvent(e, env.now(s.meter.ticks)));
    }
  }

  /** Routing keeps Silver and Quarantine apart, whatever fails; only adds; and so a valid event
      keeps the instant of its first admission. */
  lemma {:induction false} RoutingKeepsSeparation(env: Environment, rules: seq<Rule>, bronze: seq<InternalEvent>,
                                                  s: Shelves, page: seq<InternalEvent>)
    requires DistinctIds(bronze) && Separated(rules, bronze, s.silver, s.quarantine)
    requires forall e :: e in page ==> e in bronze
    ensures var t := RoutePage(env, rules, s, page).shelves;
            Separated(rules, bronze, t.silver, t.quarantine) && Extends(s, t)
  {
    if |page| > 0 {
      var init, e := page[..|page| - 1], page[|page| - 1];
      assert e in page;
      RoutingKeepsSeparation(env, rules, bronze, s, init);
      var before := RoutePage(env, rules, s, init);
      if before.outcome.Done? {
        RouteEventKeeps(env, rules, bronze, before.shelves, e);
      }
    }
  }

  function Passing(rules: seq<Rule>): InternalEvent -> bool { (e: InternalEvent) => Valid(rules, e) }

  function Failing(rules: seq<Rule>): InternalEvent -> bool { (e: InternalEvent) => !Valid(rules, e) }

  function RecordEvents(records: seq<QuarantineRecord>): seq<InternalEvent> {
    if |records| == 0 then [] else RecordEvents(records[..|records| - 1]) + [records[|records| - 1].event]
  }

  lemma {:induction false} RecordEventsConcat(a: seq<QuarantineRecord>, b: seq<QuarantineRecord>)
    ensures RecordEvents(a + b) == RecordEvents(a) + RecordEvents(b)
  {
    if |b| == 0 {
      assert a + b == a;
    } else {
      RecordEventsConcat(a, b[..|b| - 1]);
      assert (a + b)[..|a + b| - 1] == a + b[..|b| - 1];
    }
  }

  /** What a success means: the page is split in two, in order, and both halves are stored. */
  ghost predicate Splits(rules: seq<Rule>, s: Shelves, page: seq<InternalEvent>, t: Shelves, r: TrustRoutingResult) {
    && r.validated == Select(page, Passing(rules))
    && r.quarantined == Select(page, Failing(rules))
    && (forall e :: e in page && Valid(rules, e) ==> e in Cores(t.silver))
    && (forall e :: e in Cores(t.silver) ==> e in Cores(s.silver) || (e in page && Valid(rules, e)))
    && RecordEvents(t.quarantine) == RecordEvents(s.quarantine) + Select(page, Failing(rules))
  }

  lemma SplitsNext(env: Environment, rules: seq<Rule>, bronze: seq<InternalEvent>, s: Shelves,
                   init: seq<InternalEvent>, e: InternalEvent,
                   before: Shelves, r: TrustRoutingResult)
    requires DistinctIds(bronze) && Separated(rules, bronze, before.silver, before.quarantine) && e in bronze
    requires Splits(rules, s, init, before, r) && RouteEvent(env, rules, before, e).outcome.Done?
    ensures Splits(rules, s, init + [e], RouteEvent(env, rules, before, e).shelves, Record(r, e, Judge(rules, e)))
  {
    hide Judge, Clashes, Refuses, DistinctIds;
    var now := env.now(before.meter.ticks);
    SelectSnoc(init, e, Passing(rules));
    SelectSnoc(init, e, Failing(rules));
    if Valid(rules, e) {
      AdmitKeeps(rules, bronze, before.silver, before.quarantine, TrustedEvent(e, now));
      AdmittedCores(before.silver, TrustedEvent(e, now));
    } else {
      var q := QuarantineRecord(e, now, Judge(rules, e).failures);
      assert (before.quarantine + [q])[..|before.quarantine|] == before.quarantine;
      var old', rejected := RecordEvents(s.quarantine), Select(init, Failing(rules));
      assert old' + (rejected + [e]) == (old' + rejected) + [e];
    }
  }

  /** A successful batch splits its page into the valid and the rejected events, in page order:
      every valid one is in Silver, every rejected one has one new Quarantine record. */
  lemma {:induction false} SuccessSplitsPage(env: Environment, rules: seq<Rule>, bronze: seq<InternalEvent>,
                                             s: Shelves, page: seq<InternalEvent>)
    requires DistinctIds(bronze) && Separated(rules, bronze, s.silver, s.quarantine)
    requires forall e :: e in page ==> e in bronze
    requires RoutePage(env, rules, s, page).outcome.Done?
    ensures Splits(rules, s, page, RoutePage(env, rules, s, page).shelves, RoutePage(env, rules, s, page).outcome.value)
  {
    hide Splits, Failures, Clashes, Separated, Record, DistinctIds;
    if |page| == 0 {
      SplitsNothing(rules, s, page);
    } else {
      var init, e := page[..|page| - 1], page[|page| - 1];
      assert page == init + [e] && e in page;
      assert forall x :: x in init ==> x in page;
      var before := RoutePage(env, rules, s, init);
      SuccessSplitsPage(env, rules, bronze, s, init);
      RoutingKeepsSeparation(env, rules, bronze, s, init);
      var step := RouteEvent(env, rules, before.shelves, e);
      assert RoutePage(env, rules, s, page) == RouteNext(env, rules, before, e);
      assert step.outcome == Done(Judge(rules, e));
      SplitsNext(env, rules, bronze, s, init, e, before.shelves, before.outcome.value);
    }
  }

  lemma SplitsNothing(rules: seq<Rule>, s: Shelves, page: seq<InternalEvent>)
    requires page == []
    ensures Splits(rules, s, page, s, TrustRoutingResult([], [], map[]))
  {
    assert RecordEvents(s.quarantine) + [] == RecordEvents(s.quarantine);
  }

  lemma AdmittedCores(silver: seq<TrustedEvent>, t: TrustedEvent)
    ensures forall e :: e in Cores(silver) ==> e in Cores(Admit(silver, t))
    ensures forall e :: e in Cores(Admit(silver, t)) ==> e in Cores(silver) || e == t.event
  {
    CoresSnoc(silver, t);
  }

  /** The same rows, whatever the meter says. */
  predicate SameRows(s: Shelves, t: Shelves) { s.silver == t.silver && s.quarantine == t.quarantine }

  /** A batch that fails has routed exactly the events before the failing one; and that one too,
      exactly when its write had taken effect although it was reported as failed. */
  lemma {:induction false} FailureRoutedAPrefix(env: Environment, rules: seq<Rule>, s: Shelves,
                                                page: seq<InternalEvent>)
    returns (n: nat)
    requires RoutePage(env, rules, s, page).outcome.Raised?
    ensures n < |page| && RoutePage(env, rules, s, page[..n]).outcome.Done?
    ensures var before, after := RoutePage(env, rules, s, page[..n]).shelves, RoutePage(env, rules, s, page).shelves;
            SameRows(after, if env.Takes(before.meter.ops) then Shelve(rules, before, page[n],
                  env.now(before.meter.ticks)) else before)
  {
    hide Shelve, Refuses, Judge;
    var init := page[..|page| - 1];
    if RoutePage(env, rules, s, init).outcome.Raised? {
      n := FailureRoutedAPrefix(env, rules, s, init);
      assert init[..n] == page[..n];
    } else {
      n := |page| - 1;
    }
  }

  /** Every stored instant is one the clock showed before. */
  ghost predicate StampedBefore(env: Environment, quarantine: seq<QuarantineRecord>, ticks: nat) {
    forall q, k: nat :: q in quarantine && k >= ticks ==> q.quarantinedAt < env.now(k)
  }

  /** Under a strictly increasing clock a rejection is never refused for its key: a batch fails
      only where an input/output operation does, and every stamp stays in the past. */
  lemma {:induction false} StrictClockNeverClashes(env: Environment, rules: seq<Rule>, s: Shelves,
                                                   page: seq<InternalEvent>)
    requires StrictClock(env) && StampedBefore(env, s.quarantine, s.meter.ticks)
    ensures var r := RoutePage(env, rules, s, page);
            && StampedBefore(env, r.shelves.quarantine, r.shelves.meter.ticks)
            && r.shelves.meter.ops <= s.meter.ops + |page|
            && r.shelves.meter.ticks - s.meter.ticks == r.shelves.meter.ops - s.meter.ops >= 0
            && (r.outcome.Done? ==> r.shelves.meter.ops == s.meter.ops + |page|)
            && (r.outcome.Done? <==> forall k :: s.meter.ops <= k < s.meter.ops + |page| ==> !env.fails(k))
  {
    hide Failures;
    if |page| > 0 {
      var init := page[..|page| - 1];
      StrictClockNeverClashes(env, rules, s, init);
      var before := RoutePage(env, rules, s, init);
      if before.outcome.Done? {
        assert before.shelves.meter.ops == s.meter.ops + |page| - 1;
      }
    }
  }

  // ----- Exactly when a batch succeeds -----

  /** The `i`th write of a page succeeds: no failure, and no taken key for a rejected event. */
  ghost predicate WriteSucceeds(env: Environment, rules: seq<Rule>, s: Shelves, page: seq<InternalEvent>, i: nat)
    requires i < |page|
  {
    && !env.fails(s.meter.ops + i)
    && (Valid(rules, page[i]) || !Clashes(s.quarantine, page[i].eventId, env.now(s.meter.ticks + i)))
  }

  /** While a page of distinct events succeeds, the keys of the events to come are as they were. */
  lemma {:induction false} OtherKeysUntouched(env: Environment, rules: seq<Rule>, s: Shelves, page: seq<InternalEvent>,
                                              id: string, at: int)
    requires RoutePage(env, rules, s, page).outcome.Done?
    requires forall e :: e in page ==> e.eventId != id
    ensures var t := RoutePage(env, rules, s, page).shelves;
            && Clashes(t.quarantine, id, at) == Clashes(s.quarantine, id, at)
            && t.meter == Meter(s.meter.ticks + |page|, s.meter.ops + |page|)
  {
    hide Judge;
    if |page| > 0 {
      var init, e := page[..|page| - 1], page[|page| - 1];
      OtherKeysUntouched(env, rules, s, init, id, at);
      var before := RoutePage(env, rules, s, init).shelves;
      var q := QuarantineRecord(e, env.now(before.meter.ticks), Judge(rules, e).failures);
      OtherKey(before.quarantine, q, id, at);
    }
  }

  lemma OtherKey(records: seq<QuarantineRecord>, q: QuarantineRecord, id: string, at: int)
    ensures Clashes(records + [q], id, at) <==>
            Clashes(records, id, at) || (q.event.eventId == id && q.quarantinedAt == at)
  {
    var more := records + [q];
    assert forall i :: 0 <= i < |records| ==> more[i] == records[i];
    if q.event.eventId == id && q.quarantinedAt == at {
      assert more[|records|] == q;
    }
  }

  /** Whatever the clock does, a page of distinct events succeeds exactly when none of its writes
      fails and no rejected event meets its own key from an earlier rejection. */
  lemma {:induction false} PageSucceedsIff(env: Environment, rules: seq<Rule>, s: Shelves, page: seq<InternalEvent>)
    requires DistinctIds(page)
    ensures RoutePage(env, rules, s, page).outcome.Done? <==>
            forall i :: 0 <= i < |page| ==> WriteSucceeds(env, rules, s, page, i)
  {
    hide Clashes, Valid, Judge;
    if |page| > 0 {
      var init, n := page[..|page| - 1], |page| - 1;
      PageSucceedsIff(env, rules, s, init);
      assert forall i :: 0 <= i < n ==> WriteSucceeds(env, rules, s, page, i) == WriteSucceeds(env, rules, s, init, i);
      if RoutePage(env, rules, s, init).outcome.Done? {
        OtherKeysUntouched(env, rules, s, init, page[n].eventId, env.now(s.meter.ticks + n));
        assert WriteSucceeds(env, rules, s, page, n) <==> RoutePage(env, rules, s, page).outcome.Done?;
      }
    }
  }

  /** A clock that stands still makes an honest second rejection fail: the record's key is taken. */
  lemma StoppedClockClashes(env: Environment, rules: seq<Rule>, s: Shelves, e: InternalEvent)
    requires !Valid(rules, e) && env.now(s.meter.ticks) == env.now(s.meter.ticks + 1)
    requires !env.fails(s.meter.ops) && !Clashes(s.quarantine, e.eventId, env.now(s.meter.ticks))
    ensures RoutePage(env, rules, s, [e]).outcome.Done?
    ensures RoutePage(env, rules, RoutePage(env, rules, s, [e]).shelves, [e]).outcome == Raised(StorageError)
  {
    assert [e][..0] == [];
    var after := RoutePage(env, rules, s, [e]).shelves;
    assert RoutePage(env, rules, s, [e]) == Routed(RouteEvent(env, rules, s, e).shelves,
                                            Done(Record(TrustRoutingResult([], [], map[]), e, Judge(rules, e))));
    assert after.quarantine[|s.quarantine|].event.eventId == e.eventId;
  }

  // ----- What a success reports and stamps -----

  /** Outcomes are reported for the rejected events of a page, each with its own failures. */
  ghost predicate Reports(rules: seq<Rule>, page: seq<InternalEvent>, outcomes: map<string, ValidationOutcome>) {
    && (forall id :: id in outcomes ==> exists e :: e in page && !Valid(rules, e) && e.eventId == id)
    && (forall e :: e in page && !Valid(rules, e) ==>
          e.eventId in outcomes && outcomes[e.eventId] == ValidationOutcome(false, Failures(rules, e)))
  }

  lemma ReportsOneMore(rules: seq<Rule>, init: seq<InternalEvent>, e: InternalEvent,
                       outcomes: map<string, ValidationOutcome>)
    requires Reports(rules, init, outcomes) && DistinctIds(init + [e])
    ensures Reports(rules, init + [e], if Valid(rules, e) then outcomes else outcomes[e.eventId := Judge(rules, e)])
  {
    hide Failures;
    var page := init + [e];
    var after := if Valid(rules, e) then outcomes else outcomes[e.eventId := Judge(rules, e)];
    assert page[|init|] == e && forall i :: 0 <= i < |init| ==> page[i] == init[i];
    forall id | id in after ensures exists x :: x in page && !Valid(rules, x) && x.eventId == id {
      if id in outcomes {
        var x :| x in init && !Valid(rules, x) && x.eventId == id;
        assert x in page;
      } else {
        assert e in page;
      }
    }
  }

  /** The outcomes a successful batch reports are those of the rejected events, each its own. */
  lemma {:induction false} OutcomesMeaning(env: Environment, rules: seq<Rule>, s: Shelves, page: seq<InternalEvent>)
    requires DistinctIds(page) && RoutePage(env, rules, s, page).outcome.Done?
    ensures Reports(rules, page, RoutePage(env, rules, s, page).outcome.value.outcomes)
  {
    hide Failures, Clashes, Shelve, Reports;
    if |page| == 0 {
      NothingReported(rules);
    } else {
      var init, last := page[..|page| - 1], page[|page| - 1];
      assert page == init + [last];
      OutcomesMeaning(env, rules, s, init);
      ReportsOneMore(rules, init, last, RoutePage(env, rules, s, init).outcome.value.outcomes);
    }
  }

  lemma NothingReported(rules: seq<Rule>)
    ensures Reports(rules, [], map[])
  {
  }

  lemma AdmittedIds(silver: seq<TrustedEvent>, t: TrustedEvent, id: string)
    ensures HasId(Cores(Admit(silver, t)), id) <==> HasId(Cores(silver), id) || t.event.eventId == id
    ensures !HasId(Cores(silver), t.event.eventId) ==> t in Admit(silver, t)
    ensures forall x :: x in silver ==> x in Admit(silver, t)
  {
    CoresSnoc(silver, t);
    var more := Cores(silver) + [t.event];
    assert forall i :: 0 <= i < |silver| ==> more[i] == Cores(silver)[i];
    assert more[|silver|] == t.event;
    assert (silver + [t])[|silver|] == t;
  }

  lemma {:induction false} OtherIdsUntouched(env: Environment, rules: seq<Rule>, s: Shelves, page: seq<InternalEvent>,
                                             id: string)
    requires RoutePage(env, rules, s, page).outcome.Done? && forall e :: e in page ==> e.eventId != id
    ensures HasId(Cores(RoutePage(env, rules, s, page).shelves.silver), id) == HasId(Cores(s.silver), id)
  {
    hide HasId, Cores, Admit, Judge, Clashes;
    if |page| > 0 {
      var init, last := page[..|page| - 1], page[|page| - 1];
      OtherIdsUntouched(env, rules, s, init, id);
      var before := RoutePage(env, rules, s, init).shelves;
      AdmittedIds(before.silver, TrustedEvent(last, env.now(before.meter.ticks)), id);
    }
  }

  /** The `i`th event of a successful page is stored with the `i`th reading of the clock: a valid one that
      Silver does not know yet as validated then, a rejected one as quarantined then, with its failures. */
  lemma {:induction false} PageStamps(env: Environment, rules: seq<Rule>, s: Shelves, page: seq<InternalEvent>)
    requires DistinctIds(page) && RoutePage(env, rules, s, page).outcome.Done?
    ensures RoutePage(env, rules, s, page).shelves.meter.ticks == s.meter.ticks + |page|
    ensures forall i :: 0 <= i < |page| && Valid(rules, page[i]) && !HasId(Cores(s.silver), page[i].eventId) ==>
              TrustedEvent(page[i], env.now(s.meter.ticks + i)) in RoutePage(env, rules, s, page).shelves.silver
    ensures forall i :: 0 <= i < |page| && !Valid(rules, page[i]) ==>
              QuarantineRecord(page[i], env.now(s.meter.ticks + i), Failures(rules, page[i]))
              in RoutePage(env, rules, s, page).shelves.quarantine
  {
    hide HasId, Cores, Admit, Failures, Clashes;
    if |page| > 0 {
      var init, last := page[..|page| - 1], page[|page| - 1];
      PageStamps(env, rules, s, init);
      OtherIdsUntouched(env, rules, s, init, last.eventId);
      var before := RoutePage(env, rules, s, init).shelves;
      AdmittedIds(before.silver, TrustedEvent(last, env.now(before.meter.ticks)), last.eventId);
    }
  }

  /** Routing raises for storage alone. */
  lemma {:induction false} RoutingRaisesStorage(env: Environment, rules: seq<Rule>, s: Shelves,
                                                page: seq<InternalEvent>)
    ensures RoutePage(env, rules, s, page).outcome.Raised? ==>
            RoutePage(env, rules, s, page).outcome.error == StorageError
  {
    hide Judge, Clashes, Shelve;
    if |page| > 0 {
      RoutingRaisesStorage(env, rules, s, page[..|page| - 1]);
    }
  }
}
