/** One connection across several calls: what a failed call leaves behind, when the next call may go
    on without a restart, and how many messages a call takes. */
module Connections {
  import opened Events
  import opened Warehouse
  import opened Ingestion
  import opened IngestionProperties

  // ----- What is stored below a mark -----

  /** Nothing is committed that the connection has not passed. */
  ghost predicate Tracks(s: Feed) {
    Shaped(s) && |s.committed| == |s.log| && forall p :: 0 <= p < |s.log| ==> s.committed[p] <= s.position[p]
  }

  /** A message that decodes has its identity in Bronze. */
  predicate Stored(s: Feed, p: nat, o: nat)
    requires p < |s.log| && o < |s.log[p]|
  {
    s.log[p][o].Readable? ==> HasId(s.bronze, s.log[p][o].event.eventId)
  }

  datatype Place = Place(partition: nat, offset: nat)

  /** Everything below the marks that decodes is stored, except perhaps at the places `lost`. */
  ghost predicate StoredBut(s: Feed, marks: seq<nat>, lost: set<Place>) {
    && |marks| == |s.log|
    && forall p, o :: 0 <= p < |s.log| && 0 <= o < |s.log[p]| && o < marks[p] && Place(p, o) !in lost ==>
       Stored(s, p, o)
  }

  /** The connection has left nothing unstored behind. */
  ghost predicate Covered(s: Feed) { StoredBut(s, s.position, {}) }

  /** Nothing is committed that is not stored. */
  ghost predicate CommitsAreStored(s: Feed) { StoredBut(s, s.committed, {}) }

  /** The message whose append a call failed at. */
  function FailedAppend(env: Environment, s: Feed, m: Meter, persisted: nat, maxEvents: int): Option<ConsumedEvent>
    requires Shaped(s)
    decreases Remaining(s)
  {
    var next := NextEvent(env, s, m);
    if next.outcome.Raised? || next.outcome.value.None? then None
    else
      var c := next.outcome.value.value;
      var step := Persist(env, next.feed, next.meter, c);
      if step.outcome == Raised(StorageError) then Some(c)
      else if step.outcome.Raised? || persisted + 1 >= maxEvents then None
      else FailedAppend(env, step.feed, step.meter, persisted + 1, maxEvents)
  }

  /** `c` is the last message its partition was asked for. */
  ghost predicate JustFetched(s: Feed, c: ConsumedEvent) {
    && Tracks(s) && c.partition < |s.log| && c.offset < |s.log[c.partition]|
    && s.log[c.partition][c.offset] == Readable(c.event)
    && s.position[c.partition] == c.offset + 1 && s.committed[c.partition] <= c.offset
  }

  lemma {:induction false} NextEventCovers(env: Environment, s: Feed, m: Meter, lost: set<Place>)
    requires Tracks(s) && StoredBut(s, s.position, lost)
    ensures var r := NextEvent(env, s, m);
            && Undisturbed(s, r.feed) && Tracks(r.feed)
            && (forall p :: 0 <= p < |s.log| ==> s.position[p] <= r.feed.position[p])
            && (r.outcome.Raised? || r.outcome.value.None? ==> StoredBut(r.feed, r.feed.position, lost))
            && (r.outcome.Raised? ==> r.outcome.error == ConsumeError)
            && (r.outcome.Done? && r.outcome.value.Some? ==>
                  var c := r.outcome.value.value;
                  && JustFetched(r.feed, c) && s.position[c.partition] <= c.offset
                  && StoredBut(r.feed, r.feed.position, lost + {Place(c.partition, c.offset)}))
    decreases Remaining(s)
  {
    hide Left, HasId;
    match Serve(s, env.turn(m.ops))
    case None =>
    case Some(p) =>
      if !env.fails(m.ops) && s.log[p][s.position[p]].Unreadable? {
        NextEventCovers(env, Fetched(s, p), Meter(m.ticks, m.ops + 1), lost);
      }
  }

  /** Appending stores the fetched message and forgets nothing. */
  lemma AppendCovers(s: Feed, c: ConsumedEvent, lost: set<Place>)
    requires JustFetched(s, c) && StoredBut(s, s.position, lost + {Place(c.partition, c.offset)})
    ensures var t := Appended(s, c); StoredBut(t, t.position, lost) && JustFetched(t, c)
  {
    hide HasId;
  }

  lemma PersistCovers(env: Environment, s: Feed, m: Meter, c: ConsumedEvent, lost: set<Place>)
    requires JustFetched(s, c) && StoredBut(s, s.position, lost + {Place(c.partition, c.offset)})
    ensures var r := Persist(env, s, m, c);
            && Tracks(r.feed)
            && (r.outcome != Raised(StorageError) ==> StoredBut(r.feed, r.feed.position, lost))
            && (r.outcome == Raised(StorageError) ==>
                  JustFetched(r.feed, c) && StoredBut(r.feed, r.feed.position, lost + {Place(c.partition, c.offset)}))
            && (forall q :: 0 <= q < |s.log| ==>
                  r.feed.committed[q] == s.committed[q] || (q == c.partition && r.feed.committed[q] == c.offset + 1))
            && (forall id :: HasId(s.bronze, id) ==> HasId(r.feed.bronze, id))
  {
    hide HasId, StoredBut;
    AppendCovers(s, c, lost);
    MoreIsLost(Appended(s, c), lost, Place(c.partition, c.offset));
    MarksOnly(Appended(s, c), Acknowledged(Appended(s, c), c), lost);
  }

  lemma MoreIsLost(s: Feed, lost: set<Place>, place: Place)
    requires StoredBut(s, s.position, lost)
    ensures StoredBut(s, s.position, lost + {place})
  {
    hide Stored;
  }

  lemma MarksOnly(s: Feed, t: Feed, lost: set<Place>)
    requires StoredBut(s, s.position, lost) && t == s.(committed := t.committed)
    ensures StoredBut(t, t.position, lost)
  {
    hide HasId;
  }

  /** A commit passes everything fetched so far in its partition. */
  ghost predicate CommitsJump(s: Feed, t: Feed)
    requires Tracks(s)
  {
    && Tracks(t) && t.log == s.log
    && (forall p :: 0 <= p < |s.log| ==>
          s.position[p] <= t.position[p] && (t.committed[p] == s.committed[p] || s.position[p] < t.committed[p]))
    && forall id :: HasId(s.bronze, id) ==> HasId(t.bronze, id)
  }

  /** A call, in any state of the connection: what was lost before it stays the only thing lost,
      except for the message of a failed append. */
  lemma {:induction false} CallCovers(env: Environment, s: Feed, m: Meter, persisted: nat, maxEvents: int,
                                      lost: set<Place>)
    requires Tracks(s) && StoredBut(s, s.position, lost)
    ensures var r := IngestLoop(env, s, m, persisted, maxEvents);
            var failed := FailedAppend(env, s, m, persisted, maxEvents);
            && CommitsJump(s, r.feed)
            && (failed.Some? <==> r.outcome == Raised(StorageError))
            && (failed.None? ==> StoredBut(r.feed, r.feed.position, lost))
            && (failed.Some? ==>
                  var c := failed.value;
                  && JustFetched(r.feed, c) && s.position[c.partition] <= c.offset
                  && StoredBut(r.feed, r.feed.position, lost + {Place(c.partition, c.offset)}))
    decreases Remaining(s)
  {
    hide NextEvent, Persist, Left, StoredBut, HasId;
    NextEventCovers(env, s, m, lost);
    var next := NextEvent(env, s, m);
    if next.outcome.Done? && next.outcome.value.Some? {
      var c := next.outcome.value.value;
      PersistCovers(env, next.feed, next.meter, c, lost);
      var step := Persist(env, next.feed, next.meter, c);
      if step.outcome.Done? && persisted + 1 < maxEvents {
        CallCovers(env, step.feed, step.meter, persisted + 1, maxEvents, lost);
      }
    }
  }

  /** Which failure leaves something behind: after a call on a connection that had left nothing
      unstored, it still has not, unless the append failed; and then it has not exactly when the
      identity of that message is in Bronze all the same. A failed fetch or commit is harmless. */
  lemma CoveredAfterCallIff(env: Environment, s: Feed, m: Meter, maxEvents: int)
    requires Tracks(s) && Covered(s)
    ensures var r, failed := IngestLoop(env, s, m, 0, maxEvents), FailedAppend(env, s, m, 0, maxEvents);
            && Tracks(r.feed) && CommitsAreStored(r.feed)
            && (failed.Some? <==> r.outcome == Raised(StorageError))
            && (Covered(r.feed) <==> failed.None? || HasId(r.feed.bronze, failed.value.event.eventId))
  {
    hide IngestLoop, FailedAppend, HasId;
    CallCovers(env, s, m, 0, maxEvents, {});
    var r, failed := IngestLoop(env, s, m, 0, maxEvents).feed, FailedAppend(env, s, m, 0, maxEvents);
    if failed.Some? {
      assert Stored(r, failed.value.partition, failed.value.offset) <==> HasId(r.bronze, failed.value.event.eventId);
    }
  }

  /** After the next call: it has left a commit past an unstored message exactly when the first call failed
      at an append, the message is still not in Bronze, and the next call has committed anything at all
      in its partition. */
  lemma CommitsAfterNextCallIff(env: Environment, s: Feed, m: Meter, maxEvents: int, env': Environment, m': Meter,
                            maxEvents': int)
    requires Tracks(s) && Covered(s)
    ensures var first, failed := IngestLoop(env, s, m, 0, maxEvents).feed, FailedAppend(env, s, m, 0, maxEvents);
            && Tracks(first) && first.log == s.log && Tracks(IngestLoop(env', first, m', 0, maxEvents').feed)
            && IngestLoop(env', first, m', 0, maxEvents').feed.log == s.log
            && (failed.Some? ==> failed.value.partition < |s.log|)
    ensures var first, failed := IngestLoop(env, s, m, 0, maxEvents).feed, FailedAppend(env, s, m, 0, maxEvents);
            var next := IngestLoop(env', first, m', 0, maxEvents').feed;
            CommitsAreStored(next) <==>
            || failed.None?
            || HasId(next.bronze, failed.value.event.eventId)
            || next.committed[failed.value.partition] == first.committed[failed.value.partition]
  {
    hide IngestLoop, FailedAppend, HasId;
    CallCovers(env, s, m, 0, maxEvents, {});
    var first, failed := IngestLoop(env, s, m, 0, maxEvents).feed, FailedAppend(env, s, m, 0, maxEvents);
    var lost := if failed.Some? then {Place(failed.value.partition, failed.value.offset)} else {};
    assert {} + lost == lost;
    CallCovers(env', first, m', 0, maxEvents', lost);
    var next, failed' := IngestLoop(env', first, m', 0, maxEvents').feed, FailedAppend(env', first, m', 0, maxEvents');
    CommittedIsStoredBut(next, failed', lost);
    if failed.Some? {
      assert Stored(next, failed.value.partition, failed.value.offset) <==>
             HasId(next.bronze, failed.value.event.eventId);
    }
  }

  lemma CommittedIsStoredBut(s: Feed, failed: Option<ConsumedEvent>, lost: set<Place>)
    requires Tracks(s)
    requires failed.None? ==> StoredBut(s, s.position, lost)
    requires failed.Some? ==> JustFetched(s, failed.value)
                              && StoredBut(s, s.position, lost + {Place(failed.value.partition, failed.value.offset)})
    ensures StoredBut(s, s.committed, lost)
  {
    hide Stored;
  }

  /** The first message at or after `from` that decodes. */
  function FirstReadable(messages: seq<Message>, from: nat): (r: Option<nat>)
    requires from <= |messages|
    ensures r.Some? ==> from <= r.value < |messages| && messages[r.value].Readable?
    decreases |messages| - from
  {
    if from == |messages| then None
    else if messages[from].Readable? then Some(from)
    else FirstReadable(messages, from + 1)
  }

  /** Before the next call: no append failed, or its message is in Bronze by identity, or the partition
      has no further message that decodes, or the next one carries the same identity. */
  predicate SafeToContinue(s: Feed, failed: Option<ConsumedEvent>)
    requires Shaped(s) && (failed.Some? ==> failed.value.partition < |s.log|)
  {
    || failed.None?
    || HasId(s.bronze, failed.value.event.eventId)
    || var p := failed.value.partition;
       var next := FirstReadable(s.log[p], s.position[p]);
       next.None? || s.log[p][next.value].event.eventId == failed.value.event.eventId
  }

  lemma FirstStep(messages: seq<Message>, from: nat)
    requires from < |messages|
    ensures FirstReadable(messages, from)
         == if messages[from].Readable? then Some(from) else FirstReadable(messages, from + 1)
  {
  }

  /** A fetch returns the first message of its partition that decodes, and moves no other partition past
      one that does. */
  lemma {:induction false} FetchesFirst(env: Environment, s: Feed, m: Meter, p: nat)
    requires Shaped(s) && p < |s.log|
    ensures var r := NextEvent(env, s, m);
            && r.feed == s.(position := r.feed.position)
            && if r.outcome.Done? && r.outcome.value.Some? && r.outcome.value.value.partition == p
               then var c := r.outcome.value.value;
                    && FirstReadable(s.log[p], s.position[p]) == Some(c.offset)
                    && s.log[p][c.offset] == Readable(c.event)
               else FirstReadable(s.log[p], r.feed.position[p]) == FirstReadable(s.log[p], s.position[p])
    decreases Remaining(s)
  {
    hide Left, FirstReadable;
    match Serve(s, env.turn(m.ops))
    case None =>
    case Some(q) =>
      FirstStep(s.log[q], s.position[q]);
      if !env.fails(m.ops) && s.log[q][s.position[q]].Unreadable? {
        FetchesFirst(env, Fetched(s, q), Meter(m.ticks, m.ops + 1), p);
      }
  }

  lemma LandedHasId(s: Feed, c: ConsumedEvent)
    requires Shaped(s) && c.partition < |s.log|
    ensures HasId(Appended(s, c).bronze, c.event.eventId)
    ensures forall id :: HasId(s.bronze, id) ==> HasId(Appended(s, c).bronze, id)
  {
    hide HasId;
  }

  /** While the partition's next message, if any, carries the identity `id`, nothing is committed there
      before that identity is stored. */
  lemma {:induction false} CommitNeedsNext(env: Environment, s: Feed, m: Meter, persisted: nat, maxEvents: int, p: nat,
                                           id: string, lost: set<Place>)
    requires Tracks(s) && StoredBut(s, s.position, lost) && p < |s.log|
    requires var next := FirstReadable(s.log[p], s.position[p]);
             next.None? || s.log[p][next.value].event.eventId == id
    ensures var t := IngestLoop(env, s, m, persisted, maxEvents).feed;
            && Tracks(t) && t.log == s.log
            && (t.committed[p] == s.committed[p] || HasId(t.bronze, id))
    decreases Remaining(s)
  {
    hide NextEvent, Left, StoredBut, HasId, FirstReadable, Appended, Acknowledged;
    NextEventCovers(env, s, m, lost);
    FetchesFirst(env, s, m, p);
    var next := NextEvent(env, s, m);
    if next.outcome.Done? && next.outcome.value.Some? {
      var c := next.outcome.value.value;
      PersistCovers(env, next.feed, next.meter, c, lost);
      var step := Persist(env, next.feed, next.meter, c);
      LandedHasId(next.feed, c);
      AcknowledgedAlone(next.feed, c);
      AcknowledgedAlone(Appended(next.feed, c), c);
      assert step.feed.committed[p] == s.committed[p] || HasId(step.feed.bronze, id);
      if step.outcome.Done? && persisted + 1 < maxEvents {
        CallCovers(env, step.feed, step.meter, persisted + 1, maxEvents, lost);
        if c.partition != p {
          CommitNeedsNext(env, step.feed, step.meter, persisted + 1, maxEvents, p, id, lost);
        }
      }
    }
  }

  lemma AcknowledgedAlone(s: Feed, c: ConsumedEvent)
    requires Shaped(s) && c.partition < |s.log| && |s.committed| == |s.log|
    ensures Acknowledged(s, c) == s.(committed := s.committed[c.partition := c.offset + 1])
    ensures var t := Appended(s, c);
            Shaped(t) && t.committed == s.committed && t.position == s.position && t.log == s.log
  {
  }

  /** The world in which nothing fails and the broker serves one partition. */
  function ServingOnly(p: nat): Environment {
    Environment((n: nat) => 0, (n: nat) => false, (n: nat) => false, (n: nat) => p)
  }

  lemma {:induction false} ServesNext(s: Feed, m: Meter, p: nat)
    requires Shaped(s) && p < |s.log| && FirstReadable(s.log[p], s.position[p]).Some?
    ensures var o := FirstReadable(s.log[p], s.position[p]).value;
            NextEvent(ServingOnly(p), s, m).outcome == Done(Some(ConsumedEvent(p, o, s.log[p][o].event)))
    decreases Remaining(s)
  {
    hide Left;
    var env := ServingOnly(p);
    assert Serve(s, env.turn(m.ops)) == Some(p);
    if s.log[p][s.position[p]].Unreadable? {
      ServesNext(Fetched(s, p), Meter(m.ticks, m.ops + 1), p);
    }
  }

  lemma OnlyThatId(rows: seq<InternalEvent>, e: InternalEvent, id: string)
    requires !HasId(rows, id) && e.eventId != id
    ensures !HasId(Land(rows, e), id)
  {
  }

  /** A call that shows it: it takes one message of that partition, and commits past the unstored one. */
  lemma UnsafeCall(s: Feed, m: Meter, c: ConsumedEvent)
    requires JustFetched(s, c) && !SafeToContinue(s, Some(c))
    ensures !CommitsAreStored(IngestLoop(ServingOnly(c.partition), s, m, 0, 1).feed)
  {
    hide NextEvent, Left, HasId, Land;
    var p, id, env := c.partition, c.event.eventId, ServingOnly(c.partition);
    ServesNext(s, m, p);
    FetchesFirst(env, s, m, p);
    var next := NextEvent(env, s, m);
    var d := next.outcome.value.value;
    OnlyThatId(s.bronze, d.event, id);
    var t := IngestLoop(env, s, m, 0, 1).feed;
    assert t.bronze == Land(s.bronze, d.event) && t.log == s.log && t.committed[p] == d.offset + 1;
    assert !Stored(t, p, c.offset);
  }

  /** Going on without a restart: before the next call on the same connection it can be told whether any
      such call is safe. Every one leaves all commits stored exactly when no append failed, or its
      message is in Bronze by identity, or the partition has no further message that decodes, or the
      next one carries the same identity; otherwise a call that meets no fault commits past it. */
  lemma ContinuingIsSafeIff(env: Environment, s: Feed, m: Meter, maxEvents: int)
    requires Tracks(s) && Covered(s)
    ensures var first, failed := IngestLoop(env, s, m, 0, maxEvents).feed, FailedAppend(env, s, m, 0, maxEvents);
            && Shaped(first) && (failed.Some? ==> failed.value.partition < |first.log|)
            && (SafeToContinue(first, failed) <==>
                forall env': Environment, m': Meter, maxEvents': int ::
                  CommitsAreStored(IngestLoop(env', first, m', 0, maxEvents').feed))
  {
    hide IngestLoop, FailedAppend, HasId, FirstReadable, StoredBut, Left;
    CallCovers(env, s, m, 0, maxEvents, {});
    var first, failed := IngestLoop(env, s, m, 0, maxEvents).feed, FailedAppend(env, s, m, 0, maxEvents);
    if SafeToContinue(first, failed) {
      forall env': Environment, m': Meter, maxEvents': int
        ensures CommitsAreStored(IngestLoop(env', first, m', 0, maxEvents').feed)
      {
        SafeCall(env, s, m, maxEvents, env', m', maxEvents');
      }
    } else {
      UnsafeCall(first, m, failed.value);
    }
  }

  lemma SafeCall(env: Environment, s: Feed, m: Meter, maxEvents: int, env': Environment, m': Meter, maxEvents': int)
    requires Tracks(s) && Covered(s)
    requires var first, failed := IngestLoop(env, s, m, 0, maxEvents).feed, FailedAppend(env, s, m, 0, maxEvents);
             && (failed.Some? ==> failed.value.partition < |first.log|)
             && SafeToContinue(first, failed)
    ensures CommitsAreStored(IngestLoop(env', IngestLoop(env, s, m, 0, maxEvents).feed, m', 0, maxEvents').feed)
  {
    hide IngestLoop, FailedAppend, HasId, FirstReadable, StoredBut, Left;
    CallCovers(env, s, m, 0, maxEvents, {});
    var first, failed := IngestLoop(env, s, m, 0, maxEvents).feed, FailedAppend(env, s, m, 0, maxEvents);
    CommitsAfterNextCallIff(env, s, m, maxEvents, env', m', maxEvents');
    if failed.Some? {
      var c := failed.value;
      var lost := {Place(c.partition, c.offset)};
      assert {} + lost == lost;
      CallCovers(env', first, m', 0, maxEvents', lost);
      if !HasId(first.bronze, c.event.eventId) {
        CommitNeedsNext(env', first, m', 0, maxEvents', c.partition, c.event.eventId, lost);
      }
    }
  }

  /** A restart always may go on: it has passed only what is committed, and that is stored. */
  lemma RestartCovers(s: Feed)
    requires Safe(s)
    ensures Tracks(Restarted(s)) && Covered(Restarted(s))
  {
    hide LandAll, Deliveries, HasId;
    RestartKeeps(s);
    forall p, o | 0 <= p < |s.log| && 0 <= o < |s.log[p]| && o < s.committed[p] ensures Stored(Restarted(s), p, o) {
      AckSafety(s, p);
    }
  }

  // ----- How many messages a call takes -----

  function CountReadable(messages: seq<Message>): nat {
    if |messages| == 0 then 0 else (if messages[0].Readable? then 1 else 0) + CountReadable(messages[1..])
  }

  /** The messages that decode and are not yet fetched, in the first `n` partitions. */
  function Decodable(log: seq<seq<Message>>, position: seq<nat>, n: nat): nat
    requires n <= |log| && n <= |position| && forall p :: 0 <= p < n ==> position[p] <= |log[p]|
  {
    if n == 0 then 0 else Decodable(log, position, n - 1) + CountReadable(log[n - 1][position[n - 1]..])
  }

  function DecodableLeft(s: Feed): nat
    requires Shaped(s)
  {
    Decodable(s.log, s.position, |s.log|)
  }

  lemma {:induction false} FetchTakesOne(log: seq<seq<Message>>, position: seq<nat>, n: nat, p: nat)
    requires n <= |log| && n <= |position| && (forall q :: 0 <= q < n ==> position[q] <= |log[q]|)
    requires p < |position| && p < |log| && position[p] < |log[p]|
    ensures Decodable(log, position[p := position[p] + 1], n)
         == Decodable(log, position, n) - if p < n && log[p][position[p]].Readable? then 1 else 0
  {
    if n > 0 {
      FetchTakesOne(log, position, n - 1, p);
      assert log[p][position[p]..][1..] == log[p][position[p] + 1..];
    }
  }

  lemma {:induction false} NoneDecodable(log: seq<seq<Message>>, position: seq<nat>, n: nat)
    requires n <= |log| && n <= |position| && forall p :: 0 <= p < n ==> position[p] == |log[p]|
    ensures Decodable(log, position, n) == 0
  {
    if n > 0 {
      NoneDecodable(log, position, n - 1);
    }
  }

  lemma FetchDecodable(s: Feed, p: nat)
    requires Shaped(s) && p < |s.log| && s.position[p] < |s.log[p]|
    ensures DecodableLeft(Fetched(s, p)) == DecodableLeft(s) - if s.log[p][s.position[p]].Readable? then 1 else 0
  {
    hide Left, Decodable;
    FetchTakesOne(s.log, s.position, |s.log|, p);
  }

  lemma {:induction false} NextEventTakesOne(env: Environment, s: Feed, m: Meter)
    requires Shaped(s)
    ensures var r := NextEvent(env, s, m);
            r.outcome.Done? ==>
              if r.outcome.value.None? then DecodableLeft(s) == 0 else DecodableLeft(s) == DecodableLeft(r.feed) + 1
    decreases Remaining(s)
  {
    hide Left, Decodable;
    match Serve(s, env.turn(m.ops))
    case None =>
      NoneDecodable(s.log, s.position, |s.log|);
    case Some(p) =>
      FetchDecodable(s, p);
      if !env.fails(m.ops) && s.log[p][s.position[p]].Unreadable? {
        NextEventTakesOne(env, Fetched(s, p), Meter(m.ticks, m.ops + 1));
      }
  }

  /** The call meets the end of the stream, where a live consumer would wait for more. */
  function MeetsEnd(env: Environment, s: Feed, m: Meter, persisted: nat, maxEvents: int): bool
    requires Shaped(s)
    decreases Remaining(s)
  {
    var next := NextEvent(env, s, m);
    if next.outcome.Raised? then false
    else if next.outcome.value.None? then true
    else
      var step := Persist(env, next.feed, next.meter, next.outcome.value.value);
      !(step.outcome.Raised? || persisted + 1 >= maxEvents)
      && MeetsEnd(env, step.feed, step.meter, persisted + 1, maxEvents)
  }

  /** A successful call takes as many messages as it may, or all that decode if there are fewer; and
      it meets the end of the stream exactly in the latter case. */
  lemma {:induction false} IngestTakesMinimum(env: Environment, s: Feed, m: Meter, persisted: nat, maxEvents: int)
    requires Shaped(s) && persisted < maxEvents
    ensures var r, available := IngestLoop(env, s, m, persisted, maxEvents), persisted + DecodableLeft(s);
            && (r.outcome.Done? ==> r.outcome.value == if available < maxEvents then available else maxEvents)
            && (MeetsEnd(env, s, m, persisted, maxEvents) <==> r.outcome.Done? && available < maxEvents)
    decreases Remaining(s)
  {
    hide NextEvent, Persist, Left, Decodable;
    NextEventTakesOne(env, s, m);
    var next := NextEvent(env, s, m);
    if next.outcome.Done? && next.outcome.value.Some? {
      var c := next.outcome.value.value;
      var step := Persist(env, next.feed, next.meter, c);
      if step.outcome.Done? && persisted + 1 < maxEvents {
        IngestTakesMinimum(env, step.feed, step.meter, persisted + 1, maxEvents);
      }
    }
  }

  // ----- Concrete traces -----

  /** A commit is for the whole partition: acknowledging a message also passes an undecodable one
      before it, which no restart will read again. */
  lemma CommitPassesUndecodable(env: Environment, e: InternalEvent, m: Meter)
    requires forall k :: m.ops <= k < m.ops + 4 ==> !env.fails(k)
    ensures var s := Feed([[Unreadable, Readable(e)]], [0], [0], [], [], [0]);
            IngestUpTo(env, s, m, 1).feed.committed == [2]
  {
    var s := Feed([[Unreadable, Readable(e)]], [0], [0], [], [], [0]);
    var t := Fetched(s, 0);
    assert t.position == [1];
    var u := Fetched(t, 0);
    assert Serve(s, env.turn(m.ops)) == Some(0) && Serve(t, env.turn(m.ops + 1)) == Some(0);
    var c := ConsumedEvent(0, 1, e);
    assert NextEvent(env, t, Meter(m.ticks, m.ops + 1)) == Pull(u, Meter(m.ticks, m.ops + 2), Done(Some(c)));
    assert NextEvent(env, s, m) == Pull(u, Meter(m.ticks, m.ops + 2), Done(Some(c)));
  }

  /** Without the restart the guarantee is lost: after a failed append the same connection has
      moved past the message, and the next commit passes it although it was never stored. */
  lemma SkippedWithoutRestart(env: Environment, lost: InternalEvent, next: InternalEvent, m: Meter)
    requires lost.eventId != next.eventId
    requires !env.fails(m.ops) && env.fails(m.ops + 1) && !env.lands(m.ops + 1)
    requires forall k :: m.ops + 2 <= k < m.ops + 5 ==> !env.fails(k)
    ensures var s := Feed([[Readable(lost), Readable(next)]], [0], [0], [], [], [0]);
            var failed := IngestUpTo(env, s, m, 1);
            var again := IngestUpTo(env, failed.feed, failed.meter, 1);
            && Safe(s) && Streaming(s)
            && failed.outcome == Raised(StorageError) && again.outcome == Done(1)
            && again.feed.committed == [2] && !HasId(again.feed.bronze, lost.eventId)
  {
    hide IngestLoop;
    var s := Feed([[Readable(lost), Readable(next)]], [0], [0], [], [], [0]);
    assert s.log[0][..0] == [];
    assert PartitionSafe(s, 0);
    FailedAppendMovesOn(env, s, lost, next, m);
    var t := s.(position := [1]);
    SecondCallCommitsPast(env, t, lost, next, Meter(m.ticks, m.ops + 2));
  }

  lemma FailedAppendMovesOn(env: Environment, s: Feed, lost: InternalEvent, next: InternalEvent, m: Meter)
    requires s == Feed([[Readable(lost), Readable(next)]], [0], [0], [], [], [0])
    requires !env.fails(m.ops) && env.fails(m.ops + 1) && !env.lands(m.ops + 1)
    ensures IngestLoop(env, s, m, 0, 1) == Ingested(s.(position := [1]), Meter(m.ticks, m.ops + 2),
                                                    Raised(StorageError))
  {
    var t := Fetched(s, 0);
    assert t.position == [1];
    assert NextEvent(env, s, m) == Pull(t, Meter(m.ticks, m.ops + 1), Done(Some(ConsumedEvent(0, 0, lost))));
  }

  lemma SecondCallCommitsPast(env: Environment, s: Feed, lost: InternalEvent, next: InternalEvent, m: Meter)
    requires lost.eventId != next.eventId
    requires s == Feed([[Readable(lost), Readable(next)]], [0], [1], [], [], [0])
    requires forall k :: m.ops <= k < m.ops + 3 ==> !env.fails(k)
    ensures var r := IngestLoop(env, s, m, 0, 1);
            r.outcome == Done(1) && r.feed.committed == [2] && !HasId(r.feed.bronze, lost.eventId)
  {
    var t := Fetched(s, 0);
    var c := ConsumedEvent(0, 1, next);
    assert Serve(s, env.turn(m.ops)) == Some(0);
    assert NextEvent(env, s, m) == Pull(t, Meter(m.ticks, m.ops + 1), Done(Some(c)));
    assert Appended(t, c).bronze == [next];
  }
}
