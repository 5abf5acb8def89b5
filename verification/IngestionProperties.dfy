/** At-least-once delivery with an exactly-once effect: what every run of the ingestion keeps. */
module IngestionProperties {
  import opened Events
  import opened Sequences
  import opened Warehouse
  import opened Ingestion

  /** The decodable messages of a stretch of a partition log, with their positions. */
  function Deliveries(p: nat, messages: seq<Message>): seq<ConsumedEvent> {
    if |messages| == 0 then []
    else
      var n := |messages| - 1;
      match messages[n]
      case Unreadable => Deliveries(p, messages[..n])
      case Readable(e) => Deliveries(p, messages[..n]) + [ConsumedEvent(p, n, e)]
  }

  function FromPartition(p: nat): ConsumedEvent -> bool { (c: ConsumedEvent) => c.partition == p }

  /** First appends, one after the other, each ignored when its identity is there already. */
  function LandAll(landed: seq<ConsumedEvent>): (rows: seq<InternalEvent>)
    ensures DistinctIds(rows) && |rows| <= |landed|
  {
    if |landed| == 0 then [] else Land(LandAll(landed[..|landed| - 1]), landed[|landed| - 1].event)
  }

  predicate Bounded(s: Feed) {
    && |s.committed| == |s.high| == |s.log|
    && forall p :: 0 <= p < |s.log| ==> s.committed[p] <= s.high[p] <= |s.log[p]|
  }

  /** What every state keeps, for one partition: committed never overtakes appended; between the
      two at most the last message decodes; a commit ends with a message that decodes; and exactly
      the appended prefix has landed, in order. */
  ghost predicate PartitionSafe(s: Feed, p: nat)
    requires Bounded(s) && p < |s.log|
  {
    && (forall o :: s.committed[p] <= o < s.high[p] && s.log[p][o].Readable? ==> o == s.high[p] - 1)
    && (s.committed[p] > 0 ==> s.log[p][s.committed[p] - 1].Readable?)
    && Select(s.landed, FromPartition(p)) == Deliveries(p, s.log[p][..s.high[p]])
  }

  ghost predicate Safe(s: Feed) {
    && Shaped(s) && Bounded(s)
    && (forall p :: 0 <= p < |s.log| ==> PartitionSafe(s, p))
    && s.bronze == LandAll(s.landed)
    && (forall c :: c in s.landed ==> c.partition < |s.log|)
  }

  /** The connection has passed nothing but undecodable messages since the last commit. */
  ghost predicate Streaming(s: Feed)
    requires Shaped(s)
  {
    && |s.committed| == |s.log|
    && forall p :: 0 <= p < |s.log| ==>
         && s.committed[p] <= s.position[p]
         && forall o :: s.committed[p] <= o < s.position[p] ==> s.log[p][o].Unreadable?
  }

  /** One state follows another: nothing committed, appended or stored is ever lost. */
  ghost predicate Advances(s: Feed, t: Feed) {
    && s.log == t.log && |s.committed| == |t.committed| == |s.high| == |t.high| == |s.log|
    && (forall p :: 0 <= p < |s.log| ==> s.committed[p] <= t.committed[p] && s.high[p] <= t.high[p])
    && s.bronze <= t.bronze && s.landed <= t.landed
  }

  lemma AdvancesTransitively(s: Feed, t: Feed, u: Feed)
    requires Advances(s, t) && Advances(t, u)
    ensures Advances(s, u)
  {
  }

  // ----- Landing -----

  lemma {:induction false} DeliveriesMembers(p: nat, messages: seq<Message>)
    ensures forall c :: c in Deliveries(p, messages) <==>
              c.partition == p && c.offset < |messages| && messages[c.offset] == Readable(c.event)
  {
    if |messages| > 0 {
      DeliveriesMembers(p, messages[..|messages| - 1]);
    }
  }

  lemma {:induction false} LandAllMembers(landed: seq<ConsumedEvent>)
    ensures forall c :: c in landed ==> HasId(LandAll(landed), c.event.eventId)
    ensures forall e :: e in LandAll(landed) ==> exists c :: c in landed && c.event == e
  {
    hide HasId;
    if |landed| > 0 {
      var init, last := landed[..|landed| - 1], landed[|landed| - 1];
      LandAllMembers(init);
      assert landed == init + [last];
      forall e | e in LandAll(landed) ensures exists c :: c in landed && c.event == e {
        if e in LandAll(init) {
          var c :| c in init && c.event == e;
          assert c in landed;
        } else {
          assert last in landed && last.event == e;
        }
      }
    }
  }

  /** A message below the appended mark has landed: its identity is in Bronze. */
  lemma AppendedIsStored(s: Feed, p: nat, o: nat)
    requires Safe(s) && p < |s.log| && o < s.high[p] && s.log[p][o].Readable?
    ensures HasId(s.bronze, s.log[p][o].event.eventId)
  {
    hide HasId, LandAll;
    assert PartitionSafe(s, p);
    var c := ConsumedEvent(p, o, s.log[p][o].event);
    DeliveriesMembers(p, s.log[p][..s.high[p]]);
    assert c in Deliveries(p, s.log[p][..s.high[p]]);
    SelectMembers(s.landed, FromPartition(p));
    LandAllMembers(s.landed);
  }

  lemma {:induction false} UndecodableAddsNothing(p: nat, messages: seq<Message>, from: nat)
    requires from <= |messages| && forall o :: from <= o < |messages| ==> messages[o].Unreadable?
    ensures Deliveries(p, messages) == Deliveries(p, messages[..from])
  {
    if from < |messages| {
      var init := messages[..|messages| - 1];
      UndecodableAddsNothing(p, init, from);
      assert init[..from] == messages[..from];
    } else {
      assert messages[..from] == messages;
    }
  }

  // ----- One step -----

  ghost predicate Undisturbed(s: Feed, t: Feed) { t == s.(position := t.position) }

  /** Fetching keeps everything; a successful fetch returns the next decodable message, with only
      undecodable ones passed since the last commit. */
  lemma {:induction false} NextEventKeeps(env: Environment, s: Feed, m: Meter)
    requires Safe(s) && Streaming(s)
    ensures var r := NextEvent(env, s, m);
            && Safe(r.feed) && Undisturbed(s, r.feed) && r.meter.ticks == m.ticks && r.meter.ops >= m.ops
            && (r.outcome.Done? ==>
                  match r.outcome.value
                  case None => Streaming(r.feed) && forall p :: 0 <= p < |s.log| ==> r.feed.position[p] == |s.log[p]|
                  case Some(c) => AtEvent(r.feed, c))
    decreases Remaining(s)
  {
    hide Left, LandAll, Deliveries;
    match Serve(s, env.turn(m.ops))
    case None =>
    case Some(p) =>
      if !env.fails(m.ops) {
        var t := Fetched(s, p);
        FetchKeepsSafe(s, p);
        if s.log[p][s.position[p]].Unreadable? {
          NextEventKeeps(env, t, Meter(m.ticks, m.ops + 1));
        }
      }
  }

  /** `c` was just fetched, and the connection has passed nothing else that decodes. */
  ghost predicate AtEvent(s: Feed, c: ConsumedEvent)
    requires Shaped(s)
  {
    && c.partition < |s.log| && c.offset < |s.log[c.partition]|
    && s.log[c.partition][c.offset] == Readable(c.event)
    && s.position[c.partition] == c.offset + 1
    && (forall p :: 0 <= p < |s.log| ==>
          && s.committed[p] <= s.position[p]
          && forall o :: s.committed[p] <= o < s.position[p] && !(p == c.partition && o == c.offset) ==>
             s.log[p][o].Unreadable?)
    && s.committed[c.partition] <= c.offset
  }

  lemma FetchKeepsSafe(s: Feed, p: nat)
    requires Safe(s) && p < |s.log| && s.position[p] < |s.log[p]|
    ensures Safe(Fetched(s, p))
  {
    hide Left, LandAll, Deliveries;
    var t := Fetched(s, p);
    forall q | 0 <= q < |t.log| ensures PartitionSafe(t, q) {
      assert PartitionSafe(s, q);
    }
  }

  /** Appending a fetched event: a redelivery changes nothing, a new message lands. */
  lemma AppendKeeps(s: Feed, c: ConsumedEvent)
    requires Safe(s) && AtEvent(s, c)
    ensures Safe(Appended(s, c)) && Advances(s, Appended(s, c))
    ensures s.high[c.partition] <= c.offset + 1 == Appended(s, c).high[c.partition]
    ensures c.offset < s.high[c.partition] ==> Appended(s, c) == s
  {
    hide Left, LandAll, Deliveries, HasId;
    assert PartitionSafe(s, c.partition);
    if c.offset < s.high[c.partition] {
      assert c.offset == s.high[c.partition] - 1;
      AppendedIsStored(s, c.partition, c.offset);
    } else {
      NewMessageKeeps(s, c);
    }
  }

  lemma NewMessageKeeps(s: Feed, c: ConsumedEvent)
    requires Safe(s) && AtEvent(s, c) && s.high[c.partition] <= c.offset
    ensures Safe(Appended(s, c)) && Advances(s, Appended(s, c))
  {
    hide Left, LandAll, Deliveries, HasId, Select;
    var t := Appended(s, c);
    LandedNext(s, c);
    LandAllSnoc(s.landed, c);
    forall q | 0 <= q < |t.log| ensures PartitionSafe(t, q) {
      assert PartitionSafe(s, q);
      SelectSnoc(s.landed, c, FromPartition(q));
    }
  }

  lemma LandAllSnoc(landed: seq<ConsumedEvent>, c: ConsumedEvent)
    ensures LandAll(landed + [c]) == Land(LandAll(landed), c.event)
  {
    assert (landed + [c])[..|landed|] == landed;
  }

  /** The deliveries up to a new message are those up to the appended mark, and the new one. */
  lemma LandedNext(s: Feed, c: ConsumedEvent)
    requires Safe(s) && AtEvent(s, c) && s.high[c.partition] <= c.offset
    ensures Deliveries(c.partition, s.log[c.partition][..c.offset + 1])
         == Deliveries(c.partition, s.log[c.partition][..s.high[c.partition]]) + [c]
  {
    hide LandAll, Left, Select;
    var p, o := c.partition, c.offset;
    assert PartitionSafe(s, p);
    var upTo := s.log[p][..o + 1];
    assert upTo[..o] == s.log[p][..o];
    UndecodableAddsNothing(p, s.log[p][..o], s.high[p]);
    assert s.log[p][..o][..s.high[p]] == s.log[p][..s.high[p]];
  }

  /** Acknowledging it commits past it, and leaves nothing uncommitted behind. */
  lemma AcknowledgeKeeps(s: Feed, c: ConsumedEvent)
    requires Safe(s) && AtEvent(s, c) && s.high[c.partition] == c.offset + 1
    ensures Safe(Acknowledged(s, c)) && Streaming(Acknowledged(s, c)) && Advances(s, Acknowledged(s, c))
  {
    hide LandAll, Deliveries;
    var t := Acknowledged(s, c);
    forall q | 0 <= q < |t.log| ensures PartitionSafe(t, q) {
      assert PartitionSafe(s, q);
    }
  }

  lemma PersistKeeps(env: Environment, s: Feed, m: Meter, c: ConsumedEvent)
    requires Shaped(s) && Safe(s) && AtEvent(s, c)
    ensures var r := Persist(env, s, m, c);
            Safe(r.feed) && Advances(s, r.feed) && (r.outcome.Done? ==> Streaming(r.feed))
  {
    hide Safe, Acknowledged, Appended, Streaming;
    AppendKeeps(s, c);
    var appended := Appended(s, c);
    AppendLeavesEvent(s, c);
    AcknowledgeKeeps(appended, c);
    AdvancesTransitively(s, appended, Acknowledged(appended, c));
    AdvancesItself(s);
  }

  lemma AppendLeavesEvent(s: Feed, c: ConsumedEvent)
    requires Shaped(s) && AtEvent(s, c)
    ensures Shaped(Appended(s, c)) && AtEvent(Appended(s, c), c)
  {
  }

  lemma AdvancesItself(s: Feed)
    requires Shaped(s)
    ensures Advances(s, s)
  {
  }

  // ----- The whole loop -----

  /** Whatever fails, the ingest loop keeps every partition safe and loses nothing. */
  lemma {:induction false} IngestLoopKeeps(env: Environment, s: Feed, m: Meter, persisted: nat, maxEvents: int)
    requires Shaped(s) && Safe(s) && Streaming(s)
    ensures var r := IngestLoop(env, s, m, persisted, maxEvents);
            && Safe(r.feed) && Advances(s, r.feed)
            && r.meter.ticks == m.ticks && r.meter.ops >= m.ops
            && (r.outcome.Done? ==> Streaming(r.feed))
            && (r.outcome.Done? && persisted + Remaining(s) <= maxEvents ==>
                  forall p :: 0 <= p < |s.log| ==> r.feed.position[p] == |s.log[p]|)
    decreases Remaining(s)
  {
    hide Safe, Streaming, NextEvent, Persist, Left, PartitionSafe;
    NextEventKeeps(env, s, m);
    var next := NextEvent(env, s, m);
    assert Advances(s, next.feed) by { UndisturbedAdvances(s, next.feed); }
    if next.outcome.Done? && next.outcome.value.Some? {
      var c := next.outcome.value.value;
      PersistKeeps(env, next.feed, next.meter, c);
      var step := Persist(env, next.feed, next.meter, c);
      AdvancesTransitively(s, next.feed, step.feed);
      MeterOfPersist(env, next.feed, next.meter, c);
      if step.outcome.Done? {
        if persisted + 1 < maxEvents {
          IngestLoopKeeps(env, step.feed, step.meter, persisted + 1, maxEvents);
          AdvancesTransitively(s, step.feed, IngestLoop(env, step.feed, step.meter, persisted + 1, maxEvents).feed);
        } else if persisted + Remaining(s) <= maxEvents {
          NothingLeft(step.feed);
        }
      }
    }
  }

  lemma UndisturbedAdvances(s: Feed, t: Feed)
    requires Shaped(s) && Undisturbed(s, t)
    ensures Advances(s, t)
  {
  }

  lemma MeterOfPersist(env: Environment, s: Feed, m: Meter, c: ConsumedEvent)
    requires Shaped(s) && c.partition < |s.log|
    ensures Persist(env, s, m, c).meter.ticks == m.ticks && Persist(env, s, m, c).meter.ops >= m.ops
  {
  }

  lemma NothingLeft(s: Feed)
    requires Shaped(s) && Remaining(s) == 0
    ensures forall p :: 0 <= p < |s.log| ==> s.position[p] == |s.log[p]|
  {
    NoneLeft(s.log, s.position, |s.log|);
  }

  lemma {:induction false} NoneLeft(log: seq<seq<Message>>, position: seq<nat>, n: nat)
    requires n <= |log| && n <= |position| && (forall p :: 0 <= p < n ==> position[p] <= |log[p]|)
    requires Left(log, position, n) == 0
    ensures forall p :: 0 <= p < n ==> position[p] == |log[p]|
  {
    if n > 0 {
      NoneLeft(log, position, n - 1);
    }
  }

  // ----- Restarts, production, and what it all means -----

  /** A restart resumes at the committed offsets, whatever the failed connection had fetched. */
  lemma RestartKeeps(s: Feed)
    requires Safe(s)
    ensures Shaped(Restarted(s)) && Safe(Restarted(s)) && Streaming(Restarted(s))
  {
    hide LandAll, Deliveries;
    var t := Restarted(s);
    assert Shaped(t);
    forall p | 0 <= p < |t.log| ensures PartitionSafe(t, p) {
      assert PartitionSafe(s, p);
    }
  }

  function Produced(s: Feed, p: nat, m: Message): Feed
    requires p < |s.log|
  {
    s.(log := s.log[p := s.log[p] + [m]])
  }

  lemma ProduceKeeps(s: Feed, p: nat, m: Message)
    requires Safe(s) && p < |s.log|
    ensures Safe(Produced(s, p, m))
  {
    hide LandAll, Deliveries;
    var t := Produced(s, p, m);
    forall q | 0 <= q < |t.log| ensures PartitionSafe(t, q) {
      assert PartitionSafe(s, q);
      assert t.log[q][..t.high[q]] == s.log[q][..s.high[q]];
    }
  }

  /** Acknowledged means stored: every decodable message below a committed offset is in Bronze by
      its identity, and a restart re-delivers at most one message that is stored already. */
  lemma AckSafety(s: Feed, p: nat)
    requires Safe(s) && p < |s.log|
    ensures forall o :: 0 <= o < s.committed[p] && s.log[p][o].Readable? ==> HasId(s.bronze, s.log[p][o].event.eventId)
    ensures forall o, o' :: (s.committed[p] <= o < s.high[p] && s.committed[p] <= o' < s.high[p]
                             && s.log[p][o].Readable? && s.log[p][o'].Readable?) ==> o == o'
  {
    hide HasId, LandAll, Deliveries;
    assert PartitionSafe(s, p);
    forall o | 0 <= o < s.committed[p] && s.log[p][o].Readable?
      ensures HasId(s.bronze, s.log[p][o].event.eventId)
    {
      AppendedIsStored(s, p, o);
    }
  }

  /** Exactly-once effect on one partition: Bronze is the insert-if-absent fold of the decodable
      messages up to the highest appended offset, whatever failed and was delivered again. */
  lemma ExactlyOnceEffect(s: Feed)
    requires Safe(s) && |s.log| == 1
    ensures s.bronze == LandAll(Deliveries(0, s.log[0][..s.high[0]]))
  {
    hide LandAll, Deliveries;
    assert PartitionSafe(s, 0);
    SelectAll(s.landed, FromPartition(0));
  }

  lemma {:induction false} SelectAll<T(!new)>(s: seq<T>, p: T -> bool)
    requires forall x :: x in s ==> p(x)
    ensures Select(s, p) == s
  {
    if |s| > 0 {
      SelectAll(s[..|s| - 1], p);
      assert s == s[..|s| - 1] + [s[|s| - 1]];
    }
  }

  /** A connection that reached the end of every log has landed every decodable message. */
  lemma DrainedHasLanded(s: Feed, p: nat)
    requires Safe(s) && Streaming(s) && p < |s.log| && s.position[p] == |s.log[p]|
    ensures Select(s.landed, FromPartition(p)) == Deliveries(p, s.log[p])
  {
    hide LandAll;
    assert PartitionSafe(s, p);
    UndecodableAddsNothing(p, s.log[p], s.high[p]);
  }

  // ----- What a commit passes -----

  /** A commit is for the whole partition: an undecodable message is committed past exactly when a
      later message of its partition that decodes has been. */
  lemma CommittedPastIff(s: Feed, p: nat, o: nat)
    requires Safe(s) && p < |s.log| && o < |s.log[p]| && s.log[p][o].Unreadable?
    ensures o < s.committed[p] <==> exists o' :: o < o' < s.committed[p] && s.log[p][o'].Readable?
  {
    hide LandAll, Deliveries;
    assert PartitionSafe(s, p);
    if o < s.committed[p] {
      assert s.log[p][s.committed[p] - 1].Readable?;
    }
  }

  /** So once a connection has reached the end of every log, a restart reads an undecodable message
      again exactly when no message that decodes follows it. */
  lemma RereadIff(s: Feed, p: nat, o: nat)
    requires Safe(s) && Streaming(s) && p < |s.log| && s.position[p] == |s.log[p]|
    requires o < |s.log[p]| && s.log[p][o].Unreadable?
    ensures Restarted(s).position[p] <= o <==> forall o' :: o < o' < |s.log[p]| ==> s.log[p][o'].Unreadable?
  {
    hide LandAll, Deliveries;
    CommittedPastIff(s, p, o);
  }
}
