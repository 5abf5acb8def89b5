/** Kafka to Bronze: stream, append, then acknowledge. */
module Ingestion {
  import opened Events
  import opened Warehouse

  /** One message of a partition log; decoding either gives an event or nothing. */
  datatype Message = Unreadable | Readable(event: InternalEvent)

  /** A decoded message with its broker position. */
  datatype ConsumedEvent = ConsumedEvent(partition: nat, offset: nat, event: InternalEvent)

  /** The broker's logs and committed offsets, the consumer's in-memory positions, Bronze, and two
      records of the run: which messages were appended for the first time, in order, and how far
      each partition has been appended. */
  datatype Feed = Feed(
    log: seq<seq<Message>>,
    committed: seq<nat>,
    position: seq<nat>,
    bronze: seq<InternalEvent>,
    landed: seq<ConsumedEvent>,
    high: seq<nat>)

  predicate Shaped(s: Feed) {
    && |s.committed| == |s.position| == |s.high| == |s.log|
    && forall p :: 0 <= p < |s.log| ==> s.position[p] <= |s.log[p]|
  }

  /** Messages not yet fetched from the first `n` partitions. */
  function Left(log: seq<seq<Message>>, position: seq<nat>, n: nat): nat
    requires n <= |log| && n <= |position| && forall p :: 0 <= p < n ==> position[p] <= |log[p]|
  {
    if n == 0 then 0 else Left(log, position, n - 1) + |log[n - 1]| - position[n - 1]
  }

  function Remaining(s: Feed): nat
    requires Shaped(s)
  {
    Left(s.log, s.position, |s.log|)
  }

  lemma {:induction false} FetchLeavesLess(log: seq<seq<Message>>, position: seq<nat>, n: nat, p: nat)
    requires n <= |log| && n <= |position| && (forall q :: 0 <= q < n ==> position[q] <= |log[q]|)
    requires p < |position| && (p < n ==> position[p] < |log[p]|)
    ensures Left(log, position[p := position[p] + 1], n) == Left(log, position, n) - if p < n then 1 else 0
  {
    if n > 0 {
      FetchLeavesLess(log, position, n - 1, p);
    }
  }

  /** The first partition from `p` on that has messages left. */
  function FirstPending(s: Feed, p: nat): (r: Option<nat>)
    requires Shaped(s) && p <= |s.log|
    ensures r.Some? ==> r.value < |s.log| && s.position[r.value] < |s.log[r.value]|
    ensures r.None? ==> forall q :: p <= q < |s.log| ==> s.position[q] == |s.log[q]|
    decreases |s.log| - p
  {
    if p == |s.log| then None
    else if s.position[p] < |s.log[p]| then Some(p)
    else FirstPending(s, p + 1)
  }

  /** The partition the broker serves next: its choice, or any other while messages remain. */
  function Serve(s: Feed, turn: nat): (r: Option<nat>)
    requires Shaped(s)
    ensures r.Some? ==> r.value < |s.log| && s.position[r.value] < |s.log[r.value]|
    ensures r.None? ==> forall q :: 0 <= q < |s.log| ==> s.position[q] == |s.log[q]|
  {
    if turn < |s.log| && s.position[turn] < |s.log[turn]| then Some(turn) else FirstPending(s, 0)
  }

  function Fetched(s: Feed, p: nat): (t: Feed)
    requires Shaped(s) && p < |s.log| && s.position[p] < |s.log[p]|
    ensures Shaped(t) && Remaining(t) == Remaining(s) - 1
  {
    FetchLeavesLess(s.log, s.position, |s.log|, p);
    s.(position := s.position[p := s.position[p] + 1])
  }

  datatype Pull = Pull(feed: Feed, meter: Meter, outcome: Outcome<Option<ConsumedEvent>>)

  /** One step of `stream_events`: fetch until a message decodes, skipping those that do not. */
  function NextEvent(env: Environment, s: Feed, m: Meter): (r: Pull)
    requires Shaped(s)
    ensures Shaped(r.feed)
    ensures r.outcome.Done? && r.outcome.value.Some? ==>
              && Remaining(r.feed) < Remaining(s) && r.outcome.value.value.partition < |s.log| == |r.feed.log|
    decreases Remaining(s)
  {
    match Serve(s, env.turn(m.ops))
    case None => Pull(s, m, Done(None))
    case Some(p) =>
      var m' := Meter(m.ticks, m.ops + 1);
      if env.fails(m.ops) then Pull(s, m', Raised(ConsumeError))
      else
        match s.log[p][s.position[p]]
        case Unreadable => NextEvent(env, Fetched(s, p), m')
        case Readable(e) => Pull(Fetched(s, p), m', Done(Some(ConsumedEvent(p, s.position[p], e))))
  }

  /** A Bronze append of a consumed event, with the records of the run. */
  function Appended(s: Feed, c: ConsumedEvent): Feed
    requires Shaped(s) && c.partition < |s.log|
  {
    var t := s.(bronze := Land(s.bronze, c.event));
    if c.offset < s.high[c.partition] then t
    else t.(landed := s.landed + [c], high := s.high[c.partition := c.offset + 1])
  }

  /** A commit writes `offset + 1` for the whole partition. */
  function Acknowledged(s: Feed, c: ConsumedEvent): Feed
    requires Shaped(s) && c.partition < |s.log|
  {
    s.(committed := s.committed[c.partition := c.offset + 1])
  }

  datatype Ingested<T> = Ingested(feed: Feed, meter: Meter, outcome: Outcome<T>)

  /** Append, then acknowledge; either failure leaves at once, with or without its effect. */
  function Persist(env: Environment, s: Feed, m: Meter, c: ConsumedEvent): (r: Ingested<()>)
    requires Shaped(s) && c.partition < |s.log|
    ensures Shaped(r.feed) && r.feed.log == s.log && r.feed.position == s.position
  {
    var appended := if env.Takes(m.ops) then Appended(s, c) else s;
    if env.fails(m.ops) then Ingested(appended, Meter(m.ticks, m.ops + 1), Raised(StorageError))
    else
      var committed := if env.Takes(m.ops + 1) then Acknowledged(appended, c) else appended;
      Ingested(committed, Meter(m.ticks, m.ops + 2), if env.fails(m.ops + 1) then Raised(ConsumeError) else Done(()))
  }

  /** The ingest loop. */
  function IngestLoop(env: Environment, s: Feed, m: Meter, persisted: nat, maxEvents: int): (r: Ingested<nat>)
    requires Shaped(s)
    ensures Shaped(r.feed)
    decreases Remaining(s)
  {
    var next := NextEvent(env, s, m);
    if next.outcome.Raised? then Ingested(next.feed, next.meter, Raised(next.outcome.error))
    else if next.outcome.value.None? then Ingested(next.feed, next.meter, Done(persisted))
    else
      var step := Persist(env, next.feed, next.meter, next.outcome.value.value);
      if step.outcome.Raised? then Ingested(step.feed, step.meter, Raised(step.outcome.error))
      else if persisted + 1 >= maxEvents then Ingested(step.feed, step.meter, Done(persisted + 1))
      else IngestLoop(env, step.feed, step.meter, persisted + 1, maxEvents)
  }

  function IngestUpTo(env: Environment, s: Feed, m: Meter, maxEvents: int): (r: Ingested<nat>)
    requires Shaped(s)
    ensures Shaped(r.feed)
  {
    if maxEvents < 1 then Ingested(s, m, Raised(ArgumentError)) else IngestLoop(env, s, m, 0, maxEvents)
  }

  /** A fresh consumer resumes from the committed offsets. */
  function Restarted(s: Feed): Feed { s.(position := s.committed) }

  // ----- The classes -----

  /** What survives every restart. */
  class Broker {
    var log: seq<seq<Message>>
    var committed: seq<nat>

    constructor (partitions: nat)
      ensures log == seq(partitions, i => []) && committed == seq(partitions, i => 0)
    {
      log := seq(partitions, i => []);
      committed := seq(partitions, i => 0);
    }

    method Produce(p: nat, m: Message)
      requires p < |log|
      modifies this
      ensures log == old(log)[p := old(log)[p] + [m]] && committed == old(committed)
    {
      log := log[p := log[p] + [m]];
    }
  }

  class KafkaConsumer {
    const world: World
    const broker: Broker
    /** The position of the open connection, if there is one. */
    var position: Option<seq<nat>>

    constructor (world: World, broker: Broker)
      ensures this.world == world && this.broker == broker && position == None
    {
      this.world, this.broker := world, broker;
      position := None;
    }

    /** Opens a connection, unless one is open. */
    method Start()
      modifies this
      ensures position == if old(position).Some? then old(position) else Some(broker.committed)
    {
      if position.None? {
        position := Some(broker.committed);
      }
    }

    method Close()
      modifies this
      ensures position == None
    {
      position := None;
    }

    /** Commits the offset after a consumed message. */
    method Acknowledge(c: ConsumedEvent) returns (r: Outcome<()>)
      requires c.partition < |broker.committed|
      modifies world, broker
      ensures broker.log == old(broker.log)
      ensures position.None? ==>
                r == Raised(ConsumeError) && world.meter == old(world.meter) &&
                    broker.committed == old(broker.committed)
      ensures position.Some? ==>
                var op := old(world.meter).ops;
                && world.meter == Meter(old(world.meter).ticks, op + 1)
                && r == (if world.env.fails(op) then Raised(ConsumeError) else Done(()))
                && broker.committed == if world.env.Takes(op) then old(broker.committed)[c.partition := c.offset + 1]
                                       else old(broker.committed)
    {
      if position.None? { return Raised(ConsumeError); }
      var failed, takes := world.Attempt();
      if takes {
        broker.committed := broker.committed[c.partition := c.offset + 1];
      }
      r := if failed then Raised(ConsumeError) else Done(());
    }
  }

  class BronzeIngestionService {
    const world: World
    const broker: Broker
    const consumer: KafkaConsumer
    const repository: BronzeRepository
    ghost var landed: seq<ConsumedEvent>
    ghost var high: seq<nat>

    constructor (world: World, broker: Broker, consumer: KafkaConsumer, repository: BronzeRepository)
      requires consumer.world == repository.world == world && consumer.broker == broker
      ensures Wired() && landed == [] && high == seq(|broker.log|, i => 0)
      ensures this.world == world && this.broker == broker && this.consumer == consumer && this.repository == repository
    {
      this.world, this.broker, this.consumer, this.repository := world, broker, consumer, repository;
      landed, high := [], seq(|broker.log|, i => 0);
    }

    predicate Wired() { consumer.world == repository.world == world && consumer.broker == broker }

    ghost function Now(): Feed
      requires consumer.position.Some?
      reads this, broker, consumer, repository
    {
      Feed(broker.log, broker.committed, consumer.position.value, repository.rows, landed, high)
    }

    /** Fetches the next message of a partition; the position moves past it. */
    method Fetch(p: nat) returns (r: Outcome<Message>)
      requires Wired() && consumer.position.Some? && Shaped(Now())
      requires p < |broker.log| && consumer.position.value[p] < |broker.log[p]|
      modifies world, consumer
      ensures consumer.position.Some?
      ensures world.meter == Meter(old(world.meter).ticks, old(world.meter).ops + 1)
      ensures if world.env.fails(old(world.meter).ops) then r == Raised(ConsumeError) && Now() == old(Now())
              else r == Done(broker.log[p][old(Now()).position[p]]) && Now() == Fetched(old(Now()), p)
    {
      hide Left;
      var position := consumer.position.value;
      var failed, _ := world.Attempt();
      if failed { return Raised(ConsumeError); }
      r := Done(broker.log[p][position[p]]);
      consumer.position := Some(position[p := position[p] + 1]);
    }

    /** One step of the stream: fetches until a message decodes. */
    method Next() returns (r: Outcome<Option<ConsumedEvent>>)
      requires Wired() && consumer.position.Some? && Shaped(Now())
      modifies world, consumer
      ensures consumer.position.Some?
      ensures Pull(Now(), world.meter, r) == NextEvent(world.env, old(Now()), old(world.meter))
    {
      hide Left, Serve, Fetched;
      ghost var whole := NextEvent(world.env, Now(), world.meter);
      while true
        invariant consumer.position.Some? && Shaped(Now())
        invariant NextEvent(world.env, Now(), world.meter) == whole
        decreases Remaining(Now())
      {
        var served := Pending(world.env.turn(world.meter.ops));
        if served.None? { return Done(None); }
        var p := served.value;
        var offset := consumer.position.value[p];
        var message := Fetch(p);
        if message.Raised? { return Raised(message.error); }
        match message.value {
          case Unreadable =>
          case Readable(e) => return Done(Some(ConsumedEvent(p, offset, e)));
        }
      }
    }

    /** Which partition the broker serves next. */
    method Pending(turn: nat) returns (r: Option<nat>)
      requires consumer.position.Some? && Shaped(Now())
      ensures r == Serve(Now(), turn)
    {
      var log, position := broker.log, consumer.position.value;
      if turn < |log| && position[turn] < |log[turn]| { return Some(turn); }
      ghost var first := FirstPending(Now(), 0);
      for p := 0 to |log|
        invariant FirstPending(Now(), p) == first
      {
        if position[p] < |log[p]| { return Some(p); }
      }
      r := None;
    }

    /** Appends one event, then acknowledges it. */
    method Store(c: ConsumedEvent) returns (r: Outcome<()>)
      requires Wired() && consumer.position.Some? && Shaped(Now()) && c.partition < |broker.log|
      modifies this, world, broker, repository
      ensures consumer.position == old(consumer.position)
      ensures Ingested(Now(), world.meter, r) == Persist(world.env, old(Now()), old(world.meter), c)
    {
      ghost var op := world.meter.ops;
      var stored := repository.Append(c.event);
      if world.env.Takes(op) && c.offset >= high[c.partition] {
        landed, high := landed + [c], high[c.partition := c.offset + 1];
      }
      if stored.Raised? { return Raised(stored.error); }
      r := consumer.Acknowledge(c);
    }

    /** Persists up to `maxEvents` events, acknowledging each only after its append; an unstarted
        consumer has no stream. */
    method Ingest(maxEvents: int) returns (r: Outcome<nat>)
      requires Wired() && (consumer.position.Some? ==> Shaped(Now()))
      modifies this, world, broker, consumer, repository
      ensures consumer.position.Some? <==> old(consumer.position).Some?
      ensures old(consumer.position).Some? ==>
                Ingested(Now(), world.meter, r) == IngestUpTo(world.env, old(Now()), old(world.meter), maxEvents)
      ensures old(consumer.position).None? ==>
                && r == Raised(if maxEvents < 1 then ArgumentError else ConsumeError)
                && world.meter == old(world.meter) && broker.log == old(broker.log)
                && broker.committed == old(broker.committed) && repository.rows == old(repository.rows)
                && landed == old(landed) && high == old(high)
    {
      hide NextEvent, Left, Persist;
      if maxEvents < 1 { return Raised(ArgumentError); }
      if consumer.position.None? { return Raised(ConsumeError); }
      var persisted := 0;
      ghost var whole := IngestLoop(world.env, Now(), world.meter, 0, maxEvents);
      while true
        invariant consumer.position.Some? && Shaped(Now())
        invariant IngestLoop(world.env, Now(), world.meter, persisted, maxEvents) == whole
        decreases Remaining(Now())
      {
        var next := Next();
        if next.Raised? { return Raised(next.error); }
        if next.value.None? { return Done(persisted); }
        var stored := Store(next.value.value);
        if stored.Raised? { return Raised(stored.error); }
        persisted := persisted + 1;
        if persisted >= maxEvents { return Done(persisted); }
      }
    }
  }
}
