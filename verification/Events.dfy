/** The canonical contracts the stages exchange, and the world they run in. */
module Events {
  import opened Ordering

  /** Every instant is counted in microseconds since the Unix epoch. */
  const SECOND := 1_000_000

  /** A `Decimal`: exact when finite; NaN and the infinities are one case. */
  datatype Decimal = Finite(value: real) | NonFinite

  /** A `datetime`, with or without timezone information. */
  datatype Timestamp = Aware(micros: int) | Naive(micros: int)

  datatype TradeSide = Buy | Sell | UnsupportedSide

  datatype EventType = Trade | Ticker | Orderbook | UnknownType

  datatype InternalEvent = InternalEvent(
    eventId: string,
    source: string,
    eventType: EventType,
    receivedAt: Timestamp,
    symbol: string,
    price: Decimal,
    quantity: Decimal,
    side: TradeSide,
    tradeId: string,
    tradeTimestamp: Timestamp,
    payloadIsObject: bool)

  /** An event that passed validation: the event itself plus the instant it passed. */
  datatype TrustedEvent = TrustedEvent(event: InternalEvent, validatedAt: int)

  datatype ValidationFailure = ValidationFailure(rule: string, code: string)

  datatype ValidationOutcome = ValidationOutcome(valid: bool, failures: seq<ValidationFailure>)

  datatype QuarantineRecord =
    QuarantineRecord(event: InternalEvent, quarantinedAt: int, failures: seq<ValidationFailure>)

  /** `DataError` stands for every exception the aggregation raises about its data: `ValueError`,
      `TypeError`, `decimal.InvalidOperation`, `OverflowError` and the contract's own rejection. */
  datatype Error = StorageError | ConsumeError | ArgumentError | DataError

  datatype Outcome<+T> = Done(value: T) | Raised(error: Error) {
    predicate IsFailure() { Raised? }
    function PropagateFailure<U>(): Outcome<U> requires Raised? { Raised(error) }
    function Extract(): T requires Done? { value }
  }

  datatype Option<+T> = None | Some(value: T)

  /** What a run does not decide for itself: the clock's successive readings, which input/output
      operations fail, which failed writes had taken effect all the same, and which partition the
      broker serves next. */
  datatype Environment = Environment(
    now: nat -> int,
    fails: nat -> bool,
    lands: nat -> bool,
    turn: nat -> nat)
  {
    /** The write has its effect, whatever it reports. */
    predicate Takes(op: nat) { !fails(op) || lands(op) }
  }

  ghost predicate MonotoneClock(env: Environment) {
    forall i: nat, j: nat :: i <= j ==> env.now(i) <= env.now(j)
  }

  ghost predicate StrictClock(env: Environment) {
    forall i: nat, j: nat :: i < j ==> env.now(i) < env.now(j)
  }

  /** How many clock readings and how many input/output operations have happened. */
  datatype Meter = Meter(ticks: nat, ops: nat)

  class World {
    const env: Environment
    var meter: Meter

    constructor (env: Environment)
      ensures this.env == env && meter == Meter(0, 0)
    {
      this.env := env;
      meter := Meter(0, 0);
    }

    /** One reading of the clock. */
    method Now() returns (t: int)
      modifies this
      ensures t == env.now(old(meter).ticks)
      ensures meter == old(meter).(ticks := old(meter).ticks + 1)
    {
      t := env.now(meter.ticks);
      meter := meter.(ticks := meter.ticks + 1);
    }

    /** One input/output operation: does it report a failure, and does it have its effect? */
    method Attempt() returns (failed: bool, takes: bool)
      modifies this
      ensures failed == env.fails(old(meter).ops) && takes == env.Takes(old(meter).ops)
      ensures meter == old(meter).(ops := old(meter).ops + 1)
    {
      failed, takes := env.fails(meter.ops), env.Takes(meter.ops);
      meter := meter.(ops := meter.ops + 1);
    }
  }

  function TradeKey(e: InternalEvent): Key { Key(e.tradeTimestamp.micros, e.eventId) }

  function ReplayKey(e: InternalEvent): Key { Key(e.receivedAt.micros, e.eventId) }

  function SilverKey(t: TrustedEvent): Key { Key(t.validatedAt, t.event.eventId) }

  function PriceOf(e: InternalEvent): real { if e.price.Finite? then e.price.value else 0.0 }

  function QuantityOf(e: InternalEvent): real { if e.quantity.Finite? then e.quantity.value else 0.0 }

  ghost predicate DistinctIds(s: seq<InternalEvent>) {
    forall i, j :: 0 <= i < j < |s| ==> s[i].eventId != s[j].eventId
  }

  /** The events behind a sequence of Silver rows. */
  function Cores(s: seq<TrustedEvent>): (r: seq<InternalEvent>)
    ensures |r| == |s| && forall i :: 0 <= i < |s| ==> r[i] == s[i].event
  {
    seq(|s|, i requires 0 <= i < |s| => s[i].event)
  }

  lemma CoresSnoc(s: seq<TrustedEvent>, t: TrustedEvent)
    ensures Cores(s + [t]) == Cores(s) + [t.event]
  {
  }
}
