/** The exchange connector: a stream that spans connections, with bounded, capped backoff. */
module Coinbase {
  import opened Events

  /** A frame as the connector tells frames apart. */
  datatype Frame = Malformed | Control | ErrorReport | Match(payload: string)

  /** What the exchange does with one attempt to open a connection: refuse it, break while the
      subscription is sent, or accept it and send these frames before it drops. */
  datatype Line = Refused | Broken | Accepts(frames: seq<Frame>)

  datatype ConnectionState = Disconnected | Connecting | Connected | Reconnecting

  /** An open socket and the frames still to arrive on it. */
  datatype Socket = Socket(id: nat, frames: seq<Frame>)

  /** What the consumer may call while the stream is suspended. */
  datatype Call = CallConnect | CallDisconnect | CallReconnect

  datatype Policy = Policy(base: real, cap: real, maxAttempts: int)

  /** The connector's fields, the exchange's future, and the subscriptions sent so far. */
  datatype Link = Link(
    state: ConnectionState,
    stopRequested: bool,
    context: Option<nat>,
    ws: Option<Socket>,
    network: seq<Line>,
    opens: nat,
    subscriptions: seq<nat>)

  function FramesOf(line: Line): nat { if line.Accepts? then |line.frames| else 0 }

  function FramesIn(network: seq<Line>): nat {
    if |network| == 0 then 0 else FramesOf(network[0]) + FramesIn(network[1..])
  }

  /** Frames that can still arrive. */
  function FramesLeft(l: Link): nat {
    (if l.ws.Some? then |l.ws.value.frames| else 0) + FramesIn(l.network)
  }

  datatype Attempt = Attempt(link: Link, ok: bool)

  /** `_open`: once the exchange has nothing more in store, connections open and drop at once. */
  function OpenLink(l: Link): (r: Attempt)
    ensures FramesLeft(r.link) <= FramesLeft(l)
  {
    var line := if |l.network| == 0 then Accepts([]) else l.network[0];
    var rest := if |l.network| == 0 then [] else l.network[1..];
    var id := l.opens;
    var t := l.(context := Some(id), network := rest, opens := id + 1);
    match line
    case Refused => Attempt(t, false)
    case Broken => Attempt(t.(ws := Some(Socket(id, []))), false)
    case Accepts(frames) => Attempt(t.(ws := Some(Socket(id, frames)), subscriptions := l.subscriptions + [id]), true)
  }

  function CloseLink(l: Link): (r: Link)
    ensures FramesLeft(r) <= FramesLeft(l)
  {
    l.(context := None, ws := None)
  }

  function ConnectLink(l: Link): (r: Attempt)
    ensures FramesLeft(r.link) <= FramesLeft(l)
  {
    if l.state.Connected? then Attempt(l, true)
    else
      var a := OpenLink(l.(state := Connecting, stopRequested := false));
      if a.ok then Attempt(a.link.(state := Connected), true) else a
  }

  function DisconnectLink(l: Link): (r: Link)
    ensures FramesLeft(r) <= FramesLeft(l)
  {
    CloseLink(l.(stopRequested := true)).(state := Disconnected)
  }

  function ReconnectLink(l: Link): (r: Attempt)
    ensures FramesLeft(r.link) <= FramesLeft(l)
  {
    var a := OpenLink(CloseLink(l.(state := Reconnecting)));
    if a.ok then Attempt(a.link.(state := Connected), true) else a
  }

  /** The consumer's calls during one suspension; a call that fails raises to the consumer alone. */
  function DoCalls(l: Link, calls: seq<Call>): (r: Link)
    ensures FramesLeft(r) <= FramesLeft(l)
  {
    if |calls| == 0 then l
    else
      var t := DoCalls(l, calls[..|calls| - 1]);
      match calls[|calls| - 1]
      case CallConnect => ConnectLink(t).link
      case CallDisconnect => DisconnectLink(t)
      case CallReconnect => ReconnectLink(t).link
  }

  function Pow2(n: nat): (p: real)
    ensures p >= 1.0
  {
    if n == 0 then 1.0 else 2.0 * Pow2(n - 1)
  }

  /** The wait before the nth attempt in a row. */
  function Delay(policy: Policy, attempt: nat): real
    requires attempt >= 1
  {
    var d := policy.base * Pow2(attempt - 1);
    if d < policy.cap then d else policy.cap
  }

  /** What an observer of the stream sees. A frame that arrives after a stop is discarded. */
  datatype Event = Received(frame: Frame) | Discarded(frame: Frame) | Yielded(payload: string) | Slept(delay: real)

  datatype Ending = NotConnected | Stopped | ProtocolError | Exhausted | ReopenFailed

  /** A whole stream: what was seen, the links at its suspensions, how it ended, what it left. */
  datatype Trace = Trace(events: seq<Event>, pauses: seq<Link>, ending: Ending, link: Link)

  function After(events: seq<Event>, pauses: seq<Link>, t: Trace): Trace {
    t.(events := events + t.events, pauses := pauses + t.pauses)
  }

  function AttemptsLeft(policy: Policy, failures: nat): nat {
    if policy.maxAttempts >= failures then policy.maxAttempts - failures else 0
  }

  predicate HasFrame(l: Link, id: nat) {
    l.ws.Some? && l.ws.value.id == id && |l.ws.value.frames| > 0
  }

  function Popped(l: Link): Link
    requires l.ws.Some? && |l.ws.value.frames| > 0
  {
    l.(ws := Some(l.ws.value.(frames := l.ws.value.frames[1..])))
  }

  datatype Heard = Heard(events: seq<Event>, pauses: seq<Link>, ending: Option<Ending>, link: Link, k: nat)

  /** One frame: discarded after a stop, fatal when it reports an error, yielded when it is a match
      (and then the consumer acts), skipped otherwise. */
  function Hear(calls: nat -> seq<Call>, l: Link, k: nat): (h: Heard)
    requires l.ws.Some? && |l.ws.value.frames| > 0
    ensures FramesLeft(h.link) < FramesLeft(l)
  {
    var frame, t := l.ws.value.frames[0], Popped(l);
    if l.stopRequested then Heard([Discarded(frame)], [], Some(Stopped), t, k)
    else
      match frame
      case ErrorReport => Heard([Received(frame)], [], Some(ProtocolError), t, k)
      case Match(p) => Heard([Received(frame), Yielded(p)], [t], None, DoCalls(t, calls(k)), k + 1)
      case _ => Heard([Received(frame)], [], None, t, k)
  }

  /** The outer loop, before it takes up the current socket. */
  function Loop(policy: Policy, calls: nat -> seq<Call>, l: Link, failures: nat, k: nat): Trace
    decreases FramesLeft(l), AttemptsLeft(policy, failures), 1
  {
    if l.stopRequested || !l.state.Connected? then Trace([], [], Stopped, l)
    else if l.ws.None? then Trace([], [], NotConnected, l)
    else Listen(policy, calls, l, l.ws.value.id, failures, k)
  }

  /** The inner loop over the socket `id`, and what follows when it ends. */
  function Listen(policy: Policy, calls: nat -> seq<Call>, l: Link, id: nat, failures: nat, k: nat): Trace
    decreases FramesLeft(l), AttemptsLeft(policy, failures), 0, 1
  {
    if HasFrame(l, id) then
      var h := Hear(calls, l, k);
      if h.ending.Some? then Trace(h.events, h.pauses, h.ending.value, h.link)
      else After(h.events, h.pauses, Listen(policy, calls, h.link, id, 0, h.k))
    else Dropped(policy, calls, l, failures, k)
  }

  /** The connection dropped: stop, give up, or back off and reconnect. */
  function Dropped(policy: Policy, calls: nat -> seq<Call>, l: Link, failures: nat, k: nat): Trace
    decreases FramesLeft(l), AttemptsLeft(policy, failures), 0, 0
  {
    if l.stopRequested || !l.state.Connected? then Trace([], [], Stopped, l)
    else if failures + 1 > policy.maxAttempts then Trace([], [], Exhausted, l)
    else
      var slept := Slept(Delay(policy, failures + 1));
      var t := DoCalls(l, calls(k));
      if t.stopRequested then Trace([slept], [l], Stopped, t)
      else
        var a := ReconnectLink(t);
        if !a.ok then Trace([slept], [l], ReopenFailed, a.link)
        else After([slept], [l], Loop(policy, calls, a.link, failures + 1, k + 1))
  }

  /** `stream()`: refuses to start unless connected. */
  function StreamLink(policy: Policy, calls: nat -> seq<Call>, l: Link): Trace {
    if !l.state.Connected? then Trace([], [], NotConnected, l) else Loop(policy, calls, l, 0, 0)
  }

  // ----- The connector -----

  /** The exchange's side: what it will do with each connection, and what it has been sent. */
  class Exchange {
    var network: seq<Line>
    var opens: nat
    var subscriptions: seq<nat>

    constructor (network: seq<Line>)
      ensures this.network == network && opens == 0 && subscriptions == []
    {
      this.network, opens, subscriptions := network, 0, [];
    }
  }

  class CoinbaseConnector {
    const exchange: Exchange
    const policy: Policy
    var state: ConnectionState
    var stopRequested: bool
    var context: Option<nat>
    var ws: Option<Socket>

    constructor (exchange: Exchange, policy: Policy)
      ensures this.exchange == exchange && this.policy == policy
      ensures Now() == Link(Disconnected, false, None, None, exchange.network, exchange.opens, exchange.subscriptions)
    {
      this.exchange, this.policy := exchange, policy;
      state, stopRequested, context, ws := Disconnected, false, None, None;
    }

    function Now(): Link
      reads this, exchange
    {
      Link(state, stopRequested, context, ws, exchange.network, exchange.opens, exchange.subscriptions)
    }

    method OpenSocket() returns (ok: bool)
      modifies this`context, this`ws, exchange
      ensures Attempt(Now(), ok) == OpenLink(old(Now()))
    {
      var line := Accepts([]);
      if |exchange.network| > 0 {
        line := exchange.network[0];
        exchange.network := exchange.network[1..];
      }
      var id := exchange.opens;
      exchange.opens := id + 1;
      context := Some(id);
      match line {
        case Refused => ok := false;
        case Broken => ws, ok := Some(Socket(id, [])), false;
        case Accepts(frames) =>
          ws := Some(Socket(id, frames));
          exchange.subscriptions := exchange.subscriptions + [id];
          ok := true;
      }
    }

    method CloseSocket()
      modifies this`context, this`ws
      ensures Now() == CloseLink(old(Now()))
    {
      context, ws := None, None;
    }

    method Connect() returns (ok: bool)
      modifies this, exchange
      ensures Attempt(Now(), ok) == ConnectLink(old(Now()))
    {
      if state.Connected? { return true; }
      state, stopRequested := Connecting, false;
      ok := OpenSocket();
      if ok { state := Connected; }
    }

    method Disconnect()
      modifies this
      ensures Now() == DisconnectLink(old(Now()))
    {
      stopRequested := true;
      CloseSocket();
      state := Disconnected;
    }

    method Reconnect() returns (ok: bool)
      modifies this, exchange
      ensures Attempt(Now(), ok) == ReconnectLink(old(Now()))
    {
      state := Reconnecting;
      CloseSocket();
      ok := OpenSocket();
      if ok { state := Connected; }
    }

    method MakeCalls(calls: seq<Call>)
      modifies this, exchange
      ensures Now() == DoCalls(old(Now()), calls)
    {
      ghost var start := Now();
      for i := 0 to |calls|
        invariant Now() == DoCalls(start, calls[..i])
      {
        assert calls[..i + 1][..i] == calls[..i];
        match calls[i] {
          case CallConnect => var _ := Connect();
          case CallDisconnect => Disconnect();
          case CallReconnect => var _ := Reconnect();
        }
      }
      assert calls[..|calls|] == calls;
    }

    /** Takes one frame. */
    method TakeFrame(calls: nat -> seq<Call>, k: nat)
      returns (events: seq<Event>, pauses: seq<Link>, ending: Option<Ending>, k': nat)
      requires ws.Some? && |ws.value.frames| > 0
      modifies this, exchange
      ensures Heard(events, pauses, ending, Now(), k') == Hear(calls, old(Now()), k)
    {
      hide DoCalls, FramesIn;
      var frame := ws.value.frames[0];
      events, pauses, ending, k' := [Received(frame)], [], None, k;
      ws := Some(ws.value.(frames := ws.value.frames[1..]));
      if stopRequested {
        events, ending := [Discarded(frame)], Some(Stopped);
        return;
      }
      match frame {
        case ErrorReport => ending := Some(ProtocolError);
        case Match(p) =>
          events, pauses := [Received(frame), Yielded(p)], [Now()];
          MakeCalls(calls(k));
          k' := k + 1;
        case _ =>
      }
    }

    /** The inner loop: frames of one socket until it ends, or the stream does. */
    method ListenTo(calls: nat -> seq<Call>, id: nat, failures: nat, k: nat)
      returns (events: seq<Event>, pauses: seq<Link>, ending: Option<Ending>, failures': nat, k': nat)
      modifies this, exchange
      ensures var rest := if ending.Some? then Trace([], [], ending.value, Now())
              else Listen(policy, calls, Now(), id, failures', k');
              After(events, pauses, rest) == Listen(policy, calls, old(Now()), id, failures, k)
      ensures ending.None? ==> !HasFrame(Now(), id)
      ensures FramesLeft(Now()) < old(FramesLeft(Now())) ||
              (FramesLeft(Now()) == old(FramesLeft(Now())) && failures' == failures)
    {
      hide Hear, FramesLeft, Dropped;
      events, pauses, ending, failures', k' := [], [], None, failures, k;
      while HasFrame(Now(), id)
        invariant ending.None?
        invariant After(events, pauses, Listen(policy, calls, Now(), id, failures', k')) ==
                  Listen(policy, calls, old(Now()), id, failures, k)
        invariant FramesLeft(Now()) < old(FramesLeft(Now())) ||
                  (FramesLeft(Now()) == old(FramesLeft(Now())) && failures' == failures)
        decreases FramesLeft(Now())
      {
        var seen, paused;
        seen, paused, ending, k' := TakeFrame(calls, k');
        failures' := 0;
        AfterAfter(events, pauses, seen, paused,
                   if ending.Some? then Trace([], [], ending.value, Now())
                       else Listen(policy, calls, Now(), id, 0, k'));
        events, pauses := events + seen, pauses + paused;
        if ending.Some? { return; }
      }
    }

    /** What follows a drop: give up, or back off and reconnect. */
    method Recover(calls: nat -> seq<Call>, failures: nat, k: nat)
      returns (events: seq<Event>, pauses: seq<Link>, ending: Option<Ending>)
      modifies this, exchange
      ensures var rest := if ending.Some? then Trace([], [], ending.value, Now())
              else Loop(policy, calls, Now(), failures + 1, k + 1);
              After(events, pauses, rest) == Dropped(policy, calls, old(Now()), failures, k)
      ensures FramesLeft(Now()) <= old(FramesLeft(Now())) && (ending.None? ==> failures < policy.maxAttempts)
    {
      hide DoCalls, FramesIn, Delay, Loop;
      events, pauses, ending := [], [], None;
      if stopRequested || !state.Connected? {
        ending := Some(Stopped);
        return;
      }
      if failures + 1 > policy.maxAttempts {
        ending := Some(Exhausted);
        return;
      }
      events, pauses := [Slept(Delay(policy, failures + 1))], [Now()];
      MakeCalls(calls(k));
      if stopRequested {
        ending := Some(Stopped);
        return;
      }
      var ok := Reconnect();
      if !ok { ending := Some(ReopenFailed); }
    }

    /** Streams match payloads across reconnects; `calls(k)` is what the consumer does during the
        kth suspension, a yield or a backoff sleep. */
    method Stream(calls: nat -> seq<Call>) returns (r: Trace)
      modifies this, exchange
      ensures r == StreamLink(policy, calls, old(Now())) && r.link == Now()
    {
      hide Listen, Dropped, FramesLeft;
      if !state.Connected? { return Trace([], [], NotConnected, Now()); }
      var events: seq<Event>, pauses: seq<Link> := [], [];
      var failures, k := 0, 0;
      ghost var whole := Loop(policy, calls, Now(), 0, 0);
      while !stopRequested && state.Connected?
        invariant After(events, pauses, Loop(policy, calls, Now(), failures, k)) == whole
        decreases FramesLeft(Now()), AttemptsLeft(policy, failures)
      {
        if ws.None? { return Trace(events, pauses, NotConnected, Now()); }
        var id := ws.value.id;
        var seen, paused, ending, failures', k' := ListenTo(calls, id, failures, k);
        AfterAfter(events, pauses, seen, paused, if ending.Some? then Trace([], [], ending.value, Now())
                   else Listen(policy, calls, Now(), id, failures', k'));
        events, pauses := events + seen, pauses + paused;
        if ending.Some? { return Trace(events, pauses, ending.value, Now()); }
        ListenDrops(policy, calls, Now(), id, failures', k');
        seen, paused, ending := Recover(calls, failures', k');
        AfterAfter(events, pauses, seen, paused, if ending.Some? then Trace([], [], ending.value, Now())
                   else Loop(policy, calls, Now(), failures' + 1, k' + 1));
        events, pauses := events + seen, pauses + paused;
        if ending.Some? { return Trace(events, pauses, ending.value, Now()); }
        failures, k := failures' + 1, k' + 1;
      }
      r := Trace(events, pauses, Stopped, Now());
    }
  }

  lemma ListenDrops(policy: Policy, calls: nat -> seq<Call>, l: Link, id: nat, failures: nat, k: nat)
    requires !HasFrame(l, id)
    ensures Listen(policy, calls, l, id, failures, k) == Dropped(policy, calls, l, failures, k)
  {
  }

  lemma AfterAfter(e: seq<Event>, p: seq<Link>, e': seq<Event>, p': seq<Link>, t: Trace)
    ensures After(e, p, After(e', p', t)) == After(e + e', p + p', t)
  {
    assert e + (e' + t.events) == (e + e') + t.events;
    assert p + (p' + t.pauses) == (p + p') + t.pauses;
  }
}
