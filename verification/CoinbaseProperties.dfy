/** What the stream guarantees across reconnects, whatever the exchange and the consumer do. */
module CoinbaseProperties {
  import opened Events
  import opened Coinbase

  // ----- The stream refines a filter of the frames -----

  function FramesSeen(events: seq<Event>): seq<Frame> {
    if |events| == 0 then []
    else (if events[0].Received? then [events[0].frame] else []) + FramesSeen(events[1..])
  }

  function Payloads(events: seq<Event>): seq<string> {
    if |events| == 0 then []
    else (if events[0].Yielded? then [events[0].payload] else []) + Payloads(events[1..])
  }

  /** The match payloads of some frames, in order. */
  function Matches(frames: seq<Frame>): seq<string> {
    if |frames| == 0 then []
    else (if frames[0].Match? then [frames[0].payload] else []) + Matches(frames[1..])
  }

  /** The frames up to and including the first error report. */
  function UpToError(frames: seq<Frame>): seq<Frame> {
    if |frames| == 0 then []
    else if frames[0].ErrorReport? then [frames[0]]
    else [frames[0]] + UpToError(frames[1..])
  }

  /** Yields are exactly the matches among the received frames; nothing is received after an error
      report, and the stream ends with a protocol error exactly when it received one. */
  ghost predicate Filters(t: Trace) {
    && Payloads(t.events) == Matches(FramesSeen(t.events))
    && UpToError(FramesSeen(t.events)) == FramesSeen(t.events)
    && (t.ending.ProtocolError? <==> ErrorReport in FramesSeen(t.events))
  }

  lemma EventFirst(e: Event, rest: seq<Event>)
    ensures FramesSeen([e] + rest) == (if e.Received? then [e.frame] else []) + FramesSeen(rest)
    ensures Payloads([e] + rest) == (if e.Yielded? then [e.payload] else []) + Payloads(rest)
  {
    assert ([e] + rest)[1..] == rest;
  }

  lemma FrameFirst(f: Frame, rest: seq<Frame>)
    ensures Matches([f] + rest) == (if f.Match? then [f.payload] else []) + Matches(rest)
    ensures UpToError([f] + rest) == if f.ErrorReport? then [f] else [f] + UpToError(rest)
  {
    assert ([f] + rest)[1..] == rest;
  }

  /** What the events of one frame add to those that follow. */
  lemma HeardFirst(l: Link, calls: nat -> seq<Call>, k: nat, rest: seq<Event>)
    requires l.ws.Some? && |l.ws.value.frames| > 0
    ensures var h, f := Hear(calls, l, k), l.ws.value.frames[0];
            && FramesSeen(h.events + rest) == (if l.stopRequested then [] else [f]) + FramesSeen(rest)
            && Payloads(h.events + rest) == (if !l.stopRequested && f.Match? then [f.payload] else []) + Payloads(rest)
  {
    hide DoCalls, FramesSeen, Payloads;
    var h, f := Hear(calls, l, k), l.ws.value.frames[0];
    if !l.stopRequested && f.Match? {
      assert h.events + rest == [Received(f)] + ([Yielded(f.payload)] + rest);
      EventFirst(Received(f), [Yielded(f.payload)] + rest);
      EventFirst(Yielded(f.payload), rest);
    } else {
      EventFirst(h.events[0], rest);
    }
  }

  lemma FilterStep(l: Link, calls: nat -> seq<Call>, k: nat, t: Trace)
    requires l.ws.Some? && |l.ws.value.frames| > 0
    ensures var h := Hear(calls, l, k);
            && (h.ending.Some? ==> Filters(Trace(h.events, h.pauses, h.ending.value, h.link)))
            && (h.ending.None? && Filters(t) ==> Filters(After(h.events, h.pauses, t)))
  {
    hide DoCalls;
    var h, f := Hear(calls, l, k), l.ws.value.frames[0];
    HeardFirst(l, calls, k, t.events);
    HeardFirst(l, calls, k, []);
    assert h.events + [] == h.events;
    FrameFirst(f, FramesSeen(t.events));
    FrameFirst(f, []);
    assert [f] + [] == [f];
  }

  lemma SleepStep(slept: Event, p: seq<Link>, t: Trace)
    requires slept.Slept? && Filters(t)
    ensures Filters(After([slept], p, t))
  {
    EventFirst(slept, t.events);
    assert [] + FramesSeen(t.events) == FramesSeen(t.events);
    assert [] + Payloads(t.events) == Payloads(t.events);
  }

  /** Stream refinement: across all reconnects, and whatever the consumer calls at a yield or during
      a backoff, the yields are the match frames received, in order, up to the first error. */
  lemma {:induction false} StreamFilters(policy: Policy, calls: nat -> seq<Call>, l: Link, id: nat, failures: nat,
                                         k: nat, outer: bool)
    ensures Filters(if outer then Loop(policy, calls, l, failures, k) else Listen(policy, calls, l, id, failures, k))
    decreases FramesLeft(l), AttemptsLeft(policy, failures), if outer then 1 else 0
  {
    hide Filters, Hear, DoCalls, ReconnectLink, FramesLeft, Delay;
    NoEventsFilter(l);
    if outer {
      if !l.stopRequested && l.state.Connected? && l.ws.Some? {
        StreamFilters(policy, calls, l, l.ws.value.id, failures, k, false);
      }
    } else if HasFrame(l, id) {
      var h := Hear(calls, l, k);
      if h.ending.None? {
        StreamFilters(policy, calls, h.link, id, 0, h.k, false);
      }
      FilterStep(l, calls, k, Listen(policy, calls, h.link, id, 0, h.k));
    } else if !l.stopRequested && l.state.Connected? && failures < policy.maxAttempts {
      var t := DoCalls(l, calls(k));
      var slept := Slept(Delay(policy, failures + 1));
      var a := ReconnectLink(t);
      if t.stopRequested {
        OnlySleptFilters(slept, l, Stopped, t);
      } else if !a.ok {
        OnlySleptFilters(slept, l, ReopenFailed, a.link);
      } else {
        StreamFilters(policy, calls, a.link, 0, failures + 1, k + 1, true);
        SleepStep(slept, [l], Loop(policy, calls, a.link, failures + 1, k + 1));
      }
    }
  }

  lemma NoEventsFilter(l: Link)
    ensures forall e: Ending :: !e.ProtocolError? ==> Filters(Trace([], [], e, l))
  {
  }

  lemma OnlySleptFilters(slept: Event, p: Link, e: Ending, l: Link)
    requires slept.Slept? && !e.ProtocolError?
    ensures Filters(Trace([slept], [p], e, l))
  {
    assert [slept][1..] == [];
  }

  // ----- Whatever the consumer calls, frames arrive in the order the exchange sends them -----

  /** Every frame the exchange has in store for consecutive connections. */
  function Script(network: seq<Line>): seq<Frame> {
    if |network| == 0 then []
    else (if network[0].Accepts? then network[0].frames else []) + Script(network[1..])
  }

  /** What can still arrive: the rest of the current socket, then the connections to come. */
  function InStore(l: Link): seq<Frame> {
    (if l.ws.Some? then l.ws.value.frames else []) + Script(l.network)
  }

  /** `s` is `t` with some elements left out. */
  predicate Subsequence(s: seq<Frame>, t: seq<Frame>) {
    |s| == 0 || (|t| > 0 && ((s[0] == t[0] && Subsequence(s[1..], t[1..])) || Subsequence(s, t[1..])))
  }

  lemma {:induction false} SubsequenceOfLonger(s: seq<Frame>, skipped: seq<Frame>, t: seq<Frame>)
    requires Subsequence(s, t)
    ensures Subsequence(s, skipped + t)
  {
    if |skipped| == 0 {
      assert skipped + t == t;
    } else {
      SubsequenceOfLonger(s, skipped[1..], t);
      assert (skipped + t)[1..] == skipped[1..] + t;
    }
  }

  lemma SubsequenceStep(f: Frame, s: seq<Frame>, t: seq<Frame>)
    requires Subsequence(s, t)
    ensures Subsequence([f] + s, [f] + t)
  {
    assert ([f] + s)[1..] == s && ([f] + t)[1..] == t;
  }

  /** `later` holds what is left of `earlier` after some of its first frames were dropped. */
  ghost predicate DropsFrom(earlier: seq<Frame>, later: seq<Frame>) {
    exists skipped: seq<Frame> :: earlier == skipped + later
  }

  lemma DropsTransitively(a: seq<Frame>, b: seq<Frame>, c: seq<Frame>)
    requires DropsFrom(a, b) && DropsFrom(b, c)
    ensures DropsFrom(a, c)
  {
    var x: seq<Frame> :| a == x + b;
    var y: seq<Frame> :| b == y + c;
    assert a == (x + y) + c;
  }

  lemma ScriptFirst(network: seq<Line>)
    ensures Script(network) ==
            if |network| == 0 then []
            else (if network[0].Accepts? then network[0].frames else []) + Script(network[1..])
  {
  }

  lemma DropsFirst(skipped: seq<Frame>, later: seq<Frame>)
    ensures DropsFrom(skipped + later, later)
  {
  }

  /** Closing drops what the old socket still held, and nothing else. */
  lemma CloseDrops(l: Link)
    ensures DropsFrom(InStore(l), InStore(CloseLink(l)))
  {
    hide Script, DropsFrom;
    DropsFirst(if l.ws.Some? then l.ws.value.frames else [], Script(l.network));
    assert [] + Script(l.network) == Script(l.network);
  }

  /** So does opening, once it has a new socket. */
  lemma OpenDrops(l: Link)
    ensures DropsFrom(InStore(l), InStore(OpenLink(l).link))
  {
    hide Script, DropsFrom;
    ScriptFirst(l.network);
    var held, t := if l.ws.Some? then l.ws.value.frames else [], OpenLink(l).link;
    assert [] + Script(t.network) == Script(t.network);
    if |l.network| > 0 && l.network[0].Refused? {
      DropsFirst([], InStore(l));
      assert InStore(t) == InStore(l) == [] + InStore(l);
    } else {
      DropsFirst(held, Script(l.network));
      assert InStore(t) == Script(l.network);
    }
  }

  lemma SameStore(l: Link, m: Link)
    requires l.ws == m.ws && l.network == m.network
    ensures InStore(l) == InStore(m) && DropsFrom(InStore(l), InStore(m))
  {
    assert InStore(l) == [] + InStore(m);
  }

  lemma CallDrops(l: Link)
    ensures DropsFrom(InStore(l), InStore(ConnectLink(l).link))
    ensures DropsFrom(InStore(l), InStore(DisconnectLink(l)))
    ensures DropsFrom(InStore(l), InStore(ReconnectLink(l).link))
  {
    hide InStore, DropsFrom, OpenLink;
    SameStore(l, l);
    var c := l.(state := Connecting, stopRequested := false);
    SameStore(l, c);
    OpenDrops(c);
    SameStore(OpenLink(c).link, OpenLink(c).link.(state := Connected));
    var d := l.(stopRequested := true);
    SameStore(l, d);
    CloseDrops(d);
    SameStore(CloseLink(d), CloseLink(d).(state := Disconnected));
    var r := l.(state := Reconnecting);
    SameStore(l, r);
    CloseDrops(r);
    OpenDrops(CloseLink(r));
    DropsTransitively(InStore(l), InStore(CloseLink(r)), InStore(OpenLink(CloseLink(r)).link));
    SameStore(OpenLink(CloseLink(r)).link, OpenLink(CloseLink(r)).link.(state := Connected));
  }

  lemma {:induction false} CallsDrop(l: Link, calls: seq<Call>)
    ensures DropsFrom(InStore(l), InStore(DoCalls(l, calls)))
  {
    hide InStore, DropsFrom, ConnectLink, DisconnectLink, ReconnectLink;
    if |calls| == 0 {
      SameStore(l, l);
    } else {
      var t := DoCalls(l, calls[..|calls| - 1]);
      CallsDrop(l, calls[..|calls| - 1]);
      CallDrops(t);
      DropsTransitively(InStore(l), InStore(t), InStore(DoCalls(l, calls)));
    }
  }

  lemma SubsequenceAfterDrop(s: seq<Frame>, earlier: seq<Frame>, later: seq<Frame>)
    requires Subsequence(s, later) && DropsFrom(earlier, later)
    ensures Subsequence(s, earlier)
  {
    var skipped: seq<Frame> :| earlier == skipped + later;
    SubsequenceOfLonger(s, skipped, later);
  }

  /** One frame, and then what follows it. */
  lemma HeardInOrder(calls: nat -> seq<Call>, l: Link, k: nat, rest: seq<Event>)
    requires l.ws.Some? && |l.ws.value.frames| > 0
    ensures Subsequence(FramesSeen(Hear(calls, l, k).events), InStore(l))
    ensures Subsequence(FramesSeen(rest), InStore(Hear(calls, l, k).link)) ==>
              Subsequence(FramesSeen(Hear(calls, l, k).events + rest), InStore(l))
  {
    hide DoCalls, FramesSeen, Payloads, DropsFrom, Subsequence;
    var h, f := Hear(calls, l, k), l.ws.value.frames[0];
    HeardFirst(l, calls, k, []);
    HeardFirst(l, calls, k, rest);
    NothingSeen();
    assert h.events + [] == h.events && [f] + [] == [f];
    assert InStore(l) == [f] + InStore(Popped(l)) by {
      assert l.ws.value.frames == [f] + l.ws.value.frames[1..];
    }
    CallsDrop(Popped(l), calls(k));
    SameStore(Popped(l), Popped(l));
    EmptySubsequence(InStore(l));
    EmptySubsequence(InStore(Popped(l)));
    SubsequenceStep(f, [], InStore(Popped(l)));
    if Subsequence(FramesSeen(rest), InStore(h.link)) {
      SubsequenceAfterDrop(FramesSeen(rest), InStore(Popped(l)), InStore(h.link));
      SubsequenceStep(f, FramesSeen(rest), InStore(Popped(l)));
      SubsequenceOfLonger(FramesSeen(rest), [f], InStore(Popped(l)));
      assert [] + FramesSeen(rest) == FramesSeen(rest);
    }
  }

  lemma EmptySubsequence(t: seq<Frame>)
    ensures Subsequence([], t)
  {
  }

  lemma NothingSeen()
    ensures FramesSeen([]) == []
  {
  }

  /** Whatever the consumer calls, the frames received are frames the exchange sent, each at most once
      and in the order sent: only those on sockets that were given up are missing. */
  lemma {:induction false} ReceivesInOrder(policy: Policy, calls: nat -> seq<Call>, l: Link, id: nat, failures: nat,
                                           k: nat, outer: bool)
    ensures var t := if outer then Loop(policy, calls, l, failures, k) else Listen(policy, calls, l, id, failures, k);
            Subsequence(FramesSeen(t.events), InStore(l))
    decreases FramesLeft(l), AttemptsLeft(policy, failures), if outer then 1 else 0
  {
    hide Hear, DoCalls, ReconnectLink, FramesLeft, Delay, FramesSeen, InStore, Subsequence;
    NothingSeen();
    EmptySubsequence(InStore(l));
    if outer {
      if !l.stopRequested && l.state.Connected? && l.ws.Some? {
        ReceivesInOrder(policy, calls, l, l.ws.value.id, failures, k, false);
      }
    } else if HasFrame(l, id) {
      var h := Hear(calls, l, k);
      if h.ending.None? {
        ReceivesInOrder(policy, calls, h.link, id, 0, h.k, false);
      }
      HeardInOrder(calls, l, k, Listen(policy, calls, h.link, id, 0, h.k).events);
    } else if !l.stopRequested && l.state.Connected? && failures < policy.maxAttempts {
      var t := DoCalls(l, calls(k));
      var slept, a := Slept(Delay(policy, failures + 1)), ReconnectLink(t);
      EventFirst(slept, []);
      assert [slept] + [] == [slept];
      CallsDrop(l, calls(k));
      CallDrops(t);
      DropsTransitively(InStore(l), InStore(t), InStore(a.link));
      if !t.stopRequested && a.ok {
        var rest := Loop(policy, calls, a.link, failures + 1, k + 1);
        ReceivesInOrder(policy, calls, a.link, 0, failures + 1, k + 1, true);
        SubsequenceAfterDrop(FramesSeen(rest.events), InStore(l), InStore(a.link));
        SeenAfterSleep(slept, rest, l);
      }
    }
  }

  // ----- With a passive consumer, the whole stream is a function of the exchange's script -----

  ghost predicate Passive(calls: nat -> seq<Call>) { forall k: nat :: calls(k) == [] }

  /** What a stream should receive, and how it should end. */
  datatype Outlook = Outlook(frames: seq<Frame>, ending: Ending)

  /** The reference, connection by connection: `frames` are still to come on the current one and
      `network` is what the next ones hold. A connection that delivers anything clears the failures. */
  function Expected(frames: seq<Frame>, network: seq<Line>, failures: nat, maxAttempts: int): Outlook
    decreases |network|, 1
  {
    if ErrorReport in frames then Outlook(UpToError(frames), ProtocolError)
    else
      var rest := ExpectedNext(network, (if |frames| > 0 then 0 else failures) + 1, maxAttempts);
      Outlook(frames + rest.frames, rest.ending)
  }

  function ExpectedNext(network: seq<Line>, drops: nat, maxAttempts: int): Outlook
    decreases |network|, 0
  {
    if drops > maxAttempts || |network| == 0 then Outlook([], Exhausted)
    else if !network[0].Accepts? then Outlook([], ReopenFailed)
    else Expected(network[0].frames, network[1..], drops, maxAttempts)
  }

  ghost predicate Fulfils(t: Trace, o: Outlook) { FramesSeen(t.events) == o.frames && t.ending == o.ending }

  lemma ExpectedFirst(frames: seq<Frame>, network: seq<Line>, failures: nat, maxAttempts: int)
    requires |frames| > 0
    ensures var o := Expected(frames, network, failures, maxAttempts);
            if frames[0].ErrorReport? then o == Outlook([frames[0]], ProtocolError)
            else var rest := Expected(frames[1..], network, 0, maxAttempts);
                 o == Outlook([frames[0]] + rest.frames, rest.ending)
  {
    hide ExpectedNext;
    var rest := frames[1..];
    assert frames == [frames[0]] + rest;
    var more := ExpectedNext(network, 1, maxAttempts).frames;
    assert [frames[0]] + (rest + more) == frames + more;
  }

  lemma SeenAfterSleep(slept: Event, t: Trace, l: Link)
    requires slept.Slept?
    ensures FramesSeen(After([slept], [l], t).events) == FramesSeen(t.events)
  {
    EventFirst(slept, t.events);
  }

  /** Stream refinement with nobody calling the connector: across all reconnects exactly the frames
      the exchange sends, in order and none skipped, up to the first error report, the first refused
      reopening, or one more drop in a row than the budget allows. */
  lemma {:induction false} PassiveStreamIsReference(policy: Policy, calls: nat -> seq<Call>, l: Link, id: nat,
                                                    failures: nat, k: nat, outer: bool)
    requires Passive(calls) && l.state.Connected? && !l.stopRequested && l.ws.Some? && (!outer ==> l.ws.value.id == id)
    ensures Fulfils(if outer then Loop(policy, calls, l, failures, k) else Listen(policy, calls, l, id, failures, k),
                    Expected(l.ws.value.frames, l.network, failures, policy.maxAttempts))
    decreases FramesLeft(l), AttemptsLeft(policy, failures), if outer then 1 else 0
  {
    hide FramesLeft, Delay, FramesSeen, Expected;
    if outer {
      PassiveStreamIsReference(policy, calls, l, l.ws.value.id, failures, k, false);
    } else if HasFrame(l, id) {
      var f, h := l.ws.value.frames[0], Hear(calls, l, k);
      ExpectedFirst(l.ws.value.frames, l.network, failures, policy.maxAttempts);
      HeardFirst(l, calls, k, []);
      assert h.events + [] == h.events;
      NothingSeen();
      if h.ending.None? {
        assert h.link == Popped(l);
        PassiveStreamIsReference(policy, calls, h.link, id, 0, h.k, false);
        HeardFirst(l, calls, k, Listen(policy, calls, h.link, id, 0, h.k).events);
      } else {
        assert [f] + [] == [f];
      }
    } else {
      DropIsReference(policy, calls, l, id, failures, k);
      if failures < policy.maxAttempts && ReconnectLink(l).ok {
        PassiveStreamIsReference(policy, calls, ReconnectLink(l).link, 0, failures + 1, k + 1, true);
        SeenAfterSleep(Slept(Delay(policy, failures + 1)),
                       Loop(policy, calls, ReconnectLink(l).link, failures + 1, k + 1), l);
      }
    }
  }

  lemma ExpectedOfNone(network: seq<Line>, failures: nat, maxAttempts: int)
    ensures Expected([], network, failures, maxAttempts) == ExpectedNext(network, failures + 1, maxAttempts)
  {
    hide ExpectedNext;
    var rest := ExpectedNext(network, failures + 1, maxAttempts);
    assert [] + rest.frames == rest.frames;
  }

  /** A drop, and the reference after it. */
  lemma DropIsReference(policy: Policy, calls: nat -> seq<Call>, l: Link, id: nat, failures: nat, k: nat)
    requires Passive(calls) && l.state.Connected? && !l.stopRequested && l.ws.Some? && l.ws.value.frames == []
    ensures var t, o := Dropped(policy, calls, l, failures, k), Expected([], l.network, failures, policy.maxAttempts);
            var a := ReconnectLink(l);
            if failures < policy.maxAttempts && a.ok then
              && a.link.state.Connected? && !a.link.stopRequested && a.link.ws.Some?
              && t == After([Slept(Delay(policy, failures + 1))], [l], Loop(policy, calls, a.link, failures + 1, k + 1))
              && o == Expected(a.link.ws.value.frames, a.link.network, failures + 1, policy.maxAttempts)
            else Fulfils(t, o)
  {
    hide FramesLeft, Delay, Loop, Expected;
    ExpectedOfNone(l.network, failures, policy.maxAttempts);
    if |l.network| == 0 {
      ExpectedOfNone([], failures + 1, policy.maxAttempts);
    }
    assert DoCalls(l, calls(k)) == l;
    if failures < policy.maxAttempts {
      var slept := Slept(Delay(policy, failures + 1));
      EventFirst(slept, []);
      assert [slept] + [] == [slept];
      assert !ReconnectLink(l).ok ==> Dropped(policy, calls, l, failures, k).events == [slept];
    }
  }

  lemma {:induction false} UpToErrorIsPrefix(frames: seq<Frame>)
    ensures UpToError(frames) <= frames
    ensures ErrorReport !in frames ==> UpToError(frames) == frames
  {
    if |frames| > 0 {
      UpToErrorIsPrefix(frames[1..]);
      assert frames == [frames[0]] + frames[1..];
    }
  }

  /** The reference skips and reorders nothing; and while every connection is accepted it ends only
      with an error report or an exhausted budget. */
  lemma {:induction false} ReferenceIsInOrder(frames: seq<Frame>, network: seq<Line>, failures: nat, maxAttempts: int)
    ensures Expected(frames, network, failures, maxAttempts).frames <= frames + Script(network)
    ensures (forall i :: 0 <= i < |network| ==> network[i].Accepts?) ==>
              Expected(frames, network, failures, maxAttempts).ending in {ProtocolError, Exhausted}
    decreases |network|
  {
    UpToErrorIsPrefix(frames);
    var drops := (if |frames| > 0 then 0 else failures) + 1;
    if ErrorReport !in frames && drops <= maxAttempts && |network| > 0 && network[0].Accepts? {
      ReferenceIsInOrder(network[0].frames, network[1..], drops, maxAttempts);
    }
  }

  // ----- Backoff discipline -----

  /** The number of failures in a row after some events, or nothing if a wait was out of order,
      had the wrong length or exceeded the budget. */
  function FailuresAfter(policy: Policy, events: seq<Event>, failures: nat): Option<nat> {
    if |events| == 0 then Some(failures)
    else
      match events[0]
      case Received(_) => FailuresAfter(policy, events[1..], 0)
      case Slept(d) =>
        if failures + 1 <= policy.maxAttempts && d == Delay(policy, failures + 1)
        then FailuresAfter(policy, events[1..], failures + 1) else None
      case _ => FailuresAfter(policy, events[1..], failures)
  }

  /** Every wait is the nth after n drops in a row, and giving up means the budget is used up. */
  ghost predicate Disciplined(policy: Policy, t: Trace, failures: nat) {
    var f := FailuresAfter(policy, t.events, failures);
    f.Some? && (t.ending.Exhausted? ==> f.value + 1 > policy.maxAttempts)
  }

  /** A received frame clears the count of failures. */
  lemma HeardResets(policy: Policy, calls: nat -> seq<Call>, l: Link, k: nat, failures: nat, rest: seq<Event>)
    requires l.ws.Some? && |l.ws.value.frames| > 0
    ensures FailuresAfter(policy, Hear(calls, l, k).events + rest, failures)
         == FailuresAfter(policy, rest, if l.stopRequested then failures else 0)
  {
    hide DoCalls, Delay;
    var h, f := Hear(calls, l, k), l.ws.value.frames[0];
    if !l.stopRequested && f.Match? {
      assert (h.events + rest)[1..] == [Yielded(f.payload)] + rest;
      assert ([Yielded(f.payload)] + rest)[1..] == rest;
    } else {
      assert (h.events + rest)[1..] == rest;
    }
  }

  lemma SleptCounts(policy: Policy, failures: nat, rest: seq<Event>)
    requires failures < policy.maxAttempts
    ensures FailuresAfter(policy, [Slept(Delay(policy, failures + 1))] + rest, failures) ==
            FailuresAfter(policy, rest, failures + 1)
  {
    hide Delay;
    assert ([Slept(Delay(policy, failures + 1))] + rest)[1..] == rest;
  }

  lemma {:induction false} BackoffIsDisciplined(policy: Policy, calls: nat -> seq<Call>, l: Link, id: nat,
                                                failures: nat, k: nat, outer: bool)
    ensures Disciplined(policy, if outer then Loop(policy, calls, l, failures, k)
                        else Listen(policy, calls, l, id, failures, k), failures)
    decreases FramesLeft(l), AttemptsLeft(policy, failures), if outer then 1 else 0
  {
    hide DoCalls, ReconnectLink, FramesLeft, Delay;
    if outer {
      if !l.stopRequested && l.state.Connected? && l.ws.Some? {
        BackoffIsDisciplined(policy, calls, l, l.ws.value.id, failures, k, false);
      }
    } else if HasFrame(l, id) {
      var h := Hear(calls, l, k);
      var rest := Listen(policy, calls, h.link, id, 0, h.k);
      HeardResets(policy, calls, l, k, failures, rest.events);
      HeardResets(policy, calls, l, k, failures, []);
      assert h.events + [] == h.events;
      if h.ending.None? {
        BackoffIsDisciplined(policy, calls, h.link, id, 0, h.k, false);
      }
    } else if !l.stopRequested && l.state.Connected? && failures < policy.maxAttempts {
      var slept := Slept(Delay(policy, failures + 1));
      var a := ReconnectLink(DoCalls(l, calls(k)));
      SleptCounts(policy, failures, []);
      assert [slept] + [] == [slept];
      if !DoCalls(l, calls(k)).stopRequested && a.ok {
        BackoffIsDisciplined(policy, calls, a.link, 0, failures + 1, k + 1, true);
        SleptCounts(policy, failures, Loop(policy, calls, a.link, failures + 1, k + 1).events);
      }
    }
  }

  /** The waits of `n` failures in a row, added up. */
  function TotalDelay(policy: Policy, n: nat): real {
    if n == 0 then 0.0 else TotalDelay(policy, n - 1) + Delay(policy, n)
  }

  /** The first wait is the base, and each later one is twice as long, up to the cap. */
  lemma DelayDoubles(policy: Policy, n: nat)
    requires n >= 1 && policy.base >= 0.0 && policy.cap >= 0.0
    ensures Delay(policy, 1) == if policy.base < policy.cap then policy.base else policy.cap
    ensures Delay(policy, n + 1) == if 2.0 * Delay(policy, n) < policy.cap then 2.0 * Delay(policy, n) else policy.cap
  {
    assert policy.base * Pow2(n) == 2.0 * (policy.base * Pow2(n - 1));
    assert Pow2(0) == 1.0;
  }

  lemma DelayGrows(policy: Policy, n: nat)
    requires n >= 1 && policy.base >= 0.0
    ensures Delay(policy, n) <= Delay(policy, n + 1) <= policy.cap ||
            Delay(policy, n) == Delay(policy, n + 1) == policy.cap
  {
    assert policy.base * Pow2(n) == 2.0 * (policy.base * Pow2(n - 1));
    assert policy.base * Pow2(n - 1) >= 0.0;
  }

  lemma DelayAtMost(policy: Policy, n: nat)
    requires n >= 1
    ensures Delay(policy, n) <= policy.base * Pow2(n - 1) && Delay(policy, n) <= policy.cap
  {
  }

  /** The whole budget costs at most the geometric sum, and at most the cap each time. */
  lemma {:induction false} TotalDelayBounded(policy: Policy, n: nat)
    requires policy.base >= 0.0
    ensures TotalDelay(policy, n) <= policy.base * (Pow2(n) - 1.0)
    ensures TotalDelay(policy, n) <= n as real * policy.cap
  {
    hide Delay;
    if n > 0 {
      TotalDelayBounded(policy, n - 1);
      DelayAtMost(policy, n);
      OneMoreDelay(TotalDelay(policy, n - 1), Delay(policy, n), policy.base, Pow2(n - 1), (n - 1) as real, policy.cap);
      assert Pow2(n) == 2.0 * Pow2(n - 1);
      assert (n - 1) as real + 1.0 == n as real;
    } else {
      assert policy.base * (1.0 - 1.0) == 0.0;
    }
  }

  lemma OneMoreDelay(t: real, d: real, b: real, p: real, n: real, c: real)
    requires t <= b * (p - 1.0) && d <= b * p
    requires t <= n * c && d <= c
    ensures t + d <= b * (2.0 * p - 1.0) && t + d <= (n + 1.0) * c
  {
    assert b * (2.0 * p - 1.0) == b * (p - 1.0) + b * p;
    assert (n + 1.0) * c == n * c + c;
  }

  function Sleeps(events: seq<Event>): nat {
    if |events| == 0 then 0 else (if events[0].Slept? then 1 else 0) + Sleeps(events[1..])
  }

  function TimeAsleep(events: seq<Event>): real {
    if |events| == 0 then 0.0 else (if events[0].Slept? then events[0].delay else 0.0) + TimeAsleep(events[1..])
  }

  predicate NothingReceived(events: seq<Event>) { forall i :: 0 <= i < |events| ==> !events[i].Received? }

  lemma {:induction false} QuietStretch(policy: Policy, events: seq<Event>, failures: nat)
    requires NothingReceived(events) && FailuresAfter(policy, events, failures).Some?
    ensures FailuresAfter(policy, events, failures).value == failures + Sleeps(events)
    ensures TimeAsleep(events) == TotalDelay(policy, failures + Sleeps(events)) - TotalDelay(policy, failures)
    ensures Sleeps(events) > 0 ==> failures + Sleeps(events) <= policy.maxAttempts
  {
    hide Delay;
    if |events| > 0 {
      assert forall i :: 0 <= i < |events[1..]| ==> events[1..][i] == events[i + 1];
      QuietStretch(policy, events[1..], failures + if events[0].Slept? then 1 else 0);
    }
  }

  lemma {:induction false} FailuresConcat(policy: Policy, a: seq<Event>, b: seq<Event>, failures: nat)
    requires FailuresAfter(policy, a + b, failures).Some?
    ensures FailuresAfter(policy, a, failures).Some?
    ensures FailuresAfter(policy, a + b, failures) == FailuresAfter(policy, b, FailuresAfter(policy, a, failures).value)
  {
    hide Delay;
    if |a| == 0 {
      assert a + b == b;
    } else {
      assert (a + b)[1..] == a[1..] + b && (a + b)[0] == a[0];
      var f := match a[0] case Received(_) => 0 case Slept(_) => failures + 1 case _ => failures;
      FailuresConcat(policy, a[1..], b, f);
    }
  }

  /** Any stretch of a budget costs at most what the whole budget does. */
  lemma WithinBudget(policy: Policy, f: nat, n: nat)
    requires policy.base >= 0.0 && policy.cap >= 0.0 && policy.maxAttempts >= 0
    requires n > 0 ==> f + n <= policy.maxAttempts
    ensures TotalDelay(policy, f + n) - TotalDelay(policy, f) <= TotalDelay(policy, policy.maxAttempts)
  {
    hide TotalDelay;
    DelayTotalMonotone(policy, 0, f);
    DelayTotalMonotone(policy, 0, policy.maxAttempts);
    assert TotalDelay(policy, 0) == 0.0 by { NoDelay(policy); }
    if n > 0 {
      DelayTotalMonotone(policy, f + n, policy.maxAttempts);
    }
  }

  lemma NoDelay(policy: Policy)
    ensures TotalDelay(policy, 0) == 0.0
  {
  }

  lemma QuietIsBounded(policy: Policy, before: seq<Event>, quiet: seq<Event>, rest: seq<Event>)
    requires policy.base >= 0.0 && policy.cap >= 0.0 && policy.maxAttempts >= 0 && NothingReceived(quiet)
    requires FailuresAfter(policy, before + quiet + rest, 0).Some?
    ensures Sleeps(quiet) <= policy.maxAttempts
    ensures TimeAsleep(quiet) <= TotalDelay(policy, policy.maxAttempts)
  {
    hide Delay, TimeAsleep, Sleeps, TotalDelay, FailuresAfter, NothingReceived;
    FailuresConcat(policy, before + quiet, rest, 0);
    FailuresConcat(policy, before, quiet, 0);
    var f := FailuresAfter(policy, before, 0).value;
    QuietStretch(policy, quiet, f);
    WithinBudget(policy, f, Sleeps(quiet));
  }

  /** Between two received frames the stream waits at most `max_reconnect_attempts` times, for at
      most the total of a whole budget, itself bounded by the geometric sum and by the cap. */
  lemma WaitsBetweenFrames(policy: Policy, calls: nat -> seq<Call>, l: Link, before: seq<Event>, quiet: seq<Event>,
                           rest: seq<Event>)
    requires policy.base >= 0.0 && policy.cap >= 0.0 && policy.maxAttempts >= 0
    requires StreamLink(policy, calls, l).events == before + quiet + rest && NothingReceived(quiet)
    ensures Sleeps(quiet) <= policy.maxAttempts
    ensures TimeAsleep(quiet) <= policy.base * (Pow2(policy.maxAttempts) - 1.0)
    ensures TimeAsleep(quiet) <= policy.maxAttempts as real * policy.cap
  {
    hide Loop, Delay, TimeAsleep, Sleeps, TotalDelay, FailuresAfter, Pow2, NothingReceived;
    TotalDelayBounded(policy, policy.maxAttempts);
    if l.state.Connected? {
      BackoffIsDisciplined(policy, calls, l, 0, 0, 0, true);
    } else {
      NoFailures(policy, before + quiet + rest);
    }
    QuietIsBounded(policy, before, quiet, rest);
  }

  lemma NoFailures(policy: Policy, events: seq<Event>)
    requires events == []
    ensures FailuresAfter(policy, events, 0).Some?
  {
  }

  lemma {:induction false} DelayTotalMonotone(policy: Policy, m: nat, n: nat)
    requires policy.base >= 0.0 && policy.cap >= 0.0 && m <= n
    ensures TotalDelay(policy, m) <= TotalDelay(policy, n)
    decreases n - m
  {
    if m < n {
      DelayTotalMonotone(policy, m, n - 1);
      assert policy.base * Pow2(n - 1) >= 0.0;
    }
  }

  // ----- A connected stream has a live, subscribed socket -----

  /** Subscriptions carry distinct, increasing connection numbers; and when the connector says it is
      connected, its socket is the one the last subscription was sent on. */
  ghost predicate Live(l: Link) {
    && (forall i, j :: 0 <= i < j < |l.subscriptions| ==> l.subscriptions[i] < l.subscriptions[j])
    && (forall i :: 0 <= i < |l.subscriptions| ==> l.subscriptions[i] < l.opens)
    && (l.state.Connected? ==>
          && l.ws.Some? && l.context == Some(l.ws.value.id)
          && |l.subscriptions| > 0 && l.subscriptions[|l.subscriptions| - 1] == l.ws.value.id)
  }

  lemma OpenKeepsLive(l: Link)
    requires Live(l) && !l.state.Connected?
    ensures var a := OpenLink(l);
            && Live(a.link) && a.link.state == l.state
            && (a.ok ==> Live(a.link.(state := Connected)) && a.link.subscriptions == l.subscriptions + [l.opens])
            && (!a.ok ==> a.link.subscriptions == l.subscriptions)
  {
  }

  lemma {:induction false} CallsKeepLive(l: Link, calls: seq<Call>)
    requires Live(l)
    ensures Live(DoCalls(l, calls))
  {
    hide OpenLink, Live;
    if |calls| > 0 {
      var t := DoCalls(l, calls[..|calls| - 1]);
      CallsKeepLive(l, calls[..|calls| - 1]);
      CallKeepsLive(t);
    }
  }

  lemma CallKeepsLive(l: Link)
    requires Live(l)
    ensures Live(ConnectLink(l).link) && Live(DisconnectLink(l)) && Live(ReconnectLink(l).link)
  {
    hide OpenLink;
    if !l.state.Connected? {
      OpenKeepsLive(l.(state := Connecting, stopRequested := false));
    }
    OpenKeepsLive(CloseLink(l.(state := Reconnecting)));
  }

  ghost predicate AllLive(t: Trace) {
    Live(t.link) && !t.ending.NotConnected? && forall i :: 0 <= i < |t.pauses| ==> Live(t.pauses[i])
  }

  lemma HearKeepsLive(calls: nat -> seq<Call>, l: Link, k: nat)
    requires Live(l) && l.ws.Some? && |l.ws.value.frames| > 0
    ensures Live(Popped(l)) && Live(Hear(calls, l, k).link)
    ensures forall i :: 0 <= i < |Hear(calls, l, k).pauses| ==> Live(Hear(calls, l, k).pauses[i])
    ensures Hear(calls, l, k).ending.Some? ==> !Hear(calls, l, k).ending.value.NotConnected?
  {
    hide DoCalls;
    CallsKeepLive(Popped(l), calls(k));
  }

  /** At every yield and every backoff, and when the stream ends, connected means a live socket; so
      the check for a missing socket inside the loop never fires. */
  lemma {:induction false} ConnectedMeansLive(policy: Policy, calls: nat -> seq<Call>, l: Link, id: nat,
                                              failures: nat, k: nat, outer: bool)
    requires Live(l)
    ensures AllLive(if outer then Loop(policy, calls, l, failures, k) else Listen(policy, calls, l, id, failures, k))
    decreases FramesLeft(l), AttemptsLeft(policy, failures), if outer then 1 else 0
  {
    hide DoCalls, ReconnectLink, Hear, FramesLeft, Delay;
    if outer {
      if !l.stopRequested && l.state.Connected? && l.ws.Some? {
        ConnectedMeansLive(policy, calls, l, l.ws.value.id, failures, k, false);
      }
    } else if HasFrame(l, id) {
      HearKeepsLive(calls, l, k);
      var h := Hear(calls, l, k);
      if h.ending.None? {
        ConnectedMeansLive(policy, calls, h.link, id, 0, h.k, false);
      }
    } else if !l.stopRequested && l.state.Connected? && failures < policy.maxAttempts {
      var t := DoCalls(l, calls(k));
      CallsKeepLive(l, calls(k));
      CallKeepsLive(t);
      if !t.stopRequested && ReconnectLink(t).ok {
        ConnectedMeansLive(policy, calls, ReconnectLink(t).link, 0, failures + 1, k + 1, true);
      }
    }
  }

  /** After a stop request the stream ends without another yield or wait. */
  lemma StopIsPrompt(policy: Policy, calls: nat -> seq<Call>, l: Link, id: nat, failures: nat, k: nat)
    requires l.stopRequested
    ensures var t := Listen(policy, calls, l, id, failures, k);
            t.ending == Stopped && Payloads(t.events) == [] && Sleeps(t.events) == 0 && FramesSeen(t.events) == []
  {
    if HasFrame(l, id) {
      var frame := l.ws.value.frames[0];
      assert [Discarded(frame)][1..] == [];
    }
  }

  // ----- What the public calls do to a stream -----

  /** A stream that is not connected raises at once. */
  lemma NotConnectedRaises(policy: Policy, calls: nat -> seq<Call>, l: Link)
    requires !l.state.Connected?
    ensures StreamLink(policy, calls, l) == Trace([], [], NotConnected, l)
  {
  }

  /** The last of some calls asks to disconnect. */
  predicate EndsInDisconnect(calls: seq<Call>) { |calls| > 0 && calls[|calls| - 1] == CallDisconnect }

  /** `disconnect` requests a stop, drops the socket and opens nothing. */
  lemma DisconnectStops(l: Link, calls: seq<Call>)
    requires EndsInDisconnect(calls)
    ensures var t := DoCalls(l, calls);
            && t.stopRequested && t.state == Disconnected && t.ws == None && t.context == None
            && t.opens == DoCalls(l, calls[..|calls| - 1]).opens
            && t.subscriptions == DoCalls(l, calls[..|calls| - 1]).subscriptions
  {
  }

  /** `reconnect` does not take a stop request back. */
  lemma ReconnectKeepsStop(l: Link)
    ensures ReconnectLink(l).link.stopRequested == l.stopRequested
  {
  }

  lemma {:induction false} SuspensionCount(policy: Policy, calls: nat -> seq<Call>, l: Link, k: nat)
    requires l.ws.Some? && |l.ws.value.frames| > 0
    ensures var h := Hear(calls, l, k);
            && |h.pauses| <= 1 && h.k == k + |h.pauses|
            && (|h.pauses| == 1 ==>
                  && h.link == DoCalls(h.pauses[0], calls(k)) && h.ending.None?
                  && |h.events| > 0 && h.events[|h.events| - 1].Yielded?)
  {
  }

  lemma StoppedListenEnds(policy: Policy, calls: nat -> seq<Call>, l: Link, id: nat, failures: nat, k: nat)
    requires l.stopRequested && l.ws == None
    ensures Listen(policy, calls, l, id, failures, k) == Trace([], [], Stopped, l)
  {
  }

  /** A stop request is obeyed at once: when the consumer's calls at the `n`th suspension of a stream, a yield
      or a backoff sleep, end in `disconnect`, that suspension is the last thing that happens. The stream
      ends as stopped, without another wait, opening or yield. */
  lemma {:induction false} DisconnectEndsStream(policy: Policy, calls: nat -> seq<Call>, l: Link, id: nat,
                                                failures: nat, k: nat, outer: bool, n: nat)
    requires var t := if outer then Loop(policy, calls, l, failures, k) else Listen(policy, calls, l, id, failures, k);
             n < |t.pauses| && EndsInDisconnect(calls(k + n))
    ensures var t := if outer then Loop(policy, calls, l, failures, k) else Listen(policy, calls, l, id, failures, k);
            && t.ending == Stopped && |t.pauses| == n + 1
            && |t.events| > 0 && (t.events[|t.events| - 1].Yielded? || t.events[|t.events| - 1].Slept?)
            && t.link == DoCalls(t.pauses[n], calls(k + n))
    decreases FramesLeft(l), AttemptsLeft(policy, failures), if outer then 1 else 0
  {
    hide DoCalls, ReconnectLink, FramesLeft, Delay, Hear;
    if outer {
      if !l.stopRequested && l.state.Connected? && l.ws.Some? {
        DisconnectEndsStream(policy, calls, l, l.ws.value.id, failures, k, false, n);
      }
    } else if HasFrame(l, id) {
      SuspensionCount(policy, calls, l, k);
      var h := Hear(calls, l, k);
      if h.ending.None? {
        if |h.pauses| == 1 && n == 0 {
          DisconnectStops(h.pauses[0], calls(k));
          StoppedListenEnds(policy, calls, h.link, id, 0, h.k);
        } else {
          DisconnectEndsStream(policy, calls, h.link, id, 0, h.k, false, n - |h.pauses|);
        }
      }
    } else if !l.stopRequested && l.state.Connected? && failures < policy.maxAttempts {
      var t := DoCalls(l, calls(k));
      if n == 0 {
        DisconnectStops(l, calls(k));
      } else if !t.stopRequested && ReconnectLink(t).ok {
        DisconnectEndsStream(policy, calls, ReconnectLink(t).link, 0, failures + 1, k + 1, true, n - 1);
      }
    }
  }

  /** `connect` on a connected connector does nothing. */
  lemma ConnectIsIdempotent(l: Link)
    requires l.state.Connected?
    ensures ConnectLink(l) == Attempt(l, true)
  {
  }

  /** An opening that the exchange does not accept leaves the connector on its way, not connected: connecting
      after `connect`, reconnecting after `reconnect`. An accepted one makes it connected. */
  lemma StateAfterOpening(l: Link)
    requires |l.network| > 0
    ensures var a := ReconnectLink(l);
            && (a.ok <==> l.network[0].Accepts?) && a.link.opens == l.opens + 1
            && a.link.state == if a.ok then Connected else Reconnecting
    ensures !l.state.Connected? ==>
              var a := ConnectLink(l);
              && (a.ok <==> l.network[0].Accepts?) && a.link.opens == l.opens + 1 && !a.link.stopRequested
              && a.link.state == if a.ok then Connected else Connecting
  {
  }

  /** `connect` takes a stop request back: after a disconnect and a connection that the exchange accepts, a
      stream receives what it sends. */
  lemma ConnectStreamsAgain(policy: Policy, calls: nat -> seq<Call>, l: Link)
    requires |l.network| > 0 && l.network[0].Accepts? && |l.network[0].frames| > 0
    ensures var t := DoCalls(l, [CallDisconnect, CallConnect]);
            && !t.stopRequested && t.state == Connected && t.opens == l.opens + 1
            && t.subscriptions == l.subscriptions + [l.opens]
            && |StreamLink(policy, calls, t).events| > 0
            && StreamLink(policy, calls, t).events[0] == Received(l.network[0].frames[0])
  {
    hide FramesIn, Delay, Loop, Listen;
    var two := [CallDisconnect, CallConnect];
    assert two[..1] == [CallDisconnect] && two[..1][..0] == [];
    assert DoCalls(l, two[..1]) == DisconnectLink(l);
    var t := DoCalls(l, two);
    assert t == ConnectLink(DisconnectLink(l)).link;
    LiveStreamReceives(policy, calls, t);
  }

  lemma LiveStreamReceives(policy: Policy, calls: nat -> seq<Call>, l: Link)
    requires l.state.Connected? && !l.stopRequested && l.ws.Some? && |l.ws.value.frames| > 0
    ensures |StreamLink(policy, calls, l).events| > 0
    ensures StreamLink(policy, calls, l).events[0] == Received(l.ws.value.frames[0])
  {
    hide FramesIn, Delay, DoCalls, Dropped;
    var h := Hear(calls, l, 0);
    assert h.events[0] == Received(l.ws.value.frames[0]);
    assert HasFrame(l, l.ws.value.id);
    assert Loop(policy, calls, l, 0, 0) == Listen(policy, calls, l, l.ws.value.id, 0, 0);
  }

  /** After a disconnect alone, or one followed by a reconnect, a stream receives nothing. */
  lemma StopOutlivesReconnect(policy: Policy, calls: nat -> seq<Call>, l: Link)
    ensures StreamLink(policy, calls, DoCalls(l, [CallDisconnect])).events == []
    ensures StreamLink(policy, calls, DoCalls(l, [CallDisconnect, CallReconnect])).events == []
  {
    hide FramesIn, Delay;
    var one, two := [CallDisconnect], [CallDisconnect, CallReconnect];
    assert one[..0] == [] && DoCalls(l, one) == DisconnectLink(l);
    assert two[..1] == one;
    assert DoCalls(l, two) == ReconnectLink(DisconnectLink(l)).link;
    ReconnectKeepsStop(DisconnectLink(l));
  }
}
