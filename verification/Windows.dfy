/** Window arithmetic: fixed-size windows aligned to the Unix epoch. */
module Windows {
  import opened Events
  import opened Identity

  // ----- int(timestamp()) -----

  function TwoTo(n: nat): (p: nat)
    ensures p >= 1
  {
    if n == 0 then 1 else 2 * TwoTo(n - 1)
  }

  /** The exponent of a whole number as a double: `2 ** e <= n < 2 ** (e + 1)`. */
  function Exponent(n: nat): nat { if n < 2 then 0 else 1 + Exponent(n / 2) }

  /** `timestamp()` divides microseconds to a double of 53 bits: within half a unit of its last place
      of the next whole second, it is that second. */
  predicate RoundsUp(seconds: nat, micros: nat) {
    0 < micros < SECOND && Exponent(seconds) <= 52
    && 2 * (SECOND - micros) * TwoTo(52 - Exponent(seconds)) < SECOND
  }

  function WholeSeconds(micros: nat): nat {
    micros / SECOND + if RoundsUp(micros / SECOND, micros % SECOND) then 1 else 0
  }

  /** `int(timestamp())`: whole seconds of the double, truncated toward zero. */
  function TruncatedSeconds(micros: int): int {
    if micros >= 0 then WholeSeconds(micros) else -(WholeSeconds(-micros) as int)
  }

  /** Up to here, `2 ** 34` seconds or the year 2514, the double keeps microseconds apart. */
  const EXACT_LIMIT: int := 17_179_869_184 * SECOND

  lemma {:induction false} ExponentBelow(n: nat, e: nat)
    requires n < TwoTo(e + 1)
    ensures Exponent(n) <= e
  {
    if n >= 2 {
      assert TwoTo(1) == 2 && TwoTo(e + 1) == 2 * TwoTo(e);
      assert e > 0;
      ExponentBelow(n / 2, e - 1);
    }
  }

  lemma {:induction false} TwoToMonotone(m: nat, n: nat)
    requires m <= n
    ensures TwoTo(m) <= TwoTo(n)
    decreases n - m
  {
    if m < n {
      TwoToMonotone(m, n - 1);
    }
  }

  lemma TwosTo(n: nat)
    ensures TwoTo(19) == 524_288 && TwoTo(34) == 17_179_869_184
  {
    assert TwoTo(8) == 256;
    assert TwoTo(16) == 65_536;
    assert TwoTo(24) == 16_777_216;
    assert TwoTo(32) == 4_294_967_296;
  }

  lemma NeverUpBefore2514(seconds: nat, micros: nat)
    requires seconds < 17_179_869_184
    ensures !RoundsUp(seconds, micros)
  {
    hide TwoTo, Exponent;
    TwosTo(0);
    ExponentBelow(seconds, 33);
    TwoToMonotone(19, 52 - Exponent(seconds));
    if 0 < micros < SECOND {
      AtLeastFactor(SECOND - micros, TwoTo(52 - Exponent(seconds)));
    }
  }

  lemma AtLeastFactor(a: int, p: nat)
    requires a >= 1
    ensures 2 * a * p >= 2 * p
  {
    assert a * p >= p by { assert (a - 1) * p >= 0; }
    assert 2 * a * p == 2 * (a * p);
  }

  /** The seconds are those of the clock, or one more. */
  lemma TruncatedNear(t: int)
    ensures TruncatedSeconds(t) == t / SECOND || TruncatedSeconds(t) == t / SECOND + 1
    ensures t % SECOND == 0 ==> TruncatedSeconds(t) == t / SECOND
    ensures 0 <= t < EXACT_LIMIT ==> TruncatedSeconds(t) == t / SECOND
  {
    hide RoundsUp;
    if t >= 0 {
      if t < EXACT_LIMIT {
        NeverUpBefore2514(t / SECOND, t % SECOND);
      }
      OnTheSecond(t / SECOND);
    } else {
      OnTheSecond(-t / SECOND);
    }
  }

  lemma OnTheSecond(seconds: nat)
    ensures !RoundsUp(seconds, 0)
  {
  }

  lemma LaterRoundsUp(seconds: nat, micros: nat, later: nat)
    requires RoundsUp(seconds, micros) && micros <= later < SECOND
    ensures RoundsUp(seconds, later)
  {
    hide TwoTo, Exponent;
    var p := TwoTo(52 - Exponent(seconds));
    assert 2 * (SECOND - micros) * p - 2 * (SECOND - later) * p == 2 * (later - micros) * p;
  }

  lemma WholeMonotone(a: nat, b: nat)
    requires a <= b
    ensures WholeSeconds(a) <= WholeSeconds(b)
  {
    hide RoundsUp;
    if a / SECOND == b / SECOND && RoundsUp(a / SECOND, a % SECOND) {
      LaterRoundsUp(a / SECOND, a % SECOND, b % SECOND);
    }
  }

  lemma TruncatedMonotone(t: int, u: int)
    requires t <= u
    ensures TruncatedSeconds(t) <= TruncatedSeconds(u)
  {
    hide WholeSeconds;
    if t >= 0 {
      WholeMonotone(t, u);
    } else if u < 0 {
      WholeMonotone(-u, -t);
    }
  }

  // ----- Windows -----

  /** The inclusive start of the window a timestamp is assigned to. */
  function WindowStartFor(t: Timestamp, windowSeconds: int): (r: Outcome<int>)
    ensures r.Done? ==> StartInstant(r.value) && t.Aware? && windowSeconds > 0
  {
    if windowSeconds <= 0 then Raised(ArgumentError)
    else if t.Naive? then Raised(DataError)
    else
      var epochSeconds := TruncatedSeconds(t.micros);
      var start := (epochSeconds - epochSeconds % windowSeconds) * SECOND;
      if Representable(start) then Done(start) else Raised(DataError)
  }

  function WindowBoundsFor(t: Timestamp, windowSeconds: int): Outcome<(int, int)> {
    var start :- WindowStartFor(t, windowSeconds);
    var end := start + windowSeconds * SECOND;
    if Representable(end) then Done((start, end)) else Raised(DataError)
  }

  /** A window is closed once the clock is `lateness` seconds past its end. */
  predicate IsFinalFor(end: int, now: int, latenessSeconds: int) {
    now - end >= latenessSeconds * SECOND
  }

  /** `start` begins a window of the epoch-aligned grid. */
  predicate Aligned(start: int, windowSeconds: int)
    requires windowSeconds > 0
  {
    start % SECOND == 0 && start / SECOND % windowSeconds == 0
  }

  predicate InWindow(t: int, start: int, windowSeconds: int) {
    start <= t < start + windowSeconds * SECOND
  }

  lemma AlignedFloor(seconds: int, w: int, s: int)
    requires w > 0 && s % w == 0
    ensures s <= seconds < s + w <==> s == seconds - seconds % w
  {
    var q, k := seconds / w, s / w;
    assert seconds == q * w + seconds % w && s == k * w;
    if s <= seconds < s + w {
      assert seconds == k * w + (seconds - s);
      QuotientIs(seconds, w, k, seconds - s);
    }
  }

  lemma FloorIsAligned(seconds: int, w: int)
    requires w > 0
    ensures (seconds - seconds % w) % w == 0
  {
    var q := seconds / w;
    assert seconds - seconds % w == q * w + 0;
    QuotientIs(seconds - seconds % w, w, q, 0);
  }

  /** An assigned start is aligned. */
  lemma StartIsAligned(t: Timestamp, w: int)
    requires WindowStartFor(t, w).Done?
    ensures Aligned(WindowStartFor(t, w).value, w)
  {
    hide TruncatedSeconds;
    var e := TruncatedSeconds(t.micros);
    FloorIsAligned(e, w);
    assert WindowStartFor(t, w).value / SECOND == e - e % w;
  }

  /** A timestamp lies in the window it is assigned to, except in exactly one case: its truncated
      seconds are ahead of it and begin a window. */
  lemma AssignedWindowContains(t: int, w: int)
    requires WindowStartFor(Aware(t), w).Done?
    ensures InWindow(t, WindowStartFor(Aware(t), w).value, w) <==>
            !(TruncatedSeconds(t) * SECOND > t && TruncatedSeconds(t) % w == 0)
  {
    hide TruncatedSeconds;
    TruncatedNear(t);
    var e := TruncatedSeconds(t);
    var q := e / w;
    assert e == q * w + e % w;
  }

  /** The seconds are ahead before the epoch, between two whole seconds, unless the double is the
      earlier one; and from the year 2514 on, where the double is the next one. */
  lemma SecondsAheadIff(t: int)
    ensures TruncatedSeconds(t) * SECOND > t <==>
            if t < 0 then t % SECOND != 0 && !RoundsUp(-t / SECOND, -t % SECOND)
            else RoundsUp(t / SECOND, t % SECOND)
  {
    hide RoundsUp;
    OnTheSecond(if t < 0 then -t / SECOND else t / SECOND);
  }

  /** Half a second before the epoch is assigned to the window that starts at the epoch. */
  lemma PreEpochEscapes()
    ensures WindowStartFor(Aware(-500_000), 60) == Done(0)
    ensures !InWindow(-500_000, 0, 60)
  {
    hide RoundsUp;
    NeverUpBefore2514(0, 500_000);
    assert WholeSeconds(500_000) == 0;
  }

  /** The last microsecond of a minute of the year 2514 is assigned to the next minute. */
  lemma LateMicrosecondEscapes()
    ensures var start := 17_179_869_240 * SECOND;
            WindowStartFor(Aware(start - 1), 60) == Done(start) && !InWindow(start - 1, start, 60)
  {
    var start := 17_179_869_240 * SECOND;
    var seconds := 17_179_869_239;
    assert (start - 1) / SECOND == seconds && (start - 1) % SECOND == SECOND - 1;
    TwosTo(0);
    assert TwoTo(35) == 2 * TwoTo(34) && TwoTo(18) * 2 == TwoTo(19);
    ExponentIs(seconds, 34);
    assert RoundsUp(seconds, SECOND - 1);
  }

  lemma {:induction false} ExponentIs(n: nat, e: nat)
    requires TwoTo(e) <= n < TwoTo(e + 1)
    ensures Exponent(n) == e
  {
    if e == 0 {
      assert TwoTo(1) == 2 * TwoTo(0);
    } else {
      assert TwoTo(e + 1) == 2 * TwoTo(e) && TwoTo(e) == 2 * TwoTo(e - 1);
      ExponentIs(n / 2, e - 1);
    }
  }

  /** When there is no window: the size is not positive, the timestamp has no timezone, or the start lies
      outside the years 1 to 9999. */
  lemma WindowStartRaisesIff(t: Timestamp, w: int)
    ensures WindowStartFor(t, w) == Raised(ArgumentError) <==> w <= 0
    ensures w > 0 ==>
              (WindowStartFor(t, w) == Raised(DataError) <==>
                 || t.Naive?
                 || var start := TruncatedSeconds(t.micros) - TruncatedSeconds(t.micros) % w;
                    start < -62_135_596_800 || start >= 253_402_300_800)
  {
    hide TruncatedSeconds;
    CalendarLimits();
  }

  /** No two windows of the grid share an instant. */
  lemma OneWindow(t: int, w: int, s: int, s': int)
    requires w > 0 && Aligned(s, w) && Aligned(s', w) && InWindow(t, s, w) && InWindow(t, s', w)
    ensures s == s'
  {
    var e := t / SECOND;
    AlignedFloor(e, w, s / SECOND);
    AlignedFloor(e, w, s' / SECOND);
  }

  /** From the epoch to the year 2514, windows partition time: the assigned start is aligned, contains
      the timestamp, and is the only aligned start that does. */
  lemma WindowsPartitionTime(t: int, w: int, s: int)
    requires 0 <= t < EXACT_LIMIT && w > 0 && Aligned(s, w)
    ensures WindowStartFor(Aware(t), w).Done?
    ensures Aligned(WindowStartFor(Aware(t), w).value, w)
    ensures 0 <= WindowStartFor(Aware(t), w).value
    ensures InWindow(t, s, w) <==> WindowStartFor(Aware(t), w).value == s
  {
    hide TruncatedSeconds;
    TruncatedNear(t);
    var e := t / SECOND;
    FloorIsAligned(e, w);
    var start := (e - e % w) * SECOND;
    assert 0 <= e - e % w <= e by {
      if w > e { QuotientIs(e, w, 0, e); }
      else { assert e / w * w >= 0; }
    }
    assert start / SECOND == e - e % w;
    AlignedFloor(e, w, s / SECOND);
    assert InWindow(t, s, w) <==> s / SECOND <= e < s / SECOND + w;
  }

  /** Later timestamps are never assigned to earlier windows. */
  lemma WindowStartMonotone(t: int, u: int, w: int)
    requires t <= u && WindowStartFor(Aware(t), w).Done? && WindowStartFor(Aware(u), w).Done?
    ensures WindowStartFor(Aware(t), w).value <= WindowStartFor(Aware(u), w).value
  {
    hide TruncatedSeconds;
    TruncatedMonotone(t, u);
    FloorMonotone(TruncatedSeconds(t), TruncatedSeconds(u), w);
  }

  /** The bounds of a timestamp's window: half open, of the configured size, aligned, and around the
      timestamp exactly unless its truncated seconds are ahead of it and begin a window. */
  lemma BoundsAreTheWindow(t: int, w: int)
    requires WindowBoundsFor(Aware(t), w).Done?
    ensures var (start, end) := WindowBoundsFor(Aware(t), w).value;
            && w > 0 && end - start == w * SECOND && Aligned(start, w) && Aligned(end, w)
            && (start <= t < end <==> !(TruncatedSeconds(t) * SECOND > t && TruncatedSeconds(t) % w == 0))
  {
    hide TruncatedSeconds;
    AssignedWindowContains(t, w);
    StartIsAligned(Aware(t), w);
    var start := WindowStartFor(Aware(t), w).value;
    NextIsAligned(start, w);
  }

  lemma NextIsAligned(start: int, w: int)
    requires w > 0 && Aligned(start, w)
    ensures Aligned(start + w * SECOND, w)
  {
    assert (start + w * SECOND) / SECOND == start / SECOND + w;
    var n := start / SECOND;
    assert n + w == (n / w + 1) * w + 0;
    QuotientIs(n + w, w, n / w + 1, 0);
  }

  lemma FloorMonotone(d: int, e: int, w: int)
    requires d <= e && w > 0
    ensures d - d % w <= e - e % w
  {
    FloorIsAligned(d, w);
    FloorIsAligned(e, w);
    var i, j := d / w, e / w;
    assert d == i * w + d % w && e == j * w + e % w;
    if i > j {
      assert (i - j) * w >= w by { AtLeastOne(i - j, w); }
    } else {
      assert (j - i) * w >= 0;
    }
  }

  /** Windows nest: when the size `w` divides `k * w`, the coarse window of a timestamp is the
      coarse window of the start of its fine window, in every year. */
  lemma WindowsNest(t: int, w: int, k: int)
    requires w > 0 && k > 0
    requires WindowStartFor(Aware(t), w).Done? && WindowStartFor(Aware(t), k * w).Done?
    ensures k * w > 0
    ensures WindowStartFor(Aware(WindowStartFor(Aware(t), w).value), k * w) == WindowStartFor(Aware(t), k * w)
  {
    hide TruncatedSeconds;
    assert k * w > 0;
    var e := TruncatedSeconds(t);
    var fine, coarse := e - e % w, e - e % (k * w);
    assert WindowStartFor(Aware(t), w).value == fine * SECOND;
    assert WindowStartFor(Aware(t), k * w).value == coarse * SECOND;
    TruncatedNear(fine * SECOND);
    assert fine * SECOND / SECOND == fine && fine * SECOND % SECOND == 0;
    FloorIsAligned(e, k * w);
    StartIsAligned(Aware(t), k * w);
    assert coarse * SECOND / SECOND == coarse && coarse * SECOND % SECOND == 0;
    CoarseIsFine(coarse * SECOND, w, k);
    FloorMonotone(coarse, e, w);
    assert coarse - coarse % w == coarse;
    AlignedFloor(fine, k * w, coarse);
  }

  lemma CoarseIsFine(s: int, w: int, k: int)
    requires w > 0 && k > 0 && k * w > 0 && Aligned(s, k * w)
    ensures Aligned(s, w)
  {
    var n := s / SECOND;
    var q := n / (k * w);
    assert n == q * (k * w) == (q * k) * w;
    QuotientIs(n, w, q * k, 0);
  }
}
