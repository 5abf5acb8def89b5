/** The average price in the 28-digit context: the quotient is rounded half even to 28 significant
    digits first, and quantized half up to the stored scale then. */
module TwoRoundings {
  import opened Events
  import opened Rounding
  import opened DecimalContext

  function RoundEven(x: real, t: real): real
    requires t > 0.0
  {
    NearestEven(Times(x, t)) as real / t
  }

  /** `x` rounded to the digits that the unit `10 ** -s` leaves: 28 of them when
      `10 ** 27 <= x * 10 ** s < 10 ** 28`. */
  function Significant(x: real, s: nat): real { RoundEven(x, Unit(s)) }

  /** The quotient is rounded to 28 significant digits first, and quantized then. */
  function ContextVwap(mean: real, s: nat, scale: nat): real { Quantize(Significant(mean, s), scale) }

  lemma RoundEvenIsMultiple(x: real, t: real)
    requires t > 0.0
    ensures Times(RoundEven(x, t), t) == RoundEven(x, t) * t == NearestEven(Times(x, t)) as real
  {
    hide NearestEven;
    ExactQuotient(NearestEven(Times(x, t)) as real, t);
  }

  /** What the stored average is: the quotient rounded to 28 digits and quantized, or an exception. */
  function ContextQuantized(mean: real, s: nat, scale: nat): Outcome<real> {
    if Quantizable(Significant(mean, s), scale) then Done(ContextVwap(mean, s, scale)) else Raised(DataError)
  }

  // ----- Counting in units of the last place -----

  /** `x` counted in units of `10 ** -s`. */
  function Counted(x: real, s: nat): real { Times(x, Unit(s)) }

  lemma CountedOrder(x: real, y: real, s: nat)
    ensures x <= y <==> Counted(x, s) <= Counted(y, s)
  {
    hide Unit;
    Scale(x, y, Unit(s));
  }

  lemma CountedZero(s: nat)
    ensures Counted(0.0, s) == 0.0
  {
  }

  lemma CountedQuotient(y: real, s: nat)
    ensures Counted(y / Unit(s), s) == y
  {
    hide Unit;
    ExactQuotient(y, Unit(s));
  }

  lemma CountedFiner(x: real, s: nat, d: nat)
    ensures Counted(x, s + d) == Counted(x, s) * Unit(d)
  {
    hide Unit;
    UnitAdds(s, d);
    Regrouped(x, Unit(s), Unit(d), Unit(s + d));
  }

  lemma CountedSignificant(x: real, s: nat)
    ensures Counted(Significant(x, s), s) == NearestEven(Counted(x, s)) as real
  {
    hide Unit, RoundEven, NearestEven, Times;
    RoundEvenIsMultiple(x, Unit(s));
  }

  lemma CountedQuantizable(x: real, scale: nat)
    ensures Quantizable(x, scale) <==> -COEFFICIENT_LIMIT < Nearest(Counted(x, scale)) < COEFFICIENT_LIMIT
  {
    hide Unit, Nearest, Times;
  }

  lemma SameQuantized(x: real, r: real, scale: nat)
    ensures Quantize(r, scale) == Quantize(x, scale) <==> Nearest(Counted(x, scale)) == Nearest(Counted(r, scale))
  {
    hide Unit, Nearest, RoundTo, Times;
    RoundToIsMultiple(x, Unit(scale));
    RoundToIsMultiple(r, Unit(scale));
    SameMultiple(RoundTo(x, Unit(scale)), RoundTo(r, Unit(scale)), Unit(scale));
  }

  lemma SameMultiple(x: real, y: real, unit: real)
    requires unit > 0.0
    ensures x == y <==> Times(x, unit) == Times(y, unit)
  {
    Scale(x, y, unit);
    Scale(y, x, unit);
  }

  // ----- Bracket and error -----

  /** Two roundings still keep the average price between the rounded extremes, provided the extreme
      prices themselves need no more than the 28 digits. */
  lemma ContextVwapBracket(mean: real, low: real, high: real, s: nat, scale: nat, i: int, j: int)
    requires low <= mean <= high && Counted(low, s) == i as real && Counted(high, s) == j as real
    ensures Quantize(low, scale) <= ContextVwap(mean, s, scale) <= Quantize(high, scale)
  {
    hide Counted, Unit, NearestEven, Significant, RoundTo;
    var r := Significant(mean, s);
    CountedOrder(low, mean, s);
    CountedOrder(mean, high, s);
    NearestEvenBracket(i, Counted(mean, s), j);
    CountedSignificant(mean, s);
    CountedOrder(low, r, s);
    CountedOrder(r, high, s);
    RoundToMonotone(low, r, Unit(scale));
    RoundToMonotone(r, high, Unit(scale));
  }

  /** The error is half a unit of the last place, and half a unit of the 28th digit more. */
  lemma ContextVwapError(mean: real, s: nat, scale: nat)
    ensures var u, t, v := Unit(scale), Unit(s), ContextVwap(mean, s, scale);
            -(t + u) <= 2.0 * ((v * u - mean * u) * t) <= t + u
  {
    hide Unit, RoundEven, RoundTo;
    var u, t, r := Unit(scale), Unit(s), Significant(mean, s);
    FirstError(mean, t);
    SecondError(r, u);
    TwoErrors(mean, r, RoundTo(r, u) * u, u, t);
  }

  lemma FirstError(x: real, t: real)
    requires t > 0.0
    ensures -0.5 <= RoundEven(x, t) * t - x * t <= 0.5
  {
    RoundEvenIsMultiple(x, t);
    NearestEvenBounds(x * t);
  }

  lemma SecondError(x: real, u: real)
    requires u > 0.0
    ensures -0.5 <= RoundTo(x, u) * u - x * u <= 0.5
  {
    RoundToIsMultiple(x, u);
    NearestProperties(x * u);
  }

  lemma TwoErrors(mean: real, r: real, vu: real, u: real, t: real)
    requires u > 0.0 && t > 0.0
    requires -0.5 <= r * t - mean * t <= 0.5 && -0.5 <= vu - r * u <= 0.5
    ensures -(t + u) <= 2.0 * ((vu - mean * u) * t) <= t + u
  {
    Exchange(mean, r, u, t);
    AddErrors(vu - r * u, r * u - mean * u, r * t - mean * t, u, t);
  }

  lemma AddErrors(a: real, b: real, d: real, u: real, t: real)
    requires u > 0.0 && t > 0.0 && b * t == d * u
    requires -0.5 <= a <= 0.5 && -0.5 <= d <= 0.5
    ensures -(t + u) <= 2.0 * ((a + b) * t) <= t + u
  {
    HalfOf(d, u);
    HalfOf(a, t);
    assert (a + b) * t == a * t + b * t;
  }

  lemma HalfOf(d: real, u: real)
    requires u > 0.0 && -0.5 <= d <= 0.5
    ensures -u <= 2.0 * (d * u) <= u
  {
    Scale(-0.5, d, u);
    Scale(d, 0.5, u);
  }

  lemma Exchange(x: real, y: real, u: real, t: real)
    ensures (y * u - x * u) * t == (y * t - x * t) * u
  {
    assert y * u - x * u == (y - x) * u;
    assert y * t - x * t == (y - x) * t;
    Commute(y - x, u, t);
  }

  lemma Commute(z: real, u: real, t: real)
    ensures z * u * t == z * t * u
  {
  }

  // ----- With digits to spare -----

  /** Exactly half way between two whole numbers. */
  predicate HalfWay(y: real) { (y - 0.5).Floor as real == y - 0.5 }

  /** A half-way point of the coarser unit is a multiple of the finer one. */
  lemma HalfWayIsOnGrid(h: real, m: int, s: nat, scale: nat)
    requires scale < s && Counted(h, scale) == m as real + 0.5
    ensures Counted(h, s) == ((10 * m + 5) * Ten(s - scale - 1)) as real
  {
    hide Counted, Unit, Ten;
    CountedFiner(h, scale, s - scale);
    UnitIsTen(s - scale);
    TenAdds(1, s - scale - 1);
    TenOne();
    TenHalves(m, Ten(s - scale - 1));
  }

  lemma TenHalves(m: int, p: nat)
    ensures (m as real + 0.5) * (10 * p) as real == ((10 * m + 5) * p) as real
  {
    assert (10 * p) as real == 10.0 * p as real;
    assert (10 * m + 5) as real == 10.0 * m as real + 5.0;
    ProductAsReal(10 * m + 5, p);
    assert (m as real + 0.5) * (10.0 * p as real) == (10.0 * m as real + 5.0) * p as real;
  }

  lemma {:induction false} ProductAsReal(a: int, b: nat)
    ensures (a * b) as real == a as real * b as real
  {
    if b > 0 {
      ProductAsReal(a, b - 1);
      assert a * b == a * (b - 1) + a;
      assert b as real == (b - 1) as real + 1.0;
      assert a as real * ((b - 1) as real + 1.0) == a as real * (b - 1) as real + a as real;
    } else {
      assert b as real == 0.0 && a * b == 0;
    }
  }

  /** The first rounding never carries a value across a multiple of its unit. */
  lemma SignificantKeepsSide(mean: real, h: real, s: nat, k: int)
    requires Counted(h, s) == k as real
    ensures mean <= h ==> Significant(mean, s) <= h
    ensures mean >= h ==> Significant(mean, s) >= h
  {
    hide Counted, NearestEven, Significant;
    var y := Counted(mean, s);
    CountedSignificant(mean, s);
    CountedOrder(mean, h, s);
    CountedOrder(h, mean, s);
    CountedOrder(Significant(mean, s), h, s);
    CountedOrder(h, Significant(mean, s), s);
    if y <= k as real {
      NearestEvenBracket(y.Floor, y, k);
    }
    if y >= k as real {
      NearestEvenBracket(k, y, y.Floor + 1);
    }
  }

  /** The same, for a half-way point `m + 0.5` of the coarser unit. */
  lemma KeepsSideOfHalf(mean: real, s: nat, scale: nat, m: int)
    requires scale < s
    ensures var y, z := Counted(mean, scale), Counted(Significant(mean, s), scale);
            (y <= m as real + 0.5 ==> z <= m as real + 0.5) && (y >= m as real + 0.5 ==> z >= m as real + 0.5)
  {
    hide Counted, Unit, Significant;
    var r, h := Significant(mean, s), (m as real + 0.5) / Unit(scale);
    CountedQuotient(m as real + 0.5, scale);
    HalfWayIsOnGrid(h, m, s, scale);
    SignificantKeepsSide(mean, h, s, (10 * m + 5) * Ten(s - scale - 1));
    CountedOrder(mean, h, scale);
    CountedOrder(h, mean, scale);
    CountedOrder(r, h, scale);
    CountedOrder(h, r, scale);
  }

  lemma SameNearestIff(y: real, z: real)
    requires y >= 0.0 && z >= 0.0
    requires y <= (Nearest(z) - 1) as real + 0.5 ==> z <= (Nearest(z) - 1) as real + 0.5
    requires y >= (Nearest(y) - 1) as real + 0.5 ==> z >= (Nearest(y) - 1) as real + 0.5
    ensures Nearest(y) == Nearest(z) <==> !(y < z && HalfWay(z))
  {
    hide Nearest;
    var m, n := Nearest(y), Nearest(z);
    NearestProperties(y);
    NearestProperties(z);
    assert (m - 1) as real == m as real - 1.0 && (n - 1) as real == n as real - 1.0;
    assert m <= n;
    if m < n {
      assert z == (n - 1) as real + 0.5;
    } else if HalfWay(z) {
      assert (z - 0.5).Floor == n - 1;
    }
  }

  /** With digits to spare two roundings do what one would, except exactly when the first one lifts the
      mean onto a half-way point of the second. */
  lemma TwoRoundingsAgreeIff(mean: real, s: nat, scale: nat)
    requires mean >= 0.0 && scale < s
    ensures ContextVwap(mean, s, scale) == Quantize(mean, scale) <==> !RoundsTwiceAt(mean, s, scale)
  {
    hide Counted, Significant, Nearest, HalfWay, Quantize;
    var r := Significant(mean, s);
    var y, z := Counted(mean, scale), Counted(r, scale);
    CountedZero(s);
    CountedZero(scale);
    SignificantKeepsSide(mean, 0.0, s, 0);
    CountedOrder(0.0, mean, scale);
    CountedOrder(0.0, r, scale);
    KeepsSideOfHalf(mean, s, scale, Nearest(z) - 1);
    KeepsSideOfHalf(mean, s, scale, Nearest(y) - 1);
    SameNearestIff(y, z);
    CountedOrder(r, mean, scale);
    SameQuantized(mean, r, scale);
  }

  // ----- With none, or too few -----

  /** Rounding to the unit `10 ** -s` is rounding to 28 significant digits. */
  predicate Normal(mean: real, s: nat) {
    SMALLEST as real <= Counted(mean, s) < COEFFICIENT_LIMIT as real
  }

  /** The two roundings do not do what one would. With digits to spare, the first lifts the mean onto a
      half-way point of the second; with none, the mean is half way and the first rounds it down. */
  predicate RoundsTwiceAt(mean: real, s: nat, scale: nat) {
    if s > scale then mean < Significant(mean, s) && HalfWay(Counted(Significant(mean, s), scale))
    else s == scale && HalfWay(Counted(mean, scale)) && Counted(mean, scale).Floor % 2 == 0
  }

  lemma FloorIs(y: real, f: int)
    requires f as real <= y < f as real + 1.0
    ensures y.Floor == f
  {
  }

  lemma EvenOrUp(y: real)
    requires y >= 0.0
    ensures NearestEven(y) == Nearest(y) <==> !(HalfWay(y) && y.Floor % 2 == 0)
  {
    var f := y.Floor;
    if y - f as real < 0.5 {
      FloorIs(y + 0.5, f);
    } else {
      FloorIs(y + 0.5, f + 1);
    }
    if HalfWay(y) {
      assert y - 0.5 == (y - 0.5).Floor as real;
      FloorIs(y, (y - 0.5).Floor);
    }
    if y - f as real == 0.5 {
      FloorIs(y - 0.5, f);
    }
  }

  lemma NearestOfWhole(n: nat)
    ensures Nearest(n as real) == n
  {
  }

  lemma NearestNear(y: real)
    requires y >= 0.0
    ensures y.Floor <= Nearest(y) <= y.Floor + 1
  {
  }

  /** With no digits to spare only the first rounding counts: a tie goes to the even neighbour. */
  lemma AtStoredScaleIff(mean: real, scale: nat)
    requires mean >= 0.0
    ensures ContextVwap(mean, scale, scale) == Quantize(mean, scale) <==> !RoundsTwiceAt(mean, scale, scale)
    ensures Nearest(Counted(Significant(mean, scale), scale)) == NearestEven(Counted(mean, scale))
  {
    hide Counted, NearestEven, Significant, Nearest, HalfWay, Quantize;
    var y := Counted(mean, scale);
    CountedZero(scale);
    CountedOrder(0.0, mean, scale);
    CountedSignificant(mean, scale);
    NearestEvenBracket(0, y, y.Floor + 1);
    NearestOfWhole(NearestEven(y));
    SameQuantized(mean, Significant(mean, scale), scale);
    EvenOrUp(y);
  }

  lemma LargeUnit(n: nat)
    requires n >= 1
    ensures Unit(n) >= 10.0
  {
  }

  lemma AtLimit(y: real)
    ensures y >= COEFFICIENT_LIMIT as real ==> Nearest(y) >= COEFFICIENT_LIMIT
    ensures 0.0 <= y <= SMALLEST as real ==> 0 <= Nearest(y) <= SMALLEST
  {
    hide Nearest;
    NearestOfWhole(COEFFICIENT_LIMIT);
    NearestOfWhole(SMALLEST);
    NearestOfWhole(0);
    if y >= COEFFICIENT_LIMIT as real {
      NearestMonotone(COEFFICIENT_LIMIT as real, y);
    }
    if 0.0 <= y <= SMALLEST as real {
      NearestMonotone(0.0, y);
      NearestMonotone(y, SMALLEST as real);
    }
  }

  lemma TenTimes(x: real, d: real, xd: real)
    requires d >= 10.0 && xd == x * d
    ensures x >= SMALLEST as real ==> xd >= COEFFICIENT_LIMIT as real
    ensures x > SMALLEST as real ==> xd > COEFFICIENT_LIMIT as real
  {
    if x >= SMALLEST as real {
      Scale(10.0, d, x);
      assert x * 10.0 <= x * d;
    }
  }

  lemma SignificantBetween(mean: real, s: nat)
    requires Normal(mean, s)
    ensures mean > 0.0 && Significant(mean, s) > 0.0
    ensures SMALLEST as real <= Counted(Significant(mean, s), s) <= COEFFICIENT_LIMIT as real
  {
    hide Counted, NearestEven, Significant;
    CountedZero(s);
    CountedOrder(mean, 0.0, s);
    CountedOrder(Significant(mean, s), 0.0, s);
    CountedSignificant(mean, s);
    NearestEvenBracket(SMALLEST, Counted(mean, s), COEFFICIENT_LIMIT);
  }

  /** With fewer digits than the stored scale asks for, the quantization raises, as it would have done
      on the exact mean. */
  lemma CoarserRaises(mean: real, s: nat, scale: nat)
    requires Normal(mean, s) && s < scale
    ensures !Quantizable(mean, scale) && !Quantizable(Significant(mean, s), scale)
  {
    hide Counted, Unit, Significant, Nearest, Quantizable;
    SignificantBetween(mean, s);
    TooFine(mean, s, scale);
    TooFine(Significant(mean, s), s, scale);
  }

  lemma TooFine(x: real, s: nat, scale: nat)
    requires Counted(x, s) >= SMALLEST as real && s < scale
    ensures !Quantizable(x, scale)
  {
    hide Counted, Unit, Nearest, Quantizable;
    CountedFiner(x, s, scale - s);
    LargeUnit(scale - s);
    TenTimes(Counted(x, s), Unit(scale - s), Counted(x, scale));
    AtLimit(Counted(x, scale));
    CountedQuantizable(x, scale);
  }

  /** With digits to spare it never raises. */
  lemma FinerFits(mean: real, s: nat, scale: nat)
    requires Normal(mean, s) && s > scale
    ensures Quantizable(mean, scale) && Quantizable(Significant(mean, s), scale)
  {
    hide Counted, Unit, Significant, Nearest, Quantizable;
    SignificantBetween(mean, s);
    FineEnough(mean, s, scale);
    FineEnough(Significant(mean, s), s, scale);
  }

  lemma FineEnough(x: real, s: nat, scale: nat)
    requires x >= 0.0 && Counted(x, s) <= COEFFICIENT_LIMIT as real && s > scale
    ensures Quantizable(x, scale)
  {
    hide Counted, Unit, Nearest, Quantizable;
    CountedZero(scale);
    CountedOrder(0.0, x, scale);
    CountedFiner(x, scale, s - scale);
    LargeUnit(s - scale);
    TenTimes(Counted(x, scale), Unit(s - scale), Counted(x, s));
    AtLimit(Counted(x, scale));
    CountedQuantizable(x, scale);
  }

  /** A number of `10 ** 28` or more fits at no scale. */
  lemma HugeRaises(x: real, scale: nat)
    requires x >= COEFFICIENT_LIMIT as real
    ensures !Quantizable(x, scale)
  {
    hide Unit, Nearest;
    Scale(1.0, Unit(scale), x);
    AtLimit(Counted(x, scale));
    CountedQuantizable(x, scale);
  }

  /** Half a unit below the limit both roundings reach it. */
  lemma LimitIsEven(y: real)
    requires 0.0 <= y < COEFFICIENT_LIMIT as real
    ensures NearestEven(y) < COEFFICIENT_LIMIT <==> Nearest(y) < COEFFICIENT_LIMIT
    ensures HalfWay(y) && y.Floor % 2 == 0 ==> Nearest(y) < COEFFICIENT_LIMIT
  {
    hide Nearest, NearestEven, HalfWay;
    EvenOrUp(y);
    NearestNear(y);
    NearestEvenBounds(y);
  }

  lemma SameScaleFits(mean: real, scale: nat)
    requires Normal(mean, scale)
    ensures Quantizable(mean, scale) <==> Quantizable(Significant(mean, scale), scale)
    ensures RoundsTwiceAt(mean, scale, scale) ==> Quantizable(mean, scale)
  {
    hide Counted, Significant, Nearest, NearestEven, HalfWay, Quantizable;
    var y := Counted(mean, scale);
    SignificantBetween(mean, scale);
    AtStoredScaleIff(mean, scale);
    LimitIsEven(y);
    NearestNear(y);
    NearestEvenBounds(y);
    CountedQuantizable(mean, scale);
    CountedQuantizable(Significant(mean, scale), scale);
  }

  /** What is stored, exceptions included, is what one exact rounding would store, exactly unless the
      mean is rounded twice. In particular the exception is raised for the same means. */
  lemma ContextQuantizedIff(mean: real, s: nat, scale: nat)
    requires Normal(mean, s)
    ensures Quantizable(Significant(mean, s), scale) <==> Quantizable(mean, scale)
    ensures ContextQuantized(mean, s, scale) == Quantized(mean, scale) <==> !RoundsTwiceAt(mean, s, scale)
  {
    hide Counted, Significant, Quantizable, HalfWay, Quantize;
    SignificantBetween(mean, s);
    if s < scale {
      CoarserRaises(mean, s, scale);
    } else if s == scale {
      SameScaleFits(mean, scale);
      AtStoredScaleIff(mean, scale);
    } else {
      FinerFits(mean, s, scale);
      TwoRoundingsAgreeIff(mean, s, scale);
    }
  }

  // ----- Without naming the place -----

  lemma CountedTenfold(x: real, s: nat)
    ensures Counted(10.0 * x, s) == 10.0 * Counted(x, s) == Counted(x, s + 1)
  {
    TimesUnit(x, s + 1);
    TenfoldTimes(x, Unit(s));
  }

  lemma TenfoldTimes(x: real, u: real)
    ensures 10.0 * x * u == 10.0 * (x * u)
  {
  }

  /** Every magnitude that fits has a place for its 28th digit. */
  lemma {:induction false} PlaceOf(x: real) returns (s: nat)
    requires 0.0 < x < COEFFICIENT_LIMIT as real
    ensures Normal(x, s)
    decreases Distance(x)
  {
    hide Distance, Counted;
    if x >= SMALLEST as real {
      s := 0;
      CountedAtZero(x);
    } else {
      TenfoldIsCloser(x);
      var r := PlaceOf(10.0 * x);
      CountedTenfold(x, r);
      s := r + 1;
    }
  }

  lemma CountedAtZero(x: real)
    ensures Counted(x, 0) == x
  {
  }

  /** The context's rounding is that to the unit of the 28th digit. */
  lemma RoundedIsSignificant(x: real, s: nat)
    requires Normal(x, s)
    ensures Rounded(x) == Significant(x, s)
  {
    hide Unit, Rounded, NearestEven, Times, Significant;
    SignificantBetween(x, s);
    RoundedShift(x, s);
    RoundedInRange(Times(x, Unit(s)));
    CountedSignificant(x, s);
    SameMultiple(Rounded(x), Significant(x, s), Unit(s));
  }

  lemma RoundedInRange(y: real)
    requires SMALLEST as real <= y < COEFFICIENT_LIMIT as real
    ensures Rounded(y) == NearestEven(y) as real
  {
  }

  /** The stored average is not the exact mean quantized: the context lifts the mean onto a half-way
      point, or takes it down from one. */
  predicate RoundsTwice(mean: real, scale: nat) {
    var r := Rounded(mean);
    (mean < r && HalfWay(Counted(r, scale))) || (r < mean && HalfWay(Counted(mean, scale)))
  }

  lemma HalfWayIsKept(mean: real, s: nat, scale: nat)
    requires Normal(mean, s) && scale < s && HalfWay(Counted(mean, scale))
    ensures Rounded(mean) == mean
  {
    hide Counted, Rounded, Times, Unit, Ten;
    var m := (Counted(mean, scale) - 0.5).Floor;
    HalfWayIsOnGrid(mean, m, s, scale);
    var n := (10 * m + 5) * Ten(s - scale - 1);
    ShortIsKept(mean, s, n) by { assert Times(mean, Unit(s)) == n as real by { CountedIsTimes(mean, s); } }
  }

  lemma CountedIsTimes(x: real, s: nat)
    ensures Counted(x, s) == Times(x, Unit(s))
  {
  }

  lemma WholeIsNotHalfWay(n: int)
    ensures !HalfWay(n as real)
  {
    FloorIs(n as real - 0.5, n - 1);
  }

  lemma HalfGoesDownIff(y: real)
    requires y >= 0.0 && HalfWay(y)
    ensures (NearestEven(y) as real) < y <==> y.Floor % 2 == 0
  {
    FloorIs(y, (y - 0.5).Floor);
  }

  lemma SameTwice(mean: real, s: nat, scale: nat)
    requires Normal(mean, s) && scale <= s
    ensures RoundsTwice(mean, scale) <==> RoundsTwiceAt(mean, s, scale)
  {
    hide Counted, Rounded, NearestEven, HalfWay, Significant;
    RoundedIsSignificant(mean, s);
    SignificantBetween(mean, s);
    if s > scale {
      if HalfWay(Counted(mean, scale)) {
        HalfWayIsKept(mean, s, scale);
      }
    } else {
      CountedSignificant(mean, s);
      WholeIsNotHalfWay(NearestEven(Counted(mean, s)));
      CountedZero(s);
      CountedOrder(0.0, mean, s);
      CountedOrder(mean, Rounded(mean), s);
      if HalfWay(Counted(mean, s)) {
        HalfGoesDownIff(Counted(mean, s));
      }
    }
  }

  lemma StillHuge(mean: real)
    requires mean >= COEFFICIENT_LIMIT as real
    ensures Rounded(mean) >= COEFFICIENT_LIMIT as real
  {
    RoundedKeepsDecade(mean);
  }

  /** The quantization of the context's quotient raises for exactly the means for which that of the exact
      quotient would. */
  lemma RaisesAlike(mean: real, scale: nat)
    requires mean > 0.0
    ensures Quantizable(Rounded(mean), scale) <==> Quantizable(mean, scale)
  {
    hide Quantizable, Rounded, Significant, Normal;
    if mean >= COEFFICIENT_LIMIT as real {
      StillHuge(mean);
      HugeRaises(mean, scale);
      HugeRaises(Rounded(mean), scale);
    } else {
      var s := PlaceOf(mean);
      RoundedIsSignificant(mean, s);
      ContextQuantizedIff(mean, s, scale);
    }
  }

  lemma FitsBelowPlace(mean: real, scale: nat) returns (s: nat)
    requires mean > 0.0 && Quantizable(mean, scale)
    ensures Normal(mean, s) && scale <= s
  {
    hide Quantizable, Normal;
    if mean >= COEFFICIENT_LIMIT as real {
      HugeRaises(mean, scale);
      assert false;
    } else {
      s := PlaceOf(mean);
      if s < scale {
        CoarserRaises(mean, s, scale);
      }
    }
  }

  /** What is stored, exceptions included, is what one exact rounding would store, exactly unless the
      mean fits and is rounded twice. */
  lemma StoredVwapIff(mean: real, scale: nat)
    requires mean > 0.0
    ensures Quantized(Rounded(mean), scale) == Quantized(mean, scale) <==>
            !(Quantizable(mean, scale) && RoundsTwice(mean, scale))
  {
    hide Quantizable, Rounded, Significant, Normal, RoundsTwice, Quantize, RoundsTwiceAt;
    RaisesAlike(mean, scale);
    if Quantizable(mean, scale) {
      var s := FitsBelowPlace(mean, scale);
      RoundedIsSignificant(mean, s);
      SameTwice(mean, s, scale);
      ContextQuantizedIff(mean, s, scale);
    }
  }

  // ----- The half-unit bound -----

  /** At most one number is as close to the mean as that. */
  lemma RoundsMeanUnique(v: real, w: real, n: real, q: real, unit: real)
    requires q > 0.0 && unit > 0.0 && RoundsMean(v, n, q, unit) && RoundsMean(w, n, q, unit)
    ensures v == w
  {
    if v < w {
      BelowByMultiples(v, w, n, q, unit);
    } else if w < v {
      BelowByMultiples(w, v, n, q, unit);
    }
  }

  lemma BelowByMultiples(v: real, w: real, n: real, q: real, unit: real)
    requires q > 0.0 && unit > 0.0 && RoundsMean(v, n, q, unit) && RoundsMean(w, n, q, unit)
    ensures v >= w
  {
    Scale(w, v, unit);
    NotBelow(v * unit, w * unit, v * unit * q, w * unit * q, q, n * unit);
  }

  lemma NotBelow(x: real, y: real, xq: real, yq: real, q: real, c: real)
    requires q > 0.0 && x.Floor as real == x && y.Floor as real == y && xq == x * q && yq == y * q
    requires -q < 2.0 * (xq - c) && 2.0 * (yq - c) <= q
    ensures x >= y
  {
    if x < y {
      WholeGap(x.Floor, y.Floor);
      OneApart(x, y, xq, yq, q);
    }
  }

  lemma WholeGap(a: int, b: int)
    requires a as real < b as real
    ensures a as real + 1.0 <= b as real
  {
    assert a < b;
    assert b as real - a as real == (b - a) as real;
  }

  lemma OneApart(x: real, y: real, xq: real, yq: real, q: real)
    requires q > 0.0 && x + 1.0 <= y && xq == x * q && yq == y * q
    ensures yq >= xq + q
  {
    Scale(x + 1.0, y, q);
    assert (x + 1.0) * q == x * q + q;
  }

  lemma RoundsMeanIffOnce(v: real, mean: real, n: real, q: real, unit: real)
    requires n >= 0.0 && q > 0.0 && unit > 0.0 && mean * q == n
    ensures RoundsMean(v, n, q, unit) <==> v == RoundTo(mean, unit)
  {
    hide RoundsMean, RoundTo;
    RoundedMean(mean, n, q, unit);
    if RoundsMean(v, n, q, unit) {
      RoundsMeanUnique(v, RoundTo(mean, unit), n, q, unit);
    }
  }

  /** A stored average is within half a unit of the quotient of the stored totals, ties up, exactly
      when that quotient is not rounded twice. */
  lemma StoredVwapRoundsMeanIff(n: real, q: real, scale: nat)
    requires n > 0.0 && q > 0.0 && Quantizable(n / q, scale)
    ensures RoundsMean(Quantize(Rounded(n / q), scale), n, q, Unit(scale)) <==> !RoundsTwice(n / q, scale)
  {
    hide Rounded, RoundsMean, RoundsTwice, Unit, Quantizable, Quantize;
    ExactQuotient(n, q);
    PositiveQuotient(n, q);
    StoredMeanIff(n / q, n, q, scale);
  }

  lemma PositiveQuotient(n: real, q: real)
    requires n > 0.0 && q > 0.0
    ensures n / q > 0.0
  {
    ExactQuotient(n, q);
    Scale(n / q, 0.0, q);
  }

  lemma StoredMeanIff(mean: real, n: real, q: real, scale: nat)
    requires n > 0.0 && q > 0.0 && mean * q == n && mean > 0.0 && Quantizable(mean, scale)
    ensures RoundsMean(Quantize(Rounded(mean), scale), n, q, Unit(scale)) <==> !RoundsTwice(mean, scale)
  {
    hide Unit, Rounded, RoundsMean, RoundTo, RoundsTwice, Quantizable;
    RaisesAlike(mean, scale);
    StoredVwapIff(mean, scale);
    RoundsMeanIffOnce(Quantize(Rounded(mean), scale), mean, n, q, Unit(scale));
  }

  /** Half a unit alone is not the bound: a mean just below a half rounds up to it in the first
      rounding, and away from zero in the second. */
  lemma TwoRoundingsMissTheBound()
    ensures var n, q := 49_999_999_999_999_999_999_999_999_996.0, 100_000_000_000_000_000_000_000_000_000.0;
            && Quantize(Rounded(n / q), 0) == 1.0
            && !RoundsMean(Quantize(Rounded(n / q), 0), n, q, Unit(0))
            && RoundsMean(Quantize(n / q, 0), n, q, Unit(0))
  {
    var n, q := 49_999_999_999_999_999_999_999_999_996.0, 100_000_000_000_000_000_000_000_000_000.0;
    UnitValues();
    assert Counted(n / q, 28) == 4_999_999_999_999_999_999_999_999_999.6;
    assert NearestEven(4_999_999_999_999_999_999_999_999_999.6) == 5_000_000_000_000_000_000_000_000_000;
    RoundedIsSignificant(n / q, 28);
    assert Significant(n / q, 28) == 0.5;
    assert Quantize(0.5, 0) == 1.0;
    assert Quantize(n / q, 0) == 0.0;
  }

  /** The second way to miss it: 28 digits that end at the stored place, and a tie that goes down to
      the even neighbour. Two trades of one unit, at 10000 and at one unit of the last place more. */
  lemma TieGoesToEven()
    ensures var n, q := 20_000.00000_00000_00000_00000_001, 2.0;
            && Quantizable(n / q, 23) && RoundsTwice(n / q, 23)
            && Quantize(Rounded(n / q), 23) == 10_000.0
            && !RoundsMean(Quantize(Rounded(n / q), 23), n, q, Unit(23))
  {
    var n, q := 20_000.00000_00000_00000_00000_001, 2.0;
    UnitOf23();
    var y := Counted(n / q, 23);
    assert y == 1_000_000_000_000_000_000_000_000_000.5;
    assert NearestEven(y) == 1_000_000_000_000_000_000_000_000_000;
    RoundedIsSignificant(n / q, 23);
    assert Significant(n / q, 23) == 10_000.0;
    assert Quantize(10_000.0, 23) == 10_000.0;
    HalfOfWhole(1_000_000_000_000_000_000_000_000_000);
    assert Nearest(y) == 1_000_000_000_000_000_000_000_000_001;
    StoredVwapRoundsMeanIff(n, q, 23);
  }

  lemma HalfOfWhole(n: nat)
    ensures HalfWay(n as real + 0.5)
  {
  }

  lemma {:induction false} UnitIsTen(n: nat)
    ensures Unit(n) == Ten(n) as real
  {
    if n > 0 {
      UnitIsTen(n - 1);
    }
  }

  lemma UnitValues()
    ensures Unit(0) == 1.0 && Unit(28) == 10_000_000_000_000_000_000_000_000_000.0
  {
    BigTens();
    UnitIsTen(28);
  }

  lemma UnitOf23()
    ensures Unit(23) == 100_000_000_000_000_000_000_000.0
  {
    UnitIsTen(23);
    TenOf23();
  }

  lemma TenOf23()
    ensures Ten(23) == 100_000_000_000_000_000_000_000
  {
    hide Ten;
    BigTens();
    TenAdds(2, 2);
    TenAdds(4, 1);
    TenAdds(23, 5);
    TenOne();
  }

  // ----- The two descriptions of the context's rounding agree -----

  /** Half even on naturals is the nearest even integer of the real quotient. */
  lemma HalfEvenIsNearestEven(n: nat, d: nat)
    requires d > 0
    ensures NearestEven(n as real / d as real) == HalfEven(n, d)
  {
    var q, r, y := n / d, n % d, n as real / d as real;
    assert n == q * d + r;
    ProductAsReal(q, d);
    ExactQuotient(n as real, d as real);
    QuotientParts(y, q as real, r as real, d as real);
    FloorIs(y, q);
  }

  lemma QuotientParts(y: real, q: real, r: real, d: real)
    requires d > 0.0 && y * d == q * d + r && 0.0 <= r < d
    ensures q <= y < q + 1.0
    ensures y - q > 0.5 <==> 2.0 * r > d
    ensures y - q == 0.5 <==> 2.0 * r == d
  {
    RealDifference(y, q, d);
    PartOf(y - q, r, d);
  }

  lemma RealDifference(y: real, q: real, d: real)
    ensures (y - q) * d == y * d - q * d
  {
  }

  lemma PartOf(z: real, r: real, d: real)
    requires d > 0.0 && z * d == r && 0.0 <= r < d
    ensures 0.0 <= z < 1.0
    ensures z > 0.5 <==> 2.0 * r > d
    ensures z == 0.5 <==> 2.0 * r == d
  {
    Scale(0.0, z, d);
    Scale(1.0, z, d);
    HalfScale(z, r, d);
  }

  lemma HalfScale(z: real, r: real, d: real)
    requires d > 0.0 && z * d == r
    ensures z <= 0.5 <==> 2.0 * r <= d
    ensures z >= 0.5 <==> 2.0 * r >= d
  {
    if z <= 0.5 {
      assert (0.5 - z) * d >= 0.0;
      RealDifference(0.5, z, d);
    }
    if z >= 0.5 {
      assert (z - 0.5) * d >= 0.0;
      RealDifference(z, 0.5, d);
    }
    if z < 0.5 {
      assert (0.5 - z) * d > 0.0;
      RealDifference(0.5, z, d);
    }
    if z > 0.5 {
      assert (z - 0.5) * d > 0.0;
      RealDifference(z, 0.5, d);
    }
  }

  /** The context's quotient: when the exact one is `n / d` units of `10 ** -s`, its coefficient is the
      half-even integer quotient, and that is the mean rounded to `10 ** -s`. */
  lemma QuotientIsSignificant(mean: real, s: nat, n: nat, d: nat)
    requires d > 0 && Counted(mean, s) == n as real / d as real
    ensures Counted(Significant(mean, s), s) == HalfEven(n, d) as real
  {
    hide Counted, NearestEven, HalfEven, Significant;
    CountedSignificant(mean, s);
    HalfEvenIsNearestEven(n, d);
  }

  /** ... and so it is what the context makes of the mean. */
  lemma QuotientIsRounded(mean: real, s: nat, n: nat, d: nat)
    requires d > 0 && Normal(mean, s) && Counted(mean, s) == n as real / d as real
    ensures Counted(Rounded(mean), s) == HalfEven(n, d) as real
  {
    hide Counted, HalfEven, Significant, Rounded;
    QuotientIsSignificant(mean, s, n, d);
    RoundedIsSignificant(mean, s);
  }

  /** The context's rounding of a long number is that number rounded to the unit of its 28th digit. */
  lemma FixIsSignificant(c: Dec, x: real)
    requires Digits(c.coef) > PRECISION && c.exp + Digits(c.coef) - PRECISION <= 0
    requires Counted(x, -c.exp) == c.coef as real
    ensures var s := -(c.exp + Digits(c.coef) - PRECISION);
            && Normal(x, s) && Fix(c).exp + s >= 0
            && Counted(Significant(x, s), s) == Units(Fix(c), s) as real
  {
    hide Ten, Digits, HalfEven, Significant, Counted, Unit;
    var drop := Digits(c.coef) - PRECISION;
    var s, n, d := -(c.exp + drop), c.coef, Ten(drop);
    DroppedDigits(x, s, n, drop);
    LongIsNormal(Counted(x, s), n, drop);
    QuotientIsSignificant(x, s, n, d);
    FixedUnits(c, s, drop);
  }

  lemma FixedUnits(c: Dec, s: nat, drop: nat)
    requires Digits(c.coef) > PRECISION && drop == Digits(c.coef) - PRECISION && s == -(c.exp + drop)
    ensures Fix(c).exp + s >= 0 && Units(Fix(c), s) == HalfEven(c.coef, Ten(drop))
  {
    hide Ten, Digits, HalfEven;
    TenOne();
    TenAdds(PRECISION - 1, 1);
    var q := HalfEven(c.coef, Ten(drop));
    assert q * 1 == q;
  }

  lemma DroppedDigits(x: real, s: nat, n: nat, drop: nat)
    requires Counted(x, s + drop) == n as real
    ensures Counted(x, s) == n as real / Ten(drop) as real
    ensures Counted(x, s) * Ten(drop) as real == n as real
  {
    hide Counted, Unit, Ten;
    CountedFiner(x, s, drop);
    UnitIsTen(drop);
    QuotientUnique(Counted(x, s), n as real, Ten(drop) as real);
  }

  lemma QuotientUnique(x: real, n: real, d: real)
    requires d > 0.0 && x * d == n
    ensures x == n / d
  {
    ExactQuotient(n, d);
    Scale(x, n / d, d);
    Scale(n / d, x, d);
  }

  lemma Between(y: real, low: real, high: real, d: real, n: real)
    requires d > 0.0 && y * d == n && low * d <= n < high * d
    ensures low <= y < high
  {
    Scale(low, y, d);
    Scale(high, y, d);
  }

  lemma AsReal(a: int, d: nat, n: int)
    ensures a * d <= n <==> a as real * d as real <= n as real
  {
    ProductAsReal(a, d);
    assert (a * d) as real <= n as real <==> a * d <= n;
  }

  lemma LongIsNormal(y: real, n: nat, drop: nat)
    requires drop > 0 && Digits(n) == PRECISION + drop && y * Ten(drop) as real == n as real
    ensures SMALLEST as real <= y < COEFFICIENT_LIMIT as real
  {
    hide Ten, Digits;
    var d := Ten(drop);
    LongCoefficientBounds(n, drop);
    AsReal(SMALLEST, d, n);
    AsReal(COEFFICIENT_LIMIT, d, n);
    Between(y, SMALLEST as real, COEFFICIENT_LIMIT as real, d as real, n as real);
  }

  lemma LongCoefficientBounds(n: nat, drop: nat)
    requires drop > 0 && Digits(n) == PRECISION + drop
    ensures SMALLEST * Ten(drop) <= n < COEFFICIENT_LIMIT * Ten(drop)
  {
    hide Ten, Digits;
    DigitsBound(n);
    FewDigits(n, PRECISION);
    TenAdds(PRECISION, drop);
    TenAdds(PRECISION - 1, drop);
    BigTens();
    TenAdds(27, 1);
    TenOne();
    assert Ten(27) == SMALLEST && Ten(28) == COEFFICIENT_LIMIT;
  }
}
