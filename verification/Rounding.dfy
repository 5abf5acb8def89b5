/** Decimal rounding: `quantize`, half up and with its exception, and the context's rounding of every
    result to 28 significant digits, half even. */
module Rounding {
  import opened Events

  /** `10 ** n`. */
  function Unit(n: nat): (u: real)
    ensures u >= 1.0
  {
    if n == 0 then 1.0 else 10.0 * Unit(n - 1)
  }

  /** The nearest integer; a tie goes away from zero. */
  function Nearest(y: real): int {
    if y >= 0.0 then (y + 0.5).Floor else -(0.5 - y).Floor
  }

  /** `x` counted in units of `1 / unit`. */
  function Times(x: real, unit: real): real { x * unit }

  function RoundTo(x: real, unit: real): real
    requires unit > 0.0
  {
    Nearest(Times(x, unit)) as real / unit
  }

  /** `quantize` to `scale` decimal places with `ROUND_HALF_UP`. */
  function Quantize(x: real, scale: nat): real { RoundTo(x, Unit(scale)) }

  /** The context holds 28 digits: a coefficient of `10 ** 28` does not fit. */
  const COEFFICIENT_LIMIT: int := 10_000_000_000_000_000_000_000_000_000

  /** The result of `quantize` needs at most 28 digits; otherwise it raises `InvalidOperation`. */
  predicate Quantizable(x: real, scale: nat) {
    -COEFFICIENT_LIMIT < Nearest(Times(x, Unit(scale))) < COEFFICIENT_LIMIT
  }

  function Quantized(x: real, scale: nat): Outcome<real> {
    if Quantizable(x, scale) then Done(Quantize(x, scale)) else Raised(DataError)
  }

  lemma NearestProperties(y: real)
    ensures y >= 0.0 ==> -0.5 < Nearest(y) as real - y <= 0.5
    ensures y < 0.0 ==> -0.5 <= Nearest(y) as real - y < 0.5
  {
  }

  lemma NearestMonotone(x: real, y: real)
    requires x <= y
    ensures Nearest(x) <= Nearest(y)
  {
  }

  lemma Scale(x: real, y: real, p: real)
    requires p > 0.0
    ensures x <= y <==> x * p <= y * p
  {
    if x <= y {
      assert (y - x) * p >= 0.0;
    } else {
      assert (x - y) * p > 0.0;
    }
  }

  lemma DivideMonotone(x: real, y: real, p: real)
    requires p > 0.0 && x <= y
    ensures x / p <= y / p
  {
    Scale(x / p, y / p, p);
  }

  lemma RoundToMonotone(x: real, y: real, unit: real)
    requires unit > 0.0 && x <= y
    ensures RoundTo(x, unit) <= RoundTo(y, unit)
  {
    hide Nearest;
    Scale(x, y, unit);
    NearestMonotone(Times(x, unit), Times(y, unit));
    DivideMonotone(Nearest(Times(x, unit)) as real, Nearest(Times(y, unit)) as real, unit);
  }

  lemma ExactQuotient(n: real, q: real)
    requires q > 0.0
    ensures n / q * q == n
  {
  }

  lemma RoundToIsMultiple(x: real, unit: real)
    requires unit > 0.0
    ensures Times(RoundTo(x, unit), unit) == RoundTo(x, unit) * unit == Nearest(Times(x, unit)) as real
  {
    hide Nearest;
    ExactQuotient(Nearest(Times(x, unit)) as real, unit);
  }

  /** `v` is a whole number of units of the last place, at most half a unit from the mean `n / q`;
      exactly half a unit only above it. */
  ghost predicate RoundsMean(v: real, n: real, q: real, unit: real) {
    && (v * unit).Floor as real == v * unit
    && -q < 2.0 * (v * unit * q - n * unit) <= q
  }

  /** A mean rounded half up is at most half a unit of the last place off, ties going up. */
  lemma RoundedMean(mean: real, n: real, q: real, unit: real)
    requires n >= 0.0 && q > 0.0 && unit > 0.0 && mean * q == n
    ensures RoundsMean(RoundTo(mean, unit), n, q, unit)
  {
    RoundToIsMultiple(mean, unit);
    NearestRoundsMean(RoundTo(mean, unit), mean, n, q, unit, Times(mean, unit));
  }

  lemma NearestRoundsMean(v: real, mean: real, n: real, q: real, unit: real, y: real)
    requires n >= 0.0 && q > 0.0 && unit > 0.0
    requires mean * q == n && y == mean * unit && v * unit == Nearest(y) as real
    ensures RoundsMean(v, n, q, unit)
  {
    Scale(0.0, mean, q);
    Scale(0.0, mean, unit);
    NearestProperties(y);
    var k := Nearest(y) as real;
    HalfBounds(k - y, q);
    Regroup(mean, unit, q, n, y);
    assert (k - y) * q == k * q - y * q;
    assert (v * unit).Floor as real == v * unit;
  }

  lemma Regroup(mean: real, unit: real, q: real, n: real, y: real)
    requires mean * q == n && y == mean * unit
    ensures y * q == n * unit
  {
    assert mean * unit * q == mean * q * unit;
  }

  lemma HalfBounds(d: real, q: real)
    requires -0.5 < d <= 0.5 && q > 0.0
    ensures -q < 2.0 * (d * q) <= q
  {
    Scale(d, 0.5, q);
    Scale(d, -0.5, q);
  }

  lemma {:induction false} UnitAdds(m: nat, n: nat)
    ensures Unit(m + n) == Unit(m) * Unit(n)
  {
    if m > 0 {
      UnitAdds(m - 1, n);
      assert Unit(m + n) == 10.0 * Unit(m - 1 + n);
      assert 10.0 * (Unit(m - 1) * Unit(n)) == 10.0 * Unit(m - 1) * Unit(n);
    }
  }

  lemma Regrouped(x: real, t: real, d: real, u: real)
    requires u == t * d
    ensures x * u == x * t * d
  {
  }

  lemma QuotientBounds(n: real, q: real, low: real, high: real)
    requires q > 0.0 && low * q <= n <= high * q
    ensures low <= n / q <= high
  {
    ExactQuotient(n, q);
    Scale(low, n / q, q);
    Scale(n / q, high, q);
  }

  // ----- The context -----

  /** The nearest integer, a tie to the even one. */
  function NearestEven(y: real): int {
    var f := y.Floor;
    var rest := y - f as real;
    if rest > 0.5 || (rest == 0.5 && f % 2 == 1) then f + 1 else f
  }

  lemma NearestEvenBounds(y: real)
    ensures -0.5 <= NearestEven(y) as real - y <= 0.5
    ensures y.Floor <= NearestEven(y) <= y.Floor + 1
    ensures y.Floor as real == y ==> NearestEven(y) as real == y
  {
  }

  lemma NearestEvenBracket(low: int, y: real, high: int)
    requires low as real <= y <= high as real
    ensures low <= NearestEven(y) <= high
  {
    NearestEvenBounds(y);
  }

  const SMALLEST: int := 1_000_000_000_000_000_000_000_000_000

  /** How far a magnitude is from having 28 digits before the point. */
  ghost function Distance(x: real): nat
    requires x > 0.0
  {
    if x >= COEFFICIENT_LIMIT as real then x.Floor
    else if x < SMALLEST as real then (COEFFICIENT_LIMIT as real / x).Floor else 0
  }

  lemma TenthIsCloser(x: real)
    requires x >= COEFFICIENT_LIMIT as real
    ensures Distance(x / 10.0) < Distance(x)
  {
  }

  lemma TenfoldIsCloser(x: real)
    requires 0.0 < x < SMALLEST as real
    ensures Distance(10.0 * x) < Distance(x)
  {
    var y := COEFFICIENT_LIMIT as real / x;
    ExactQuotient(COEFFICIENT_LIMIT as real, x);
    ExactQuotient(COEFFICIENT_LIMIT as real, 10.0 * x);
    Scale(10.0, y, x);
    TenthOfQuotient(COEFFICIENT_LIMIT as real, x);
    TenthFloor(y);
  }

  lemma TenthFloor(y: real)
    requires y >= 10.0
    ensures (y / 10.0).Floor < y.Floor
  {
    assert y / 10.0 <= y - 9.0;
  }

  lemma TenthOfQuotient(n: real, x: real)
    requires x > 0.0
    ensures n / (10.0 * x) == n / x / 10.0
  {
    var z, y := n / (10.0 * x), n / x;
    ExactQuotient(n, x);
    ExactQuotient(n, 10.0 * x);
    assert (10.0 * z) * x == z * (10.0 * x);
    SameFactor(10.0 * z, y, x);
  }

  lemma SameFactor(a: real, b: real, x: real)
    requires x > 0.0 && a * x == b * x
    ensures a == b
  {
    Scale(a, b, x);
    Scale(b, a, x);
  }

  /** A result of the context: 28 significant digits, the rest rounded half even. */
  function Rounded(x: real): real
    decreases if x < 0.0 then 1 else 0, if x <= 0.0 then 0 else Distance(x)
  {
    if x < 0.0 then -Rounded(-x)
    else if x == 0.0 then 0.0
    else if x >= COEFFICIENT_LIMIT as real then
      TenthIsCloser(x);
      10.0 * Rounded(x / 10.0)
    else if x < SMALLEST as real then
      TenfoldIsCloser(x);
      Rounded(10.0 * x) / 10.0
    else NearestEven(x) as real
  }

  /** Shifting the point shifts the result. */
  lemma RoundedTenfold(x: real)
    requires x >= 0.0
    ensures Rounded(10.0 * x) == 10.0 * Rounded(x)
  {
    hide NearestEven;
    assert 10.0 * x / 10.0 == x;
  }

  lemma RoundedTenth(x: real)
    requires x >= 0.0
    ensures Rounded(x / 10.0) == Rounded(x) / 10.0
  {
    hide Rounded;
    RoundedTenfold(x / 10.0);
  }

  lemma NearestEvenOfWhole(n: int)
    ensures NearestEven(n as real) == n
  {
  }

  /** Rounding never crosses a power of ten. */
  lemma {:induction false} RoundedKeepsDecade(x: real)
    requires x > 0.0
    ensures Rounded(x) > 0.0
    ensures x >= SMALLEST as real ==> Rounded(x) >= SMALLEST as real
    ensures x <= SMALLEST as real ==> Rounded(x) <= SMALLEST as real
    ensures x >= COEFFICIENT_LIMIT as real ==> Rounded(x) >= COEFFICIENT_LIMIT as real
    ensures x <= COEFFICIENT_LIMIT as real ==> Rounded(x) <= COEFFICIENT_LIMIT as real
    decreases Distance(x)
  {
    hide NearestEven, Distance;
    if x >= COEFFICIENT_LIMIT as real {
      TenthIsCloser(x);
      RoundedKeepsDecade(x / 10.0);
    } else if x < SMALLEST as real {
      TenfoldIsCloser(x);
      RoundedKeepsDecade(10.0 * x);
    } else {
      NearestEvenBracket(SMALLEST, x, COEFFICIENT_LIMIT);
      if x == SMALLEST as real {
        NearestEvenOfWhole(SMALLEST);
      }
    }
  }

  lemma NearestEvenMonotone(x: real, y: real)
    requires x <= y
    ensures NearestEven(x) <= NearestEven(y)
  {
  }

  lemma {:induction false} PositiveMonotone(x: real, y: real)
    requires 0.0 < x <= y
    ensures Rounded(x) <= Rounded(y)
    decreases Distance(x) + Distance(y)
  {
    hide NearestEven, Distance;
    RoundedKeepsDecade(x);
    RoundedKeepsDecade(y);
    if x >= COEFFICIENT_LIMIT as real {
      TenthIsCloser(x);
      TenthIsCloser(y);
      PositiveMonotone(x / 10.0, y / 10.0);
    } else if y < SMALLEST as real {
      TenfoldIsCloser(x);
      TenfoldIsCloser(y);
      PositiveMonotone(10.0 * x, 10.0 * y);
    } else if x >= SMALLEST as real && y < COEFFICIENT_LIMIT as real {
      NearestEvenMonotone(x, y);
    }
  }

  /** Rounding keeps order. */
  lemma RoundedMonotone(x: real, y: real)
    requires 0.0 <= x <= y
    ensures 0.0 <= Rounded(x) <= Rounded(y)
    ensures x > 0.0 ==> Rounded(x) > 0.0
  {
    hide Rounded;
    assert Rounded(0.0) == 0.0 by { RoundedZero(); }
    if x > 0.0 {
      PositiveMonotone(x, y);
      RoundedKeepsDecade(x);
    } else if y > 0.0 {
      RoundedKeepsDecade(y);
    }
  }

  lemma RoundedZero()
    ensures Rounded(0.0) == 0.0
  {
  }

  /** A whole number of at most 28 digits is kept. */
  lemma {:induction false} WholeIsKept(n: nat)
    requires n <= COEFFICIENT_LIMIT
    ensures Rounded(n as real) == n as real
    decreases COEFFICIENT_LIMIT - n
  {
    hide NearestEven;
    if n == 0 {
    } else if n < SMALLEST {
      WholeIsKept(10 * n);
      RoundedTenfold(n as real);
      assert (10 * n) as real == 10.0 * n as real;
    } else if n < COEFFICIENT_LIMIT {
      NearestEvenOfWhole(n);
    } else {
      NearestEvenOfWhole(SMALLEST);
      assert Rounded(SMALLEST as real) == SMALLEST as real;
      RoundedTenfold(SMALLEST as real);
    }
  }

  /** A result of the context is kept by the context. */
  lemma {:induction false} RoundedTwice(x: real)
    requires x >= 0.0
    ensures Rounded(Rounded(x)) == Rounded(x)
    decreases if x <= 0.0 then 0 else Distance(x)
  {
    hide NearestEven, Distance;
    if x == 0.0 {
    } else if x >= COEFFICIENT_LIMIT as real {
      TenthIsCloser(x);
      RoundedTwice(x / 10.0);
      RoundedMonotone(0.0, x / 10.0);
      RoundedTenfold(Rounded(x / 10.0));
    } else if x < SMALLEST as real {
      TenfoldIsCloser(x);
      RoundedTwice(10.0 * x);
      RoundedMonotone(0.0, 10.0 * x);
      RoundedTenth(Rounded(10.0 * x));
    } else {
      NearestEvenBracket(SMALLEST, x, COEFFICIENT_LIMIT);
      WholeIsKept(NearestEven(x));
    }
  }

  lemma TimesUnit(x: real, n: nat)
    ensures Times(x, Unit(n)) == if n == 0 then x else 10.0 * Times(x, Unit(n - 1))
    ensures x >= 0.0 ==> Times(x, Unit(n)) >= 0.0
  {
    if n > 0 {
      Regrouped10(x, Unit(n - 1));
    }
    if x >= 0.0 {
      Scale(0.0, x, Unit(n));
    }
  }

  lemma Regrouped10(x: real, u: real)
    ensures x * (10.0 * u) == 10.0 * (x * u)
  {
  }

  /** Shifting the point by `n` places. */
  lemma {:induction false} RoundedShift(x: real, n: nat)
    requires x >= 0.0
    ensures Rounded(Times(x, Unit(n))) == Times(Rounded(x), Unit(n))
  {
    hide Rounded, Times;
    TimesUnit(x, n);
    TimesUnit(Rounded(x), n);
    if n > 0 {
      RoundedShift(x, n - 1);
      TimesUnit(x, n - 1);
      RoundedTenfold(Times(x, Unit(n - 1)));
    }
  }

  /** A number with at most 28 digits at its own scale is kept. */
  lemma ShortIsKept(x: real, k: nat, n: nat)
    requires Times(x, Unit(k)) == n as real && n <= COEFFICIENT_LIMIT
    ensures x >= 0.0 && Rounded(x) == x
  {
    hide Unit, Rounded;
    Scale(0.0, x, Unit(k));
    WholeIsKept(n);
    RoundedShift(x, k);
    SameFactor(Rounded(x), x, Unit(k));
  }

  /** The relative error of one result: half a unit of its 28th digit. */
  lemma {:induction false} RoundedError(x: real)
    requires x > 0.0
    ensures -x <= 2.0 * SMALLEST as real * (Rounded(x) - x) <= x
    decreases Distance(x)
  {
    hide NearestEven, Distance;
    if x >= COEFFICIENT_LIMIT as real {
      TenthIsCloser(x);
      RoundedError(x / 10.0);
    } else if x < SMALLEST as real {
      TenfoldIsCloser(x);
      RoundedError(10.0 * x);
    } else {
      NearestEvenBounds(x);
    }
  }
}
