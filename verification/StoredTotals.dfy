/** The decimal machine computes the figures: coefficients and exponents, rounded after every operation,
    denote the sums that the aggregation is defined by. */
module StoredTotals {
  import opened Events
  import opened Rounding
  import opened DecimalContext
  import opened TwoRoundings
  import opened Aggregation

  /** `d` stands for the real number `x`, in whole units of `10 ** -k`. */
  ghost predicate Denotes(d: Dec, x: real, k: nat) {
    d.exp + k >= 0 && Times(x, Unit(k)) == Units(d, k) as real
  }

  lemma LongCoefficient(n: nat, drop: nat)
    requires drop > 0 && Digits(n) == PRECISION + drop
    ensures Rounded(n as real) == (HalfEven(n, Ten(drop)) * Ten(drop)) as real
  {
    hide Ten, Digits, HalfEven, Rounded, Times, Unit;
    var d := Ten(drop);
    var y := n as real / d as real;
    ExactQuotient(n as real, d as real);
    LongIsNormal(y, n, drop);
    RoundedInRange(y);
    HalfEvenIsNearestEven(n, d);
    RoundedShift(y, drop);
    UnitIsTen(drop);
    TimesIs(y, d as real, n as real);
    TimesIs(HalfEven(n, d) as real, d as real, (HalfEven(n, d) * d) as real) by { ProductAsReal(HalfEven(n, d), d); }
  }

  lemma TimesIs(x: real, u: real, y: real)
    requires x * u == y
    ensures Times(x, u) == y
  {
  }

  /** The context's result for a whole number. */
  lemma CoefficientIsRounded(n: nat)
    ensures Fix(Dec(n, 0)).exp >= 0 && Rounded(n as real) == Units(Fix(Dec(n, 0)), 0) as real
  {
    hide Ten, Digits, HalfEven, Rounded;
    FewDigits(n, PRECISION);
    TenOne();
    BigTens();
    if Digits(n) <= PRECISION {
      WholeIsKept(n);
      assert n * 1 == n;
    } else {
      var drop := Digits(n) - PRECISION;
      LongCoefficient(n, drop);
      TenAdds(PRECISION - 1, 1);
      TenAdds(1, drop);
      CarriedUnits(Ten(PRECISION - 1), Ten(drop), Ten(PRECISION), Ten(drop + 1));
    }
  }

  lemma CarriedUnits(a: nat, d: nat, b: nat, c: nat)
    requires b == a * 10 && c == 10 * d
    ensures a * c == b * d
  {
    Associate(a, 10, d);
  }

  lemma FixShifts(n: nat, e: int)
    ensures Fix(Dec(n, e)) == Dec(Fix(Dec(n, 0)).coef, Fix(Dec(n, 0)).exp + e)
  {
    hide Ten, Digits, HalfEven;
  }

  /** One operation: the machine's rounding denotes the rounding of what was denoted. */
  lemma FixDenotes(c: Dec, x: real, k: nat)
    requires Denotes(c, x, k) && x >= 0.0
    ensures Denotes(Fix(c), Rounded(x), k)
  {
    hide Ten, Fix, Rounded, Times, Unit;
    var j, r := c.exp + k, Fix(Dec(c.coef, 0));
    CoefficientIsRounded(c.coef);
    FixShifts(c.coef, c.exp);
    AsTimes(c.coef, j);
    RoundedShift(x, k);
    RoundedShift(c.coef as real, j);
    AsTimes(Units(r, 0), j);
    TenAdds(r.exp, j);
    Associate(r.coef, Ten(r.exp), Ten(j));
  }

  lemma AsTimes(n: nat, j: nat)
    ensures Times(n as real, Unit(j)) == (n * Ten(j)) as real
  {
    hide Ten, Unit;
    UnitIsTen(j);
    ProductAsReal(n, Ten(j));
  }

  lemma AddDenotes(a: Dec, x: real, b: Dec, y: real, k: nat)
    requires Denotes(a, x, k) && Denotes(b, y, k) && x >= 0.0 && y >= 0.0
    ensures Denotes(Add(a, b), Rounded(x + y), k)
  {
    hide Fix, Units, Rounded, Times, Unit;
    ExactSumUnits(a, b, k);
    TimesAdds(x, y, Unit(k));
    FixDenotes(ExactSum(a, b), x + y, k);
  }

  ghost predicate DenotesTrade(d: DecTrade, e: InternalEvent, k: nat, m: nat) {
    && Denotes(d.quantity, QuantityOf(e), k)
    && Denotes(ExactProduct(d.price, d.quantity), ExactNotionalOf(e), m)
    && d.buy == e.side.Buy?
  }

  ghost predicate DenotesTotals(t: Totals, s: seq<InternalEvent>, k: nat, m: nat) {
    && Denotes(t.total, RoundedSum(s, QuantityOf), k) && Denotes(t.notional, RoundedSum(s, NotionalOf), m)
    && Denotes(t.buys, RoundedSum(s, BuyQuantityOf), k) && Denotes(t.sells, RoundedSum(s, SellQuantityOf), k)
  }

  /** The loop as it runs computes exactly the totals that the stored row is defined by, rounding for
      rounding, whatever the digits of the trades. */
  lemma {:induction false} LoopComputesTheFigures(trades: seq<DecTrade>, events: seq<InternalEvent>, k: nat, m: nat)
    requires |trades| == |events| && PositiveTrades(events)
    requires forall i :: 0 <= i < |trades| ==> DenotesTrade(trades[i], events[i], k, m)
    ensures DenotesTotals(Accumulated(trades), events, k, m)
  {
    hide Denotes, Rounded, Add, Fix, NotionalOf, ExactNotionalOf, RoundedSum;
    if |trades| == 0 {
      ZeroDenotes(events, k);
      ZeroDenotes(events, m);
    } else {
      var n := |trades| - 1;
      LoopComputesTheFigures(trades[..n], events[..n], k, m);
      assert DenotesTrade(trades[n], events[n], k, m);
      StepDenotes(Accumulated(trades[..n]), trades[n], events[..n], events[n], k, m);
      assert events == events[..n] + [events[n]];
    }
  }

  lemma ZeroDenotes(s: seq<InternalEvent>, k: nat)
    requires s == []
    ensures Denotes(Dec(0, 0), RoundedSum(s, QuantityOf), k) && Denotes(Dec(0, 0), RoundedSum(s, NotionalOf), k)
    ensures Denotes(Dec(0, 0), RoundedSum(s, BuyQuantityOf), k) && Denotes(Dec(0, 0), RoundedSum(s, SellQuantityOf), k)
  {
  }

  lemma RoundedSumSnoc(s: seq<InternalEvent>, e: InternalEvent, f: InternalEvent -> real)
    ensures RoundedSum(s + [e], f) == Rounded(RoundedSum(s, f) + f(e))
  {
    assert (s + [e])[..|s|] == s;
  }

  lemma StepDenotes(t: Totals, d: DecTrade, s: seq<InternalEvent>, e: InternalEvent, k: nat, m: nat)
    requires PositiveTrades(s + [e]) && DenotesTotals(t, s, k, m) && DenotesTrade(d, e, k, m)
    ensures DenotesTotals(Step(t, d), s + [e], k, m)
  {
    hide Denotes, Rounded, Add, Fix, RoundedSum, ExactNotionalOf;
    assert (s + [e])[|s|] == e && forall i :: 0 <= i < |s| ==> (s + [e])[i] == s[i];
    PositiveTerms(s);
    PositiveTerms(s + [e]);
    assert e in s + [e];
    RoundedSumPositive(s, QuantityOf);
    RoundedSumPositive(s, NotionalOf);
    RoundedSumPositive(s, BuyQuantityOf);
    RoundedSumPositive(s, SellQuantityOf);
    RoundedSumSnoc(s, e, QuantityOf);
    RoundedSumSnoc(s, e, NotionalOf);
    RoundedSumSnoc(s, e, BuyQuantityOf);
    RoundedSumSnoc(s, e, SellQuantityOf);
    RunningSumIsKept(s, BuyQuantityOf);
    RunningSumIsKept(s, SellQuantityOf);
    AddDenotes(t.total, RoundedSum(s, QuantityOf), d.quantity, QuantityOf(e), k);
    MulDenotes(d, e, m);
    AddDenotes(t.notional, RoundedSum(s, NotionalOf), Mul(d.price, d.quantity), NotionalOf(e), m);
    if d.buy {
      AddDenotes(t.buys, RoundedSum(s, BuyQuantityOf), d.quantity, QuantityOf(e), k);
    } else {
      AddDenotes(t.sells, RoundedSum(s, SellQuantityOf), d.quantity, QuantityOf(e), k);
    }
  }

  lemma MulDenotes(d: DecTrade, e: InternalEvent, m: nat)
    requires Denotes(ExactProduct(d.price, d.quantity), ExactNotionalOf(e), m) && ExactNotionalOf(e) >= 0.0
    ensures Denotes(Mul(d.price, d.quantity), NotionalOf(e), m)
  {
    hide Denotes, Rounded, Fix, ExactNotionalOf;
    FixDenotes(ExactProduct(d.price, d.quantity), ExactNotionalOf(e), m);
  }
}
