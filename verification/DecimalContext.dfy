/** The accumulation loop in Python's default decimal context: 28 significant digits, half even. */
module DecimalContext {
  import opened Identity

  /** A non-negative decimal, `coef * 10 ** exp`. */
  datatype Dec = Dec(coef: nat, exp: int)

  const PRECISION: nat := 28

  function Ten(n: nat): (p: nat)
    ensures p >= 1
  {
    if n == 0 then 1 else 10 * Ten(n - 1)
  }

  function Digits(n: nat): (d: nat)
    ensures d >= 1
  {
    if n < 10 then 1 else 1 + Digits(n / 10)
  }

  function HalfEven(n: nat, d: nat): nat
    requires d > 0
  {
    var q, r := n / d, n % d;
    if 2 * r > d || (2 * r == d && q % 2 == 1) then q + 1 else q
  }

  /** The context's rounding of an exact result. */
  function Fix(c: Dec): Dec {
    if Digits(c.coef) <= PRECISION then c
    else
      var drop := Digits(c.coef) - PRECISION;
      var q := HalfEven(c.coef, Ten(drop));
      if q == Ten(PRECISION) then Dec(Ten(PRECISION - 1), c.exp + drop + 1) else Dec(q, c.exp + drop)
  }

  function ExactSum(a: Dec, b: Dec): Dec {
    var e := if a.exp <= b.exp then a.exp else b.exp;
    Dec(a.coef * Ten(a.exp - e) + b.coef * Ten(b.exp - e), e)
  }

  function ExactProduct(a: Dec, b: Dec): Dec { Dec(a.coef * b.coef, a.exp + b.exp) }

  function Add(a: Dec, b: Dec): Dec { Fix(ExactSum(a, b)) }

  function Mul(a: Dec, b: Dec): Dec { Fix(ExactProduct(a, b)) }

  // ----- The context rounds exactly when it must -----

  lemma {:induction false} TenAdds(m: nat, n: nat)
    ensures Ten(m + n) == Ten(m) * Ten(n)
  {
    if m > 0 {
      TenAdds(m - 1, n);
    }
  }

  lemma {:induction false} DigitsBound(n: nat)
    ensures n < Ten(Digits(n))
    ensures n > 0 ==> Ten(Digits(n) - 1) <= n
  {
    if n >= 10 {
      DigitsBound(n / 10);
    } else {
      assert Ten(1) == 10 * Ten(0);
    }
  }

  lemma {:induction false} TenMonotone(m: nat, n: nat)
    requires m <= n
    ensures Ten(m) <= Ten(n)
    decreases n - m
  {
    if m < n {
      TenMonotone(m, n - 1);
    }
  }

  lemma FewDigits(n: nat, d: nat)
    requires d >= 1
    ensures Digits(n) <= d <==> n < Ten(d)
  {
    DigitsBound(n);
    if Digits(n) <= d {
      TenMonotone(Digits(n), d);
    } else {
      TenMonotone(d, Digits(n) - 1);
    }
  }

  /** The rounded result stands for the same number. */
  predicate SameValue(c: Dec, r: Dec) {
    r.exp >= c.exp && r.coef * Ten(r.exp - c.exp) == c.coef
  }

  /** The context loses nothing exactly when the digits it drops are all zero. */
  lemma RoundingIsExactIff(c: Dec)
    ensures SameValue(c, Fix(c)) <==> Digits(c.coef) <= PRECISION || c.coef % Ten(Digits(c.coef) - PRECISION) == 0
  {
    hide Ten, Digits;
    if Digits(c.coef) > PRECISION {
      var drop := Digits(c.coef) - PRECISION;
      var d := Ten(drop);
      var q := HalfEven(c.coef, d);
      QuotientTimes(c.coef, d, q);
      if q == Ten(PRECISION) {
        TenAdds(PRECISION - 1, 1);
        TenAdds(1, drop);
        assert Ten(1) == 10 by { TenOne(); }
        Regroup3(Ten(PRECISION - 1), d);
      }
    } else {
      assert Ten(0) == 1 by { TenOne(); }
    }
  }

  lemma TenOne()
    ensures Ten(0) == 1 && Ten(1) == 10
  {
  }

  lemma Regroup3(a: nat, d: nat)
    ensures a * (10 * d) == (a * 10) * d
  {
  }

  lemma QuotientTimes(n: nat, d: nat, q: nat)
    requires d > 0 && q == HalfEven(n, d)
    ensures q * d == n <==> n % d == 0
  {
    var f := n / d;
    assert n == f * d + n % d;
    assert (f + 1) * d == f * d + d;
  }

  // ----- Units of the last place -----

  /** The number of units of `10 ** -k`. */
  function Units(d: Dec, k: nat): nat
    requires d.exp + k >= 0
  {
    d.coef * Ten(d.exp + k)
  }

  lemma ExactSumUnits(a: Dec, b: Dec, k: nat)
    requires a.exp + k >= 0 && b.exp + k >= 0
    ensures ExactSum(a, b).exp + k >= 0
    ensures Units(ExactSum(a, b), k) == Units(a, k) + Units(b, k)
  {
    hide Ten;
    var s := ExactSum(a, b);
    TenAdds(a.exp - s.exp, s.exp + k);
    TenAdds(b.exp - s.exp, s.exp + k);
    Distribute(a.coef, Ten(a.exp - s.exp), b.coef, Ten(b.exp - s.exp), Ten(s.exp + k));
  }

  lemma Distribute(a: nat, x: nat, b: nat, y: nat, t: nat)
    ensures (a * x + b * y) * t == a * (x * t) + b * (y * t)
  {
    assert (a * x + b * y) * t == a * x * t + b * y * t;
    assert a * x * t == a * (x * t) && b * y * t == b * (y * t);
  }

  lemma FitsUnrounded(c: Dec, k: nat)
    requires c.exp + k >= 0 && Units(c, k) < Ten(PRECISION)
    ensures Fix(c) == c
  {
    hide Ten, Digits;
    AtLeastCoef(c.coef, Ten(c.exp + k));
    FewDigits(c.coef, PRECISION);
  }

  lemma AtLeastCoef(n: nat, t: nat)
    requires t >= 1
    ensures n * t >= n
  {
    assert n * t == n + n * (t - 1);
  }

  /** A sum that fits in 28 digits at a common scale is exact. */
  lemma AddIsExact(a: Dec, b: Dec, k: nat)
    requires a.exp + k >= 0 && b.exp + k >= 0 && Units(a, k) + Units(b, k) < Ten(PRECISION)
    ensures Add(a, b).exp + k >= 0 && Units(Add(a, b), k) == Units(a, k) + Units(b, k)
  {
    hide Fix, Units, Ten;
    ExactSumUnits(a, b, k);
    FitsUnrounded(ExactSum(a, b), k);
  }

  // ----- The loop -----

  datatype DecTrade = DecTrade(price: Dec, quantity: Dec, buy: bool)

  datatype Totals = Totals(total: Dec, buys: Dec, sells: Dec, notional: Dec)

  function Step(t: Totals, d: DecTrade): Totals {
    Totals(
      Add(t.total, d.quantity),
      if d.buy then Add(t.buys, d.quantity) else t.buys,
      if d.buy then t.sells else Add(t.sells, d.quantity),
      Add(t.notional, Mul(d.price, d.quantity)))
  }

  function Accumulated(trades: seq<DecTrade>): Totals {
    if |trades| == 0 then Totals(Dec(0, 0), Dec(0, 0), Dec(0, 0), Dec(0, 0))
    else Step(Accumulated(trades[..|trades| - 1]), trades[|trades| - 1])
  }

  /** The loop as it runs, rounding after every operation. */
  method AccumulateRounded(trades: seq<DecTrade>) returns (t: Totals)
    ensures t == Accumulated(trades)
  {
    hide Fix, Add, Mul;
    t := Totals(Dec(0, 0), Dec(0, 0), Dec(0, 0), Dec(0, 0));
    for i := 0 to |trades|
      invariant t == Accumulated(trades[..i])
    {
      var d := trades[i];
      assert trades[..i + 1][..i] == trades[..i];
      var total, notional := Add(t.total, d.quantity), Add(t.notional, Mul(d.price, d.quantity));
      if d.buy {
        t := Totals(total, Add(t.buys, d.quantity), t.sells, notional);
      } else {
        t := Totals(total, t.buys, Add(t.sells, d.quantity), notional);
      }
    }
    assert trades[..|trades|] == trades;
  }

  /** Every quantity is a multiple of `10 ** -k`, every product one of `10 ** -m`. */
  predicate OnGrid(trades: seq<DecTrade>, k: nat, m: nat) {
    forall i :: 0 <= i < |trades| ==>
      trades[i].quantity.exp + k >= 0 && trades[i].price.exp + trades[i].quantity.exp + m >= 0
  }

  datatype Side = Both | OnlyBuys | OnlySells

  /** The exact volume, in units. */
  function VolumeUnits(trades: seq<DecTrade>, k: nat, side: Side): nat
    requires forall i :: 0 <= i < |trades| ==> trades[i].quantity.exp + k >= 0
  {
    if |trades| == 0 then 0
    else
      var last := trades[|trades| - 1];
      VolumeUnits(trades[..|trades| - 1], k, side)
      + if side.Both? || last.buy == side.OnlyBuys? then Units(last.quantity, k) else 0
  }

  /** The exact notional, in units. */
  function NotionalUnits(trades: seq<DecTrade>, m: nat): nat
    requires forall i :: 0 <= i < |trades| ==> trades[i].price.exp + trades[i].quantity.exp + m >= 0
  {
    if |trades| == 0 then 0
    else
      var last := trades[|trades| - 1];
      NotionalUnits(trades[..|trades| - 1], m) + Units(ExactProduct(last.price, last.quantity), m)
  }

  lemma {:induction false} SidesAddUpInUnits(trades: seq<DecTrade>, k: nat)
    requires forall i :: 0 <= i < |trades| ==> trades[i].quantity.exp + k >= 0
    ensures VolumeUnits(trades, k, OnlyBuys) + VolumeUnits(trades, k, OnlySells) == VolumeUnits(trades, k, Both)
  {
    hide Units;
    if |trades| > 0 {
      SidesAddUpInUnits(trades[..|trades| - 1], k);
    }
  }

  /** Bounded-precision exactness: while volume and notional fit in 28 digits at their own scales,
      rounding after every operation changes nothing, and the two sides add up to the volume. */
  lemma {:induction false} LoopIsExact(trades: seq<DecTrade>, k: nat, m: nat)
    requires OnGrid(trades, k, m)
    requires VolumeUnits(trades, k, Both) < Ten(PRECISION) && NotionalUnits(trades, m) < Ten(PRECISION)
    ensures var t := Accumulated(trades);
            && t.total.exp + k >= 0 && Units(t.total, k) == VolumeUnits(trades, k, Both)
            && t.buys.exp + k >= 0 && Units(t.buys, k) == VolumeUnits(trades, k, OnlyBuys)
            && t.sells.exp + k >= 0 && Units(t.sells, k) == VolumeUnits(trades, k, OnlySells)
            && t.notional.exp + m >= 0 && Units(t.notional, m) == NotionalUnits(trades, m)
            && Units(t.buys, k) + Units(t.sells, k) == Units(t.total, k)
  {
    hide Add, Fix, Ten, Units;
    SidesAddUpInUnits(trades, k);
    if |trades| == 0 {
      ZeroUnits(k);
      ZeroUnits(m);
    } else {
      var init, last := trades[..|trades| - 1], trades[|trades| - 1];
      LoopIsExact(init, k, m);
      SidesAddUpInUnits(init, k);
      var t := Accumulated(init);
      var product := ExactProduct(last.price, last.quantity);
      FitsUnrounded(product, m);
      AddIsExact(t.total, last.quantity, k);
      AddIsExact(t.notional, product, m);
      if last.buy {
        AddIsExact(t.buys, last.quantity, k);
      } else {
        AddIsExact(t.sells, last.quantity, k);
      }
    }
  }

  lemma ZeroUnits(k: nat)
    ensures Units(Dec(0, 0), k) == 0
  {
  }

  // ----- Exactly when the loop is exact -----

  /** A number of units that 28 digits and some zeros can write. */
  ghost predicate Writable(n: nat) {
    exists z: nat :: n % Ten(z) == 0 && n / Ten(z) < Ten(PRECISION)
  }

  lemma MultipleOf(n: nat, d: nat, q: nat)
    requires d > 0 && n == q * d
    ensures n % d == 0 && n / d == q
  {
    QuotientIs(n, d, q, 0);
  }

  lemma WritableAs(m: nat, z: nat)
    requires m < Ten(PRECISION)
    ensures Writable(m * Ten(z))
  {
    hide Ten;
    MultipleOf(m * Ten(z), Ten(z), m);
  }

  lemma WritableParts(n: nat) returns (m: nat, z: nat)
    requires Writable(n)
    ensures n == m * Ten(z) && m < Ten(PRECISION)
  {
    hide Ten;
    z :| n % Ten(z) == 0 && n / Ten(z) < Ten(PRECISION);
    m := n / Ten(z);
  }

  lemma Less(a: nat, b: nat, t: nat)
    requires t > 0
    ensures a < b <==> a * t < b * t
    ensures a == b <==> a * t == b * t
  {
    AtLeastOne(b - a, t);
    Difference(a, b, t);
  }

  lemma Difference(a: nat, b: nat, t: nat)
    ensures (b - a) * t == b * t - a * t
  {
  }

  /** Zeros at the end do not matter. */
  lemma WritableScales(n: nat, j: nat)
    ensures Writable(n) <==> Writable(n * Ten(j))
  {
    hide Ten, Writable;
    if Writable(n) {
      var m, z := WritableParts(n);
      TenAdds(z, j);
      Associate(m, Ten(z), Ten(j));
      WritableAs(m, z + j);
    }
    if Writable(n * Ten(j)) {
      var m, z := WritableParts(n * Ten(j));
      if z >= j {
        TenAdds(z - j, j);
        Associate(m, Ten(z - j), Ten(j));
        Less(n, m * Ten(z - j), Ten(j));
        WritableAs(m, z - j);
      } else {
        TenAdds(j - z, z);
        Associate(n, Ten(j - z), Ten(z));
        Less(n * Ten(j - z), m, Ten(z));
        AtLeastCoef(n, Ten(j - z));
        WritableAs(n, 0);
        TenOne();
        assert n * 1 == n;
      }
    }
  }

  lemma Associate(a: nat, b: nat, c: nat)
    ensures a * (b * c) == (a * b) * c
  {
  }

  lemma ShortIsWritable(n: nat)
    requires n < Ten(PRECISION)
    ensures Writable(n)
  {
    hide Ten;
    WritableAs(n, 0);
    TenOne();
    assert n * 1 == n;
  }

  lemma DroppedZerosWritable(n: nat, drop: nat)
    requires n < Ten(PRECISION + drop) && n % Ten(drop) == 0
    ensures Writable(n)
  {
    hide Ten;
    var d := Ten(drop);
    TenAdds(PRECISION, drop);
    assert n == n / d * d;
    Less(n / d, Ten(PRECISION), d);
    WritableAs(n / d, drop);
  }

  lemma WritableDropsZeros(n: nat, drop: nat)
    requires Writable(n) && n >= Ten(PRECISION - 1 + drop)
    ensures n % Ten(drop) == 0
  {
    hide Ten;
    var m, z := WritableParts(n);
    TenAdds(PRECISION, z);
    Less(m, Ten(PRECISION), Ten(z));
    if z < drop {
      TenMonotone(PRECISION + z, PRECISION - 1 + drop);
    }
    TenAdds(z - drop, drop);
    Associate(m, Ten(z - drop), Ten(drop));
    MultipleOf(n, Ten(drop), m * Ten(z - drop));
  }

  /** The context rounds a number exactly when its digits and zeros can write it. */
  lemma FixIsExactIffWritable(c: Dec)
    ensures SameValue(c, Fix(c)) <==> Writable(c.coef)
  {
    hide Ten, Digits, Fix, Writable, SameValue;
    RoundingIsExactIff(c);
    DigitsBound(c.coef);
    FewDigits(c.coef, PRECISION);
    if Digits(c.coef) <= PRECISION {
      ShortIsWritable(c.coef);
    } else {
      var drop := Digits(c.coef) - PRECISION;
      if c.coef % Ten(drop) == 0 {
        DroppedZerosWritable(c.coef, drop);
      }
      if Writable(c.coef) {
        WritableDropsZeros(c.coef, drop);
      }
    }
  }

  lemma FixKeepsScale(c: Dec)
    ensures Fix(c).exp >= c.exp
  {
  }

  /** In units: the rounded result is as many units exactly when that number of units is writable. */
  lemma FixKeepsUnitsIff(c: Dec, k: nat)
    requires c.exp + k >= 0
    ensures Fix(c).exp + k >= 0
    ensures Units(Fix(c), k) == Units(c, k) <==> Writable(Units(c, k))
  {
    hide Ten, Fix, Writable;
    var r := Fix(c);
    FixKeepsScale(c);
    TenAdds(r.exp - c.exp, c.exp + k);
    Associate(r.coef, Ten(r.exp - c.exp), Ten(c.exp + k));
    Less(r.coef * Ten(r.exp - c.exp), c.coef, Ten(c.exp + k));
    FixIsExactIffWritable(c);
    WritableScales(c.coef, c.exp + k);
  }

  /** The running sum of a side, and whether it is exact. */
  function Running(t: Totals, side: Side): Dec {
    match side
    case Both => t.total
    case OnlyBuys => t.buys
    case OnlySells => t.sells
  }

  predicate OnScale(trades: seq<DecTrade>, k: nat) {
    forall i :: 0 <= i < |trades| ==> trades[i].quantity.exp + k >= 0
  }

  predicate ExactVolume(trades: seq<DecTrade>, k: nat, side: Side)
    requires OnScale(trades, k)
  {
    var d := Running(Accumulated(trades), side);
    d.exp + k >= 0 && Units(d, k) == VolumeUnits(trades, k, side)
  }

  /** One more trade: the sum stays exact exactly when the new number of units is writable. */
  lemma VolumeStepIff(trades: seq<DecTrade>, k: nat, side: Side)
    requires |trades| > 0 && OnScale(trades, k) && ExactVolume(trades[..|trades| - 1], k, side)
    requires Writable(VolumeUnits(trades[..|trades| - 1], k, side))
    ensures ExactVolume(trades, k, side) <==> Writable(VolumeUnits(trades, k, side))
  {
    hide Fix, Units, Writable;
    var init, last := trades[..|trades| - 1], trades[|trades| - 1];
    var d := Running(Accumulated(init), side);
    if side.Both? || last.buy == side.OnlyBuys? {
      ExactSumUnits(d, last.quantity, k);
      FixKeepsUnitsIff(ExactSum(d, last.quantity), k);
    }
  }

  /** The running volume, or that of one side, is exact after every trade exactly when every prefix of
      the trades has a volume that 28 digits and some zeros can write. */
  lemma {:induction false} VolumeIsExactIff(trades: seq<DecTrade>, k: nat, side: Side)
    requires OnScale(trades, k)
    ensures (forall i :: 0 <= i <= |trades| ==> ExactVolume(trades[..i], k, side)) <==>
            (forall i :: 0 <= i <= |trades| ==> Writable(VolumeUnits(trades[..i], k, side)))
  {
    hide Accumulated, Units, Writable, VolumeUnits, ExactVolume;
    var n := |trades|;
    assert trades[..n] == trades;
    if n == 0 {
      NothingIsExact(trades, k, side);
    } else {
      var init := trades[..n - 1];
      VolumeIsExactIff(init, k, side);
      assert forall i :: 0 <= i < n ==> init[..i] == trades[..i];
      if ExactVolume(init, k, side) && Writable(VolumeUnits(init, k, side)) {
        VolumeStepIff(trades, k, side);
      }
      assert init[..n - 1] == init;
    }
  }

  lemma NothingIsExact(trades: seq<DecTrade>, k: nat, side: Side)
    requires trades == []
    ensures ExactVolume(trades, k, side) && Writable(VolumeUnits(trades, k, side))
  {
    assert 0 * Ten(0) == 0;
    WritableAs(0, 0);
  }

  predicate ProductsOnScale(trades: seq<DecTrade>, m: nat) {
    forall i :: 0 <= i < |trades| ==> trades[i].price.exp + trades[i].quantity.exp + m >= 0
  }

  predicate ExactNotional(trades: seq<DecTrade>, m: nat)
    requires ProductsOnScale(trades, m)
  {
    var d := Accumulated(trades).notional;
    d.exp + m >= 0 && Units(d, m) == NotionalUnits(trades, m)
  }

  /** The last product is exact. */
  predicate ExactLastProduct(trades: seq<DecTrade>) {
    |trades| > 0 ==>
      var last := trades[|trades| - 1];
      SameValue(ExactProduct(last.price, last.quantity), Mul(last.price, last.quantity))
  }

  /** The last product needs at most 28 digits and some zeros. */
  ghost predicate WritableLastProduct(trades: seq<DecTrade>) {
    |trades| > 0 ==> Writable(trades[|trades| - 1].price.coef * trades[|trades| - 1].quantity.coef)
  }

  lemma NotionalStepIff(trades: seq<DecTrade>, m: nat)
    requires |trades| > 0 && ProductsOnScale(trades, m) && ExactNotional(trades[..|trades| - 1], m)
    ensures ExactLastProduct(trades) <==> WritableLastProduct(trades)
    ensures ExactLastProduct(trades) ==> (ExactNotional(trades, m) <==> Writable(NotionalUnits(trades, m)))
  {
    hide Fix, Ten, Writable;
    var init, last := trades[..|trades| - 1], trades[|trades| - 1];
    var d, exact, product := Accumulated(init).notional, ExactProduct(last.price, last.quantity),
        Mul(last.price, last.quantity);
    FixIsExactIffWritable(exact);
    if SameValue(exact, product) {
      SameUnits(exact, product, m);
      ExactSumUnits(d, product, m);
      FixKeepsUnitsIff(ExactSum(d, product), m);
    }
  }

  lemma SameUnits(c: Dec, r: Dec, k: nat)
    requires SameValue(c, r) && c.exp + k >= 0
    ensures Units(r, k) == Units(c, k)
  {
    hide Ten;
    TenAdds(r.exp - c.exp, c.exp + k);
    Associate(r.coef, Ten(r.exp - c.exp), Ten(c.exp + k));
  }

  /** Every product and every running notional is exact exactly when every product and every prefix
      sum is writable. The products count for themselves: a rounded one may be rounded back later. */
  lemma {:induction false} NotionalIsExactIff(trades: seq<DecTrade>, m: nat)
    requires ProductsOnScale(trades, m)
    ensures (forall i :: 0 <= i <= |trades| ==> ExactLastProduct(trades[..i]) && ExactNotional(trades[..i], m)) <==>
            (forall i :: 0 <= i <= |trades| ==>
               WritableLastProduct(trades[..i]) && Writable(NotionalUnits(trades[..i], m)))
  {
    hide Accumulated, Units, Writable, NotionalUnits, ExactNotional, ExactLastProduct, WritableLastProduct;
    var n := |trades|;
    assert trades[..n] == trades;
    if n == 0 {
      NoNotionalIsExact(trades, m);
    } else {
      var init := trades[..n - 1];
      NotionalIsExactIff(init, m);
      assert forall i :: 0 <= i < n ==> init[..i] == trades[..i];
      assert init[..n - 1] == init;
      if ExactNotional(init, m) {
        NotionalStepIff(trades, m);
      }
    }
  }

  lemma NoNotionalIsExact(trades: seq<DecTrade>, m: nat)
    requires trades == []
    ensures ExactNotional(trades, m) && Writable(NotionalUnits(trades, m))
    ensures ExactLastProduct(trades) && WritableLastProduct(trades)
  {
    assert 0 * Ten(0) == 0;
    WritableAs(0, 0);
  }

  // ----- Beyond the precision -----

  /** A product that is rounded up, and a sum that is rounded down again: the running notional of these
      two trades is exact although the second product is not. */
  lemma RoundingsCanCancel()
    ensures var first, price := Dec(4, -1), Dec(99_999_999_999_999_999_999_999_999_996, -1);
            && !SameValue(price, Fix(price))
            && SameValue(ExactSum(first, price), Add(first, Fix(price)))
  {
    hide Digits;
    var first, price := Dec(4, -1), Dec(99_999_999_999_999_999_999_999_999_996, -1);
    BigTens();
    TenAdds(27, 2);
    TenAdds(27, 1);
    assert Ten(0) == 1 && Ten(1) == 10;
    FewDigits(price.coef, 29);
    FewDigits(price.coef, 28);
    assert HalfEven(price.coef, 10) == Ten(28);
    assert Fix(price) == Dec(Ten(27), 1);
    var s := ExactSum(first, Fix(price));
    assert s == Dec(4 + Ten(29), -1);
    FewDigits(s.coef, 30);
    FewDigits(s.coef, 29);
    assert HalfEven(s.coef, 100) == Ten(27);
    assert Add(first, Fix(price)) == Dec(Ten(27), 1);
    assert ExactSum(first, price) == Dec(Ten(29), -1);
  }

  lemma BigTens()
    ensures Ten(2) == 100
    ensures Ten(28) == 10_000_000_000_000_000_000_000_000_000
    ensures Ten(29) == 100_000_000_000_000_000_000_000_000_000
    ensures Ten(30) == 1_000_000_000_000_000_000_000_000_000_000
  {
    assert Ten(1) == 10 && Ten(2) == 100;
    TenAdds(2, 2);
    TenAdds(4, 4);
    TenAdds(8, 4);
    TenAdds(8, 8);
    TenAdds(16, 12);
    TenAdds(28, 1);
    TenAdds(28, 2);
  }

  /** The first development trade: a 30-digit quantity, so that even a window that holds nothing
      else stores a volume that is not the traded quantity. */
  lemma SampleVolumeIsRounded()
    ensures var quantity := Dec(123_456_789_012_345_678_901_234_567_890, -33);
            !SameValue(ExactSum(Dec(0, 0), quantity), Add(Dec(0, 0), quantity))
  {
    var quantity := Dec(123_456_789_012_345_678_901_234_567_890, -33);
    var s := ExactSum(Dec(0, 0), quantity);
    assert s == quantity by { assert Ten(0) == 1; }
    BigTens();
    FewDigits(s.coef, 30);
    FewDigits(s.coef, 29);
    assert Digits(s.coef) == 30;
    RoundingIsExactIff(s);
  }

  lemma AddToZero(d: Dec)
    requires d.exp <= 0 && Digits(d.coef) <= PRECISION
    ensures Add(Dec(0, 0), d) == d
  {
    hide Ten, Digits;
    TenOne();
    assert 0 * Ten(-d.exp) == 0 && d.coef * 1 == d.coef;
    assert ExactSum(Dec(0, 0), d) == d;
  }

  /** `9999999999999999999999999999 + 0.6` rounds up to `1.000000000000000000000000000E+28`. */
  lemma HugePlusSmall(a: Dec, b: Dec)
    requires a == Dec(9_999_999_999_999_999_999_999_999_999, 0) && b == Dec(6, -1)
    ensures ExactSum(a, b) == Dec(Ten(29) - 4, -1)
    ensures Add(a, b) == Dec(Ten(27), 1)
    ensures Digits(a.coef) <= PRECISION && Digits(b.coef) <= PRECISION
  {
    hide Digits;
    BigTens();
    assert Ten(0) == 1 && Ten(1) == 10;
    FewDigits(a.coef, 28);
    FewDigits(b.coef, 1);
    var s := ExactSum(a, b);
    FewDigits(s.coef, 29);
    FewDigits(s.coef, 28);
    assert HalfEven(s.coef, 10) == Ten(28);
  }

  /** Outside the precision the sides need not add up: two trades whose stored volume is larger
      than what was bought plus what was sold. */
  lemma SidesCanDisagree()
    ensures var trades := [DecTrade(Dec(1, 0), Dec(9_999_999_999_999_999_999_999_999_999, 0), true),
                           DecTrade(Dec(1, 0), Dec(6, -1), false)];
            var t := Accumulated(trades);
            && t.buys == trades[0].quantity && t.sells == trades[1].quantity
            && t.total == Dec(Ten(27), 1)
            && t.total.coef * Ten(t.total.exp + 1) > ExactSum(t.buys, t.sells).coef == Ten(29) - 4
  {
    hide Fix, Digits, Mul;
    var a, b := Dec(9_999_999_999_999_999_999_999_999_999, 0), Dec(6, -1);
    var first, second := DecTrade(Dec(1, 0), a, true), DecTrade(Dec(1, 0), b, false);
    var zero := Totals(Dec(0, 0), Dec(0, 0), Dec(0, 0), Dec(0, 0));
    var trades := [first, second];
    HugePlusSmall(a, b);
    AddToZero(a);
    AddToZero(b);
    assert trades[..1] == [first] && trades[..1][..0] == [];
    assert Accumulated(trades[..1]) == Step(zero, first);
    assert Accumulated(trades) == Step(Step(zero, first), second);
    TenAdds(27, 2);
  }
}
