/** Exact decimals over scaled integers: `value` shifted right by `scale` digits. */
module Money {

  datatype Decimal = Decimal(value: int, scale: nat)

  const MONETARY_SCALE: nat := 2
  const ZERO := Decimal(0, 0)

  // ---------------------------------------------------------------------- powers of ten

  function Pow10(exponent: nat): (power: int)
    ensures power >= 1
  {
    if exponent == 0 then 1 else 10 * Pow10(exponent - 1)
  }

  method ComputePow10(exponent: nat) returns (power: int)
    ensures power == Pow10(exponent)
  {
    power := 1;
    for i := 0 to exponent
      invariant power == Pow10(i)
    {
      power := power * 10;
    }
  }

  lemma {:induction false} Pow10Adds(a: nat, b: nat)
    ensures Pow10(a + b) == Pow10(a) * Pow10(b)
  {
    if a > 0 {
      Pow10Adds(a - 1, b);
      assert Pow10(a + b) == 10 * (Pow10(a - 1) * Pow10(b)) == (10 * Pow10(a - 1)) * Pow10(b);
    }
  }

  /** A product that keeps its first factor in sight. */
  lemma Regroup(x: int, y: int, z: int)
    ensures x * y * z == x * (y * z)
  {}

  // ---------------------------------------------------------------------- division as on a bigint

  function Abs(x: int): nat {
    if x < 0 then -x else x
  }

  /** Division that truncates toward zero. */
  function Quotient(x: int, divisor: int): int
    requires divisor > 0
  {
    if x < 0 then -((-x) / divisor) else x / divisor
  }

  /** The remainder that goes with it: it has the sign of `x`. */
  function Remainder(x: int, divisor: int): int
    requires divisor > 0
  {
    x - Quotient(x, divisor) * divisor
  }

  /** `multiple` is the multiple of `divisor` nearest to `x`, a tie going away from zero. */
  predicate IsNear(x: int, divisor: int, multiple: int) {
    && 2 * Abs(x - multiple) <= divisor
    && (2 * Abs(x - multiple) == divisor ==> Abs(multiple) > Abs(x))
  }

  /** `q` is `x / divisor` to the nearest integer, a tie going away from zero. */
  predicate IsNearest(x: int, divisor: int, q: int) {
    IsNear(x, divisor, q * divisor)
  }

  lemma MultiplesApart(p: int, q: int, divisor: int)
    requires divisor > 0
    ensures p < q ==> p * divisor + divisor <= q * divisor
    ensures q < p ==> q * divisor + divisor <= p * divisor
  {
    if p < q {
      Grows(q - p, divisor);
      assert (q - p) * divisor == q * divisor - p * divisor;
    } else if q < p {
      Grows(p - q, divisor);
      assert (p - q) * divisor == p * divisor - q * divisor;
    }
  }

  lemma NearestIsUnique(x: int, divisor: int, p: int, q: int)
    requires divisor > 0 && IsNearest(x, divisor, p) && IsNearest(x, divisor, q)
    ensures p == q
  {
    MultiplesApart(p, q, divisor);
    MultiplesApart(p, 0, divisor);
    MultiplesApart(q, 0, divisor);
    OneNearMultiple(x, divisor, p * divisor, q * divisor);
  }

  lemma OneNearMultiple(x: int, divisor: int, a: int, b: int)
    requires divisor > 0 && IsNear(x, divisor, a) && IsNear(x, divisor, b)
    ensures Abs(a - b) <= divisor
    ensures (a >= 0 && b >= 0) || (a <= 0 && b <= 0) ==> Abs(a - b) < divisor
  {}

  lemma Grows(n: int, divisor: int)
    requires n >= 1 && divisor > 0
    ensures n * divisor >= divisor
  {
    assert n * divisor == divisor + (n - 1) * divisor;
    assert (n - 1) * divisor >= 0;
  }

  function Rounded(x: int, divisor: int): int
    requires divisor > 0
  {
    if 2 * Abs(Remainder(x, divisor)) >= divisor then Quotient(x, divisor) + (if x < 0 then -1 else 1)
    else Quotient(x, divisor)
  }

  lemma RoundedIsNearest(x: int, divisor: int)
    requires divisor > 0
    ensures IsNearest(x, divisor, Rounded(x, divisor))
  {
    var n: nat := Abs(x);
    var k, r := n / divisor, n % divisor;
    hide IsNear;
    Parts(n, divisor);
    Negated(k, divisor);
    Negated(k + 1, divisor);
    Successor(k, divisor);
    NearBelow(n, divisor, k * divisor, r);
    RoundedParts(x, divisor, k, r);
  }

  lemma Parts(n: nat, divisor: int)
    requires divisor > 0
    ensures n / divisor >= 0 && 0 <= n % divisor < divisor
    ensures n == (n / divisor) * divisor + n % divisor && (n / divisor) * divisor >= 0
  {}

  lemma RoundedParts(x: int, divisor: int, k: int, r: int)
    requires divisor > 0 && k == Abs(x) / divisor && r == Abs(x) % divisor && Abs(x) == k * divisor + r && (-k) * divisor == -(k * divisor)
    ensures Rounded(x, divisor) == (if x < 0 then -1 else 1) * (if 2 * r >= divisor then k + 1 else k)
  {}

  lemma Negated(k: int, divisor: int)
    ensures (-k) * divisor == -(k * divisor)
  {}

  lemma Successor(k: int, divisor: int)
    ensures (k + 1) * divisor == k * divisor + divisor
  {}

  lemma NearBelow(n: int, divisor: int, m: int, r: int)
    requires divisor > 0 && n == m + r && 0 <= r < divisor && m >= 0
    ensures 2 * r >= divisor ==> IsNear(n, divisor, m + divisor) && IsNear(-n, divisor, -(m + divisor))
    ensures 2 * r < divisor ==> IsNear(n, divisor, m) && IsNear(-n, divisor, -m)
  {}

  lemma RoundedIsOdd(x: int, divisor: int)
    requires divisor > 0
    ensures Rounded(-x, divisor) == -Rounded(x, divisor)
  {
    RoundedIsNearest(x, divisor);
    RoundedIsNearest(-x, divisor);
    hide Rounded;
    Negated(Rounded(x, divisor), divisor);
    NearestIsUnique(-x, divisor, -Rounded(x, divisor), Rounded(-x, divisor));
  }

  lemma RoundedIsMonotone(x: int, y: int, divisor: int)
    requires divisor > 0 && x <= y
    ensures Rounded(x, divisor) <= Rounded(y, divisor)
  {
    RoundedIsNearest(x, divisor);
    RoundedIsNearest(y, divisor);
    hide Rounded;
    MultiplesApart(Rounded(y, divisor), Rounded(x, divisor), divisor);
    if x < y {
      NearIsMonotone(x, y, divisor, Rounded(x, divisor) * divisor, Rounded(y, divisor) * divisor);
    }
  }

  lemma NearIsMonotone(x: int, y: int, divisor: int, a: int, b: int)
    requires divisor > 0 && x < y && IsNear(x, divisor, a) && IsNear(y, divisor, b)
    ensures a < b + divisor
  {}

  lemma RoundedOfMultiple(x: int, divisor: int)
    requires divisor > 0
    ensures Rounded(x * divisor, divisor) == x
  {
    RoundedIsNearest(x * divisor, divisor);
    hide Rounded;
    NearestIsUnique(x * divisor, divisor, x, Rounded(x * divisor, divisor));
  }

  lemma RoundedScales(x: int, divisor: int, k: int)
    requires divisor > 0 && k > 0 && divisor * k > 0
    ensures Rounded(x * k, divisor * k) == Rounded(x, divisor)
  {
    RoundedIsNearest(x, divisor);
    RoundedIsNearest(x * k, divisor * k);
    hide Rounded;
    var q := Rounded(x, divisor);
    Regroup(q, divisor, k);
    NearScales(x, divisor, q * divisor, k);
    NearestIsUnique(x * k, divisor * k, q, Rounded(x * k, divisor * k));
  }

  lemma NearScales(x: int, divisor: int, m: int, k: int)
    requires k > 0 && IsNear(x, divisor, m)
    ensures IsNear(x * k, divisor * k, m * k)
  {
    assert x * k - m * k == (x - m) * k;
    AbsScales(x - m, k);
    AbsScales(x, k);
    AbsScales(m, k);
    Orders(2 * Abs(x - m), divisor, k);
    Orders(Abs(x), Abs(m), k);
    assert 2 * Abs(x - m) * k == 2 * (Abs(x - m) * k);
  }

  lemma Orders(x: int, y: int, k: int)
    requires k > 0
    ensures x <= y <==> x * k <= y * k
    ensures x < y <==> x * k < y * k
  {
    MultiplesApart(x, y, k);
  }

  lemma AbsScales(x: int, k: int)
    requires k > 0
    ensures Abs(x * k) == Abs(x) * k
  {
    Negated(x, k);
    Orders(x, 0, k);
  }

  // ---------------------------------------------------------------------- the operations

  function Rescale(d: Decimal, scale: nat): Decimal {
    if d.scale == scale then d
    else if scale > d.scale then Decimal(d.value * Pow10(scale - d.scale), scale)
    else
      var divisor := Pow10(d.scale - scale);
      var quotient := Quotient(d.value, divisor);
      var remainder := Remainder(d.value, divisor);
      if Abs(remainder) * 2 >= divisor then Decimal(quotient + (if d.value < 0 then -1 else 1), scale)
      else Decimal(quotient, scale)
  }

  function Max(a: nat, b: nat): nat {
    if a < b then b else a
  }

  function Align(a: Decimal, b: Decimal): (int, int, nat) {
    var scale := Max(a.scale, b.scale);
    (Rescale(a, scale).value, Rescale(b, scale).value, scale)
  }

  function Add(a: Decimal, b: Decimal): Decimal {
    var (x, y, scale) := Align(a, b);
    Decimal(x + y, scale)
  }

  function Subtract(a: Decimal, b: Decimal): Decimal {
    var (x, y, scale) := Align(a, b);
    Decimal(x - y, scale)
  }

  function Multiply(a: Decimal, b: Decimal): Decimal {
    Decimal(a.value * b.value, a.scale + b.scale)
  }

  function SumFrom(start: Decimal, values: seq<Decimal>): Decimal {
    if values == [] then start
    else Add(SumFrom(start, values[..|values| - 1]), values[|values| - 1])
  }

  /** Starts at zero at monetary scale. */
  function Sum(values: seq<Decimal>): Decimal {
    SumFrom(Decimal(0, MONETARY_SCALE), values)
  }

  function Compare(a: Decimal, b: Decimal): int {
    var (x, y, _) := Align(a, b);
    if x < y then -1 else if x > y then 1 else 0
  }

  function EqualsAtMonetaryScale(a: Decimal, b: Decimal): bool {
    Compare(Rescale(a, MONETARY_SCALE), Rescale(b, MONETARY_SCALE)) == 0
  }

  function IsZero(d: Decimal): bool {
    d.value == 0
  }

  function Negate(d: Decimal): Decimal {
    Decimal(-d.value, d.scale)
  }

  // ---------------------------------------------------------------------- what they mean

  ghost function Ratio(x: int, p: int): (r: real)
    requires p > 0
    ensures r * p as real == x as real
  {
    x as real / p as real
  }

  ghost function Value(d: Decimal): real {
    Ratio(d.value, Pow10(d.scale))
  }

  ghost function RealAbs(x: real): real {
    if x < 0.0 then -x else x
  }

  /** Half of the last digit kept. */
  ghost function HalfUnit(scale: nat): real {
    0.5 * Value(Decimal(1, scale))
  }

  lemma SameProduct(a: real, b: real, p: real)
    requires p > 0.0 && a * p == b * p
    ensures a == b
  {
    assert a == a * p / p && b == b * p / p;
  }

  lemma RatioScales(x: int, p: int, k: int)
    requires p > 0 && k > 0 && p * k > 0
    ensures Ratio(x * k, p * k) == Ratio(x, p)
  {
    var a, b := Ratio(x * k, p * k), Ratio(x, p);
    assert (p * k) as real == p as real * k as real;
    assert (x * k) as real == x as real * k as real;
    assert b * (p as real * k as real) == (b * p as real) * k as real;
    hide Ratio;
    SameProduct(a, b, p as real * k as real);
  }

  lemma RatioOrders(x: int, y: int, p: int)
    requires p > 0
    ensures x < y <==> Ratio(x, p) < Ratio(y, p)
    ensures x <= y <==> Ratio(x, p) <= Ratio(y, p)
  {
    var a, b := Ratio(x, p), Ratio(y, p);
    hide Ratio;
    RealOrders(a, b, p as real);
  }

  lemma RealOrders(a: real, b: real, p: real)
    requires p > 0.0
    ensures a < b <==> a * p < b * p
  {
    if a < b {
      assert (b - a) * p > 0.0;
    } else {
      assert (a - b) * p >= 0.0;
    }
  }

  lemma RatioAdds(x: int, y: int, p: int)
    requires p > 0
    ensures Ratio(x + y, p) == Ratio(x, p) + Ratio(y, p) && Ratio(x - y, p) == Ratio(x, p) - Ratio(y, p)
  {
    var a, b, c, d := Ratio(x, p), Ratio(y, p), Ratio(x + y, p), Ratio(x - y, p);
    hide Ratio;
    assert (a + b) * p as real == a * p as real + b * p as real;
    assert (a - b) * p as real == a * p as real - b * p as real;
    SameProduct(c, a + b, p as real);
    SameProduct(d, a - b, p as real);
  }

  lemma RatioAbs(x: int, p: int)
    requires p > 0
    ensures RealAbs(Ratio(x, p)) == Ratio(Abs(x), p)
  {
    RatioOrders(x, 0, p);
    RatioAdds(0, x, p);
    assert Ratio(0, p) == 0.0;
  }

  lemma RatioMultiplies(x: int, y: int, p: int, q: int)
    requires p > 0 && q > 0 && p * q > 0
    ensures Ratio(x * y, p * q) == Ratio(x, p) * Ratio(y, q)
  {
    var a, b, c := Ratio(x, p), Ratio(y, q), Ratio(x * y, p * q);
    hide Ratio;
    assert (p * q) as real == p as real * q as real && (x * y) as real == x as real * y as real;
    ProductOfProducts(a, p as real, b, q as real);
    SameProduct(c, a * b, p as real * q as real);
  }

  lemma ProductOfProducts(a: real, p: real, b: real, q: real)
    ensures (a * b) * (p * q) == (a * p) * (b * q)
  {}

  lemma RescaleIsRounded(d: Decimal, scale: nat)
    requires scale < d.scale
    ensures Rescale(d, scale) == Decimal(Rounded(d.value, Pow10(d.scale - scale)), scale)
  {}

  lemma ScaledUpHasSameValue(value: int, scale: nat, more: nat)
    ensures Value(Decimal(value * Pow10(more), scale + more)) == Value(Decimal(value, scale))
  {
    Pow10Adds(scale, more);
    RatioScales(value, Pow10(scale), Pow10(more));
  }

  /** Raising the scale is lossless. */
  lemma RescaleUpIsExact(d: Decimal, scale: nat)
    requires scale >= d.scale
    ensures Rescale(d, scale).scale == scale && Value(Rescale(d, scale)) == Value(d)
  {
    if scale > d.scale {
      ScaledUpHasSameValue(d.value, d.scale, scale - d.scale);
    }
  }

  /** Rounding error is at most half a unit, and at exactly half it goes away from zero. */
  lemma RescaleDownIsNearest(d: Decimal, scale: nat)
    requires scale < d.scale
    ensures RealAbs(Value(Rescale(d, scale)) - Value(d)) <= HalfUnit(scale)
    ensures RealAbs(Value(Rescale(d, scale)) - Value(d)) == HalfUnit(scale) ==>
              RealAbs(Value(Rescale(d, scale))) > RealAbs(Value(d))
  {
    var more := d.scale - scale;
    var divisor := Pow10(more);
    RescaleIsRounded(d, scale);
    RoundedIsNearest(d.value, divisor);
    hide Rounded, Rescale, Ratio;
    var q := Rounded(d.value, divisor);
    ScaledUpHasSameValue(q, scale, more);
    ScaledUpHasSameValue(1, scale, more);
    NearIsWithinHalf(d.value, divisor, q * divisor, Pow10(d.scale));
  }

  lemma NearIsWithinHalf(x: int, divisor: int, m: int, p: int)
    requires p > 0 && IsNear(x, divisor, m)
    ensures RealAbs(Ratio(m, p) - Ratio(x, p)) <= 0.5 * Ratio(divisor, p)
    ensures RealAbs(Ratio(m, p) - Ratio(x, p)) == 0.5 * Ratio(divisor, p) ==> RealAbs(Ratio(m, p)) > RealAbs(Ratio(x, p))
  {
    var e := Abs(m - x);
    RatioAdds(m, x, p);
    RatioAbs(m - x, p);
    RatioAdds(e, e, p);
    RatioOrders(e + e, divisor, p);
    RatioAbs(m, p);
    RatioAbs(x, p);
    RatioOrders(Abs(x), Abs(m), p);
  }

  /** Nothing else at that scale is closer. */
  lemma RescaleIsClosest(d: Decimal, scale: nat, other: int)
    requires scale < d.scale
    ensures RealAbs(Value(Rescale(d, scale)) - Value(d)) <= RealAbs(Value(Decimal(other, scale)) - Value(d))
  {
    var more := d.scale - scale;
    var divisor, p := Pow10(more), Pow10(d.scale);
    RescaleIsRounded(d, scale);
    RoundedIsNearest(d.value, divisor);
    hide Rounded, Rescale, Ratio;
    var q := Rounded(d.value, divisor);
    ScaledUpHasSameValue(q, scale, more);
    ScaledUpHasSameValue(other, scale, more);
    MultiplesApart(q, other, divisor);
    var m, o := q * divisor, other * divisor;
    assert Abs(m - d.value) <= Abs(o - d.value);
    RatioAdds(m, d.value, p);
    RatioAdds(o, d.value, p);
    RatioAbs(m - d.value, p);
    RatioAbs(o - d.value, p);
    RatioOrders(Abs(m - d.value), Abs(o - d.value), p);
  }

  lemma RescaleIsOdd(d: Decimal, scale: nat)
    ensures Rescale(Negate(d), scale) == Negate(Rescale(d, scale))
  {
    if scale > d.scale {
      Negated(d.value, Pow10(scale - d.scale));
    } else if scale < d.scale {
      RoundedIsOdd(d.value, Pow10(d.scale - scale));
      RescaleIsRounded(d, scale);
      RescaleIsRounded(Negate(d), scale);
      hide Rounded, Rescale;
    }
  }

  /** Scaling up and back down is the identity. */
  lemma RescaleUpIsUndone(d: Decimal, scale: nat)
    requires scale >= d.scale
    ensures Rescale(Rescale(d, scale), d.scale) == d
  {
    if scale > d.scale {
      RoundedOfMultiple(d.value, Pow10(scale - d.scale));
      RescaleIsRounded(Rescale(d, scale), d.scale);
      hide Rounded;
    }
  }

  /** Going up first makes no difference to where a decimal ends up. */
  lemma RescaleIgnoresTrailingZeros(d: Decimal, up: nat, scale: nat)
    requires up > d.scale
    ensures Rescale(Rescale(d, up), scale) == Rescale(d, scale)
  {
    var u := Rescale(d, up);
    var more := up - d.scale;
    if scale >= up {
      Pow10Adds(more, scale - up);
      Regroup(d.value, Pow10(more), Pow10(scale - up));
    } else {
      RescaleIsRounded(u, scale);
      if scale >= d.scale {
        var part := d.value * Pow10(scale - d.scale);
        Pow10Adds(scale - d.scale, up - scale);
        Regroup(d.value, Pow10(scale - d.scale), Pow10(up - scale));
        RoundedOfMultiple(part, Pow10(up - scale));
        assert u.value == part * Pow10(up - scale);
      } else {
        RescaleIsRounded(d, scale);
        Pow10Adds(d.scale - scale, more);
        RoundedScales(d.value, Pow10(d.scale - scale), Pow10(more));
      }
    }
  }

  lemma AddIsExact(a: Decimal, b: Decimal)
    ensures Value(Add(a, b)) == Value(a) + Value(b) && Value(Subtract(a, b)) == Value(a) - Value(b)
  {
    var scale := Max(a.scale, b.scale);
    RescaleUpIsExact(a, scale);
    RescaleUpIsExact(b, scale);
    RatioAdds(Rescale(a, scale).value, Rescale(b, scale).value, Pow10(scale));
  }

  lemma MultiplyIsExact(a: Decimal, b: Decimal)
    ensures Value(Multiply(a, b)) == Value(a) * Value(b)
  {
    Pow10Adds(a.scale, b.scale);
    RatioMultiplies(a.value, b.value, Pow10(a.scale), Pow10(b.scale));
  }

  lemma CompareIsExact(a: Decimal, b: Decimal)
    ensures Compare(a, b) == if Value(a) < Value(b) then -1 else if Value(a) > Value(b) then 1 else 0
  {
    var scale := Max(a.scale, b.scale);
    RescaleUpIsExact(a, scale);
    RescaleUpIsExact(b, scale);
    RatioOrders(Rescale(a, scale).value, Rescale(b, scale).value, Pow10(scale));
    RatioOrders(Rescale(b, scale).value, Rescale(a, scale).value, Pow10(scale));
    hide Rescale, Ratio;
  }

  /** Rounding never changes the order of two amounts, whatever their scales. */
  lemma RescaleIsMonotone(a: Decimal, b: Decimal, scale: nat)
    requires Value(a) <= Value(b)
    ensures Rescale(a, scale).value <= Rescale(b, scale).value
  {
    var up := Max(Max(a.scale, b.scale), scale) + 1;
    var x, y := Rescale(a, up), Rescale(b, up);
    RescaleUpIsExact(a, up);
    RescaleUpIsExact(b, up);
    RescaleIgnoresTrailingZeros(a, up, scale);
    RescaleIgnoresTrailingZeros(b, up, scale);
    RescaleIsRounded(x, scale);
    RescaleIsRounded(y, scale);
    hide Rescale, Ratio, Rounded;
    RatioOrders(x.value, y.value, Pow10(up));
    RoundedIsMonotone(x.value, y.value, Pow10(up - scale));
  }

  // ---------------------------------------------------------------------- sums at monetary scale

  function Total(amounts: seq<Decimal>): int {
    if amounts == [] then 0 else Total(amounts[..|amounts| - 1]) + amounts[|amounts| - 1].value
  }

  predicate AllMonetary(amounts: seq<Decimal>) {
    forall k :: 0 <= k < |amounts| ==> amounts[k].scale == MONETARY_SCALE
  }

  lemma {:induction false} MonetarySum(amounts: seq<Decimal>)
    requires AllMonetary(amounts)
    ensures Sum(amounts) == Decimal(Total(amounts), MONETARY_SCALE)
  {
    if amounts != [] {
      MonetarySum(amounts[..|amounts| - 1]);
    }
  }
}
