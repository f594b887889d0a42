/** Integer and fixed-point arithmetic as java.lang and java.math.BigDecimal perform it. */
module Numbers {

  function Abs(x: int): nat
  {
    if x < 0 then -x else x
  }

  function Pow10(k: nat): (p: nat)
    ensures p >= 1
  {
    if k == 0 then 1 else 10 * Pow10(k - 1)
  }

  /** Java's `/` on `long`: the quotient truncated toward zero. */
  function JavaDiv(a: int, b: int): (q: int)
    requires b > 0
    ensures a >= 0 ==> 0 <= a - q * b < b
    ensures a < 0 ==> -b < a - q * b <= 0
  {
    if a >= 0 then a / b else -((-a) / b)
  }

  /** The nearest whole number to n / d for n >= 0 and d > 0, a tie going down. */
  function RoundHalfDownNonNeg(n: nat, d: int): (r: nat)
    requires d > 0
    ensures 2 * Abs(n - r * d) <= d
    ensures 2 * Abs(n - r * d) == d ==> r * d <= n
  {
    var q, m := n / d, n % d;
    assert n == q * d + m && 0 <= m < d;
    if 2 * m > d then
      assert n - (q + 1) * d == m - d;
      q + 1
    else
      assert n - q * d == m;
      q
  }

  /**
   * The integer nearest to n / d, where a tie goes toward zero
   * (java.math.RoundingMode.HALF_DOWN).
   */
  function RoundHalfDown(n: int, d: int): (r: int)
    requires d != 0
    ensures 2 * Abs(n - r * d) <= Abs(d)
    ensures 2 * Abs(n - r * d) == Abs(d) ==> Abs(r * d) <= Abs(n)
  {
    var r0 := RoundHalfDownNonNeg(Abs(n), Abs(d));
    var r: int := if (n < 0) == (d < 0) then r0 else -(r0 as int);
    SignFlip(n, d, r0, r);
    r
  }

  /** Moving the signs of n and d onto the quotient keeps distances and magnitudes. */
  lemma SignFlip(n: int, d: int, r0: int, r: int)
    requires d != 0
    requires r == if (n < 0) == (d < 0) then r0 else -r0
    ensures Abs(n - r * d) == Abs(Abs(n) - r0 * Abs(d))
    ensures Abs(r * d) == Abs(r0 * Abs(d))
  {
    if d < 0 {
      assert r * d == -(r * -d);
      if n < 0 {
        assert r * d == r0 * d;
        assert n - r * d == -(Abs(n) - r0 * Abs(d));
      } else {
        assert r * d == -r0 * d;
        assert n - r * d == Abs(n) - r0 * Abs(d);
      }
    } else {
      if n < 0 {
        assert r * d == -(r0 * d);
        assert n - r * d == -(Abs(n) - r0 * Abs(d));
      } else {
        assert n - r * d == Abs(n) - r0 * Abs(d);
      }
    }
  }

  /** A BigDecimal: the value unscaled / 10^scale. Only non-negative scales occur here. */
  datatype Decimal = Decimal(unscaled: int, scale: nat)

  /** The scale the extractor asks for when it inverts an exchange rate. */
  const RateScale: nat := 10

  /**
   * `BigDecimal.ONE.divide(r, 10, RoundingMode.HALF_DOWN)`: 1 / r to ten decimal
   * places. Java throws for a zero divisor; callers check for that first.
   * The result differs from the exact 1 / r by at most half a unit in the tenth place.
   */
  function Reciprocal(r: Decimal): (q: Decimal)
    requires r.unscaled != 0
    ensures q.scale == RateScale
    ensures 2 * Abs(q.unscaled * r.unscaled - Pow10(r.scale + RateScale)) <= Abs(r.unscaled)
    ensures 2 * Abs(q.unscaled * r.unscaled - Pow10(r.scale + RateScale)) == Abs(r.unscaled) ==>
              Abs(q.unscaled * r.unscaled) <= Pow10(r.scale + RateScale)
  {
    var n := Pow10(r.scale + RateScale);
    var u := RoundHalfDown(n, r.unscaled);
    assert 2 * Abs(n - u * r.unscaled) <= Abs(r.unscaled);
    assert Abs(u * r.unscaled - n) == Abs(n - u * r.unscaled);
    assert Abs(u * r.unscaled) == Abs(r.unscaled * u);
    Decimal(u, RateScale)
  }

  /**
   * `rate.multiply(BigDecimal.valueOf(amount)).setScale(0, RoundingMode.HALF_DOWN)`
   * for a rate of scale ten: the whole number nearest to amount * rate, ties toward zero.
   */
  function ScaleToWhole(rate: Decimal, amount: int): (r: int)
    requires rate.scale == RateScale
    ensures 2 * Abs(r * Pow10(RateScale) - rate.unscaled * amount) <= Pow10(RateScale)
    ensures 2 * Abs(r * Pow10(RateScale) - rate.unscaled * amount) == Pow10(RateScale) ==>
              Abs(r * Pow10(RateScale)) <= Abs(rate.unscaled * amount)
  {
    var n := rate.unscaled * amount;
    var w := RoundHalfDown(n, Pow10(RateScale));
    assert Abs(w * Pow10(RateScale) - n) == Abs(n - w * Pow10(RateScale));
    w
  }
}
