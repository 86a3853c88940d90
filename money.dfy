/** Fixed-point money. Prices and totals are integer cents (two decimal places);
    commission rates are integer hundredths of a percent (10.00 % is 1000).
    An amount in cents times a rate is in units of 1/10000 of a cent. */
module Money {

  /** The divisor that turns `cents * rate` back into cents: a rate of 100.00 % is 10000. */
  const RateScale: int := 10000

  /** The distance between two integers. */
  function Dist(a: int, b: int): nat {
    if a >= b then a - b else b - a
  }

  /** `n / d` rounded to the nearest integer, ties to the even neighbour: what
      `Decimal.quantize` does under the default context (ROUND_HALF_EVEN). */
  function RoundHalfEven(n: int, d: int): (r: int)
    requires 0 < d
    ensures 2 * Dist(n, r * d) <= d
    ensures 2 * Dist(n, r * d) == d ==> r % 2 == 0
  {
    var q, m := n / d, n % d;
    assert n == q * d + m;
    assert (q + 1) * d == q * d + d;
    if 2 * m < d then q
    else if 2 * m > d then q + 1
    else if q % 2 == 0 then q else q + 1
  }

  lemma MulAtLeastOnce(a: int, d: int)
    requires 1 <= a && 0 < d
    ensures d <= a * d
    ensures 2 <= a ==> 2 * d <= a * d
  {
    assert a * d == (a - 1) * d + d;
    assert 0 <= (a - 1) * d;
    if 2 <= a {
      assert a * d == (a - 2) * d + 2 * d;
      assert 0 <= (a - 2) * d;
    }
  }

  /** Two candidates that are both within half a step of `n` are equal or adjacent,
      and when they differ both are exact ties. */
  lemma HalfStepNeighbours(n: int, d: int, lo: int, hi: int)
    requires 0 < d && lo < hi
    requires 2 * Dist(n, lo * d) <= d && 2 * Dist(n, hi * d) <= d
    ensures hi == lo + 1
    ensures 2 * Dist(n, lo * d) == d && 2 * Dist(n, hi * d) == d
  {
    assert hi * d - lo * d == (hi - lo) * d;
    MulAtLeastOnce(hi - lo, d);
  }

  /** The two properties in the contract of RoundHalfEven determine its result:
      any integer nearest to `n / d`, with ties going to the even one, is it. */
  lemma {:induction false} RoundHalfEvenUnique(n: int, d: int, r: int)
    requires 0 < d
    requires 2 * Dist(n, r * d) <= d
    requires 2 * Dist(n, r * d) == d ==> r % 2 == 0
    ensures r == RoundHalfEven(n, d)
  {
    var r0 := RoundHalfEven(n, d);
    if r < r0 {
      HalfStepNeighbours(n, d, r, r0);
    } else if r0 < r {
      HalfStepNeighbours(n, d, r0, r);
    }
  }

  /** Multiplying by a nonnegative factor keeps the order of the other factors. */
  lemma MulMonotone(a: int, b: int, c: int)
    ensures 0 <= a && b <= c ==> a * b <= a * c
  {
    assert a * c - a * b == a * (c - b);
    if 0 <= a && b <= c {
      assert 0 <= a * (c - b);
    }
  }

  /** The commission, in cents, on an amount in cents at a rate in hundredths of a
      percent, rounded to the cent: `(total * rate / 100).quantize(Decimal('0.01'))`.
      Its properties are stated by CommissionRounds. */
  function Commission(amount: int, rate: int): int {
    RoundHalfEven(amount * rate, RateScale)
  }

  /** The commission is `amount * rate / 100 %` to the nearest cent, ties to the even
      cent; it is never negative on a nonnegative sale and never exceeds the sale at a
      rate of at most 100 %. */
  lemma CommissionRounds(amount: int, rate: int)
    ensures 2 * Dist(amount * rate, Commission(amount, rate) * RateScale) <= RateScale
    ensures 2 * Dist(amount * rate, Commission(amount, rate) * RateScale) == RateScale ==> Commission(amount, rate) % 2 == 0
    ensures 0 <= amount && 0 <= rate ==> 0 <= Commission(amount, rate)
    ensures 0 <= amount && 0 <= rate <= RateScale ==> Commission(amount, rate) <= amount
  {
    MulMonotone(amount, 0, rate);
    MulMonotone(amount, rate, RateScale);
  }

  /** Worked values: 59.97 at 10.00 % is 5.997, which rounds to 6.00; a commission
      of exactly half a cent rounds to the even cent (0.005 to 0.00, 0.015 to 0.02). */
  lemma CommissionExamples()
    ensures Commission(5997, 1000) == 600
    ensures Commission(5, 1000) == 0
    ensures Commission(15, 1000) == 2
  {
    RoundHalfEvenUnique(5997 * 1000, RateScale, 600);
    RoundHalfEvenUnique(5 * 1000, RateScale, 0);
    RoundHalfEvenUnique(15 * 1000, RateScale, 2);
  }
}
