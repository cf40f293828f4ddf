/** Integer models of the arithmetic the pages borrow from PHP: absolute value,
    min/max, and `round(n / d)`, which rounds to the nearest integer with ties
    away from zero. */
module Rounding {

  function Abs(x: int): (r: nat)
    ensures r == x || r == -x
  {
    if x < 0 then -x else x
  }

  function Min(a: int, b: int): (r: int)
    ensures r <= a && r <= b && (r == a || r == b)
  {
    if a <= b then a else b
  }

  function Max(a: int, b: int): (r: int)
    ensures r >= a && r >= b && (r == a || r == b)
  {
    if a >= b then a else b
  }

  /** PHP's `round(n / d)` for a positive divisor, on exact rationals:
      the nearest integer to n/d, a tie going away from zero. The two
      bracketings below pin the result down uniquely (RoundDivUnique). */
  function RoundDiv(n: int, d: int): (r: int)
    requires d > 0
    ensures n >= 0 ==> -d < 2 * (d * r - n) <= d
    ensures n < 0 ==> -d <= 2 * (d * r - n) < d
    ensures n >= 0 ==> r >= 0
    ensures n <= 0 ==> r <= 0
  {
    if n >= 0 then HalfUp(n, d) else -(HalfUp(-n, d) as int)
  }

  /** round(n / d) for n >= 0: floor(n/d + 1/2). */
  function HalfUp(n: nat, d: int): (q: nat)
    requires d > 0
    ensures -d < 2 * (d * q - n) <= d
  {
    var q := (2 * n + d) / (2 * d);
    assert 2 * d * q <= 2 * n + d < 2 * d * q + 2 * d by {
      DivBounds(2 * n + d, 2 * d);
    }
    q
  }

  lemma DivBounds(a: nat, b: int)
    requires b > 0
    ensures b * (a / b) <= a < b * (a / b) + b
  {
  }

  /** Any integer within the rounding bracket of n/d is round(n / d). */
  lemma RoundDivUnique(n: int, d: int, r: int)
    requires d > 0
    requires n >= 0 ==> -d < 2 * (d * r - n) <= d
    requires n < 0 ==> -d <= 2 * (d * r - n) < d
    ensures r == RoundDiv(n, d)
  {
    var q := RoundDiv(n, d);
    if r < q {
      MulStep(d, r, q);
    } else if r > q {
      MulStep(d, q, r);
    }
  }

  /** Consecutive multiples of d are d apart. */
  lemma MulStep(d: int, a: int, b: int)
    requires d > 0 && a < b
    ensures d * a + d <= d * b
  {
    var k := b - a;
    assert d * b == d * a + d * k;
    assert d * k >= d by {
      MulAtLeast(d, k);
    }
  }

  lemma MulAtLeast(d: int, k: int)
    requires d > 0 && k >= 1
    ensures d * k >= d
  {
    assert d * k == d + d * (k - 1);
  }

  /** Multiplying by a positive factor keeps the order. */
  lemma MulUpTo(d: int, a: int, b: int)
    requires d > 0 && a <= b
    ensures d * a <= d * b
  {
    assert d * b - d * a == d * (b - a);
  }

  /** Rounding is monotone in the numerator. */
  lemma RoundDivMonotone(n1: int, n2: int, d: int)
    requires d > 0 && n1 <= n2
    ensures RoundDiv(n1, d) <= RoundDiv(n2, d)
  {
    var r1, r2 := RoundDiv(n1, d), RoundDiv(n2, d);
    if r1 > r2 {
      MulStep(d, r2, r1);
    }
  }
}
