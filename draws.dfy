/**
 * Random draws. A call of `Math.random()` is a parameter of the model: the
 * exact fraction u / Resolution of [0, 1). Expressions such as
 * `Math.floor(Math.random() * n)` are evaluated exactly on that fraction.
 */
module Draws {

  /** The grid of the fractions a draw can take (2^53). */
  const Resolution: int := 0x20_0000_0000_0000

  /** One draw of `Math.random()`, as the numerator of its fraction. */
  type Unit = u: int | 0 <= u < Resolution

  /** The quotient of `x` by `d` lies in [lo, hi] exactly when `x` lies in [d * lo, d * (hi + 1)). */
  lemma {:induction false} DivWithin(x: int, d: int, lo: int, hi: int)
    requires 0 < d
    requires d * lo <= x < d * (hi + 1)
    ensures lo <= x / d <= hi
  {
    var q := x / d;
    assert d * q <= x < d * q + d;
    if q < lo {
      MulMonotone(d, q + 1, lo);
      assert false;
    }
    if q > hi {
      MulMonotone(d, hi + 1, q);
      assert false;
    }
  }

  /** Multiplying by a non-negative number keeps the order. */
  lemma {:induction false} MulMonotone(d: int, a: int, b: int)
    requires 0 <= d && a <= b
    ensures d * a <= d * b
  {
    var k := b - a;
    assert d * b == d * a + d * k;
    MulNonNegative(d, k);
  }

  /** The product of two non-negative numbers is non-negative. */
  lemma {:induction false} MulNonNegative(a: int, b: int)
    requires 0 <= a && 0 <= b
    ensures 0 <= a * b
  {
    if b > 0 {
      MulNonNegative(a, b - 1);
      assert a * b == a * (b - 1) + a;
    }
  }

  /**
   * The product `a * b` of a quantity and a draw (or another non-negative
   * factor), as repeated addition; `ProductIsMultiplication` states that it
   * is the ordinary product.
   */
  function Product(a: int, b: nat): int {
    if b == 0 then 0 else Product(a, b - 1) + a
  }

  lemma {:induction false} ProductIsMultiplication(a: int, b: nat)
    ensures Product(a, b) == a * b
  {
    if b > 0 {
      ProductIsMultiplication(a, b - 1);
    }
  }

  /** `Math.floor(Math.random() * n)` for a draw `u`. */
  function Scaled(u: Unit, n: int): (k: int)
    ensures 0 < n ==> 0 <= k < n
    ensures n == 0 ==> k == 0
  {
    ProductIsMultiplication(n, u);
    if 0 < n then
      MulNonNegative(n, u);
      MulMonotone(n, u, Resolution - 1);
      assert Resolution * n == n * (Resolution - 1) + n;
      DivWithin(n * u, Resolution, 0, n - 1);
      Product(n, u) / Resolution
    else
      Product(n, u) / Resolution
  }

  /** `Math.floor(Math.random() * (max - min + 1)) + min`: an integer of [min, max]. */
  function Random(min: int, max: int, u: Unit): (r: int)
    ensures min <= max ==> min <= r <= max
  {
    Scaled(u, max - min + 1) + min
  }

  /** `Math.random() > 0.5`. */
  predicate AboveHalf(u: Unit) {
    2 * u > Resolution
  }
}
