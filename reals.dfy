/**
  Small facts of exact real arithmetic that the proofs of the alias table
  use one at a time, so that no proof has to search for them.
 */
module Reals {

  lemma DivideBySelf(x: real)
    requires x != 0.0
    ensures x / x == 1.0
  {
  }

  lemma DivMul(x: real, d: real)
    requires d != 0.0
    ensures (x / d) * d == x
  {
  }

  lemma ZeroQuotient(x: real, d: real)
    requires d != 0.0 && x / d == 0.0
    ensures x == 0.0
  {
    DivMul(x, d);
  }

  lemma CancelFactor(x: real, n: real)
    requires n != 0.0
    ensures x * n / n == x
  {
  }

  lemma Associate(a: real, b: real, c: real)
    ensures a * (b * c) == (a * b) * c
  {
  }

  lemma CancelRight(a: real, b: real, x: real)
    requires x != 0.0 && a * x == b * x
    ensures a == b
  {
    DivMul(a * x, x);
    assert a == (a * x) / x;
  }

  /** x over the sum of n copies of x, scaled back by n, is exactly 1. */
  lemma CancelUniform(x: real, n: real)
    requires x != 0.0 && n != 0.0
    ensures (x / (n * x)) * n == 1.0
  {
    var q := x / (n * x);
    DivMul(x, n * x);
    Associate(q, n, x);
    CancelRight(q * n, 1.0, x);
  }

  /** Multiplying by a positive factor keeps order, both ways. */
  lemma ScaleOrder(x: real, y: real, n: real)
    requires 0.0 < n
    ensures x <= y <==> x * n <= y * n
    ensures x < y <==> x * n < y * n
  {
    assert y * n - x * n == (y - x) * n;
  }

  /** Comparing x with a quotient y / n, for positive n, is comparing x * n with y. */
  lemma QuotientOrder(y: real, x: real, n: real)
    requires 0.0 < n
    ensures y / n <= x <==> y <= x * n
    ensures x < y / n <==> x * n < y
  {
    DivMul(y, n);
    ScaleOrder(y / n, x, n);
    ScaleOrder(x, y / n, n);
  }

  /** Scaling a number of [0,1) by a positive n lands in [0,n). */
  lemma UnitScaled(u: real, n: real)
    requires 0.0 < n
    ensures 0.0 <= u < 1.0 ==> 0.0 <= u * n < n
  {
    if 0.0 <= u < 1.0 {
      ScaleOrder(0.0, u, n);
      ScaleOrder(u, 1.0, n);
    }
  }

  /** The floor of a number of [0,n) is an index of [0,n). */
  lemma FloorInRange(x: real, t: int, n: int)
    ensures 0.0 <= x < n as real && t as real <= x < t as real + 1.0 ==> 0 <= t < n
  {
  }

  /** The floor of x is the only integer c with c <= x < c + 1. */
  lemma FloorUnique(x: real, m: int, c: int)
    requires m as real <= x < m as real + 1.0
    ensures c as real <= x < c as real + 1.0 <==> m == c
  {
  }

  lemma NonNegativeQuotient(w: real, s: real)
    requires 0.0 <= w && 0.0 < s
    ensures 0.0 <= w / s
  {
  }

  lemma NonNegativeProduct(p: real, n: real)
    requires 0.0 <= p && 0.0 <= n
    ensures 0.0 <= p * n
  {
  }
}
