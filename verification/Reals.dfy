/** Facts about products of reals that the solver does not find by itself. */
module Reals {
  lemma NonnegProduct(a: real, b: real)
    requires a >= 0.0 && b >= 0.0
    ensures a * b >= 0.0
  {
  }

  lemma Scaled(n: real, p: real)
    requires n >= 0.0 && 0.0 <= p <= 1.0
    ensures 0.0 <= n * p <= n
  {
    assert n - n * p == n * (1.0 - p);
    NonnegProduct(n, p);
    NonnegProduct(n, 1.0 - p);
  }

  lemma ProductSign(x: real, y: real, q: real)
    requires q == x * y
    ensures (x >= 0.0 && y >= 0.0) || (x <= 0.0 && y <= 0.0) ==> q >= 0.0
    ensures (x > 0.0 && y > 0.0) || (x < 0.0 && y < 0.0) ==> q > 0.0
  {
  }

  lemma Quotient(x: real, y: real) returns (q: real)
    requires 0.0 <= x <= y && 0.0 < y
    ensures 0.0 <= q <= 1.0 && q * y == x
  {
    q := x / y;
  }
}
