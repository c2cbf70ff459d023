/** Facts about integer multiplication and division that the solver does not find unaided. */
module Arith {
  lemma MulAtLeast(d: int, n: int)
    requires d >= 1 && n > 0
    ensures d * n >= n
  {
    var e := d - 1;
    assert e * n >= 0;
    assert d * n == e * n + n;
  }

  lemma DivModUnique(x: int, n: int, q: int, r: int)
    requires n > 0 && 0 <= r < n && x == q * n + r
    ensures x / n == q && x % n == r
  {
    var q0, r0 := x / n, x % n;
    assert q * n + r == q0 * n + r0;
    if q > q0 {
      MulAtLeast(q - q0, n);
    } else if q < q0 {
      MulAtLeast(q0 - q, n);
    }
  }

  /** A remainder by a multiple of `n` keeps the remainder by `n`. */
  lemma ModOfMod(x: nat, n: nat, k: nat)
    requires n > 0 && k > 0
    ensures (x % (n * k)) % n == x % n
  {
    var m := n * k;
    var r := x % m;
    assert x == (x / m) * m + r;
    assert x == ((x / m) * k + r / n) * n + r % n;
    DivModUnique(x, n, (x / m) * k + r / n, r % n);
  }

  /** Multiplying by a non-negative number keeps an order. */
  lemma MulMonotone(a: int, b: int, n: int)
    requires a <= b && n >= 0
    ensures a * n <= b * n
  {
    if a < b && n > 0 {
      MulAtLeast(b - a, n);
      assert b * n == (b - a) * n + a * n;
    }
  }

  /** A positive factor may be cancelled from a strict inequality. */
  lemma MulCancelLess(a: int, b: int, n: int)
    requires n > 0 && a * n < b * n
    ensures a < b
  {
    if a >= b {
      MulMonotone(b, a, n);
    }
  }
}
