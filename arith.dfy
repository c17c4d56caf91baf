/** Facts about integer multiplication, division and remainder that the
    slot grid and the calendar rely on. Dafny's `/` and `%` are Euclidean:
    for a positive divisor they are floor division and a non-negative remainder. */
module Arith {

  lemma MulMonotone(a: int, b: int, c: int)
    requires a <= b && c > 0
    ensures a * c <= b * c
  {
  }

  /** Division by a positive number is determined by quotient and remainder. */
  lemma DivModUnique(x: int, n: int, q: int, r: int)
    requires n > 0 && x == q * n + r && 0 <= r < n
    ensures x / n == q && x % n == r
  {
    var d, e := x / n, x % n;
    assert (q - d) * n == e - r;
    if q - d >= 1 {
      MulMonotone(1, q - d, n);
    } else if q - d <= -1 {
      MulMonotone(q - d, -1, n);
    }
  }

  lemma MulModZero(q: int, n: int)
    requires n > 0
    ensures (q * n) % n == 0 && (q * n) / n == q
  {
    DivModUnique(q * n, n, q, 0);
  }

  /** A number and its negation are multiples of `n` together. */
  lemma NegModZero(a: int, n: int)
    requires n > 0
    ensures ((-a) % n == 0) == (a % n == 0)
  {
    if a % n == 0 {
      var q := a / n;
      assert -a == (-q) * n;
      MulModZero(-q, n);
    }
    if (-a) % n == 0 {
      var q := (-a) / n;
      assert a == (-q) * n;
      MulModZero(-q, n);
    }
  }

  /** Stepping the dividend by one steps the floor quotient exactly when the
      new dividend is a multiple. */
  lemma DivStep(a: int, n: int)
    requires n > 0
    ensures (a + 1) / n == a / n + (if (a + 1) % n == 0 then 1 else 0)
  {
    var q, r := a / n, a % n;
    if r + 1 < n {
      DivModUnique(a + 1, n, q, r + 1);
    } else {
      DivModUnique(a + 1, n, q + 1, 0);
    }
  }

  /** A multiple of `m * k` is a multiple of `m`. */
  lemma MultipleOfMultiple(x: int, m: int, k: int)
    requires m > 0 && k > 0 && x % (m * k) == 0
    ensures x % m == 0
  {
    var q := x / (m * k);
    assert x == (q * k) * m;
    MulModZero(q * k, m);
  }
}
