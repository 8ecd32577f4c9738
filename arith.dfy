/** Facts about floors and Euclidean division that the time arithmetic relies on. */
module Arith {
  /** Floor of an exact quotient is Euclidean division (the divisor is positive). */
  lemma FloorOfQuotient(x: int, n: int)
    requires n > 0
    ensures (x as real / n as real).Floor == x / n
  {
    var q, r := x / n, x % n;
    assert x == q * n + r && 0 <= r < n;
    assert x as real / n as real == q as real + r as real / n as real;
    assert 0.0 <= r as real / n as real < 1.0;
  }

  /** Subtracting a whole number commutes with floor. */
  lemma FloorShift(y: real, k: int)
    ensures (y - k as real).Floor == y.Floor - k
  {
  }

  /** Euclidean division is determined by a quotient and an in-range remainder. */
  lemma DivUnique(x: int, n: int, q: int, r: int)
    requires n > 0 && x == q * n + r && 0 <= r < n
    ensures x / n == q && x % n == r
  {
    var d := q - x / n;
    assert d * n == x % n - r;
    MulBound(d, n);
  }

  /** A non-zero multiple of `n` is at least `n` away from zero. */
  lemma MulBound(d: int, n: int)
    requires n > 0
    ensures d >= 1 ==> d * n >= n
    ensures d <= -1 ==> d * n <= -n
  {
  }

  /** Dividing twice is dividing by the product. */
  lemma DivDiv(x: int, a: int, b: int)
    requires a > 0 && b > 0
    ensures x / a / b == x / (a * b)
  {
    var q, r := x / a, x % a;
    var q2, r2 := q / b, q % b;
    assert x == q2 * (a * b) + (r2 * a + r) by {
      assert x == q * a + r;
      assert q == q2 * b + r2;
    }
    assert 0 <= r2 * a + r < a * b by {
      assert r2 <= b - 1;
      assert r2 * a <= (b - 1) * a;
    }
    DivUnique(x, a * b, q2, r2 * a + r);
  }
}
