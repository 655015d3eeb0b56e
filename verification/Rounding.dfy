/** Python's `round` on a quotient: nearest integer, ties to the even one
    (roundTiesToEven, section 4.3.1 of IEEE 754-2008), on exact rationals. */
module Rounding {
  function Round(num: int, den: int): int
    requires den > 0
  {
    var q, r := num / den, num % den;
    if 2 * r < den then q
    else if 2 * r > den then q + 1
    else if q % 2 == 0 then q else q + 1
  }

  lemma MulLe(a: int, b: int, k: int)
    requires a <= b && k >= 0
    ensures a * k <= b * k
  {}

  /** The result is within half a unit of the quotient. */
  lemma RoundIsNear(num: int, den: int)
    requires den > 0
    ensures 2 * num - den <= 2 * (den * Round(num, den)) <= 2 * num + den
  {
    var q, r := num / den, num % den;
    assert num == den * q + r;
    assert den * (q + 1) == den * q + den;
  }

  /** A quotient half way between two integers goes to the even one. */
  lemma TiesToEven(num: int, den: int, k: int)
    requires den > 0 && 2 * num == den * (2 * k + 1)
    ensures Round(num, den) == if k % 2 == 0 then k else k + 1
  {
    var q, r := num / den, num % den;
    assert num == den * q + r;
    assert 2 * (den * q) + 2 * r == 2 * (den * k) + den;
    assert 2 * r == 2 * (den * (k - q)) + den;
    if k < q { MulLe(k - q, -1, den); }
    if k > q { MulLe(1, k - q, den); }
  }

  lemma RoundMonotone(a: int, b: int, den: int)
    requires den > 0 && a <= b
    ensures Round(a, den) <= Round(b, den)
  {
    var qa, qb := a / den, b / den;
    assert a == den * qa + a % den && b == den * qb + b % den;
    if qa > qb {
      MulLe(qb + 1, qa, den);
      assert false;
    }
  }

  lemma RoundExact(k: int, den: int)
    requires den > 0
    ensures Round(k * den, den) == k
  {
    var q, r := k * den / den, k * den % den;
    assert k * den == den * q + r;
    if q < k {
      MulLe(q + 1, k, den);
      assert false;
    }
    if q > k {
      MulLe(k + 1, q, den);
      assert false;
    }
  }

  lemma Cancel(a: real, b: real, d: real)
    requires d > 0.0 && a * d <= b * d
    ensures a <= b
  {
    assert a > b ==> (a - b) * d > 0.0;
  }

  /** An integer within half a denominator of num, after multiplying by den, is
      within one half of the quotient x. */
  lemma NearByProduct(p: int, num: int, den: int, x: real)
    requires den > 0 && x * den as real == num as real
    requires 2 * num - den <= 2 * (den * p) <= 2 * num + den
    ensures -0.5 <= p as real - x <= 0.5
  {
    var d := den as real;
    assert (p as real - x) * d == (den * p) as real - num as real;
    assert (x - p as real) * d == num as real - (den * p) as real;
    Cancel(p as real - x, 0.5, d);
    Cancel(x - p as real, 0.5, d);
  }
}
