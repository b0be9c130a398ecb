/** Division facts used where the source divides or lays rows out by page. */
module Arith {

  lemma {:induction false} MulAtLeast(a: int, d: int)
    requires a >= 1 && d >= 1
    ensures a * d >= d
    decreases a
  {
    if a > 1 {
      MulAtLeast(a - 1, d);
      assert a * d == (a - 1) * d + d;
    }
  }

  /** Quotient and remainder are the only pair with these properties. */
  lemma Quotient(m: int, d: int, q: int, r: int)
    requires d > 0 && 0 <= r < d && m == q * d + r
    ensures m / d == q && m % d == r
  {
    var q', r' := m / d, m % d;
    assert q' * d + r' == m;
    if q > q' {
      assert (q - q') * d == q * d - q' * d;
      MulAtLeast(q - q', d);
    }
    if q < q' {
      assert (q' - q) * d == q' * d - q * d;
      MulAtLeast(q' - q, d);
    }
  }

  lemma StepQuotient(m: int, d: int)
    requires d > 0
    ensures (m + d) / d == m / d + 1 && (m + d) % d == m % d
  {
    var q, r := m / d, m % d;
    assert m == q * d + r;
    assert (q + 1) * d == q * d + d;
    Quotient(m + d, d, q + 1, r);
  }
}
