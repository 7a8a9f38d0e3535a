/** Facts about products and quotients that several proofs share. */
module Arithmetic {
  lemma MulMonotone(a: int, b: int, d: int)
    requires a <= b && d >= 0
    ensures a * d <= b * d
  {
  }

  lemma DivisionIsUnique(x: int, d: int, q: int)
    requires d > 0 && q * d <= x < (q + 1) * d
    ensures x / d == q
  {
    if x / d < q {
      MulMonotone(x / d + 1, q, d);
    } else if x / d > q {
      MulMonotone(q + 1, x / d, d);
    }
  }

  lemma DivisionMonotone(x: int, y: int, d: int)
    requires d > 0 && x <= y
    ensures x / d <= y / d
  {
    if y / d < x / d {
      MulMonotone(y / d + 1, x / d, d);
    }
  }

  lemma QuotientAndRest(q: int, r: int, d: int)
    requires 0 <= r < d
    ensures (q * d + r) / d == q && (q * d + r) % d == r
  {
    DivisionIsUnique(q * d + r, d, q);
  }
}
