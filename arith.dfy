/** Integer division facts the solver does not find on its own. */
module Arith {

  lemma MulPos(a: int, d: int)
    requires a >= 1 && d > 0
    ensures a * d >= d
  {
    assert (a - 1) * d >= 0;
  }

  /** Quotient and remainder are determined by x == q * d + r with 0 <= r < d. */
  lemma DivModUnique(x: int, d: int, q: int, r: int)
    requires d > 0 && 0 <= r < d && x == q * d + r
    ensures x / d == q && x % d == r
  {
    var q0, r0 := x / d, x % d;
    assert x == q0 * d + r0;
    assert (q - q0) * d == r0 - r;
    if q > q0 {
      MulPos(q - q0, d);
    } else if q < q0 {
      MulPos(q0 - q, d);
    }
  }

  lemma MultipleMod(q: int, d: int)
    requires d > 0
    ensures (q * d) % d == 0
  {
    DivModUnique(q * d, d, q, 0);
  }

  lemma NegModZero(x: int, d: int)
    requires d > 0
    ensures x % d == 0 <==> (-x) % d == 0
  {
    if x % d == 0 {
      DivModUnique(-x, d, -(x / d), 0);
    }
    if (-x) % d == 0 {
      DivModUnique(x, d, -((-x) / d), 0);
    }
  }
}
