/** Powers of two, and division. */
module Arithmetic {
  function Pow2(b: nat): (p: nat)
    ensures p >= 1
  {
    if b == 0 then 1 else 2 * Pow2(b - 1)
  }

  lemma {:induction false} Pow2Grows(a: nat, b: nat)
    requires a <= b
    ensures Pow2(a) <= Pow2(b)
    decreases b
  {
    if a < b { Pow2Grows(a, b - 1); }
  }

  lemma {:induction false} Pow2Exceeds(b: nat)
    ensures b < Pow2(b)
  {
    if b > 0 { Pow2Exceeds(b - 1); }
  }

  lemma MulLe(p: nat, a: int, b: int)
    requires a <= b
    ensures p * a <= p * b
  {
    assert p * (b - a) >= 0;
  }

  /** Quotient and remainder are unique. */
  lemma DivMod(x: nat, p: nat, q: nat, r: nat)
    requires p > 0 && x == p * q + r && r < p
    ensures x / p == q && x % p == r
  {
    var k := x / p;
    if k > q { MulLe(p, q + 1, k); }
    if k < q { MulLe(p, k + 1, q); }
  }
}
