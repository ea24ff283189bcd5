/** Facts about quotients, remainders and powers of two that several modules use. */
module Arithmetic {
  lemma MultipleIsFar(d: int, s: int)
    requires s >= 0
    ensures d > 0 ==> d * s >= s
    ensures d < 0 ==> d * s <= -s
  {
    if d > 0 {
      assert (d - 1) * s >= 0;
    } else if d < 0 {
      assert (-d - 1) * s >= 0;
    }
  }

  /** A quotient and a remainder that fit are the quotient and the remainder. */
  lemma QuotientIsUnique(x: int, s: int, q: int, r: int)
    requires s > 0 && x == q * s + r && 0 <= r < s
    ensures x % s == r && x / s == q
  {
    var d := x / s - q;
    assert x == (x / s) * s + x % s;
    assert d * s == r - x % s by { assert (x / s - q) * s == (x / s) * s - q * s; }
    MultipleIsFar(d, s);
  }

  function Pow2(k: nat): (p: nat)
    ensures p > 0
  {
    if k == 0 then 1 else 2 * Pow2(k - 1)
  }
}
