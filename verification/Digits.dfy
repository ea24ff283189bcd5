/** Numbers as sequences of digits in some base, most significant first. */
module Digits {
  import opened Arithmetic

  function Quot(v: nat, base: nat): (q: nat)
    requires base > 0
  {
    v / base
  }

  function Rem(v: nat, base: nat): (r: nat)
    requires base > 0
    ensures r < base
  {
    v % base
  }

  lemma QuotRem(v: nat, base: nat)
    requires base > 0
    ensures v == Quot(v, base) * base + Rem(v, base)
  {
  }

  lemma QuotRemUnique(q: nat, r: nat, base: nat)
    requires r < base
    ensures Quot(q * base + r, base) == q && Rem(q * base + r, base) == r
  {
    QuotientIsUnique(q * base + r, base, q, r);
  }

  function Power(base: nat, n: nat): nat
  {
    if n == 0 then 1 else Power(base, n - 1) * base
  }

  function DigitsOf(v: nat, base: nat, n: nat): (d: seq<nat>)
    requires base > 0
    ensures |d| == n
    decreases n
  {
    if n == 0 then [] else DigitsOf(Quot(v, base), base, n - 1) + [Rem(v, base)]
  }

  lemma {:induction false} DigitsAreSmall(v: nat, base: nat, n: nat)
    requires base > 0
    ensures forall i :: 0 <= i < n ==> DigitsOf(v, base, n)[i] < base
    decreases n
  {
    hide Quot, Rem;
    if n == 0 {
    } else {
      DigitsAreSmall(Quot(v, base), base, n - 1);
    }
  }

  function Value(d: seq<nat>, base: nat): nat
  {
    if d == [] then 0 else Value(d[..|d| - 1], base) * base + d[|d| - 1]
  }

  lemma QuotBelow(v: nat, base: nat, p: nat)
    requires base > 0 && v < p * base
    ensures Quot(v, base) < p
  {
    QuotRem(v, base);
    hide Quot, Rem;
    var d := p - Quot(v, base);
    assert d * base == p * base - Quot(v, base) * base;
    MultipleIsFar(d, base);
  }

  lemma {:induction false} ValueOfDigits(v: nat, base: nat, n: nat)
    requires base > 0 && v < Power(base, n)
    ensures Value(DigitsOf(v, base, n), base) == v
    decreases n
  {
    hide Quot, Rem;
    if n == 0 {
    } else {
      QuotBelow(v, base, Power(base, n - 1));
      ValueOfDigits(Quot(v, base), base, n - 1);
      var d := DigitsOf(v, base, n);
      assert d[..n - 1] == DigitsOf(Quot(v, base), base, n - 1);
      QuotRem(v, base);
    }
  }

  lemma {:induction false} DigitsOfValue(d: seq<nat>, base: nat)
    requires base > 0 && forall i :: 0 <= i < |d| ==> d[i] < base
    ensures DigitsOf(Value(d, base), base, |d|) == d && Value(d, base) < Power(base, |d|)
  {
    hide Quot, Rem;
    if d == [] {
    } else {
      var n := |d| - 1;
      DigitsOfValue(d[..n], base);
      var q, p := Value(d[..n], base), Power(base, n);
      QuotRemUnique(q, d[n], base);
      assert d == d[..n] + [d[n]];
      LessTimes(q, d[n], p, base);
    }
  }

  lemma LessTimes(q: nat, r: nat, p: nat, base: nat)
    requires q < p && r < base
    ensures q * base + r < p * base
  {
    assert p * base == q * base + (p - q) * base;
    MultipleIsFar(p - q - 1, base);
    assert (p - q) * base == (p - q - 1) * base + base;
  }

  lemma {:induction false} PowerIsPositive(base: nat, n: nat)
    requires base > 0
    ensures Power(base, n) > 0
  {
    if n == 0 {
    } else {
      PowerIsPositive(base, n - 1);
      MultipleIsFar(Power(base, n - 1), base);
    }
  }

  lemma QuotOfQuot(v: nat, base: nat, p: nat)
    requires base > 0 && p > 0
    ensures p * base > 0 && Quot(Quot(v, base), p) == Quot(v, p * base)
  {
    var q, r := Quot(v, base), Rem(v, base);
    var s, t := Quot(q, p), Rem(q, p);
    QuotRem(v, base);
    QuotRem(q, p);
    hide Quot, Rem;
    assert v == s * (p * base) + (t * base + r) by { assert (s * p + t) * base == s * (p * base) + t * base; }
    LessTimes(t, r, p, base);
    MultipleIsFar(p, base);
    QuotRemUnique(s, t * base + r, p * base);
  }

  /** Digit k is found by dividing by the weight of its place. */
  lemma {:induction false} DigitAt(v: nat, base: nat, n: nat, k: nat)
    requires base > 0 && k < n
    ensures Power(base, n - 1 - k) > 0
    ensures DigitsOf(v, base, n)[k] == Rem(Quot(v, Power(base, n - 1 - k)), base)
    decreases n
  {
    hide Quot, Rem;
    PowerIsPositive(base, n - 1 - k);
    if k == n - 1 {
      QuotByOne(v);
    } else {
      DigitAt(Quot(v, base), base, n - 1, k);
      QuotOfQuot(v, base, Power(base, n - 2 - k));
    }
  }

  lemma QuotByOne(v: nat)
    ensures Quot(v, 1) == v
  {
  }
}
