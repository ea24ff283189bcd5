/** Complex numbers as pairs of reals, their powers, and polynomials over them. */
module Complex {
  datatype C = C(re: real, im: real)

  const ZERO := C(0.0, 0.0)
  const ONE := C(1.0, 0.0)

  function Add(a: C, b: C): C { C(a.re + b.re, a.im + b.im) }
  function Sub(a: C, b: C): C { C(a.re - b.re, a.im - b.im) }
  function Mul(a: C, b: C): C { C(a.re * b.re - a.im * b.im, a.re * b.im + a.im * b.re) }
  function Neg(a: C): C { C(-a.re, -a.im) }
  function Conj(a: C): C { C(a.re, -a.im) }

  function Pow(z: C, n: nat): C
  {
    if n == 0 then ONE else Mul(Pow(z, n - 1), z)
  }

  lemma MulIsAssociative(a: C, b: C, c: C)
    ensures Mul(Mul(a, b), c) == Mul(a, Mul(b, c))
  {
    assert (a.re * b.re - a.im * b.im) * c.re - (a.re * b.im + a.im * b.re) * c.im
        == a.re * (b.re * c.re - b.im * c.im) - a.im * (b.re * c.im + b.im * c.re);
    assert (a.re * b.re - a.im * b.im) * c.im + (a.re * b.im + a.im * b.re) * c.re
        == a.re * (b.re * c.im + b.im * c.re) + a.im * (b.re * c.re - b.im * c.im);
  }

  lemma MulCommutes(a: C, b: C)
    ensures Mul(a, b) == Mul(b, a)
  {
  }

  lemma MulDistributes(a: C, b: C, c: C)
    ensures Mul(a, Add(b, c)) == Add(Mul(a, b), Mul(a, c))
  {
    assert a.re * (b.re + c.re) - a.im * (b.im + c.im) == (a.re * b.re - a.im * b.im) + (a.re * c.re - a.im * c.im);
    assert a.re * (b.im + c.im) + a.im * (b.re + c.re) == (a.re * b.im + a.im * b.re) + (a.re * c.im + a.im * c.re);
  }

  lemma {:induction false} PowAdds(z: C, m: nat, n: nat)
    ensures Pow(z, m + n) == Mul(Pow(z, m), Pow(z, n))
  {
    if n == 0 {
    } else {
      PowAdds(z, m, n - 1);
      MulIsAssociative(Pow(z, m), Pow(z, n - 1), z);
    }
  }

  /** Powers of the square are squares of the powers. */
  lemma {:induction false} PowOfSquare(z: C, n: nat)
    ensures Pow(Mul(z, z), n) == Mul(Pow(z, n), Pow(z, n)) == Pow(z, 2 * n)
  {
    PowAdds(z, n, n);
    if n > 0 {
      PowOfSquare(z, n - 1);
      var p := Pow(z, n - 1);
      calc {
        Pow(Mul(z, z), n);
        Mul(Mul(p, p), Mul(z, z));
        { MulIsAssociative(Mul(p, p), z, z); MulIsAssociative(p, p, z); MulCommutes(p, z); MulIsAssociative(p, z, p); }
        Mul(Mul(Mul(p, z), p), z);
        { MulIsAssociative(Mul(p, z), p, z); }
        Mul(Mul(p, z), Mul(p, z));
      }
    }
  }

  lemma PowStep(z: C, n: nat)
    ensures Pow(z, 0) == ONE && Pow(z, n + 1) == Mul(Pow(z, n), z)
  {
  }

  function Times(m: nat, n: nat): nat { m * n }

  lemma OneTimesMore(m: nat, n: nat)
    ensures Times(m, 0) == 0 && Times(m, n + 1) == Times(m, n) + m
  {
  }

  lemma {:induction false} PowOfPow(z: C, m: nat, n: nat)
    ensures Pow(Pow(z, m), n) == Pow(z, Times(m, n))
    decreases n
  {
    hide Mul, Pow, Times;
    PowStep(z, 0);
    PowStep(Pow(z, m), 0);
    OneTimesMore(m, 0);
    if n > 0 {
      PowOfPow(z, m, n - 1);
      PowStep(Pow(z, m), n - 1);
      OneTimesMore(m, n - 1);
      PowAdds(z, Times(m, n - 1), m);
    }
  }

  /** The polynomial with the given coefficients, lowest first. */
  function Eval(y: seq<C>, z: C): C
  {
    if y == [] then ZERO else Add(y[0], Mul(z, Eval(y[1..], z)))
  }

  /** The same as a sum of the first n terms. */
  function Terms(y: seq<C>, z: C, n: nat): C
    requires n <= |y|
  {
    if n == 0 then ZERO else Add(Terms(y, z, n - 1), Mul(y[n - 1], Pow(z, n - 1)))
  }

  lemma {:induction false} TermsFromSecond(y: seq<C>, z: C, n: nat)
    requires 1 <= n <= |y|
    ensures Terms(y, z, n) == Add(y[0], Mul(z, Terms(y[1..], z, n - 1)))
  {
    if n > 1 {
      TermsFromSecond(y, z, n - 1);
      var t, c, p := Terms(y[1..], z, n - 2), y[n - 1], Pow(z, n - 2);
      assert y[1..][n - 2] == c;
      MulIsAssociative(c, p, z);
      MulCommutes(Mul(c, p), z);
      MulDistributes(z, t, Mul(c, p));
    }
  }

  lemma {:induction false} EvalIsSum(y: seq<C>, z: C)
    ensures Eval(y, z) == Terms(y, z, |y|)
  {
    if y == [] {
    } else {
      EvalIsSum(y[1..], z);
      TermsFromSecond(y, z, |y|);
    }
  }

  function Evens(y: seq<C>): (e: seq<C>)
    ensures |e| == (|y| + 1) / 2 && forall t :: 0 <= t < |e| ==> e[t] == y[2 * t]
  {
    seq((|y| + 1) / 2, t requires 0 <= t < (|y| + 1) / 2 => y[2 * t])
  }

  function Odds(y: seq<C>): (o: seq<C>)
    ensures |o| == |y| / 2 && forall t :: 0 <= t < |o| ==> o[t] == y[2 * t + 1]
  {
    seq(|y| / 2, t requires 0 <= t < |y| / 2 => y[2 * t + 1])
  }

  /** Splits a polynomial into its even and its odd part. */
  lemma {:induction false} EvalSplits(y: seq<C>, z: C)
    requires |y| % 2 == 0
    ensures Eval(y, z) == Add(Eval(Evens(y), Mul(z, z)), Mul(z, Eval(Odds(y), Mul(z, z))))
    decreases |y|
  {
    if y == [] {
    } else {
      var a, b, rest, s := y[0], y[1], y[2..], Mul(z, z);
      EvalSplits(rest, z);
      assert Evens(y)[1..] == Evens(rest) && Odds(y)[1..] == Odds(rest);
      assert y[1..][1..] == rest;
      var e, o := Eval(Evens(rest), s), Eval(Odds(rest), s);
      SplitStep(a, b, z, e, o);
    }
  }

  lemma SplitStep(a: C, b: C, z: C, e: C, o: C)
    ensures Add(a, Mul(z, Add(b, Mul(z, Add(e, Mul(z, o))))))
         == Add(Add(a, Mul(Mul(z, z), e)), Mul(z, Add(b, Mul(Mul(z, z), o))))
  {
    var s := Mul(z, z);
    MulDistributes(z, e, Mul(z, o));
    MulDistributes(z, b, Mul(z, Add(e, Mul(z, o))));
    MulDistributes(z, Mul(z, e), Mul(z, Mul(z, o)));
    MulIsAssociative(z, z, e);
    MulIsAssociative(z, z, o);
    MulDistributes(z, b, Mul(s, o));
  }

  lemma NegPowers(z: C, o: C)
    ensures Mul(Neg(z), Neg(z)) == Mul(z, z)
    ensures Mul(Neg(z), o) == Neg(Mul(z, o))
  {
  }
}
