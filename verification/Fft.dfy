/** The in-place radix-2 Fourier transform (ext/ardop1/FFT.c) in exact arithmetic. The sines
    the program computes are a parameter; what they must satisfy is `RootsOk`. */
module Fft {
  import opened Arithmetic
  import opened Complex

  // ---------- bit helpers ----------

  function Power(base: int, e: nat): int
  {
    if e == 0 then 1 else base * Power(base, e - 1)
  }

  lemma {:induction false} PowerOfSquare(base: int, e: nat)
    ensures Power(base * base, e) == Power(base, 2 * e)
  {
    if e == 0 {
    } else {
      PowerOfSquare(base, e - 1);
      assert Power(base, 2 * e) == base * (base * Power(base, 2 * e - 2));
      assert base * (base * Power(base, 2 * e - 2)) == (base * base) * Power(base, 2 * e - 2);
    }
  }

  /** Power by repeated squaring. */
  method IPow(base: int, exp: nat) returns (result: int)
    ensures result == Power(base, exp)
  {
    var b, e := base, exp;
    result := 1;
    while e != 0
      invariant result * Power(b, e) == Power(base, exp)
    {
      PowerOfSquare(b, e / 2);
      ghost var before, p := result, Power(b * b, e / 2);
      if e % 2 == 1 {
        assert Power(b, e) == b * p;
        assert (before * b) * p == before * (b * p);
        result := result * b;
      }
      e := e / 2;
      b := b * b;
    }
  }

  lemma {:induction false} PowerOfTwoIsPow2(k: nat)
    ensures Power(2, k) == Pow2(k)
  {
    if k > 0 { PowerOfTwoIsPow2(k - 1); }
  }

  const MAX_BITS := 16

  predicate BitSet(n: nat, i: nat) { (n / Pow2(i)) % 2 == 1 }

  /** The number of the lowest bit set, looked for up to bit 16. */
  method NumberOfBitsNeeded(n: nat) returns (bits: nat)
    ensures bits <= MAX_BITS
    ensures forall i :: 0 <= i < bits ==> !BitSet(n, i)
    ensures BitSet(n, bits) || (bits == 0 && forall i :: 0 <= i <= MAX_BITS ==> !BitSet(n, i))
  {
    for i := 0 to MAX_BITS + 1
      invariant forall k :: 0 <= k < i ==> !BitSet(n, k)
    {
      var p := IPow(2, i);
      PowerOfTwoIsPow2(i);
      if (n / p) % 2 != 0 {
        return i;
      }
    }
    bits := 0;
  }

  lemma {:induction false} OnlyBitOfPow2(k: nat, i: nat)
    ensures BitSet(Pow2(k), i) <==> i == k
    decreases k
  {
    if k == 0 && i == 0 {
      QuotientIsUnique(1, 1, 1, 0);
    } else if k == 0 {
      QuotientIsUnique(1, Pow2(i), 0, 1);
    } else if i == 0 {
      QuotientIsUnique(Pow2(k), 1, Pow2(k), 0);
    } else {
      OnlyBitOfPow2(k - 1, i - 1);
      HalvesCancel(Pow2(k - 1), Pow2(i - 1));
    }
  }

  lemma HalvesCancel(a: nat, b: nat)
    requires b > 0
    ensures (2 * a) / (2 * b) == a / b
  {
    var q := a / b;
    assert a == q * b + a % b;
    QuotientIsUnique(2 * a, 2 * b, q, 2 * (a % b));
  }

  // ---------- bit reversal ----------

  /** The n low bits of i in reverse order: the lowest becomes the highest. */
  function Rev(i: nat, n: nat): nat
  {
    if n == 0 then 0 else (if i % 2 == 1 then Pow2(n - 1) else 0) + Rev(i / 2, n - 1)
  }

  method ReverseBits(index: nat, numBits: nat) returns (rev: nat)
    ensures rev == Rev(index, numBits)
  {
    var idx := index;
    rev := 0;
    for i := 0 to numBits
      invariant rev * Pow2(numBits - i) + Rev(idx, numBits - i) == Rev(index, numBits)
    {
      BitMoves(rev, idx % 2, Pow2(numBits - i - 1));
      rev := rev * 2 + idx % 2;
      idx := idx / 2;
    }
  }

  lemma BitMoves(rev: nat, bit: nat, p: nat)
    requires bit <= 1
    ensures (rev * 2 + bit) * p == rev * (2 * p) + if bit == 1 then p else 0
  {
    assert (rev * 2 + bit) * p == rev * (2 * p) + bit * p;
  }

  lemma {:induction false} RevBound(i: nat, n: nat)
    ensures Rev(i, n) < Pow2(n)
    decreases n
  {
    if n == 0 {
    } else {
      RevBound(i / 2, n - 1);
    }
  }

  function WithTop(i: nat, top: bool, n: nat): nat
  {
    if top then i + Pow2(n) else i
  }

  /** A top bit becomes the lowest bit. */
  lemma {:induction false} RevTopBit(i: nat, top: bool, n: nat)
    requires i < Pow2(n)
    ensures Rev(WithTop(i, top, n), n + 1) == 2 * Rev(i, n) + if top then 1 else 0
    decreases n
  {
    if n == 0 {
    } else {
      RevTopBit(i / 2, top, n - 1);
      assert Pow2(n) == 2 * Pow2(n - 1);
      assert WithTop(i, top, n) / 2 == WithTop(i / 2, top, n - 1) && WithTop(i, top, n) % 2 == i % 2;
    }
  }

  /** Reversing twice gives the number back. */
  lemma {:induction false} RevInvolution(i: nat, n: nat)
    requires i < Pow2(n)
    ensures Rev(Rev(i, n), n) == i
    decreases n
  {
    if n == 0 {
    } else {
      RevInvolution(i / 2, n - 1);
      RevBound(i / 2, n - 1);
      RevTopBit(Rev(i / 2, n - 1), i % 2 == 1, n - 1);
    }
  }

  // ---------- the recursive reference ----------

  /** The transform of y with root w: at index j, the polynomial y at the j-th power of w. */
  function Spectrum(y: seq<C>, w: C): (s: seq<C>)
    ensures |s| == |y|
  {
    seq(|y|, j requires 0 <= j < |y| => Eval(y, Pow(w, j)))
  }

  /** One step of decimation in time: every sequence is split into its even and odd terms. */
  function Deal(subs: seq<seq<C>>): (r: seq<seq<C>>)
    ensures |r| == 2 * |subs|
    ensures forall b :: 0 <= b < |subs| ==> r[2 * b] == Evens(subs[b]) && r[2 * b + 1] == Odds(subs[b])
  {
    if subs == [] then [] else [Evens(subs[0]), Odds(subs[0])] + Deal(subs[1..])
  }

  function DealTimes(x: seq<C>, m: nat): (r: seq<seq<C>>)
    ensures |r| == Pow2(m)
  {
    if m == 0 then [x] else Deal(DealTimes(x, m - 1))
  }

  lemma {:induction false} DealtSize(x: seq<C>, m: nat, n: nat)
    requires |x| == Pow2(n) && m <= n
    ensures forall b :: 0 <= b < Pow2(m) ==> |DealTimes(x, m)[b]| == Pow2(n - m)
  {
    if m == 0 {
    } else {
      DealtSize(x, m - 1, n);
      var prev, r := DealTimes(x, m - 1), DealTimes(x, m);
      forall b | 0 <= b < Pow2(m) ensures |r[b]| == Pow2(n - m) {
        assert |prev[b / 2]| == 2 * Pow2(n - m);
        assert b == 2 * (b / 2) || b == 2 * (b / 2) + 1;
      }
    }
  }

  /** Term t of the b-th sequence is the sample whose index is b reversed plus a multiple of 2^m. */
  lemma {:induction false} DealtSample(x: seq<C>, m: nat, n: nat, b: nat, t: nat)
    requires |x| == Pow2(n) && m <= n && b < Pow2(m) && t < Pow2(n - m)
    ensures |DealTimes(x, m)[b]| == Pow2(n - m)
    ensures Rev(b, m) + t * Pow2(m) < |x|
    ensures DealTimes(x, m)[b][t] == x[Rev(b, m) + t * Pow2(m)]
  {
    DealtSize(x, m, n);
    if m > 0 {
      var c, u := b % 2, 2 * t + b % 2;
      DealtSize(x, m - 1, n);
      DealtSample(x, m - 1, n, b / 2, u);
      DealtTerm(x, m, b, t);
      SampleIndex(m, b, t);
    }
  }

  lemma DealtTerm(x: seq<C>, m: nat, b: nat, t: nat)
    requires m > 0 && b < Pow2(m) && t < |DealTimes(x, m)[b]|
    ensures 2 * t + b % 2 < |DealTimes(x, m - 1)[b / 2]|
    ensures DealTimes(x, m)[b][t] == DealTimes(x, m - 1)[b / 2][2 * t + b % 2]
  {
    hide Deal, Evens, Odds;
    DealtOnce(DealTimes(x, m - 1), b, t);
  }

  lemma DealtOnce(subs: seq<seq<C>>, b: nat, t: nat)
    requires b < |Deal(subs)| && t < |Deal(subs)[b]|
    ensures 2 * t + b % 2 < |subs[b / 2]|
    ensures Deal(subs)[b][t] == subs[b / 2][2 * t + b % 2]
  {
    hide Deal, Evens, Odds;
    var q := b / 2;
    if b % 2 == 0 {
      assert Deal(subs)[2 * q] == Evens(subs[q]);
    } else {
      assert Deal(subs)[2 * q + 1] == Odds(subs[q]);
    }
  }

  lemma SampleIndex(m: nat, b: nat, t: nat)
    requires m > 0
    ensures Rev(b / 2, m - 1) + (2 * t + b % 2) * Pow2(m - 1) == Rev(b, m) + t * Pow2(m)
  {
    BitMoves(t, b % 2, Pow2(m - 1));
  }

  /** All the transforms one after another. */
  function Flat(subs: seq<seq<C>>, w: C): seq<C>
  {
    if subs == [] then [] else Spectrum(subs[0], w) + Flat(subs[1..], w)
  }

  // ---------- one stage ----------

  /** Combines the two halves of a block: first half plus, then minus, the turned second half. */
  function Butterfly(a: seq<C>, w: C): (r: seq<C>)
    requires |a| % 2 == 0
    ensures |r| == |a|
  {
    var half := |a| / 2;
    seq(|a|, j requires 0 <= j < |a| =>
      if j < half then Add(a[j], Mul(Pow(w, j), a[j + half]))
      else Sub(a[j - half], Mul(Pow(w, j - half), a[j])))
  }

  /** The same on consecutive blocks. */
  function Stage(a: seq<C>, w: C, size: nat): (r: seq<C>)
    requires size > 0 && size % 2 == 0
    ensures |r| == |a|
  {
    if |a| < size then a else Butterfly(a[..size], w) + Stage(a[size..], w, size)
  }

  lemma LowerHalf(y: seq<C>, w: C, j: nat)
    requires |y| % 2 == 0 && j < |y| / 2
    ensures var s := Mul(w, w);
            Eval(y, Pow(w, j)) == Add(Spectrum(Evens(y), s)[j], Mul(Pow(w, j), Spectrum(Odds(y), s)[j]))
  {
    hide Eval;
    PowOfSquare(w, j);
    EvalSplits(y, Pow(w, j));
  }

  lemma UpperHalf(y: seq<C>, w: C, j: nat)
    requires |y| % 2 == 0 && j < |y| / 2 && Pow(w, |y| / 2) == Neg(ONE)
    ensures var s := Mul(w, w);
            Eval(y, Pow(w, j + |y| / 2)) == Sub(Spectrum(Evens(y), s)[j], Mul(Pow(w, j), Spectrum(Odds(y), s)[j]))
  {
    hide Eval;
    var half, z := |y| / 2, Pow(w, j);
    PowAdds(w, j, half);
    NegOne(z);
    PowOfSquare(w, j);
    EvalSplits(y, Neg(z));
    NegPowers(z, Eval(Odds(y), Mul(z, z)));
  }

  lemma NegOne(z: C)
    ensures Mul(z, Neg(ONE)) == Neg(z)
  {
  }

  lemma SplitAt(y: seq<C>, w: C, j: nat)
    requires |y| % 2 == 0 && j < |y| && Pow(w, |y| / 2) == Neg(ONE)
    ensures Butterfly(Spectrum(Evens(y), Mul(w, w)) + Spectrum(Odds(y), Mul(w, w)), w)[j] == Eval(y, Pow(w, j))
  {
    hide Eval, Mul, Pow, Evens, Odds, Spectrum;
    var half, s := |y| / 2, Mul(w, w);
    var e, o := Spectrum(Evens(y), s), Spectrum(Odds(y), s);
    if j < half {
      LowerHalf(y, w, j);
      assert (e + o)[j] == e[j] && (e + o)[j + half] == o[j];
    } else {
      UpperHalf(y, w, j - half);
      assert (e + o)[j - half] == e[j - half] && (e + o)[j] == o[j - half];
    }
  }

  lemma SpectrumSplits(y: seq<C>, w: C)
    requires |y| % 2 == 0 && |y| > 0 && Pow(w, |y| / 2) == Neg(ONE)
    ensures Butterfly(Spectrum(Evens(y), Mul(w, w)) + Spectrum(Odds(y), Mul(w, w)), w) == Spectrum(y, w)
  {
    hide Eval, Mul, Pow, Butterfly, Evens, Odds;
    var r := Butterfly(Spectrum(Evens(y), Mul(w, w)) + Spectrum(Odds(y), Mul(w, w)), w);
    forall j: nat | j < |y| ensures r[j] == Spectrum(y, w)[j] {
      SplitAt(y, w, j);
    }
  }

  lemma {:induction false} StageCombines(subs: seq<seq<C>>, w: C, size: nat)
    requires size > 0 && size % 2 == 0 && Pow(w, size / 2) == Neg(ONE)
    requires forall b :: 0 <= b < |subs| ==> |subs[b]| == size
    ensures Stage(Flat(Deal(subs), Mul(w, w)), w, size) == Flat(subs, w)
  {
    if subs == [] {
    } else {
      var s, d := Mul(w, w), Deal(subs);
      StageCombines(subs[1..], w, size);
      assert d[1..][1..] == Deal(subs[1..]);
      var block, rest := Spectrum(d[0], s) + Spectrum(d[1], s), Flat(Deal(subs[1..]), s);
      assert Flat(d, s) == block + rest;
      assert (block + rest)[..size] == block && (block + rest)[size..] == rest;
      SpectrumSplits(subs[0], w);
    }
  }

  // ---------- the roots ----------

  /** What the program computes for a block size: the sine of half the angle, and the sine. */
  datatype Sines = Sines(half: real, full: real)

  function Root(sines: nat -> Sines, size: nat): C
  {
    if size == 1 then ONE else C(1.0 - 2.0 * sines(size).half * sines(size).half, sines(size).full)
  }

  /** The angle of block size 2 is a half turn, and each size halves the angle. */
  ghost predicate RootsOk(sines: nat -> Sines, n: nat)
  {
    && (n > 0 ==> Root(sines, 2) == Neg(ONE))
    && forall k: nat :: k < n ==> Mul(Root(sines, Pow2(k + 1)), Root(sines, Pow2(k + 1))) == Root(sines, Pow2(k))
  }

  lemma {:induction false} HalfTurn(sines: nat -> Sines, n: nat, k: nat)
    requires RootsOk(sines, n) && 1 <= k <= n
    ensures Pow(Root(sines, Pow2(k)), Pow2(k - 1)) == Neg(ONE)
  {
    hide Root, Mul;
    var w := Root(sines, Pow2(k));
    if k == 1 {
      assert Pow(w, 1) == w by { PowOne(w); }
    } else {
      HalfTurn(sines, n, k - 1);
      RootSquares(sines, n, k - 1);
      PowOfSquare(w, Pow2(k - 2));
    }
  }

  lemma PowOne(z: C)
    ensures Pow(z, 1) == z
  {
    assert Pow(z, 1) == Mul(Pow(z, 0), z);
  }

  lemma RootSquares(sines: nat -> Sines, n: nat, k: nat)
    requires RootsOk(sines, n) && k < n
    ensures Mul(Root(sines, Pow2(k + 1)), Root(sines, Pow2(k + 1))) == Root(sines, Pow2(k))
  {
    hide Root, Mul, Pow2;
  }

  /** Stage k turns the transforms of 2^(n-k+1) short sequences into those of half as many. */
  lemma StageStep(x: seq<C>, sines: nat -> Sines, n: nat, k: nat)
    requires |x| == Pow2(n) && RootsOk(sines, n) && 1 <= k <= n
    ensures Pow2(k) % 2 == 0
    ensures Stage(Flat(DealTimes(x, n - k + 1), Root(sines, Pow2(k - 1))), Root(sines, Pow2(k)), Pow2(k))
         == Flat(DealTimes(x, n - k), Root(sines, Pow2(k)))
  {
    hide Root, Mul, Flat, Stage, RootsOk, Pow, Deal;
    var subs := DealTimes(x, n - k);
    assert DealTimes(x, n - k + 1) == Deal(subs);
    DealtSize(x, n - k, n);
    HalfTurn(sines, n, k);
    RootSquares(sines, n, k - 1);
    assert Pow2(k) == 2 * Pow2(k - 1);
    StageCombines(subs, Root(sines, Pow2(k)), Pow2(k));
  }

  lemma {:induction false} FlatOfSingles(subs: seq<seq<C>>, w: C)
    requires forall b :: 0 <= b < |subs| ==> |subs[b]| == 1
    ensures |Flat(subs, w)| == |subs|
    ensures forall b :: 0 <= b < |subs| ==> Flat(subs, w)[b] == subs[b][0]
  {
    if subs == [] {
    } else {
      FlatOfSingles(subs[1..], w);
      SingleSpectrum(subs[0], w);
    }
  }

  lemma SingleSpectrum(y: seq<C>, w: C)
    requires |y| == 1
    ensures Spectrum(y, w) == y
  {
    assert y[1..] == [];
    assert Eval(y, ONE) == Add(y[0], Mul(ONE, ZERO));
  }

  /** The bit-reversed copy is where the stages start. */
  lemma ReversedIsDealt(x: seq<C>, a: seq<C>, w: C, n: nat)
    requires |x| == |a| == Pow2(n)
    requires forall i: nat :: i < |x| ==> Rev(i, n) < |a| && a[Rev(i, n)] == x[i]
    ensures a == Flat(DealTimes(x, n), w)
  {
    hide DealTimes, Flat, Rev, Pow2;
    var subs := DealTimes(x, n);
    ZeroPower();
    DealtSize(x, n, n);
    FlatOfSingles(subs, w);
    forall b: nat | b < |a| ensures a[b] == Flat(subs, w)[b] {
      DealtSample(x, n, n, b, 0);
      RevBound(b, n);
      RevInvolution(b, n);
    }
  }

  lemma ZeroPower()
    ensures Pow2(0) == 1
  {
  }

  /** One sequence left: the transform of the whole. */
  lemma LastIsSpectrum(x: seq<C>, w: C)
    ensures Flat(DealTimes(x, 0), w) == Spectrum(x, w)
  {
    assert DealTimes(x, 0) == [x];
    assert Flat([x], w) == Spectrum(x, w) + Flat([], w);
  }

  // ---------- the discrete Fourier transform as a sum ----------

  function DftSum(x: seq<C>, w: C, j: nat, n: nat): C
    requires n <= |x|
  {
    if n == 0 then ZERO else Add(DftSum(x, w, j, n - 1), Mul(x[n - 1], Pow(w, j * (n - 1))))
  }

  lemma {:induction false} TermsAreDft(x: seq<C>, w: C, j: nat, n: nat)
    requires n <= |x|
    ensures Terms(x, Pow(w, j), n) == DftSum(x, w, j, n)
  {
    if n == 0 {
    } else {
      TermsAreDft(x, w, j, n - 1);
      PowOfPow(w, j, n - 1);
    }
  }

  /** Index j of the transform is the sum over all samples x[n] times w to the power jn. */
  lemma SpectrumIsDft(x: seq<C>, w: C, j: nat)
    requires j < |x|
    ensures Spectrum(x, w)[j] == DftSum(x, w, j, |x|)
  {
    EvalIsSum(x, Pow(w, j));
    TermsAreDft(x, w, j, |x|);
  }

  // ---------- the program ----------

  /** Entries lo up to hi of the two output arrays, as complex numbers. */
  ghost function Part(re: array<real>, im: array<real>, lo: nat, hi: nat): (r: seq<C>)
    requires lo <= hi <= re.Length && hi <= im.Length
    reads re, im
    ensures |r| == hi - lo
  {
    seq(hi - lo, i requires 0 <= i < hi - lo reads re, im => C(re[lo + i], im[lo + i]))
  }

  /** The incremental update of the turning factor is multiplication by the root. */
  lemma RotationIsMul(ar: real, ai: real, alpha: real, beta: real)
    ensures C(ar - (alpha * ar + beta * ai), ai - (alpha * ai - beta * ar)) == Mul(C(ar, ai), C(1.0 - alpha, beta))
  {
    assert ar * (1.0 - alpha) - ai * beta == ar - (alpha * ar + beta * ai);
    assert ar * beta + ai * (1.0 - alpha) == ai - (alpha * ai - beta * ar);
  }

  /** One butterfly within the entries lo to hi: entry k, turned by (ar, ai), is subtracted
      from and added to entry j. */
  method CombinePair(re: array<real>, im: array<real>, j: nat, k: nat, ar: real, ai: real, ghost lo: nat, ghost hi: nat)
    requires re != im && lo <= j < k < hi <= re.Length && hi <= im.Length
    modifies re, im
    ensures var a := old(Part(re, im, lo, hi));
            var t := Mul(C(ar, ai), a[k - lo]);
            Part(re, im, lo, hi) == a[j - lo := Add(a[j - lo], t)][k - lo := Sub(a[j - lo], t)]
    ensures forall i :: 0 <= i < re.Length && i != j && i != k ==> re[i] == old(re[i])
    ensures forall i :: 0 <= i < im.Length && i != j && i != k ==> im[i] == old(im[i])
  {
    ghost var a := Part(re, im, lo, hi);
    ghost var t := Mul(C(ar, ai), a[k - lo]);
    var tr := ar * re[k] - ai * im[k];
    var ti := ai * re[k] + ar * im[k];
    TurnIsMul(ar, ai, re[k], im[k]);
    hide Mul;
    assert a[j - lo] == C(re[j], im[j]) && a[k - lo] == C(re[k], im[k]) && t == C(tr, ti);
    re[k] := re[j] - tr;
    im[k] := im[j] - ti;
    re[j] := re[j] + tr;
    im[j] := im[j] + ti;
    assert Part(re, im, lo, hi) == a[j - lo := Add(a[j - lo], t)][k - lo := Sub(a[j - lo], t)];
  }

  /** The block a after n of its butterflies. */
  function Combined(a: seq<C>, w: C, n: nat): (r: seq<C>)
    requires |a| % 2 == 0 && n <= |a| / 2
    ensures |r| == |a|
  {
    var half := |a| / 2;
    seq(|a|, i requires 0 <= i < |a| => if i < n || half <= i < half + n then Butterfly(a, w)[i] else a[i])
  }

  lemma CombinedStep(a: seq<C>, w: C, n: nat)
    requires |a| % 2 == 0 && n < |a| / 2
    ensures var b, k := Combined(a, w, n), n + |a| / 2;
            var t := Mul(Pow(w, n), b[k]);
            Combined(a, w, n + 1) == b[n := Add(b[n], t)][k := Sub(b[n], t)]
  {
    hide Pow, Mul, Add, Sub;
    var b, k, r := Combined(a, w, n), n + |a| / 2, Butterfly(a, w);
    assert b[n] == a[n] && b[k] == a[k];
    assert r[n] == Add(a[n], Mul(Pow(w, n), a[k])) && r[k] == Sub(a[n], Mul(Pow(w, n), a[k]));
    assert Combined(a, w, n + 1) == b[n := r[n]][k := r[k]];
  }

  lemma CombinedEnds(a: seq<C>, w: C)
    requires |a| % 2 == 0
    ensures Combined(a, w, 0) == a && Combined(a, w, |a| / 2) == Butterfly(a, w)
  {
    hide Pow, Mul, Add, Sub;
  }

  /** One block of a stage, in place. */
  method CombineBlock(re: array<real>, im: array<real>, start: nat, blockEnd: nat, alpha: real, beta: real)
    requires re != im && start + 2 * blockEnd <= re.Length && start + 2 * blockEnd <= im.Length
    modifies re, im
    ensures Part(re, im, start, start + 2 * blockEnd)
         == Butterfly(old(Part(re, im, start, start + 2 * blockEnd)), C(1.0 - alpha, beta))
    ensures forall i :: 0 <= i < re.Length && !(start <= i < start + 2 * blockEnd) ==> re[i] == old(re[i])
    ensures forall i :: 0 <= i < im.Length && !(start <= i < start + 2 * blockEnd) ==> im[i] == old(im[i])
  {
    hide Pow, Mul, Add, Sub, Combined, Butterfly, Part;
    ghost var w, end := C(1.0 - alpha, beta), start + 2 * blockEnd;
    ghost var a := Part(re, im, start, end);
    var ar, ai := 1.0, 0.0;
    var j := start;
    PowZero(w);
    CombinedEnds(a, w);
    for n := 0 to blockEnd
      invariant j == start + n && C(ar, ai) == Pow(w, n)
      invariant Part(re, im, start, end) == Combined(a, w, n)
      invariant forall i :: 0 <= i < re.Length && !(start <= i < end) ==> re[i] == old(re[i])
      invariant forall i :: 0 <= i < im.Length && !(start <= i < end) ==> im[i] == old(im[i])
    {
      var k := j + blockEnd;
      CombinePair(re, im, j, k, ar, ai, start, end);
      CombinedStep(a, w, n);
      RotationIsMul(ar, ai, alpha, beta);
      PowStep(w, n);
      var deltaAr := alpha * ar + beta * ai;
      ai := ai - (alpha * ai - beta * ar);
      ar := ar - deltaAr;
      j := j + 1;
    }
  }

  lemma PowZero(w: C)
    ensures Pow(w, 0) == C(1.0, 0.0)
  {
  }

  lemma TurnIsMul(ar: real, ai: real, re: real, im: real)
    ensures C(ar * re - ai * im, ai * re + ar * im) == Mul(C(ar, ai), C(re, im))
  {
  }

  /** All blocks of one size, from the first to the last. */
  method CombineBlocks(re: array<real>, im: array<real>, n: nat, blockEnd: nat, alpha: real, beta: real)
    requires re != im && n <= re.Length && n <= im.Length && blockEnd > 0 && n % (2 * blockEnd) == 0
    modifies re, im
    ensures Part(re, im, 0, n) == Stage(old(Part(re, im, 0, n)), C(1.0 - alpha, beta), 2 * blockEnd)
    ensures forall i :: n <= i < re.Length ==> re[i] == old(re[i])
    ensures forall i :: n <= i < im.Length ==> im[i] == old(im[i])
  {
    hide Butterfly, Stage, Part;
    var size := 2 * blockEnd;
    ghost var w, a := C(1.0 - alpha, beta), Part(re, im, 0, n);
    var start: nat := 0;
    assert a[0..] == a;
    PartSplits(re, im, 0, 0, n);
    while start < n
      invariant start <= n == |a| && (n - start) % size == 0
      invariant Part(re, im, 0, start) + Stage(a[start..], w, size) == Stage(a, w, size)
      invariant Part(re, im, start, n) == a[start..]
      invariant forall i :: n <= i < re.Length ==> re[i] == old(re[i])
      invariant forall i :: n <= i < im.Length ==> im[i] == old(im[i])
    {
      OneBlockFewer(n - start, size);
      StageFront(Part(re, im, 0, start), a, start, w, size);
      NextBlock(re, im, start, n, blockEnd, alpha, beta, a);
      start := start + size;
    }
    StageOfNothing(w, size);
    assert a[n..] == [];
  }

  /** Combines the block at start; what lies before and behind it stays. */
  method NextBlock(re: array<real>, im: array<real>, start: nat, n: nat, blockEnd: nat, alpha: real, beta: real,
                   ghost a: seq<C>)
    requires re != im && start + 2 * blockEnd <= n <= re.Length && n <= im.Length && n == |a|
    requires Part(re, im, start, n) == a[start..]
    modifies re, im
    ensures Part(re, im, 0, start + 2 * blockEnd)
         == old(Part(re, im, 0, start)) + Butterfly(a[start..][..2 * blockEnd], C(1.0 - alpha, beta))
    ensures Part(re, im, start + 2 * blockEnd, n) == a[start + 2 * blockEnd..]
    ensures forall i :: n <= i < re.Length ==> re[i] == old(re[i])
    ensures forall i :: n <= i < im.Length ==> im[i] == old(im[i])
  {
    hide Butterfly;
    ghost var size := 2 * blockEnd;
    ghost var done, block, rest := Part(re, im, 0, start), Part(re, im, start, start + size), Part(re, im, start + size, n);
    PartSplits(re, im, start, start + size, n);
    assert block == a[start..][..size] && rest == a[start..][size..] == a[start + size..];
    CombineBlock(re, im, start, blockEnd, alpha, beta);
    assert Part(re, im, 0, start) == done && Part(re, im, start + size, n) == rest;
    PartSplits(re, im, 0, start, start + size);
  }

  lemma PartSplits(re: array<real>, im: array<real>, lo: nat, mid: nat, hi: nat)
    requires lo <= mid <= hi <= re.Length && hi <= im.Length
    ensures Part(re, im, lo, hi) == Part(re, im, lo, mid) + Part(re, im, mid, hi)
    ensures lo == mid ==> Part(re, im, lo, mid) == []
  {
  }

  lemma StageOfNothing(w: C, size: nat)
    requires size > 0 && size % 2 == 0
    ensures Stage([], w, size) == []
  {
  }

  lemma StageFront(done: seq<C>, a: seq<C>, start: nat, w: C, size: nat)
    requires start + size <= |a| && size > 0 && size % 2 == 0
    ensures done + Stage(a[start..], w, size)
         == (done + Butterfly(a[start..][..size], w)) + Stage(a[start + size..], w, size)
  {
    assert a[start..][size..] == a[start + size..];
  }

  lemma OneBlockFewer(left: nat, size: nat)
    requires size > 0 && left > 0 && left % size == 0
    ensures left >= size && (left - size) % size == 0
  {
    var q := left / size;
    assert left == q * size;
    MultipleIsFar(q, size);
    assert left - size == (q - 1) * size;
    MultipleHasNoRemainder(q - 1, size);
  }

  lemma MultipleHasNoRemainder(q: nat, size: nat)
    requires size > 0
    ensures (q * size) % size == 0
  {
    QuotientIsUnique(q * size, size, q, 0);
  }

  /** The inverse transform turns the other way. */
  function Signed(sines: nat -> Sines, inverse: bool): nat -> Sines
  {
    if inverse then (size: nat) => Sines(-sines(size).half, -sines(size).full) else sines
  }

  lemma SignedRoot(sines: nat -> Sines, inverse: bool, size: nat)
    ensures Root(Signed(sines, inverse), size) == if inverse then Conj(Root(sines, size)) else Root(sines, size)
  {
    var h := sines(size).half;
    assert (-h) * (-h) == h * h;
  }

  lemma ConjMul(a: C, b: C)
    ensures Mul(Conj(a), Conj(b)) == Conj(Mul(a, b))
  {
  }

  lemma SignedRootsOk(sines: nat -> Sines, inverse: bool, n: nat)
    requires RootsOk(sines, n)
    ensures RootsOk(Signed(sines, inverse), n)
  {
    hide Root, Mul, Pow2;
    var s := Signed(sines, inverse);
    SignedRoot(sines, inverse, 2);
    forall k: nat | k < n ensures Mul(Root(s, Pow2(k + 1)), Root(s, Pow2(k + 1))) == Root(s, Pow2(k)) {
      SignedRoot(sines, inverse, Pow2(k));
      SignedRoot(sines, inverse, Pow2(k + 1));
      RootSquares(sines, n, k);
      ConjMul(Root(sines, Pow2(k + 1)), Root(sines, Pow2(k + 1)));
    }
  }

  /** The input samples: 16-bit integers without imaginary part. */
  function Samples(x: seq<int>): (r: seq<C>)
    ensures |r| == |x|
  {
    seq(|x|, i requires 0 <= i < |x| => C(x[i] as real, 0.0))
  }

  function Scaled(s: seq<C>, d: real): (r: seq<C>)
    requires d != 0.0
    ensures |r| == |s|
  {
    seq(|s|, i requires 0 <= i < |s| => C(s[i].re / d, s[i].im / d))
  }

  lemma {:induction false} Pow2Grows(i: nat, j: nat)
    requires i < j
    ensures Pow2(i) < Pow2(j) && Pow2(j) % (2 * Pow2(i)) == 0
  {
    if i + 1 == j {
      MultipleHasNoRemainder(1, Pow2(j));
    } else {
      Pow2Grows(i, j - 1);
      var q, s := Pow2(j - 1) / (2 * Pow2(i)), 2 * Pow2(i);
      assert Pow2(j - 1) == q * s;
      assert Pow2(j) == (2 * q) * s;
      MultipleHasNoRemainder(2 * q, s);
    }
  }

  /** Copies the samples to bit-reversed places. */
  method ReversedCopy(x: array<int>, re: array<real>, im: array<real>, n: nat)
    requires re != im && Pow2(n) <= x.Length && Pow2(n) <= re.Length && Pow2(n) <= im.Length
    modifies re, im
    ensures forall i: nat :: i < Pow2(n) ==>
      Rev(i, n) < Pow2(n) && re[Rev(i, n)] == x[i] as real && im[Rev(i, n)] == 0.0
    ensures forall i :: Pow2(n) <= i < re.Length ==> re[i] == old(re[i])
    ensures forall i :: Pow2(n) <= i < im.Length ==> im[i] == old(im[i])
  {
    hide Rev, Pow2;
    for i := 0 to Pow2(n)
      invariant forall k: nat :: k < i ==>
        Rev(k, n) < Pow2(n) && re[Rev(k, n)] == x[k] as real && im[Rev(k, n)] == 0.0
      invariant forall k :: Pow2(n) <= k < re.Length ==> re[k] == old(re[k])
      invariant forall k :: Pow2(n) <= k < im.Length ==> im[k] == old(im[k])
    {
      var j := ReverseBits(i, n);
      RevBound(i, n);
      forall k: nat | k < i ensures Rev(k, n) != j {
        RevInvolution(k, n);
        RevInvolution(i, n);
      }
      re[j] := x[i] as real;
      im[j] := 0.0;
    }
  }

  lemma NextSizeFits(k: nat, n: nat)
    requires k <= n && Pow2(k + 1) <= Pow2(n)
    ensures k < n
  {
    Pow2Grows(n, n + 1);
  }

  lemma DoublePow2(k: nat)
    ensures Pow2(0) == 1 && Pow2(k + 1) == 2 * Pow2(k)
  {
  }

  /** One stage: blocks of half length blockEnd into blocks of length blockSize. */
  method OneStage(re: array<real>, im: array<real>, blockEnd: nat, blockSize: nat, sines: nat -> Sines,
                  n: nat, ghost k: nat, ghost x: seq<C>)
    requires re != im && Pow2(n) <= re.Length && Pow2(n) <= im.Length
    requires |x| == Pow2(n) && RootsOk(sines, n) && k < n && blockEnd == Pow2(k) && blockSize == Pow2(k + 1)
    requires Part(re, im, 0, Pow2(n)) == Flat(DealTimes(x, n - k), Root(sines, Pow2(k)))
    modifies re, im
    ensures Part(re, im, 0, Pow2(n)) == Flat(DealTimes(x, n - k - 1), Root(sines, Pow2(k + 1)))
    ensures forall i :: Pow2(n) <= i < re.Length ==> re[i] == old(re[i])
    ensures forall i :: Pow2(n) <= i < im.Length ==> im[i] == old(im[i])
  {
    hide Part, Flat, DealTimes, Stage, RootsOk, Root, Pow2;
    var alpha := sines(blockSize).half;
    alpha := 2.0 * alpha * alpha;
    var beta := sines(blockSize).full;
    DoublePow2(k);
    Pow2Grows(k, n);
    StageStep(x, sines, n, k + 1);
    RootOfSines(sines, blockSize);
    CombineBlocks(re, im, Pow2(n), blockEnd, alpha, beta);
  }

  /** The stages, each with blocks twice as long. */
  method Stages(re: array<real>, im: array<real>, n: nat, sines: nat -> Sines, ghost x: seq<C>)
    requires re != im && Pow2(n) <= re.Length && Pow2(n) <= im.Length
    requires |x| == Pow2(n) && RootsOk(sines, n)
    requires Part(re, im, 0, Pow2(n)) == Flat(DealTimes(x, n), Root(sines, 1))
    modifies re, im
    ensures Part(re, im, 0, Pow2(n)) == Spectrum(x, Root(sines, Pow2(n)))
    ensures forall i :: Pow2(n) <= i < re.Length ==> re[i] == old(re[i])
    ensures forall i :: Pow2(n) <= i < im.Length ==> im[i] == old(im[i])
  {
    hide Part, Flat, DealTimes, Stage, RootsOk, Spectrum, Root, Pow2;
    var numSamples := Pow2(n);
    DoublePow2(0);
    var blockEnd, blockSize := 1, 2;
    ghost var k := 0;
    while blockSize <= numSamples
      invariant k <= n && blockEnd == Pow2(k) && blockSize == Pow2(k + 1)
      invariant Part(re, im, 0, numSamples) == Flat(DealTimes(x, n - k), Root(sines, Pow2(k)))
      invariant forall i :: numSamples <= i < re.Length ==> re[i] == old(re[i])
      invariant forall i :: numSamples <= i < im.Length ==> im[i] == old(im[i])
      decreases n - k
    {
      NextSizeFits(k, n);
      OneStage(re, im, blockEnd, blockSize, sines, n, k, x);
      DoublePow2(k + 1);
      blockEnd := blockSize;
      blockSize := blockSize * 2;
      k := k + 1;
    }
    if k + 1 < n {
      Pow2Grows(k + 1, n);
    }
    LastIsSpectrum(x, Root(sines, Pow2(n)));
  }

  lemma RootOfSines(sines: nat -> Sines, size: nat)
    requires size != 1
    ensures Root(sines, size) == C(1.0 - 2.0 * sines(size).half * sines(size).half, sines(size).full)
  {
  }

  /** The whole transform. The number of samples is a power of two the bit count can tell. */
  method FourierTransform(numSamples: nat, realIn: array<int>, realOut: array<real>, imagOut: array<real>,
                          inverse: bool, sines: nat -> Sines, ghost n: nat)
    requires numSamples == Pow2(n) && n <= MAX_BITS && RootsOk(sines, n)
    requires realOut != imagOut
    requires numSamples <= realIn.Length && numSamples <= realOut.Length && numSamples <= imagOut.Length
    modifies realOut, imagOut
    ensures Part(realOut, imagOut, 0, numSamples) ==
      var x, w := Samples(realIn[..numSamples]), Root(sines, numSamples);
      if inverse then Scaled(Spectrum(x, Conj(w)), numSamples as real) else Spectrum(x, w)
    ensures forall i :: numSamples <= i < realOut.Length ==> realOut[i] == old(realOut[i])
    ensures forall i :: numSamples <= i < imagOut.Length ==> imagOut[i] == old(imagOut[i])
  {
    hide RootsOk, Root, Flat, DealTimes, Spectrum, Part;
    ghost var x := Samples(realIn[..numSamples]);
    var numBits := NumberOfBitsNeeded(numSamples);
    BitsOfPow2(n, numBits);
    ReversedCopy(realIn, realOut, imagOut, numBits);
    var turned := Signed(sines, inverse);
    SignedRootsOk(sines, inverse, n);
    SignedRoot(sines, inverse, numSamples);
    CopyIsDealt(x, realOut, imagOut, n, Root(turned, 1));
    Stages(realOut, imagOut, numBits, turned, x);
    if inverse {
      Normalize(realOut, imagOut, numSamples);
    }
  }

  lemma BitsOfPow2(n: nat, bits: nat)
    requires n <= MAX_BITS && bits <= MAX_BITS
    requires forall i :: 0 <= i < bits ==> !BitSet(Pow2(n), i)
    requires BitSet(Pow2(n), bits) || (bits == 0 && forall i :: 0 <= i <= MAX_BITS ==> !BitSet(Pow2(n), i))
    ensures bits == n
  {
    hide BitSet;
    OnlyBitOfPow2(n, n);
    OnlyBitOfPow2(n, bits);
  }

  lemma CopyIsDealt(x: seq<C>, re: array<real>, im: array<real>, n: nat, w: C)
    requires |x| == Pow2(n) && Pow2(n) <= re.Length && Pow2(n) <= im.Length
    requires forall i: nat :: i < Pow2(n) ==> Rev(i, n) < Pow2(n) && C(re[Rev(i, n)], im[Rev(i, n)]) == x[i]
    ensures Part(re, im, 0, Pow2(n)) == Flat(DealTimes(x, n), w)
  {
    ReversedIsDealt(x, Part(re, im, 0, Pow2(n)), w, n);
  }

  /** Divides the time samples by their number. */
  method Normalize(re: array<real>, im: array<real>, n: nat)
    requires re != im && 0 < n <= re.Length && n <= im.Length
    modifies re, im
    ensures Part(re, im, 0, n) == Scaled(old(Part(re, im, 0, n)), n as real)
    ensures forall i :: n <= i < re.Length ==> re[i] == old(re[i])
    ensures forall i :: n <= i < im.Length ==> im[i] == old(im[i])
  {
    for i := 0 to n
      invariant forall k :: 0 <= k < i ==> re[k] == old(re[k]) / n as real && im[k] == old(im[k]) / n as real
      invariant forall k :: i <= k < re.Length ==> re[k] == old(re[k])
      invariant forall k :: i <= k < im.Length ==> im[k] == old(im[k])
    {
      re[i] := re[i] / n as real;
      im[i] := im[i] / n as real;
    }
    assert Part(re, im, 0, n) == Scaled(old(Part(re, im, 0, n)), n as real);
  }
}
