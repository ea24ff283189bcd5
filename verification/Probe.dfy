/** The probe sequence of the open-addressing dictionary (src/dict.cpp): where it goes for a
    hash and a table size, and why it reaches every slot of a table whose size is a power
    of two. */
module Probe {
  import opened Arithmetic

  const WORD := 0x1_0000_0000

  type Word = w: nat | w < WORD

  const PERTURB_SHIFTS := 7  // shifts by five bits that empty a 32-bit word

  predicate PowerOfTwo(n: nat)
  {
    n == 1 || (n >= 2 && n % 2 == 0 && PowerOfTwo(n / 2))
  }

  /** The perturbation after n shifts. */
  function Perturb(h: Word, n: nat): Word
  {
    if n == 0 then h else Perturb(h, n - 1) / 32
  }

  /** The slot looked at after n steps. */
  function ProbeAt(h: Word, size: nat, n: nat): (i: nat)
    requires size > 0
    ensures i < size
  {
    if n == 0 then h % size else (5 * ProbeAt(h, size, n - 1) + Perturb(h, n - 1) + 1) % size
  }

  /** n unreduced steps of i -> 5i + 1. */
  function Walk(x: nat, n: nat): nat
  {
    if n == 0 then x else 5 * Walk(x, n - 1) + 1
  }

  // ---------- divisibility by powers of two ----------

  lemma PowerIsPositive(n: nat)
    requires PowerOfTwo(n)
    ensures n > 0
  {
  }

  /** A power of two above another is at least twice as large. */
  lemma {:induction false} GrowsByDoubling(small: nat, large: nat)
    requires PowerOfTwo(small) && PowerOfTwo(large) && small < large
    ensures large >= 2 * small
    decreases large
  {
    if small == 1 {
    } else {
      GrowsByDoubling(small / 2, large / 2);
    }
  }

  lemma DoubleMod(x: nat, s: nat)
    requires s > 0
    ensures (2 * x) % (2 * s) == 2 * (x % s)
  {
    var q, r := x / s, x % s;
    assert x == q * s + r;
    assert 2 * x == q * (2 * s) + 2 * r;
    QuotientIsUnique(2 * x, 2 * s, q, 2 * r);
  }

  lemma OddIsNotDivisible(x: nat, size: nat)
    requires PowerOfTwo(size) && size >= 2 && x % 2 == 1
    ensures x % size != 0
  {
    var q, r, half := x / size, x % size, size / 2;
    assert x == q * size + r;
    assert q * (2 * half) == 2 * (q * half);
  }

  /** An odd factor does not matter for divisibility by a power of two. */
  lemma {:induction false} OddFactor(a: nat, b: nat, size: nat)
    requires PowerOfTwo(size) && b % 2 == 1
    ensures (a * b) % size == 0 <==> a % size == 0
    decreases size
  {
    if size == 1 {
    } else if a % 2 == 1 {
      assert (a * b) % 2 == 1 by { OddTimesOdd(a, b); }
      OddIsNotDivisible(a, size);
      OddIsNotDivisible(a * b, size);
    } else {
      var a', s := a / 2, size / 2;
      OddFactor(a', b, s);
      assert a * b == 2 * (a' * b) by { assert (2 * a') * b == 2 * (a' * b); }
      DoubleMod(a' * b, s);
      DoubleMod(a', s);
    }
  }

  lemma OddTimesOdd(a: nat, b: nat)
    requires a % 2 == 1 && b % 2 == 1
    ensures (a * b) % 2 == 1
  {
    var x, y := a / 2, b / 2;
    assert a * b == 2 * (2 * x * y + x + y) + 1 by {
      assert (2 * x + 1) * (2 * y + 1) == 2 * (2 * x * y + x + y) + 1;
    }
  }

  // ---------- i -> 5i + 1 modulo a power of two is one cycle ----------

  /** n steps from x move by Walk(0, n) copies of the odd number 4x + 1. */
  lemma {:induction false} WalkFrom(x: nat, n: nat)
    ensures Walk(x, n) == x + Walk(0, n) * (4 * x + 1)
  {
    if n == 0 {
    } else {
      WalkFrom(x, n - 1);
      FiveTimesMore(Walk(0, n - 1), 4 * x + 1);
    }
  }

  lemma FiveTimesMore(g: nat, m: nat)
    ensures (5 * g + 1) * m == 5 * (g * m) + m
  {
  }

  lemma {:induction false} WalkAdds(x: nat, m: nat, n: nat)
    ensures Walk(Walk(x, m), n) == Walk(x, m + n)
  {
    if n == 0 {
    } else {
      WalkAdds(x, m, n - 1);
    }
  }

  /** Doubling the number of steps doubles the distance, up to an odd factor. */
  lemma WalkDoubles(n: nat)
    ensures Walk(0, 2 * n) == 2 * (Walk(0, n) * (2 * Walk(0, n) + 1))
  {
    hide Walk;
    var g := Walk(0, n);
    WalkAdds(0, n, n);
    WalkFrom(g, n);
    TwiceTheWay(g);
  }

  lemma TwiceTheWay(g: nat)
    ensures g + g * (4 * g + 1) == 2 * (g * (2 * g + 1))
  {
  }

  lemma {:induction false} WalkParity(n: nat)
    ensures Walk(0, n) % 2 == n % 2
  {
    if n == 0 {
    } else {
      WalkParity(n - 1);
    }
  }

  /** From 0 the walk is back at 0 exactly after a multiple of size steps. */
  lemma {:induction false} WalkReturns(n: nat, size: nat)
    requires PowerOfTwo(size)
    ensures Walk(0, n) % size == 0 <==> n % size == 0
    decreases size
  {
    hide Walk;
    if size == 1 {
    } else if n % 2 == 1 {
      WalkParity(n);
      OddIsNotDivisible(n, size);
      OddIsNotDivisible(Walk(0, n), size);
    } else {
      var m, s := n / 2, size / 2;
      EvenWalkReturns(m, s);
      WalkReturns(m, s);
      DoubleMod(m, s);
    }
  }

  lemma EvenWalkReturns(m: nat, s: nat)
    requires PowerOfTwo(s) && s > 0
    ensures Walk(0, 2 * m) % (2 * s) == 0 <==> Walk(0, m) % s == 0
  {
    hide Walk, PowerOfTwo;
    var g := Walk(0, m);
    WalkDoubles(m);
    OddFactor(g, 2 * g + 1, s);
    DoubleMod(g * (2 * g + 1), s);
  }

  function Product(a: nat, b: nat): nat { a * b }

  lemma OddProduct(a: nat, m: nat, size: nat)
    requires PowerOfTwo(size) && size > 0 && m % 2 == 1
    ensures Product(a, m) % size == 0 <==> a % size == 0
  {
    hide PowerOfTwo;
    OddFactor(a, m, size);
  }

  lemma FourTimesAndOneIsOdd(x: nat)
    ensures (4 * x + 1) % 2 == 1
  {
    QuotientIsUnique(4 * x + 1, 2, 2 * x, 1);
  }

  lemma WalkDistance(x: nat, n: nat)
    ensures Walk(x, n) == x + Product(Walk(0, n), 4 * x + 1)
  {
    hide Walk;
    WalkFrom(x, n);
  }

  /** The same from any start. */
  lemma ReturnsOnlyAfterSizeSteps(x: nat, n: nat, size: nat)
    requires PowerOfTwo(size)
    ensures Walk(x, n) % size == x % size <==> n % size == 0
  {
    hide Walk, PowerOfTwo, Product;
    PowerIsPositive(size);
    WalkReturns(n, size);
    WalkDistance(x, n);
    FourTimesAndOneIsOdd(x);
    OddProduct(Walk(0, n), 4 * x + 1, size);
    SameRemainder(x, Product(Walk(0, n), 4 * x + 1), size);
  }

  lemma SameRemainder(x: nat, d: nat, s: nat)
    requires s > 0
    ensures (x + d) % s == x % s <==> d % s == 0
  {
    var q, r, p, e := x / s, x % s, d / s, d % s;
    assert x == q * s + r && d == p * s + e;
    assert x + d == (q + p) * s + (r + e) by { assert (q + p) * s == q * s + p * s; }
    if r + e < s {
      QuotientIsUnique(x + d, s, q + p, r + e);
    } else {
      assert x + d == (q + p + 1) * s + (r + e - s) by { assert (q + p + 1) * s == (q + p) * s + s; }
      QuotientIsUnique(x + d, s, q + p + 1, r + e - s);
    }
  }

  /** The slots met in the first size steps from x. */
  function Orbit(x: nat, size: nat): (o: seq<nat>)
    requires size > 0
    ensures |o| == size
  {
    seq(size, n requires 0 <= n < size => Walk(x, n) % size)
  }

  lemma OrbitHasNoRepeats(x: nat, size: nat, m: nat, n: nat)
    requires PowerOfTwo(size) && m < n < size
    ensures Orbit(x, size)[m] != Orbit(x, size)[n]
  {
    hide Walk, PowerOfTwo;
    var d := n - m;
    WalkAdds(x, m, d);
    ReturnsOnlyAfterSizeSteps(Walk(x, m), d, size);
    QuotientIsUnique(d, size, 0, d);
    assert Walk(x, n) % size != Walk(x, m) % size;
  }

  /** As many different numbers below a bound as the bound: every one of them occurs. */
  lemma {:induction false} Pigeonhole(s: seq<nat>, bound: nat, j: nat)
    requires |s| == bound && j < bound
    requires forall i :: 0 <= i < |s| ==> s[i] < bound
    requires forall a, b :: 0 <= a < b < |s| ==> s[a] != s[b]
    ensures j in s
  {
    var seen := Elements(s);
    if j !in s {
      SubsetIsSmaller(seen, Below(bound) - {j});
    }
  }

  function Below(n: nat): (r: set<nat>)
    ensures |r| == n && forall x: nat :: x in r <==> x < n
  {
    if n == 0 then {} else Below(n - 1) + {n - 1}
  }

  function Elements(s: seq<nat>): (r: set<nat>)
    requires forall a, b :: 0 <= a < b < |s| ==> s[a] != s[b]
    ensures |r| == |s| && forall x :: x in r <==> x in s
  {
    if s == [] then {}
    else
      assert forall a, b :: 0 <= a < b < |s[1..]| ==> s[1..][a] != s[1..][b];
      assert s[0] !in s[1..];
      assert forall x :: x in s <==> x == s[0] || x in s[1..];
      {s[0]} + Elements(s[1..])
  }

  lemma {:induction false} SubsetIsSmaller(a: set<nat>, b: set<nat>)
    requires a <= b
    ensures |a| <= |b|
    decreases a
  {
    if a != {} {
      var x :| x in a;
      SubsetIsSmaller(a - {x}, b - {x});
    }
  }

  /** Full period: within size steps the walk meets every slot. */
  lemma FullPeriod(x: nat, size: nat, j: nat) returns (n: nat)
    requires PowerOfTwo(size) && j < size
    ensures n < size && Walk(x, n) % size == j
  {
    var o := Orbit(x, size);
    forall a, b | 0 <= a < b < |o| ensures o[a] != o[b] {
      OrbitHasNoRepeats(x, size, a, b);
    }
    Pigeonhole(o, size, j);
    n :| 0 <= n < |o| && o[n] == j;
  }

  // ---------- the perturbed probe ----------

  lemma {:induction false} PerturbShrinks(h: Word, n: nat, m: nat)
    requires n <= m
    ensures Perturb(h, m) <= Perturb(h, n)
  {
    if n < m {
      PerturbShrinks(h, n, m - 1);
    }
  }

  /** A 32-bit perturbation is used up after seven shifts. */
  lemma PerturbEnds(h: Word, n: nat)
    requires n >= PERTURB_SHIFTS
    ensures Perturb(h, n) == 0
  {
    assert Perturb(h, 1) == h / 32;
    assert Perturb(h, 2) == Perturb(h, 1) / 32;
    assert Perturb(h, 3) == Perturb(h, 2) / 32;
    assert Perturb(h, 4) == Perturb(h, 3) / 32;
    assert Perturb(h, 5) == Perturb(h, 4) / 32;
    assert Perturb(h, 6) == Perturb(h, 5) / 32;
    assert Perturb(h, 7) == Perturb(h, 6) / 32;
    PerturbShrinks(h, 7, n);
  }

  lemma StepMod(a: nat, size: nat)
    requires size > 0
    ensures (5 * (a % size) + 1) % size == (5 * a + 1) % size
  {
    var q, r := a / size, a % size;
    assert 5 * a + 1 == (5 * r + 1) + (5 * q) * size by { assert 5 * (q * size) == (5 * q) * size; }
    QuotientIsUnique((5 * q) * size, size, 5 * q, 0);
    SameRemainder(5 * r + 1, (5 * q) * size, size);
  }

  function Mod(a: nat, size: nat): nat
    requires size > 0
  {
    a % size
  }

  lemma PlainStep(h: Word, size: nat, n: nat, w: nat)
    requires size > 0 && Perturb(h, n) == 0 && ProbeAt(h, size, n) == Mod(w, size)
    ensures ProbeAt(h, size, n + 1) == Mod(5 * w + 1, size)
  {
    hide ProbeAt, Perturb;
    ProbeStep(h, size, n);
    StepMod(w, size);
  }

  lemma BelowSize(x: nat, size: nat)
    requires x < size
    ensures Mod(x, size) == x
  {
    QuotientIsUnique(x, size, 0, x);
  }

  /** Once the perturbation is used up the probe is the plain walk. */
  lemma {:induction false} ProbeWalks(h: Word, size: nat, start: nat, n: nat)
    requires size > 0 && Perturb(h, start) == 0
    ensures ProbeAt(h, size, start + n) == Mod(Walk(ProbeAt(h, size, start), n), size)
  {
    hide ProbeAt, Walk, Perturb, Mod;
    var x := ProbeAt(h, size, start);
    if n == 0 {
      WalkStep(x, 1);
      BelowSize(x, size);
    } else {
      ProbeWalks(h, size, start, n - 1);
      PerturbShrinks(h, start, start + n - 1);
      WalkStep(x, n);
      PlainStep(h, size, start + n - 1, Walk(x, n - 1));
    }
  }

  lemma WalkStep(x: nat, n: nat)
    requires n > 0
    ensures Walk(x, 0) == x && Walk(x, n) == 5 * Walk(x, n - 1) + 1
  {
  }

  lemma ProbeStep(h: Word, size: nat, n: nat)
    requires size > 0
    ensures ProbeAt(h, size, 0) == h % size
    ensures ProbeAt(h, size, n + 1) == (5 * ProbeAt(h, size, n) + Perturb(h, n) + 1) % size
    ensures Perturb(h, 0) == h && Perturb(h, n + 1) == Perturb(h, n) / 32
  {
  }

  /** Probe coverage: whatever the hash, every slot is looked at within the number of shifts
      that use the perturbation up plus size steps. */
  lemma ProbeCovers(h: Word, size: nat, shifts: nat, j: nat) returns (n: nat)
    requires PowerOfTwo(size) && j < size && Perturb(h, shifts) == 0
    ensures n < shifts + size && ProbeAt(h, size, n) == j
  {
    var x := ProbeAt(h, size, shifts);
    var steps := FullPeriod(x, size, j);
    ProbeWalks(h, size, shifts, steps);
    n := shifts + steps;
  }

  /** A power of two divides every larger one. */
  lemma {:induction false} Divides(size: nat, large: nat) returns (blocks: nat)
    requires PowerOfTwo(size) && PowerOfTwo(large) && size <= large
    ensures large == blocks * size
    decreases large
  {
    if size == large {
      blocks := 1;
    } else {
      GrowsByDoubling(size, large);
      var half := Divides(size, large / 2);
      blocks := 2 * half;
      assert 2 * (half * size) == (2 * half) * size;
    }
  }

  lemma {:induction false} WordIsPower()
    ensures PowerOfTwo(WORD)
  {
    assert PowerOfTwo(0x1_0000) by {
      assert PowerOfTwo(0x100) by { assert PowerOfTwo(0x10) by { assert PowerOfTwo(4); } }
      assert PowerOfTwo(0x1000) by { assert PowerOfTwo(0x400); }
      assert PowerOfTwo(0x4000);
    }
    assert PowerOfTwo(0x10_0000) by { assert PowerOfTwo(0x4_0000); }
    assert PowerOfTwo(0x100_0000) by { assert PowerOfTwo(0x40_0000); }
    assert PowerOfTwo(0x1000_0000) by { assert PowerOfTwo(0x400_0000); }
    assert PowerOfTwo(0x4000_0000);
  }

  /** The index arithmetic of the program wraps at 32 bits, which no table of at most that size
      notices: the wrapped step is the step of the probe. */
  lemma WrapIsHarmless(h: Word, size: nat, n: nat)
    requires PowerOfTwo(size) && 0 < size <= WORD
    ensures (4 * ProbeAt(h, size, n) + ProbeAt(h, size, n) + Perturb(h, n) + 1) % WORD % size == ProbeAt(h, size, n + 1)
  {
    hide ProbeAt, Perturb, PowerOfTwo;
    WordIsPower();
    var blocks := Divides(size, WORD);
    ProbeStep(h, size, n);
    WrapModSize(4 * ProbeAt(h, size, n) + ProbeAt(h, size, n) + Perturb(h, n) + 1, size, blocks);
  }

  lemma WrapModSize(i: nat, size: nat, blocks: nat)
    requires size > 0 && WORD == blocks * size
    ensures i % WORD % size == i % size
  {
    var q, r := i / WORD, i % WORD;
    assert i == r + (q * blocks) * size by {
      assert i == q * WORD + r;
      assert q * (blocks * size) == (q * blocks) * size;
    }
    QuotientIsUnique((q * blocks) * size, size, q * blocks, 0);
    SameRemainder(r, (q * blocks) * size, size);
  }
}
