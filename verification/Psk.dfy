/** Differential phase modulation with 4, 8 and (with two amplitudes) 16 symbols, and its
    reception with decision margins (ext/ardop1/Modulate.c, ext/ardop1/SoundInput.c). Angles are
    whole milliradians; the full circle of the program is 6284. */
module Psk {
  import opened Arithmetic
  import opened Digits

  const CIRCLE := 6284
  const HALF := 3142

  /** How bytes become symbols: groups of `bytes` bytes, each giving `symbols` symbols of `base`
      values. */
  datatype Mode = Mode(bytes: nat, symbols: nat, base: nat)

  const PSK4 := Mode(1, 4, 4)
  const PSK8 := Mode(3, 8, 8)
  const QAM16 := Mode(1, 2, 16)

  predicate ModeOk(m: Mode) { m == PSK4 || m == PSK8 || m == QAM16 }

  lemma GroupsFit(m: Mode)
    requires ModeOk(m)
    ensures Power(m.base, m.symbols) == Power(256, m.bytes)
  {
    assert Power(4, 4) == 256 by { assert Power(4, 2) == 16; }
    assert Power(16, 2) == 256 by { assert Power(16, 1) == 16; }
    assert Power(8, 8) == 16777216 by { assert Power(8, 2) == 64; assert Power(8, 4) == 4096; assert Power(8, 6) == 262144; }
    assert Power(256, 3) == 16777216 by { assert Power(256, 1) == 256; assert Power(256, 2) == 65536; }
    assert Power(256, 1) == 256;
  }

  predicate AreBytes(data: seq<nat>) { forall i :: 0 <= i < |data| ==> data[i] < 256 }

  // ---------- symbols ----------

  /** The symbol values of whole groups of bytes; a rest shorter than a group is not sent. */
  function Symbols(data: seq<nat>, m: Mode): seq<nat>
    requires ModeOk(m)
  {
    if |data| < m.bytes then []
    else DigitsOf(Value(data[..m.bytes], 256), m.base, m.symbols) + Symbols(data[m.bytes..], m)
  }

  function Bytes(symbols: seq<nat>, m: Mode): seq<nat>
    requires ModeOk(m)
  {
    if |symbols| < m.symbols then []
    else DigitsOf(Value(symbols[..m.symbols], m.base), 256, m.bytes) + Bytes(symbols[m.symbols..], m)
  }

  /** Nothing is left over behind whole groups. */
  predicate WholeGroups(n: nat, m: Mode)
    requires ModeOk(m)
  {
    n % m.bytes == 0
  }

  lemma OneGroupLess(n: nat, m: Mode)
    requires ModeOk(m) && WholeGroups(n, m)
    ensures n >= m.bytes ==> WholeGroups(n - m.bytes, m)
    ensures n < m.bytes ==> n == 0
  {
  }

  lemma {:induction false} BytesOfSymbols(data: seq<nat>, m: Mode)
    requires ModeOk(m) && AreBytes(data) && WholeGroups(|data|, m)
    ensures Bytes(Symbols(data, m), m) == data
    decreases |data|
  {
    hide WholeGroups, DigitsOf, Value, Symbols, Bytes;
    OneGroupLess(|data|, m);
    SymbolsOfGroup(data, m);
    if |data| >= m.bytes {
      var group, rest := data[..m.bytes], data[m.bytes..];
      GroupComesBack(group, m);
      BytesOfSymbols(rest, m);
      BytesOfGroup(DigitsOf(Value(group, 256), m.base, m.symbols), Symbols(rest, m), m);
      assert data == group + rest;
    } else {
      BytesOfNothing(m);
    }
  }

  lemma SymbolsOfGroup(data: seq<nat>, m: Mode)
    requires ModeOk(m)
    ensures Symbols(data, m) == if |data| < m.bytes then []
                                else DigitsOf(Value(data[..m.bytes], 256), m.base, m.symbols) + Symbols(data[m.bytes..], m)
  {
  }

  lemma BytesOfNothing(m: Mode)
    requires ModeOk(m)
    ensures Bytes([], m) == []
  {
  }

  lemma BytesOfGroup(d: seq<nat>, rest: seq<nat>, m: Mode)
    requires ModeOk(m) && |d| == m.symbols
    ensures Bytes(d + rest, m) == DigitsOf(Value(d, m.base), 256, m.bytes) + Bytes(rest, m)
  {
    hide DigitsOf, Value;
    assert (d + rest)[..m.symbols] == d && (d + rest)[m.symbols..] == rest;
  }

  lemma GroupComesBack(group: seq<nat>, m: Mode)
    requires ModeOk(m) && AreBytes(group) && |group| == m.bytes
    ensures DigitsOf(Value(DigitsOf(Value(group, 256), m.base, m.symbols), m.base), 256, m.bytes) == group
  {
    hide DigitsOf, Value, Power;
    GroupsFit(m);
    DigitsOfValue(group, 256);
    ValueOfDigits(Value(group, 256), m.base, m.symbols);
  }

  // ---------- differential coding ----------

  function Advance(last: nat, step: nat, base: nat): (p: nat)
    requires base > 0
    ensures p < base
  {
    (last + step) % base
  }

  /** The phase symbols sent, each the last one advanced by the next step. The first is the
      reference symbol. */
  function Phases(steps: seq<nat>, base: nat): (p: seq<nat>)
    requires base > 0
    ensures |p| == |steps| + 1
  {
    if steps == [] then [0]
    else
      var p := Phases(steps[..|steps| - 1], base);
      p + [Advance(p[|p| - 1], steps[|steps| - 1], base)]
  }

  lemma {:induction false} PhasesStep(steps: seq<nat>, base: nat, i: nat)
    requires base > 0 && i < |steps|
    ensures Phases(steps, base)[i] < base
    ensures Phases(steps, base)[i + 1] == Advance(Phases(steps, base)[i], steps[i], base)
    decreases |steps|
  {
    hide Advance;
    var n := |steps| - 1;
    if i < n {
      PhasesStep(steps[..n], base, i);
    } else if i > 0 {
      PhasesStep(steps[..n], base, i - 1);
    }
  }

  // ---------- angles ----------

  /** The difference of two angles, brought back into the half circles around 0. */
  function Ang1Ang2(a1: int, a2: int): (d: int)
    requires -HALF <= a1 <= HALF && -HALF <= a2 <= HALF
    ensures -HALF <= d <= HALF
  {
    var diff := a1 - a2;
    if diff < -HALF then diff + CIRCLE else if diff > HALF then diff - CIRCLE else diff
  }

  /** The phase of a symbol against the one before it; reception inverts the direction. */
  function PhaseOf(now: int, before: int): (d: int)
    requires -HALF <= now <= HALF && -HALF <= before <= HALF
    ensures -HALF <= d <= HALF
  {
    -Ang1Ang2(now, before)
  }

  /** The distance of x from the multiples of a circle. */
  function Around(x: int, circle: nat): (d: nat)
    requires circle > 0
  {
    var r := x % circle;
    if 2 * r <= circle then r else circle - r
  }

  function Slice4(ph: int): nat
  {
    if -786 < ph < 786 then 0
    else if 786 <= ph < 2356 then 1
    else if ph >= 2356 || ph <= -2356 then 2
    else 3
  }

  function Slice8(ph: int): nat
  {
    if -393 < ph < 393 then 0
    else if 393 <= ph < 1179 then 1
    else if 1179 <= ph < 1965 then 2
    else if 1965 <= ph < 2751 then 3
    else if ph >= 2751 || ph < -2751 then 4
    else if -2751 <= ph < -1965 then 5
    else if -1965 <= ph <= -1179 then 6
    else 7
  }

  const MARGIN4 := 784
  const MARGIN8 := 390

  /** How far a 4PSK phase is from symbol i. */
  function Off4(ph: int, i: nat): nat { Around(ph - 1571 * i, CIRCLE) }

  /** How far an 8PSK phase is from symbol i, in halves of a milliradian. */
  function Off8(ph: int, i: nat): nat { Around(2 * ph - 1571 * i, 2 * CIRCLE) }

  lemma Off4Is(ph: int, i: nat)
    requires -HALF <= ph <= HALF && i < 4
    ensures var x := ph - 1571 * i;
            Off4(ph, i) == if x >= 0 then x else if x >= -HALF then -x else if x >= -CIRCLE then x + CIRCLE else -x - CIRCLE
  {
    var x := ph - 1571 * i;
    if x >= 0 {
      assert x % CIRCLE == x;
    } else if x >= -CIRCLE {
      assert x == -CIRCLE + (x + CIRCLE);
      assert x % CIRCLE == (x + CIRCLE) % CIRCLE;
    } else {
      assert x % CIRCLE == x + 2 * CIRCLE;
    }
  }

  lemma Off8Is(ph: int, i: nat)
    requires -HALF <= ph <= HALF && i < 8
    ensures var x := 2 * ph - 1571 * i;
            Off8(ph, i) == if x >= 0 then x else if x >= -CIRCLE then -x
                           else if x >= -2 * CIRCLE then x + 2 * CIRCLE else -x - 2 * CIRCLE
  {
    var x := 2 * ph - 1571 * i;
    if x >= 0 {
      assert x % (2 * CIRCLE) == x;
    } else if x >= -2 * CIRCLE {
      assert x % (2 * CIRCLE) == (x + 2 * CIRCLE) % (2 * CIRCLE);
    } else {
      assert x % (2 * CIRCLE) == x + 4 * CIRCLE;
    }
  }

  /** A phase is decided for the symbol it is nearest to, but for two phases one milliradian past the middle. */
  lemma Slice4IsNearest(ph: int, i: nat)
    requires -HALF <= ph <= HALF && i < 4
    ensures Slice4(ph) < 4 && if ph == 2356 || ph == -2356 then Slice4(ph) == 2 && Off4(ph, 2) == Off4(ph, if ph > 0 then 1 else 3) + 1
                              else Off4(ph, Slice4(ph)) <= Off4(ph, i)
  {
    hide Off4;
    Off4Is(ph, i);
    Off4Is(ph, Slice4(ph));
    Off4Is(ph, 1);
    Off4Is(ph, 2);
    Off4Is(ph, 3);
  }

  /** The phases that are decided for the neighbour of the symbol they are nearest to. */
  const MISREAD8: set<int> := {1964, 2750, -1964, -1965, -2750, -2751}

  /** The same for 8PSK, but for six phases near the middle. */
  lemma Slice8IsNearest(ph: int, i: nat)
    requires -HALF <= ph <= HALF && i < 8
    ensures Slice8(ph) < 8
    ensures ph !in MISREAD8 ==> Off8(ph, Slice8(ph)) <= Off8(ph, i)
    ensures ph in MISREAD8 ==> exists j: nat :: j < 8 && Off8(ph, j) < Off8(ph, Slice8(ph))
  {
    hide Off8;
    Off8Is(ph, i);
    Off8Is(ph, Slice8(ph));
    if ph in MISREAD8 {
      var j := if ph == 1964 then 3 else if ph == 2750 then 4 else if ph == -1964 || ph == -1965 then 5 else 4;
      Off8Is(ph, j);
      assert Off8(ph, j) < Off8(ph, Slice8(ph));
    }
  }

  lemma PhaseIsDifference(now: int, before: int)
    requires -HALF <= now <= HALF && -HALF <= before <= HALF
    ensures exists k: int :: -1 <= k <= 1 && PhaseOf(now, before) == before - now + CIRCLE * k
  {
    var d := before - now;
    if PhaseOf(now, before) == d {
      assert PhaseOf(now, before) == d + CIRCLE * 0;
    } else if PhaseOf(now, before) == d + CIRCLE {
      assert PhaseOf(now, before) == d + CIRCLE * 1;
    } else {
      assert PhaseOf(now, before) == d + CIRCLE * -1;
    }
  }

  /** A received phase difference within the margin of a quarter-circle step is read as that
      step, also across the wrap. */
  lemma Slice4Reads(now: int, before: int, step: nat)
    requires -HALF <= now <= HALF && -HALF <= before <= HALF && step < 4
    requires Around(before - now - 1571 * step, CIRCLE) <= MARGIN4
    ensures Slice4(PhaseOf(now, before)) == step
  {
    var x := before - now - 1571 * step;
    var q, r := x / CIRCLE, x % CIRCLE;
    assert x == q * CIRCLE + r;
    assert -3 <= q <= 1;
  }

  lemma Slice8Near(ph: int, step: nat, e: int, k: int)
    requires -HALF <= ph <= HALF && step < 8 && -2 * MARGIN8 <= e <= 2 * MARGIN8
    requires 2 * ph == 1571 * step + e + 2 * CIRCLE * k
    ensures Slice8(ph) == step
  {
    if step < 4 {
      assert k == 0;
    } else if step > 4 {
      assert k == -1;
    } else {
      assert k == 0 || k == -1;
    }
  }

  /** A number near a multiple of the circle is that multiple and a small rest. */
  lemma NearMultiple(x: int, circle: nat, margin: int) returns (k: int, e: int)
    requires circle > 0 && Around(x, circle) <= margin
    ensures x == e + circle * k && -margin <= e <= margin
  {
    var q, r := x / circle, x % circle;
    assert x == circle * q + r;
    if 2 * r <= circle {
      k, e := q, r;
    } else {
      k, e := q + 1, r - circle;
      assert circle * (q + 1) == circle * q + circle;
    }
  }

  lemma Slice8Reads(now: int, before: int, step: nat)
    requires -HALF <= now <= HALF && -HALF <= before <= HALF && step < 8
    requires Around(2 * (before - now) - 1571 * step, 2 * CIRCLE) <= 2 * MARGIN8
    ensures Slice8(PhaseOf(now, before)) == step
  {
    var k, e := NearMultiple(2 * (before - now) - 1571 * step, 2 * CIRCLE, 2 * MARGIN8);
    hide Around, Slice8, PhaseOf;
    PhaseIsDifference(now, before);
    var j: int :| -1 <= j <= 1 && PhaseOf(now, before) == before - now + CIRCLE * j;
    Slice8Near(PhaseOf(now, before), step, e, k + j);
  }

  /** The margins are the largest: one milliradian more and a symbol is misread. */
  lemma MarginsAreExact()
    ensures Around(0 - -2356 - 1571 * 1, CIRCLE) == MARGIN4 + 1 && Slice4(PhaseOf(-2356, 0)) != 1
    ensures Around(2 * (0 - 2751) - 1571 * 4, 2 * CIRCLE) == 2 * (MARGIN8 + 1) && Slice8(PhaseOf(2751, 0)) != 4
  {
    assert 2 * (0 - 2751) - 1571 * 4 == -1 * (2 * CIRCLE) + 782;
  }

  // ---------- from symbols to symbols over the air ----------

  predicate InRange(p: seq<int>) { forall i :: 0 <= i < |p| ==> -HALF <= p[i] <= HALF }

  /** The angle turns from one symbol to the next by what was sent, within the margin. */
  predicate Turned4(now: int, before: int, sentNow: int, sentBefore: int)
  {
    Around(before - now - 1571 * (sentNow - sentBefore), CIRCLE) <= MARGIN4
  }

  predicate Turned8(now: int, before: int, sentNow: int, sentBefore: int)
  {
    Around(2 * (before - now) - 1571 * (sentNow - sentBefore), 2 * CIRCLE) <= 2 * MARGIN8
  }

  predicate HeardAt4(p: seq<int>, sent: seq<nat>, i: nat)
    requires |p| == |sent| && i + 1 < |p|
  {
    Turned4(p[i + 1], p[i], sent[i + 1], sent[i])
  }

  predicate Heard4(p: seq<int>, sent: seq<nat>)
  {
    && |p| == |sent| && InRange(p)
    && forall i: nat :: i + 1 < |p| ==> HeardAt4(p, sent, i)
  }

  predicate HeardAt8(p: seq<int>, sent: seq<nat>, i: nat)
    requires |p| == |sent| && i + 1 < |p|
  {
    Turned8(p[i + 1], p[i], sent[i + 1], sent[i])
  }

  predicate Heard8(p: seq<int>, sent: seq<nat>)
  {
    && |p| == |sent| && InRange(p)
    && forall i: nat :: i + 1 < |p| ==> HeardAt8(p, sent, i)
  }

  /** The phase differences the receiver computes. */
  function Differences(p: seq<int>): (d: seq<int>)
    requires |p| > 0 && InRange(p)
    ensures |d| == |p| - 1
  {
    seq(|p| - 1, i requires 0 <= i < |p| - 1 => PhaseOf(p[i + 1], p[i]))
  }

  function Sliced4(d: seq<int>): (s: seq<nat>)
    ensures |s| == |d|
  {
    seq(|d|, i requires 0 <= i < |d| => Slice4(d[i]))
  }

  function Sliced8(d: seq<int>): (s: seq<nat>)
    ensures |s| == |d|
  {
    seq(|d|, i requires 0 <= i < |d| => Slice8(d[i]))
  }

  lemma AroundSame(x: int, circle: nat)
    requires circle > 0
    ensures Around(x + circle, circle) == Around(x, circle)
  {
    var q, r := x / circle, x % circle;
    assert x + circle == (q + 1) * circle + r;
    QuotientIsUnique(x + circle, circle, q + 1, r);
  }

  lemma AdvanceIs(last: nat, step: nat, base: nat)
    requires last < base && step < base
    ensures Advance(last, step, base) == last + step || Advance(last, step, base) == last + step - base
  {
    if last + step >= base {
      QuotientIsUnique(last + step, base, 1, last + step - base);
    } else {
      QuotientIsUnique(last + step, base, 0, last + step);
    }
  }

  lemma Turn4Reads(now: int, before: int, last: nat, step: nat)
    requires -HALF <= now <= HALF && -HALF <= before <= HALF && last < 4 && step < 4
    requires Turned4(now, before, Advance(last, step, 4), last)
    ensures Slice4(PhaseOf(now, before)) == step
  {
    hide Around, Slice4, PhaseOf, Advance;
    AdvanceIs(last, step, 4);
    AroundSame(before - now - 1571 * step, CIRCLE);
    Slice4Reads(now, before, step);
  }

  lemma Turn8Reads(now: int, before: int, last: nat, step: nat)
    requires -HALF <= now <= HALF && -HALF <= before <= HALF && last < 8 && step < 8
    requires Turned8(now, before, Advance(last, step, 8), last)
    ensures Slice8(PhaseOf(now, before)) == step
  {
    hide Around, Slice8, PhaseOf, Advance;
    AdvanceIs(last, step, 8);
    AroundSame(2 * (before - now) - 1571 * step, 2 * CIRCLE);
    Slice8Reads(now, before, step);
  }

  /** Four phases: what is sent is read, for every sequence of steps. */
  lemma Psk4Reads(p: seq<int>, steps: seq<nat>)
    requires Heard4(p, Phases(steps, 4)) && forall i :: 0 <= i < |steps| ==> steps[i] < 4
    ensures Sliced4(Differences(p)) == steps
  {
    hide Turned4, Slice4, PhaseOf, Phases, Advance;
    var sent := Phases(steps, 4);
    forall i: nat | i < |steps| ensures Slice4(PhaseOf(p[i + 1], p[i])) == steps[i] {
      PhasesStep(steps, 4, i);
      assert HeardAt4(p, sent, i);
      Turn4Reads(p[i + 1], p[i], sent[i], steps[i]);
    }
    assert Sliced4(Differences(p)) == steps;
  }

  lemma Psk8Reads(p: seq<int>, steps: seq<nat>)
    requires Heard8(p, Phases(steps, 8)) && forall i :: 0 <= i < |steps| ==> steps[i] < 8
    ensures Sliced8(Differences(p)) == steps
  {
    hide Turned8, Slice8, PhaseOf, Phases, Advance;
    var sent := Phases(steps, 8);
    forall i: nat | i < |steps| ensures Slice8(PhaseOf(p[i + 1], p[i])) == steps[i] {
      PhasesStep(steps, 8, i);
      assert HeardAt8(p, sent, i);
      Turn8Reads(p[i + 1], p[i], sent[i], steps[i]);
    }
    assert Sliced8(Differences(p)) == steps;
  }

  lemma {:induction false} SymbolsAreSmall(data: seq<nat>, m: Mode)
    requires ModeOk(m)
    ensures forall i :: 0 <= i < |Symbols(data, m)| ==> Symbols(data, m)[i] < m.base
    decreases |data|
  {
    hide DigitsOf, Value;
    if |data| >= m.bytes {
      SymbolsAreSmall(data[m.bytes..], m);
      DigitsAreSmall(Value(data[..m.bytes], 256), m.base, m.symbols);
    }
  }

  lemma StepsAreSymbols(symbols: seq<nat>, m: Mode)
    requires forall i :: 0 <= i < |symbols| ==> symbols[i] < PhaseBase(m)
    ensures StepsOf(symbols, m) == symbols
  {
  }

  /** 4PSK round trip: every phase difference off by no more than the margin, the bytes come back. */
  lemma Psk4RoundTrip(data: seq<nat>, p: seq<int>)
    requires AreBytes(data) && Heard4(p, Phases(StepsOf(Symbols(data, PSK4), PSK4), PhaseBase(PSK4)))
    ensures Bytes(Sliced4(Differences(p)), PSK4) == data
  {
    hide Heard4, Phases, Symbols, Bytes;
    SymbolsAreSmall(data, PSK4);
    StepsAreSymbols(Symbols(data, PSK4), PSK4);
    Psk4Reads(p, Symbols(data, PSK4));
    BytesOfSymbols(data, PSK4);
  }

  lemma Psk8RoundTrip(data: seq<nat>, p: seq<int>)
    requires AreBytes(data) && |data| % 3 == 0 && Heard8(p, Phases(StepsOf(Symbols(data, PSK8), PSK8), PhaseBase(PSK8)))
    ensures Bytes(Sliced8(Differences(p)), PSK8) == data
  {
    hide Heard8, Phases, Symbols, Bytes;
    SymbolsAreSmall(data, PSK8);
    StepsAreSymbols(Symbols(data, PSK8), PSK8);
    Psk8Reads(p, Symbols(data, PSK8));
    BytesOfSymbols(data, PSK8);
  }

  // ---------- two amplitudes ----------

  /** The threshold follows the magnitudes: an inner symbol counts twice. */
  function Tracked(threshold: nat, mag: nat): nat
  {
    if mag < threshold then (threshold * 900 + mag * 150) / 1000 else (threshold * 900 + mag * 75) / 1000
  }

  /** The nibble read: the phase, and 8 more for an inner symbol. */
  function NibbleOf(phase: int, mag: nat, threshold: nat): nat
  {
    Slice8(phase) + if mag < threshold then 8 else 0
  }

  /** The symbols read from phases and magnitudes, and the threshold afterwards. */
  function QamRead(d: seq<int>, mags: seq<nat>, threshold: nat): (r: (seq<nat>, nat))
    requires |d| == |mags|
    ensures |r.0| == |d|
  {
    if d == [] then ([], threshold)
    else
      var n := |d| - 1;
      var (s, t) := QamRead(d[..n], mags[..n], threshold);
      (s + [NibbleOf(d[n], mags[n], t)], Tracked(t, mags[n]))
  }

  /** Full-scale magnitudes lie within e of a, half-scale ones within e of half of it. */
  predicate MagNear(mag: nat, half: bool, a: nat, e: nat)
  {
    if !half then a <= mag + e && mag <= a + e else a <= 2 * mag + 2 * e && 2 * mag <= a + 2 * e
  }

  /** The threshold lies within 1.5 e + 10 of three quarters of a. */
  predicate ThresholdNear(t: nat, a: nat, e: nat)
  {
    3 * a <= 4 * t + 6 * e + 40 && 4 * t <= 3 * a + 6 * e + 40
  }

  /** The threshold is set to three quarters of the reference symbol's magnitude. */
  lemma FirstThresholdNear(mag: nat, a: nat, e: nat)
    requires MagNear(mag, false, a, e)
    ensures ThresholdNear(3 * mag / 4, a, e)
  {
  }

  lemma ThresholdSeparates(t: nat, mag: nat, nibble: nat, a: nat, e: nat)
    requires a > 10 * e + 40 && ThresholdNear(t, a, e) && MagNear(mag, nibble >= 8, a, e)
    ensures mag < t <==> nibble >= 8
  {
  }

  lemma TrackedStaysNear(t: nat, mag: nat, nibble: nat, a: nat, e: nat)
    requires a > 10 * e + 40 && ThresholdNear(t, a, e) && MagNear(mag, nibble >= 8, a, e)
    ensures ThresholdNear(Tracked(t, mag), a, e)
  {
    ThresholdSeparates(t, mag, nibble, a, e);
  }

  lemma NibbleIsRead(ph: int, mag: nat, nibble: nat, t: nat, a: nat, e: nat)
    requires a > 10 * e + 40 && nibble < 16 && ThresholdNear(t, a, e) && MagNear(mag, nibble >= 8, a, e)
    requires Slice8(ph) == nibble % 8
    ensures NibbleOf(ph, mag, t) == nibble && ThresholdNear(Tracked(t, mag), a, e)
  {
    hide Slice8, ThresholdNear, MagNear, Tracked;
    ThresholdSeparates(t, mag, nibble, a, e);
    TrackedStaysNear(t, mag, nibble, a, e);
  }

  /** 16QAM: over any sequence of symbols the threshold stays near three quarters of full scale,
      and every symbol is read. */
  lemma {:induction false} QamReads(d: seq<int>, mags: seq<nat>, nibbles: seq<nat>, threshold: nat, a: nat, e: nat)
    requires |d| == |mags| == |nibbles| && a > 10 * e + 40 && ThresholdNear(threshold, a, e)
    requires forall i :: 0 <= i < |nibbles| ==> nibbles[i] < 16 && MagNear(mags[i], nibbles[i] >= 8, a, e)
    requires forall i :: 0 <= i < |nibbles| ==> Slice8(d[i]) == nibbles[i] % 8
    ensures QamRead(d, mags, threshold).0 == nibbles
    ensures ThresholdNear(QamRead(d, mags, threshold).1, a, e)
  {
    hide Slice8, ThresholdNear, MagNear, Tracked, NibbleOf;
    if d == [] {
    } else {
      var n := |d| - 1;
      QamReads(d[..n], mags[..n], nibbles[..n], threshold, a, e);
      var t := QamRead(d[..n], mags[..n], threshold).1;
      assert MagNear(mags[n], nibbles[n] >= 8, a, e) && Slice8(d[n]) == nibbles[n] % 8;
      NibbleIsRead(d[n], mags[n], nibbles[n], t, a, e);
      assert nibbles == nibbles[..n] + [nibbles[n]];
    }
  }

  lemma Qam16RoundTrip(data: seq<nat>, p: seq<int>, mags: seq<nat>, threshold: nat, a: nat, e: nat)
    requires AreBytes(data) && a > 10 * e + 40 && ThresholdNear(threshold, a, e)
    requires Heard8(p, Phases(StepsOf(Symbols(data, QAM16), QAM16), PhaseBase(QAM16)))
    requires var nibbles := Symbols(data, QAM16);
             |mags| == |nibbles| && forall i :: 0 <= i < |nibbles| ==> MagNear(mags[i], Halves(nibbles)[i], a, e)
    ensures Bytes(QamRead(Differences(p), mags, threshold).0, QAM16) == data
    ensures ThresholdNear(QamRead(Differences(p), mags, threshold).1, a, e)
  {
    hide Phases, Symbols, Bytes, QamRead, MagNear, ThresholdNear, Slice8, PhaseOf;
    var nibbles := Symbols(data, QAM16);
    SymbolsAreSmall(data, QAM16);
    Psk8Reads(p, StepsOf(nibbles, QAM16));
    var d := Differences(p);
    forall i | 0 <= i < |nibbles| ensures Slice8(d[i]) == nibbles[i] % 8 {
      assert Sliced8(d)[i] == StepsOf(nibbles, QAM16)[i];
    }
    QamReads(d, mags, nibbles, threshold, a, e);
    BytesOfSymbols(data, QAM16);
  }

  /** The same with the threshold set from the reference symbol, which is sent at full scale. */
  lemma Qam16FromReference(data: seq<nat>, p: seq<int>, mags: seq<nat>, reference: nat, a: nat, e: nat)
    requires AreBytes(data) && a > 10 * e + 40 && MagNear(reference, false, a, e)
    requires Heard8(p, Phases(StepsOf(Symbols(data, QAM16), QAM16), PhaseBase(QAM16)))
    requires var nibbles := Symbols(data, QAM16);
             |mags| == |nibbles| && forall i :: 0 <= i < |nibbles| ==> MagNear(mags[i], Halves(nibbles)[i], a, e)
    ensures Bytes(QamRead(Differences(p), mags, 3 * reference / 4).0, QAM16) == data
  {
    hide Phases, Symbols, Bytes, QamRead, MagNear, ThresholdNear;
    FirstThresholdNear(reference, a, e);
    Qam16RoundTrip(data, p, mags, 3 * reference / 4, a, e);
  }

  // ---------- the modulator ----------

  /** Symbol k of a group with value v: a bit extraction. */
  function GetSym(v: nat, k: nat, m: Mode): nat
    requires ModeOk(m) && k < m.symbols
  {
    PowerIsPositive(m.base, m.symbols - 1 - k);
    Rem(Quot(v, Power(m.base, m.symbols - 1 - k)), m.base)
  }

  function PhaseBase(m: Mode): (b: nat)
    ensures b > 0
  {
    if m == PSK4 then 4 else 8
  }

  function StepOf(symbol: nat, m: Mode): nat { symbol % PhaseBase(m) }

  /** What a symbol adds to the phase: all of it, or for 16QAM its low three bits. */
  function StepsOf(symbols: seq<nat>, m: Mode): (s: seq<nat>)
    ensures |s| == |symbols|
  {
    seq(|symbols|, i requires 0 <= i < |symbols| => StepOf(symbols[i], m))
  }

  /** Which symbols are sent with half the amplitude. */
  function Halves(symbols: seq<nat>): (h: seq<bool>)
    ensures |h| == |symbols|
  {
    seq(|symbols|, i requires 0 <= i < |symbols| => symbols[i] >= 8)
  }

  lemma OneStepMore(symbols: seq<nat>, x: nat, m: Mode)
    ensures var b := PhaseBase(m);
            var p := Phases(StepsOf(symbols, m), b);
            && Phases(StepsOf(symbols + [x], m), b) == p + [Advance(p[|p| - 1], StepOf(x, m), b)]
            && Halves(symbols + [x]) == Halves(symbols) + [x >= 8]
  {
    hide Advance;
    var s, t := StepsOf(symbols, m), StepsOf(symbols + [x], m);
    assert t == s + [StepOf(x, m)];
    assert t[..|t| - 1] == s;
  }

  lemma {:induction false} SymbolsAppend(a: seq<nat>, group: seq<nat>, m: Mode)
    requires ModeOk(m) && |group| == m.bytes && WholeGroups(|a|, m)
    ensures Symbols(a + group, m) == Symbols(a, m) + DigitsOf(Value(group, 256), m.base, m.symbols)
    decreases |a|
  {
    hide DigitsOf, Value, WholeGroups;
    OneGroupLess(|a|, m);
    if a == [] {
      assert a + group == group && group[m.bytes..] == [] && group[..m.bytes] == group;
    } else {
      SymbolsAppend(a[m.bytes..], group, m);
      assert (a + group)[..m.bytes] == a[..m.bytes] && (a + group)[m.bytes..] == a[m.bytes..] + group;
    }
  }

  /** The symbols of one group, sent one after the other. */
  method SendGroup(v: nat, m: Mode, ghost before: seq<nat>, last: nat, ghost sent: seq<nat>, ghost half: seq<bool>)
    returns (phases: seq<nat>, halves: seq<bool>)
    requires ModeOk(m) && sent == Phases(StepsOf(before, m), PhaseBase(m)) && half == Halves(before)
    requires last == sent[|sent| - 1]
    ensures |phases| == |halves| == m.symbols
    ensures var after := before + DigitsOf(v, m.base, m.symbols);
            sent + phases == Phases(StepsOf(after, m), PhaseBase(m)) && half + halves == Halves(after)
  {
    hide Phases, StepsOf, StepOf, Halves, Advance, DigitsOf, Quot, Rem;
    phases, halves := [], [];
    var lastSym := last;
    ghost var d := DigitsOf(v, m.base, m.symbols);
    assert before + d[..0] == before && sent + phases == sent && half + halves == half;
    for k := 0 to m.symbols
      invariant |phases| == |halves| == k && lastSym == (sent + phases)[|sent| + k - 1]
      invariant sent + phases == Phases(StepsOf(before + d[..k], m), PhaseBase(m))
      invariant half + halves == Halves(before + d[..k])
    {
      DigitAt(v, m.base, m.symbols, k);
      var sym := GetSym(v, k, m);
      OneStepMore(before + d[..k], sym, m);
      assert before + d[..k + 1] == (before + d[..k]) + [sym];
      lastSym := Advance(lastSym, StepOf(sym, m), PhaseBase(m));
      assert (sent + phases) + [lastSym] == sent + (phases + [lastSym]);
      assert (half + halves) + [sym >= 8] == half + (halves + [sym >= 8]);
      phases := phases + [lastSym];
      halves := halves + [sym >= 8];
    }
    assert d[..m.symbols] == d;
  }

  /** The value of the bytes from i on that make a group. */
  function GroupAt(data: seq<nat>, i: nat, m: Mode): nat
    requires ModeOk(m) && i + m.bytes <= |data|
  {
    if m.bytes == 1 then data[i] else (data[i] * 256 + data[i + 1]) * 256 + data[i + 2]
  }

  lemma GroupValue(data: seq<nat>, i: nat, m: Mode)
    requires ModeOk(m) && i + m.bytes <= |data|
    ensures GroupAt(data, i, m) == Value(data[i..i + m.bytes], 256)
  {
    var g := data[i..i + m.bytes];
    assert Value([], 256) == 0;
    if m.bytes == 1 {
      assert g[..0] == [];
    } else {
      assert g[..2][..1] == g[..1] && g[..1][..0] == [];
      assert Value(g[..1], 256) == g[0];
      assert Value(g[..2], 256) == g[0] * 256 + g[1];
    }
  }

  /** Modulates whole groups of bytes into phase symbols behind the reference symbol, and says
      which have half the amplitude. */
  method ModPskData(data: array<nat>, n: nat, m: Mode) returns (sent: seq<nat>, half: seq<bool>)
    requires ModeOk(m) && n <= data.Length && WholeGroups(n, m)
    ensures sent == Phases(StepsOf(Symbols(data[..n], m), m), PhaseBase(m))
    ensures half == Halves(Symbols(data[..n], m))
  {
    hide Phases, StepsOf, Halves, Symbols, WholeGroups, DigitsOf, Value, Advance, GroupAt;
    sent, half := [0], [];
    NothingSent(m);
    var ptr: nat := 0;
    ghost var d := data[..n];
    assert d[..0] == [];
    while ptr < n
      invariant ptr <= n == |d| && WholeGroups(n - ptr, m) && WholeGroups(ptr, m) && |sent| > 0
      invariant sent == Phases(StepsOf(Symbols(d[..ptr], m), m), PhaseBase(m))
      invariant half == Halves(Symbols(d[..ptr], m))
    {
      OneGroupLess(n - ptr, m);
      OneGroupMore(ptr, m);
      ghost var group := d[ptr..ptr + m.bytes];
      var v := GroupAt(data[..n], ptr, m);
      GroupValue(d, ptr, m);
      SymbolsAppend(d[..ptr], group, m);
      assert d[..ptr] + group == d[..ptr + m.bytes];
      var p, h := SendGroup(v, m, Symbols(d[..ptr], m), sent[|sent| - 1], sent, half);
      sent, half := sent + p, half + h;
      ptr := ptr + m.bytes;
    }
    assert d[..n] == d;
  }

  lemma OneGroupMore(n: nat, m: Mode)
    requires ModeOk(m) && WholeGroups(n, m)
    ensures WholeGroups(n + m.bytes, m) && WholeGroups(0, m)
  {
  }

  lemma NothingSent(m: Mode)
    requires ModeOk(m)
    ensures Phases(StepsOf(Symbols([], m), m), PhaseBase(m)) == [0] && Halves(Symbols([], m)) == []
    ensures WholeGroups(0, m)
  {
  }

  // ---------- the demodulator ----------

  predicate WholeSymbols(n: nat, m: Mode)
    requires ModeOk(m)
  {
    n % m.symbols == 0
  }

  lemma OneSymbolGroupLess(n: nat, m: Mode)
    requires ModeOk(m) && WholeSymbols(n, m)
    ensures n >= m.symbols ==> WholeSymbols(n - m.symbols, m)
    ensures n < m.symbols ==> n == 0
  {
  }

  lemma {:induction false} BytesAppend(a: seq<nat>, d: seq<nat>, m: Mode)
    requires ModeOk(m) && |d| == m.symbols && WholeSymbols(|a|, m)
    ensures Bytes(a + d, m) == Bytes(a, m) + DigitsOf(Value(d, m.base), 256, m.bytes)
    decreases |a|
  {
    hide DigitsOf, Value, Bytes, WholeSymbols;
    OneSymbolGroupLess(|a|, m);
    if a == [] {
      BytesOfGroup(d, [], m);
      BytesOfNothing(m);
      assert d + [] == d && a + d == d;
    } else {
      var h, r := a[..m.symbols], a[m.symbols..];
      BytesAppend(r, d, m);
      BytesOfGroup(h, r + d, m);
      BytesOfGroup(h, r, m);
      assert a == h + r && a + d == h + (r + d);
    }
  }

  /** Reads the symbols of one group from the phases, most significant first. */
  method ReadGroup(phases: array<int>, start: nat, m: Mode) returns (v: nat)
    requires (m == PSK4 || m == PSK8) && start + m.symbols <= phases.Length
    ensures var d := phases[start..start + m.symbols];
            v == Value(Sliced(d, m), m.base)
  {
    hide Slice4, Slice8;
    ghost var d := phases[start..start + m.symbols];
    ghost var s := Sliced(d, m);
    v := 0;
    for k := 0 to m.symbols
      invariant v == Value(s[..k], m.base)
    {
      assert s[..k + 1][..k] == s[..k];
      v := v * m.base + (if m == PSK4 then Slice4(phases[start + k]) else Slice8(phases[start + k]));
    }
    assert s[..m.symbols] == s;
  }

  /** Writes the bytes of a group. */
  method WriteGroup(v: nat, m: Mode, decoded: array<nat>, at: nat)
    requires ModeOk(m) && at + m.bytes <= decoded.Length
    modifies decoded
    ensures decoded[at..at + m.bytes] == DigitsOf(v, 256, m.bytes)
    ensures forall i :: 0 <= i < decoded.Length && !(at <= i < at + m.bytes) ==> decoded[i] == old(decoded[i])
  {
    hide Quot, Rem;
    ghost var d := DigitsOf(v, 256, m.bytes);
    for j := 0 to m.bytes
      invariant decoded[at..at + j] == d[..j]
      invariant forall i :: 0 <= i < decoded.Length && !(at <= i < at + j) ==> decoded[i] == old(decoded[i])
    {
      DigitAt(v, 256, m.bytes, j);
      decoded[at + j] := Rem(Quot(v, Power(256, m.bytes - 1 - j)), 256);
      assert decoded[at..at + j + 1] == decoded[at..at + j] + [d[j]];
    }
    assert d[..m.bytes] == d;
  }

  function Sliced(d: seq<int>, m: Mode): (s: seq<nat>)
    ensures |s| == |d|
  {
    if m == PSK4 then Sliced4(d) else Sliced8(d)
  }

  lemma SlicedAppend(phases: seq<int>, i: nat, n: nat, m: Mode)
    requires i + n <= |phases|
    ensures Sliced(phases[..i + n], m) == Sliced(phases[..i], m) + Sliced(phases[i..i + n], m)
  {
    hide Slice4, Slice8;
  }

  /** Decodes one group behind the bytes decoded so far. */
  method DecodeGroup(phases: array<int>, start: nat, decoded: array<nat>, at: nat, m: Mode)
    requires (m == PSK4 || m == PSK8) && start + m.symbols <= phases.Length && at + m.bytes <= decoded.Length
    requires WholeSymbols(start, m) && decoded[..at] == Bytes(Sliced(phases[..start], m), m)
    modifies decoded
    ensures decoded[..at + m.bytes] == Bytes(Sliced(phases[..start + m.symbols], m), m)
    ensures decoded[..at] == old(decoded[..at])
  {
    hide Bytes, DigitsOf, Value, Sliced, WholeSymbols;
    ghost var before, p := decoded[..at], phases[..];
    ghost var d := p[start..start + m.symbols];
    var v := ReadGroup(phases, start, m);
    assert d == phases[start..start + m.symbols];
    WriteGroup(v, m, decoded, at);
    assert decoded[..at] == before;
    assert decoded[..at + m.bytes] == before + decoded[at..at + m.bytes];
    assert p[..start] == phases[..start] && p[..start + m.symbols] == phases[..start + m.symbols];
    SlicedAppend(p, start, m.symbols, m);
    BytesAppend(Sliced(p[..start], m), Sliced(d, m), m);
  }

  /** Decode1CarPSK for 4PSK. As in the program the loop runs one group past the frame; what is
      stated is about the bytes of the frame. */
  method Decode1Car4Psk(phases: array<int>, len: nat, decoded: array<nat>)
    requires len % 4 == 0 && len + 4 <= phases.Length && len / 4 + 1 <= decoded.Length
    modifies decoded
    ensures decoded[..len / 4] == Bytes(Sliced4(phases[..len]), PSK4)
  {
    hide Bytes, Sliced4, Sliced8;
    var left: int := len;
    var pskStart, charIndex: nat := 0, 0;
    BytesOfNothing(PSK4);
    while left >= 0
      invariant pskStart == 4 * charIndex && left == len - pskStart && -4 <= left && left % 4 == 0
      invariant left >= 0 ==> decoded[..charIndex] == Bytes(Sliced(phases[..pskStart], PSK4), PSK4)
      invariant left < 0 ==> decoded[..len / 4] == Bytes(Sliced(phases[..len], PSK4), PSK4)
    {
      DecodeGroup(phases, pskStart, decoded, charIndex, PSK4);
      charIndex := charIndex + 1;
      pskStart := pskStart + 4;
      left := left - 4;
    }
  }

  /** Decode1CarPSK for 8PSK. */
  method Decode1Car8Psk(phases: array<int>, len: nat, decoded: array<nat>)
    requires len % 8 == 0 && len + 8 <= phases.Length && len / 8 * 3 + 3 <= decoded.Length
    modifies decoded
    ensures decoded[..len / 8 * 3] == Bytes(Sliced8(phases[..len]), PSK8)
  {
    hide Bytes, Sliced4, Sliced8;
    var left: int := len;
    var pskStart, charIndex: nat := 0, 0;
    ghost var n, g: nat := len / 8, 0;
    BytesOfNothing(PSK8);
    while left >= 0
      invariant pskStart == 8 * g && charIndex == 3 * g && left == 8 * n - 8 * g && g <= n + 1
      invariant g <= n ==> decoded[..charIndex] == Bytes(Sliced(phases[..pskStart], PSK8), PSK8)
      invariant g > n ==> decoded[..3 * n] == Bytes(Sliced(phases[..8 * n], PSK8), PSK8)
    {
      DecodeGroup(phases, pskStart, decoded, charIndex, PSK8);
      g := g + 1;
      charIndex := charIndex + 3;
      pskStart := pskStart + 8;
      left := left - 8;
    }
  }

  /** One nibble of 16QAM: the phase, and 8 more for an inner symbol; the threshold follows. */
  method ReadNibble(phase: int, mag: nat, threshold: nat) returns (nibble: nat, t: nat)
    ensures nibble == NibbleOf(phase, mag, threshold) && t == Tracked(threshold, mag)
  {
    nibble := Slice8(phase);
    if mag < threshold {
      nibble := nibble + 8;
      t := (threshold * 900 + mag * 150) / 1000;
    } else {
      t := (threshold * 900 + mag * 75) / 1000;
    }
  }

  lemma QamReadTwoMore(d: seq<int>, mags: seq<nat>, threshold: nat, i: nat)
    requires |d| == |mags| && i + 1 < |d|
    ensures var (s, t) := QamRead(d[..i], mags[..i], threshold);
            var t1 := Tracked(t, mags[i]);
            QamRead(d[..i + 2], mags[..i + 2], threshold)
            == (s + [NibbleOf(d[i], mags[i], t), NibbleOf(d[i + 1], mags[i + 1], t1)], Tracked(t1, mags[i + 1]))
  {
    hide NibbleOf, Tracked;
    assert d[..i + 1][..i] == d[..i] && mags[..i + 1][..i] == mags[..i];
    assert d[..i + 2][..i + 1] == d[..i + 1] && mags[..i + 2][..i + 1] == mags[..i + 1];
    var (s, t) := QamRead(d[..i], mags[..i], threshold);
    var n1 := NibbleOf(d[i], mags[i], t);
    assert QamRead(d[..i + 1], mags[..i + 1], threshold) == (s + [n1], Tracked(t, mags[i]));
    var n2 := NibbleOf(d[i + 1], mags[i + 1], Tracked(t, mags[i]));
    assert (s + [n1]) + [n2] == s + [n1, n2];
  }

  /** Decode1CarQAM. The loop runs one byte past the frame; the threshold of the carrier is the
      one the whole loop leaves. */
  method Decode1CarQam(phases: array<int>, mags: array<nat>, len: nat, decoded: array<nat>, threshold: nat)
    returns (t: nat)
    requires len % 2 == 0 && len + 2 <= phases.Length == mags.Length && len / 2 + 1 <= decoded.Length && mags != decoded
    modifies decoded
    ensures decoded[..len / 2] == Bytes(QamRead(phases[..len], mags[..len], threshold).0, QAM16)
    ensures t == QamRead(phases[..len + 2], mags[..len + 2], threshold).1
  {
    hide Bytes, DigitsOf, Value, NibbleOf, Tracked, QamRead;
    ghost var p, g := phases[..len + 2], mags[..len + 2];
    t := threshold;
    var left: int := len;
    var start, charIndex: nat := 0, 0;
    BytesOfNothing(QAM16);
    QamReadNothing(threshold);
    assert p[..0] == [] && g[..0] == [];
    while left >= 0
      invariant start == 2 * charIndex && left == len - start && -2 <= left && left % 2 == 0
      invariant t == QamRead(p[..start], g[..start], threshold).1 && mags[..len + 2] == g
      invariant left >= 0 ==> decoded[..charIndex] == Bytes(QamRead(p[..start], g[..start], threshold).0, QAM16)
      invariant left < 0 ==> decoded[..len / 2] == Bytes(QamRead(p[..len], g[..len], threshold).0, QAM16)
    {
      ghost var before := decoded[..charIndex];
      QamReadTwoMore(p, g, threshold, start);
      var hi, t1 := ReadNibble(phases[start], mags[start], t);
      var lo, t2 := ReadNibble(phases[start + 1], mags[start + 1], t1);
      t := t2;
      ghost var s := QamRead(p[..start], g[..start], threshold).0;
      TwoDigits(hi, lo);
      BytesAppend(s, [hi, lo], QAM16);
      WriteGroup(hi * 16 + lo, QAM16, decoded, charIndex);
      assert decoded[..charIndex] == before && mags[..len + 2] == g;
      assert decoded[..charIndex + 1] == before + decoded[charIndex..charIndex + 1];
      charIndex := charIndex + 1;
      start := start + 2;
      left := left - 2;
    }
    assert p[..len] == phases[..len] && g[..len] == mags[..len];
    assert p[..len + 2] == p && g[..len + 2] == g;
  }

  lemma QamReadNothing(threshold: nat)
    ensures QamRead([], [], threshold) == ([], threshold)
  {
  }

  lemma TwoDigits(hi: nat, lo: nat)
    ensures Value([hi, lo], 16) == hi * 16 + lo
  {
    assert [hi, lo][..1] == [hi] && [hi][..0] == [];
    assert Value([hi], 16) == hi by { assert Value([], 16) == 0; }
  }
}
