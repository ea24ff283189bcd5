/** Callsigns and grid squares packed into six bytes of 6-bit characters (ext/ardop1/ARDOPC.c).
    Characters are ASCII codes. */
module Packing {
  import opened Digits
  import opened Options

  type Text = seq<nat>

  const SPACE := 32
  const DASH := 45
  const ZERO := 48
  const COLON := 58

  /** Size of the buffers that hold a callsign with its end mark. */
  const CALL_BUFFER := 10

  /** The codes that fit six bits. */
  predicate Fits(c: nat) { 32 <= c < 96 }

  predicate AllFit(t: Text) { forall i :: 0 <= i < |t| ==> Fits(t[i]) }

  function Lowered(t: Text): (r: seq<nat>)
    requires AllFit(t)
    ensures |r| == |t|
  {
    seq(|t|, i requires 0 <= i < |t| => Less32(t[i]))
  }

  function Less32(c: nat): nat
    requires Fits(c)
  {
    c - 32
  }

  function Raised(d: seq<nat>): (t: Text)
    ensures |t| == |d|
  {
    seq(|d|, i requires 0 <= i < |d| => d[i] + 32)
  }

  /** Four characters in three bytes. */
  function Pack4(t: Text): (b: seq<nat>)
    requires |t| == 4 && AllFit(t)
    ensures |b| == 3
  {
    DigitsOf(Value(Lowered(t), 64), 256, 3)
  }

  function Unpack3(b: seq<nat>): (t: Text)
    requires |b| == 3
    ensures |t| == 4
  {
    Raised(DigitsOf(Value(b, 256), 64, 4))
  }

  lemma SameRoom()
    ensures Power(64, 4) == Power(256, 3)
  {
    assert Power(64, 4) == 16777216 by { assert Power(64, 1) == 64; assert Power(64, 2) == 4096; assert Power(64, 3) == 262144; }
    assert Power(256, 3) == 16777216 by { assert Power(256, 1) == 256; assert Power(256, 2) == 65536; }
  }

  lemma Unpack3Inverts(t: Text)
    requires |t| == 4 && AllFit(t)
    ensures Unpack3(Pack4(t)) == t
  {
    SameRoom();
    var d := Lowered(t);
    hide Power;
    LoweredAreSmall(t);
    DigitsOfValue(d, 64);
    ValueOfDigits(Value(d, 64), 256, 3);
    hide Value, DigitsOf;
    assert Raised(d) == t;
  }

  lemma LoweredAreSmall(t: Text)
    requires AllFit(t)
    ensures forall i :: 0 <= i < |t| ==> Lowered(t)[i] < 64
  {
    forall i | 0 <= i < |t| ensures Lowered(t)[i] < 64 {
      assert Fits(t[i]);
    }
  }

  function Pack(t: Text): (b: seq<nat>)
    requires |t| == 8 && AllFit(t)
    ensures |b| == 6
  {
    Pack4(t[..4]) + Pack4(t[4..])
  }

  function Unpack(b: seq<nat>): (t: Text)
    requires |b| == 6
    ensures |t| == 8
  {
    Unpack3(b[..3]) + Unpack3(b[3..])
  }

  /** Every string of eight characters over codes 32 to 95 comes back. */
  lemma UnpackInverts(t: Text)
    requires |t| == 8 && AllFit(t)
    ensures Unpack(Pack(t)) == t
  {
    hide Pack4, Unpack3;
    Unpack3Inverts(t[..4]);
    Unpack3Inverts(t[4..]);
    assert Pack(t)[..3] == Pack4(t[..4]) && Pack(t)[3..] == Pack4(t[4..]);
    assert t == t[..4] + t[4..];
  }

  // ---------- the loops of the program ----------

  /** One half of ASCIIto6Bit: four characters into a sum, its three bytes out. */
  method PackHalf(padded: array<nat>, from: nat, compressed: array<nat>, to: nat)
    requires from + 4 <= padded.Length && to + 3 <= compressed.Length && padded != compressed
    requires AllFit(padded[from..from + 4])
    modifies compressed
    ensures compressed[to..to + 3] == Pack4(padded[from..from + 4])
    ensures forall i :: 0 <= i < compressed.Length && !(to <= i < to + 3) ==> compressed[i] == old(compressed[i])
  {
    hide Quot, Rem, Power;
    ghost var t := padded[from..from + 4];
    ghost var d := Lowered(t);
    var sum: nat := 0;
    for i := 0 to 4
      invariant sum == Value(d[..i], 64)
    {
      assert d[..i + 1][..i] == d[..i] && d[i] == Less32(t[i]) && t[i] == padded[from + i] && Fits(t[i]);
      sum := 64 * sum + (padded[from + i] - 32);
    }
    assert d[..4] == d;
    BytesOfSum(sum);
    compressed[to] := Rem(Quot(sum, 65536), 256);
    compressed[to + 1] := Rem(Quot(sum, 256), 256);
    compressed[to + 2] := Rem(sum, 256);
  }

  lemma BytesOfSum(v: nat)
    ensures DigitsOf(v, 256, 3) == [Rem(Quot(v, 65536), 256), Rem(Quot(v, 256), 256), Rem(v, 256)]
  {
    assert Power(256, 1) == 256 by { assert Power(256, 0) == 1; }
    assert Power(256, 2) == 65536;
    DigitAt(v, 256, 3, 0);
    DigitAt(v, 256, 3, 1);
    DigitAt(v, 256, 3, 2);
    assert Power(256, 0) == 1;
    QuotByOne(v);
  }

  lemma CharsOfSum(v: nat)
    ensures DigitsOf(v, 64, 4) == [Rem(Quot(v, 262144), 64), Rem(Quot(v, 4096), 64), Rem(Quot(v, 64), 64), Rem(v, 64)]
  {
    assert Power(64, 1) == 64 by { assert Power(64, 0) == 1; }
    assert Power(64, 2) == 4096;
    assert Power(64, 3) == 262144;
    DigitAt(v, 64, 4, 0);
    DigitAt(v, 64, 4, 1);
    DigitAt(v, 64, 4, 2);
    DigitAt(v, 64, 4, 3);
    QuotByOne(v);
  }

  /** One half of Bit6ToASCII. */
  method UnpackHalf(packed: array<nat>, from: nat, chars: array<nat>, to: nat)
    requires from + 3 <= packed.Length && to + 4 <= chars.Length && packed != chars
    modifies chars
    ensures chars[to..to + 4] == Unpack3(packed[from..from + 3])
    ensures forall i :: 0 <= i < chars.Length && !(to <= i < to + 4) ==> chars[i] == old(chars[i])
  {
    hide Quot, Rem, Power;
    ghost var b := packed[from..from + 3];
    var sum: nat := 0;
    for i := 0 to 3
      invariant sum == Value(b[..i], 256)
    {
      assert b[..i + 1][..i] == b[..i] && b[i] == packed[from + i];
      sum := sum * 256 + packed[from + i];
    }
    assert b[..3] == b;
    CharsOfSum(sum);
    chars[to] := Rem(Quot(sum, 262144), 64) + 32;
    chars[to + 1] := Rem(Quot(sum, 4096), 64) + 32;
    chars[to + 2] := Rem(Quot(sum, 64), 64) + 32;
    chars[to + 3] := Rem(sum, 64) + 32;
  }

  method AsciiTo6Bit(padded: array<nat>, compressed: array<nat>)
    requires padded.Length >= 8 && compressed.Length >= 6 && padded != compressed && AllFit(padded[..8])
    modifies compressed
    ensures compressed[..6] == Pack(padded[..8])
  {
    hide Pack4;
    ghost var t := padded[..8];
    assert t[..4] == padded[0..0 + 4] && t[4..] == padded[4..4 + 4];
    PackHalf(padded, 0, compressed, 0);
    ghost var first := compressed[0..0 + 3];
    PackHalf(padded, 4, compressed, 3);
    assert compressed[..6] == first + compressed[3..3 + 3];
  }

  method Bit6ToAscii(packed: array<nat>, chars: array<nat>)
    requires packed.Length >= 6 && chars.Length >= 8 && packed != chars
    modifies chars
    ensures chars[..8] == Unpack(packed[..6])
  {
    hide Unpack3;
    ghost var b := packed[..6];
    assert b[..3] == packed[0..0 + 3] && b[3..] == packed[3..3 + 3];
    UnpackHalf(packed, 0, chars, 0);
    ghost var first := chars[0..0 + 4];
    UnpackHalf(packed, 3, chars, 4);
    assert chars[..8] == first + chars[4..4 + 4];
  }

  // ---------- callsigns ----------

  function IndexOf(t: Text, c: nat): (i: nat)
    ensures i <= |t| && (i < |t| ==> t[i] == c) && forall j :: 0 <= j < i ==> t[j] != c
  {
    if t == [] then 0 else if t[0] == c then 0 else 1 + IndexOf(t[1..], c)
  }

  predicate IsDigit(c: nat) { 48 <= c <= 57 }

  predicate IsAlnum(c: nat) { IsDigit(c) || 65 <= c <= 90 }

  /** The number at the start of a text; 0 when there is none. */
  function Atoi(t: Text, sum: nat): nat
    decreases |t|
  {
    if t == [] || !IsDigit(t[0]) then sum else Atoi(t[1..], 10 * sum + (t[0] - ZERO))
  }

  /** A name padded with spaces to seven characters, and the character for the SSID. */
  function WithSsid(name: Text, last: nat): (t: Text)
    requires |name| >= 3
    ensures |t| == 8
  {
    (name + [SPACE, SPACE, SPACE, SPACE])[..7] + [last]
  }

  /** SSIDs 10 to 15 take the characters behind 9; any other is its own first character. */
  function SsidChar(ssid: Text): nat
  {
    var n := Atoi(ssid, 0);
    if n >= 10 then COLON + n - 10 else if ssid == [] then 0 else ssid[0]
  }

  function NameOf(call: Text): Text { call[..IndexOf(call, DASH)] }

  predicate HasSsid(call: Text) { IndexOf(call, DASH) < |call| }

  function SsidOf(call: Text): Text
  {
    if HasSsid(call) then call[IndexOf(call, DASH) + 1..] else []
  }

  function LastChar(call: Text): nat { if HasSsid(call) then SsidChar(SsidOf(call)) else ZERO }

  function PaddedCall(call: Text): (t: Text)
    requires |NameOf(call)| >= 3
    ensures |t| == 8
  {
    WithSsid(NameOf(call), LastChar(call))
  }

  /** Ten bytes are copied: a callsign of ten characters or more arrives without its end, and a
      name of fewer than three leaves padding unset. In both cases nothing is said of the result. */
  predicate Copied(call: Text) { |call| < CALL_BUFFER && |NameOf(call)| >= 3 }

  function CompressCallsign(call: Text): (r: Option<seq<nat>>)
    requires Copied(call) ==> AllFit(PaddedCall(call))
    ensures r.Some? <==> Copied(call)
    ensures r.Some? ==> |r.value| == 6
  {
    if Copied(call) then Some(Pack(PaddedCall(call))) else None
  }

  /** What is written for the eight unpacked characters. */
  function CallText(t: Text): Text
    requires |t| == 8
  {
    var name := t[..7][..IndexOf(t[..7], SPACE)];
    if t[7] == ZERO then if |name| > 6 then name[..6] else name
    else if COLON <= t[7] <= 63 then name + [DASH, 49, t[7] - 10]
    else name + [DASH, t[7]]
  }

  /** The caller's buffer holds ten characters, the end mark included; a longer text runs past it. */
  function DecompressCallsign(b: seq<nat>): Option<Text>
    requires |b| == 6
  {
    var text := CallText(Unpack(b));
    if |text| < CALL_BUFFER then Some(text) else None
  }

  /** CheckValidCallsignSyntax, for upper-case callsigns: three to seven letters and digits, and
      behind a dash one or two characters that begin with a letter or digit and are no number above 15. */
  predicate ValidSyntax(call: Text)
  {
    && 3 <= |NameOf(call)| <= 7
    && (forall i :: 0 <= i < |NameOf(call)| ==> IsAlnum(NameOf(call)[i]))
    && (HasSsid(call) ==> 1 <= |SsidOf(call)| <= 2 && IsAlnum(SsidOf(call)[0]) && Atoi(SsidOf(call), 0) <= 15)
  }

  /** Upper-case letters and digits, by their codes. */
  predicate LettersAndDigits(name: Text) { forall c :: c in name ==> 48 <= c <= 57 || 65 <= c <= 90 }

  lemma DashEndsName(name: Text, rest: Text)
    requires DASH !in name
    ensures IndexOf(name, DASH) == |name| && IndexOf(name + [DASH] + rest, DASH) == |name|
  {
    var t := name + [DASH] + rest;
    forall j | 0 <= j < |name| ensures name[j] != DASH && t[j] != DASH {
      assert name[j] in name;
    }
    assert t[|name|] == DASH;
  }

  lemma NameIsAlnum(name: Text)
    ensures LettersAndDigits(name) <==> forall i :: 0 <= i < |name| ==> IsAlnum(name[i])
  {
    if forall i :: 0 <= i < |name| ==> IsAlnum(name[i]) {
      forall c | c in name ensures 48 <= c <= 57 || 65 <= c <= 90 {
        var i :| 0 <= i < |name| && name[i] == c;
      }
    } else {
      var i :| 0 <= i < |name| && !IsAlnum(name[i]);
      assert name[i] in name;
    }
  }

  lemma NumberOfTwo(ssid: Text)
    requires |ssid| == 2
    ensures Atoi(ssid, 0) == if !(48 <= ssid[0] <= 57) then 0
                             else if !(48 <= ssid[1] <= 57) then ssid[0] - 48 else 10 * (ssid[0] - 48) + ssid[1] - 48
  {
    assert ssid[1..] == [ssid[1]] && ssid[1..][1..] == [];
    if 48 <= ssid[0] <= 57 {
      assert Atoi(ssid, 0) == Atoi([ssid[1]], ssid[0] - 48);
      if 48 <= ssid[1] <= 57 { assert Atoi([ssid[1]], ssid[0] - 48) == Atoi([], 10 * (ssid[0] - 48) + (ssid[1] - 48)); }
    }
  }

  /** The syntax check accepts three to seven upper-case letters and digits, and the same followed by a dash and a letter,
      a digit, a letter and any character, a digit and no digit, or a number up to 15. */
  lemma SyntaxOfParts(name: Text, ssid: Text)
    requires DASH !in name
    ensures ValidSyntax(name) <==> 3 <= |name| <= 7 && LettersAndDigits(name)
    ensures ValidSyntax(name + [DASH] + ssid) <==>
            && 3 <= |name| <= 7 && LettersAndDigits(name)
            && 1 <= |ssid| <= 2 && (48 <= ssid[0] <= 57 || 65 <= ssid[0] <= 90)
            && (|ssid| == 2 && 48 <= ssid[0] <= 57 && 48 <= ssid[1] <= 57 ==> 10 * (ssid[0] - 48) + ssid[1] - 48 <= 15)
  {
    hide IndexOf, LettersAndDigits, Atoi;
    DashEndsName(name, ssid);
    NameIsAlnum(name);
    var call := name + [DASH] + ssid;
    assert call[..|name|] == name && call[|name| + 1..] == ssid;
    if |ssid| == 2 { NumberOfTwo(ssid); }
    if |ssid| == 1 { NumberOfOne(ssid); }
  }

  lemma NumberOfOne(ssid: Text)
    requires |ssid| == 1
    ensures Atoi(ssid, 0) <= 9
  {
    assert ssid[1..] == [];
    if IsDigit(ssid[0]) { assert Atoi(ssid, 0) == Atoi([], ssid[0] - 48); }
  }

  /** The SSIDs that have a character of their own. */
  predicate KeepsSsid(ssid: Text)
  {
    (|ssid| == 1 && ssid[0] != ZERO) || Atoi(ssid, 0) >= 10
  }

  lemma TwoDigits(ssid: Text)
    requires 1 <= |ssid| <= 2 && IsAlnum(ssid[0]) && Atoi(ssid, 0) <= 15
    ensures Atoi(ssid, 0) >= 10 <==> |ssid| == 2 && ssid[0] == 49 && IsDigit(ssid[1])
    ensures Atoi(ssid, 0) >= 10 ==> SsidChar(ssid) == ssid[1] + 10 && COLON <= SsidChar(ssid) <= 63
    ensures Atoi(ssid, 0) < 10 ==> SsidChar(ssid) == ssid[0]
  {
    if |ssid| == 2 {
      assert ssid[1..] == [ssid[1]] && ssid[1..][1..] == [];
      if IsDigit(ssid[0]) {
        assert Atoi(ssid, 0) == Atoi([ssid[1]], ssid[0] - ZERO);
        if IsDigit(ssid[1]) { assert Atoi([ssid[1]], ssid[0] - ZERO) == Atoi([], 10 * (ssid[0] - ZERO) + (ssid[1] - ZERO)); }
      }
    } else {
      assert ssid[1..] == [];
    }
  }

  lemma NameBeforeSpaces(name: Text, last: nat)
    requires 3 <= |name| <= 7 && forall i :: 0 <= i < |name| ==> IsAlnum(name[i])
    ensures var t := WithSsid(name, last); t[..7][..IndexOf(t[..7], SPACE)] == name && t[7] == last
  {
    var seven := WithSsid(name, last)[..7];
    var i := IndexOf(seven, SPACE);
    assert forall j :: 0 <= j < |name| ==> seven[j] == name[j] && IsAlnum(name[j]);
    if |name| < 7 { assert seven[|name|] == SPACE; }
    assert i == |name|;
  }

  lemma LastCharFits(call: Text)
    requires ValidSyntax(call)
    ensures COLON <= LastChar(call) <= 63 || IsAlnum(LastChar(call))
    ensures HasSsid(call) ==> LastChar(call) == SsidChar(SsidOf(call))
  {
    hide IndexOf, Atoi, SsidChar;
    if HasSsid(call) { TwoDigits(SsidOf(call)); }
  }

  lemma PaddedFits(call: Text)
    requires ValidSyntax(call)
    ensures AllFit(PaddedCall(call))
  {
    hide IndexOf, LastChar, SsidOf, HasSsid, Atoi;
    LastCharFits(call);
    var name := NameOf(call);
    var t := PaddedCall(call);
    forall i | 0 <= i < 8 ensures Fits(t[i]) {
      if i < |name| { assert t[i] == name[i] && IsAlnum(name[i]); }
    }
  }

  /** Whether a callsign is what comes out at the other end. */
  predicate ComesBack(call: Text)
    requires Copied(call) ==> AllFit(PaddedCall(call))
  {
    var c := CompressCallsign(call);
    c.Some? && DecompressCallsign(c.value) == Some(call)
  }

  lemma CallParts(call: Text)
    ensures call == NameOf(call) + if HasSsid(call) then [DASH] + SsidOf(call) else []
    ensures NameOf(call) == call[..|NameOf(call)|]
  {
  }

  /** The text that comes back, when the callsign fits the copy. */
  lemma TextComesBack(call: Text)
    requires ValidSyntax(call)
    ensures AllFit(PaddedCall(call)) && CallText(Unpack(Pack(PaddedCall(call)))) == TextFor(NameOf(call), LastChar(call))
  {
    hide IndexOf, Pack, Unpack, WithSsid, Atoi, LastChar, HasSsid, SsidOf, NameOf;
    PaddedFits(call);
    UnpackInverts(PaddedCall(call));
    NameBeforeSpaces(NameOf(call), LastChar(call));
  }

  function TextFor(name: Text, last: nat): Text
  {
    if last == ZERO then if |name| > 6 then name[..6] else name
    else name + if COLON <= last <= 63 then [DASH, 49, last - 10] else [DASH, last]
  }

  lemma TextIsCall(call: Text)
    requires ValidSyntax(call)
    ensures TextFor(NameOf(call), LastChar(call)) == call
        <==> if HasSsid(call) then KeepsSsid(SsidOf(call)) else |call| <= 6
  {
    hide IndexOf, Atoi, NameOf, SsidOf, HasSsid;
    CallParts(call);
    if HasSsid(call) {
      var ssid := SsidOf(call);
      hide SsidChar;
      TwoDigits(ssid);
      if KeepsSsid(ssid) {
        assert ssid == if |ssid| == 1 then [ssid[0]] else [ssid[0], ssid[1]];
      }
    }
  }

  /** An upper-case callsign that the syntax check accepts survives compression exactly when it
      fits the ten-byte copy with its end mark, and has an SSID that is a character other than 0 or
      a number from 10 to 15, or has no SSID and at most six characters. */
  lemma CallsignComesBack(call: Text)
    requires ValidSyntax(call)
    ensures Copied(call) ==> AllFit(PaddedCall(call))
    ensures ComesBack(call) <==> |call| <= 9 && if HasSsid(call) then KeepsSsid(SsidOf(call)) else |call| <= 6
  {
    hide IndexOf, Pack, Unpack, CallText, TextFor, Atoi, KeepsSsid, LastChar, PaddedCall, HasSsid, SsidOf;
    PaddedFits(call);
    TextComesBack(call);
    TextIsCall(call);
  }

  lemma LongCallParts()
    ensures HasSsid(LONG_CALL) && NameOf(LONG_CALL) == [65, 66, 49, 67, 68, 69, 70] && SsidOf(LONG_CALL) == [49, 53]
  {
    hide IndexOf;
    assert LONG_CALL[7] == DASH && forall j :: 0 <= j < 7 ==> LONG_CALL[j] != DASH;
    assert IndexOf(LONG_CALL, DASH) == 7;
  }

  /** The longest callsigns that pass the syntax check do not fit: AB1CDEF-15. */
  lemma TenCharactersDoNotFit()
    ensures ValidSyntax(LONG_CALL) && KeepsSsid(SsidOf(LONG_CALL)) && CompressCallsign(LONG_CALL) == None
  {
    hide NameOf, SsidOf, HasSsid, IndexOf;
    LongCallParts();
    assert [49, 53][1..] == [53] && [53][1..] == [];
    assert Atoi([49, 53], 0) == Atoi([53], 1) == Atoi([], 15) == 15;
  }

  const LONG_CALL: Text := [65, 66, 49, 67, 68, 69, 70, 45, 49, 53]

  /** On the way back the ten-byte buffer is left exactly by a seven-character name with SSID 10..15. */
  lemma DecompressionFits(name: Text, last: nat)
    requires 3 <= |name| <= 7 && forall i :: 0 <= i < |name| ==> IsAlnum(name[i])
    requires Fits(last)
    ensures AllFit(WithSsid(name, last))
    ensures DecompressCallsign(Pack(WithSsid(name, last))).None? <==> |name| == 7 && COLON <= last <= 63
  {
    hide IndexOf, Pack, Unpack;
    var t := WithSsid(name, last);
    forall i | 0 <= i < 8 ensures Fits(t[i]) {
      if i < |name| { assert t[i] == name[i] && IsAlnum(name[i]); }
    }
    UnpackInverts(t);
    NameBeforeSpaces(name, last);
  }

  // ---------- grid squares ----------

  const SPACES: Text := [SPACE, SPACE, SPACE, SPACE, SPACE, SPACE, SPACE, SPACE]

  function CompressGridSquare(square: Text): (b: seq<nat>)
    requires |square| <= 8 && AllFit(square)
    ensures |b| == 6
  {
    var padded := (square + SPACES)[..8];
    assert forall i :: 0 <= i < 8 ==> padded[i] == if i < |square| then square[i] else SPACE;
    Pack(padded)
  }

  function DecompressGridSquare(b: seq<nat>): Text
    requires |b| == 6
  {
    var t := Unpack(b);
    t[..IndexOf(t, SPACE)]
  }

  /** A grid square of letters and digits survives compression. */
  lemma GridSquareComesBack(square: Text)
    requires |square| <= 8 && forall i :: 0 <= i < |square| ==> IsAlnum(square[i])
    ensures AllFit(square) && DecompressGridSquare(CompressGridSquare(square)) == square
  {
    forall i | 0 <= i < |square| ensures Fits(square[i]) {
      assert IsAlnum(square[i]);
    }
    var padded := (square + SPACES)[..8];
    assert forall i :: 0 <= i < 8 ==> padded[i] == if i < |square| then square[i] else SPACE;
    hide Pack, Unpack;
    UnpackInverts(padded);
    var i := IndexOf(padded, SPACE);
    assert forall j :: 0 <= j < |square| ==> padded[j] == square[j] && IsAlnum(square[j]);
    if |square| < 8 { assert padded[|square|] == SPACE; }
    assert i == |square|;
  }
}
