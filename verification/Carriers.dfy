/** A payload on the air: split over the carriers into counted blocks, each with a check
    sequence tied to the frame type and Reed-Solomon parity, and put together again
    (ext/ardop1/ARDOPC.c, ext/ardop1/SoundInput.c). The parity is a parameter; so is what the
    Reed-Solomon decoder makes of a received block. */
module Carriers {
  import opened Arrays
  import opened Arithmetic
  import opened Frames

  type Parity = (seq<byte>, nat) -> seq<byte>

  /** Whether the decoder believes it has repaired the block, and the block afterwards. */
  type Repair = seq<byte> -> (bool, seq<byte>)

  // ---------- the check sequence ----------

  function RegBit(r: bv16, i: nat): bool
    requires i < 16
  {
    match i
    case 0 => r & 1 != 0 case 1 => r & 2 != 0 case 2 => r & 4 != 0 case 3 => r & 8 != 0
    case 4 => r & 0x10 != 0 case 5 => r & 0x20 != 0 case 6 => r & 0x40 != 0 case 7 => r & 0x80 != 0
    case 8 => r & 0x100 != 0 case 9 => r & 0x200 != 0 case 10 => r & 0x400 != 0 case 11 => r & 0x800 != 0
    case 12 => r & 0x1000 != 0 case 13 => r & 0x2000 != 0 case 14 => r & 0x4000 != 0 case 15 => r & 0x8000 != 0
  }

  function WithBit(r: bv16, bit: bool): bv16 { r | (if bit then 1 else 0) }

  function CrcBit(reg: bv16, bit: bool): bv16
  {
    var shifted := WithBit(reg << 1, bit);
    if RegBit(reg, 15) then shifted ^ 0x8810 else shifted
  }

  function DataBit(b: byte, i: nat): bool
    requires i < 8
  {
    match i
    case 0 => b / 128 == 1 case 1 => b / 64 % 2 == 1 case 2 => b / 32 % 2 == 1 case 3 => b / 16 % 2 == 1
    case 4 => b / 8 % 2 == 1 case 5 => b / 4 % 2 == 1 case 6 => b / 2 % 2 == 1 case 7 => b % 2 == 1
  }

  /** The number that the first n bits of a byte are. */
  function BitsValue(b: byte, n: nat): nat
    requires n <= 8
  {
    if n == 0 then 0 else 2 * BitsValue(b, n - 1) + if DataBit(b, n - 1) then 1 else 0
  }

  lemma BitIs(b: byte, i: nat)
    requires i < 8
    ensures Pow2(7 - i) in {1, 2, 4, 8, 16, 32, 64, 128} && Pow2(8 - i) == 2 * Pow2(7 - i)
    ensures DataBit(b, i) <==> b / Pow2(7 - i) % 2 == 1
  {
    assert Pow2(2) == 4 && Pow2(4) == 16 && Pow2(6) == 64;
  }

  lemma Halved(b: byte, k: nat)
    requires k > 0
    ensures b / k == 2 * (b / (2 * k)) + b / k % 2
  {
    var q, r := b / (2 * k), b % (2 * k);
    assert b == q * (2 * k) + r && q * (2 * k) == (2 * q) * k && (2 * q + 1) * k == (2 * q) * k + k;
    if r < k { QuotientIsUnique(b, k, 2 * q, r); } else { QuotientIsUnique(b, k, 2 * q + 1, r - k); }
  }

  /** The bits are those of the byte, most significant first. */
  lemma {:induction false} BitsOfByte(b: byte, n: nat)
    requires n <= 8
    ensures BitsValue(b, n) == b / Pow2(8 - n)
  {
    if n == 0 {
      assert Pow2(8) == 256 by { assert Pow2(4) == 16; assert Pow2(6) == 64; }
    } else {
      hide DataBit, Pow2;
      BitsOfByte(b, n - 1);
      BitIs(b, n - 1);
      Halved(b, Pow2(8 - n));
    }
  }

  /** The register after the first n bits of b, most significant first. */
  function CrcBits(reg: bv16, b: byte, n: nat): bv16
    requires n <= 8
  {
    if n == 0 then reg else CrcBit(CrcBits(reg, b, n - 1), DataBit(b, n - 1))
  }

  function Crc16(data: seq<byte>): bv16
  {
    if data == [] then 0xFFFF else CrcBits(Crc16(data[..|data| - 1]), data[|data| - 1], 8)
  }

  lemma Crc16OneMore(data: seq<byte>, i: nat)
    requires i < |data|
    ensures Crc16(data[..i + 1]) == CrcBits(Crc16(data[..i]), data[i], 8)
  {
    assert data[..i + 1][..i] == data[..i];
  }

  /** The exclusive or of the low n bits of two numbers. */
  function XorBits(a: nat, b: nat, n: nat): (r: nat)
  {
    if n == 0 then 0 else (a + b) % 2 + 2 * XorBits(a / 2, b / 2, n - 1)
  }

  lemma {:induction false} XorBound(a: nat, b: nat, n: nat)
    ensures XorBits(a, b, n) < Pow2(n)
  {
    if n == 0 {
    } else {
      XorBound(a / 2, b / 2, n - 1);
    }
  }

  function XorByte(a: byte, b: byte): byte
  {
    XorBound(a, b, 8);
    assert Pow2(8) == 256 by { assert Pow2(4) == 16; assert Pow2(6) == 64; }
    XorBits(a, b, 8)
  }

  lemma BitsAgree(a: nat, b: nat, c: nat, x: nat, y: nat)
    requires (a + b) % 2 + 2 * x == (a + c) % 2 + 2 * y
    ensures x == y && b % 2 == c % 2
  {
  }

  lemma {:induction false} XorTells(a: nat, b: nat, c: nat, n: nat)
    requires b < Pow2(n) && c < Pow2(n) && XorBits(a, b, n) == XorBits(a, c, n)
    ensures b == c
  {
    if n == 0 {
    } else {
      BitsAgree(a, b, c, XorBits(a / 2, b / 2, n - 1), XorBits(a / 2, c / 2, n - 1));
      XorTells(a / 2, b / 2, c / 2, n - 1);
    }
  }

  function HighByte(c: bv16): byte { (c as int) / 256 }

  /** The low byte carries the frame type. */
  function TypedLowByte(c: bv16, t: byte): byte { XorByte((c as int) % 256, t) }

  lemma TypeShows(c: bv16, t: byte, u: byte)
    ensures TypedLowByte(c, t) == TypedLowByte(c, u) <==> t == u
  {
    assert Pow2(8) == 256 by { assert Pow2(4) == 16; assert Pow2(6) == 64; }
    if TypedLowByte(c, t) == TypedLowByte(c, u) {
      XorTells((c as int) % 256, t, u, 8);
    }
  }

  method GenCrc16(data: array<byte>, from: nat, len: nat) returns (reg: bv16)
    requires from + len <= data.Length
    ensures reg == Crc16(data[from..from + len])
  {
    hide CrcBit, DataBit;
    ghost var d := data[from..from + len];
    reg := 0xFFFF;
    for j := 0 to len
      invariant reg == Crc16(d[..j])
    {
      Crc16OneMore(d, j);
      ghost var before := reg;
      for i := 0 to 8
        invariant reg == CrcBits(before, d[j], i)
      {
        reg := CrcBit(reg, DataBit(data[from + j], i));
      }
    }
    assert d[..len] == d;
  }

  // ---------- what the check sequence detects ----------

  /** Whether the low n bits of a register have an odd number of ones. */
  function OddBits(r: bv16, n: nat): bool
    requires n <= 16
  {
    if n == 0 then false else OddBits(r, n - 1) != RegBit(r, n - 1)
  }

  function OddOnes(r: bv16): bool { OddBits(r, 16) }

  /** The number of ones among the first n bits of a byte, and in a string of bytes. */
  function OnesIn(b: byte, n: nat): nat
    requires n <= 8
  {
    if n == 0 then 0 else OnesIn(b, n - 1) + if DataBit(b, n - 1) then 1 else 0
  }

  function Ones(data: seq<byte>): nat
  {
    if data == [] then 0 else Ones(data[..|data| - 1]) + OnesIn(data[|data| - 1], 8)
  }

  lemma BitsShift(r: bv16, i: nat)
    requires i < 16
    ensures RegBit(r << 1, i) == (i > 0 && RegBit(r, i - 1))
  {
    match i
    case 0 => assert (r << 1) & 0x1 != 0 <==> false;
    case 1 => assert (r << 1) & 0x2 != 0 <==> r & 0x1 != 0;
    case 2 => assert (r << 1) & 0x4 != 0 <==> r & 0x2 != 0;
    case 3 => assert (r << 1) & 0x8 != 0 <==> r & 0x4 != 0;
    case 4 => assert (r << 1) & 0x10 != 0 <==> r & 0x8 != 0;
    case 5 => assert (r << 1) & 0x20 != 0 <==> r & 0x10 != 0;
    case 6 => assert (r << 1) & 0x40 != 0 <==> r & 0x20 != 0;
    case 7 => assert (r << 1) & 0x80 != 0 <==> r & 0x40 != 0;
    case 8 => assert (r << 1) & 0x100 != 0 <==> r & 0x80 != 0;
    case 9 => assert (r << 1) & 0x200 != 0 <==> r & 0x100 != 0;
    case 10 => assert (r << 1) & 0x400 != 0 <==> r & 0x200 != 0;
    case 11 => assert (r << 1) & 0x800 != 0 <==> r & 0x400 != 0;
    case 12 => assert (r << 1) & 0x1000 != 0 <==> r & 0x800 != 0;
    case 13 => assert (r << 1) & 0x2000 != 0 <==> r & 0x1000 != 0;
    case 14 => assert (r << 1) & 0x4000 != 0 <==> r & 0x2000 != 0;
    case 15 => assert (r << 1) & 0x8000 != 0 <==> r & 0x4000 != 0;
  }

  lemma {:induction false} ShiftDropsOne(r: bv16, n: nat)
    requires 0 < n <= 16
    ensures OddBits(r << 1, n) == OddBits(r, n - 1)
  {
    hide RegBit;
    BitsShift(r, n - 1);
    if n == 1 {
      assert OddBits(r << 1, 0) == false;
    } else {
      ShiftDropsOne(r, n - 1);
    }
  }

  lemma BitsFlip(r: bv16, i: nat)
    requires i < 16
    ensures RegBit(r ^ 0x8810, i) == (RegBit(r, i) != (i == 4 || i == 11 || i == 15))
  {
    match i
    case 0 => assert (r ^ 0x8810) & 0x1 != 0 <==> r & 0x1 != 0;
    case 1 => assert (r ^ 0x8810) & 0x2 != 0 <==> r & 0x2 != 0;
    case 2 => assert (r ^ 0x8810) & 0x4 != 0 <==> r & 0x4 != 0;
    case 3 => assert (r ^ 0x8810) & 0x8 != 0 <==> r & 0x8 != 0;
    case 4 => assert (r ^ 0x8810) & 0x10 != 0 <==> r & 0x10 == 0;
    case 5 => assert (r ^ 0x8810) & 0x20 != 0 <==> r & 0x20 != 0;
    case 6 => assert (r ^ 0x8810) & 0x40 != 0 <==> r & 0x40 != 0;
    case 7 => assert (r ^ 0x8810) & 0x80 != 0 <==> r & 0x80 != 0;
    case 8 => assert (r ^ 0x8810) & 0x100 != 0 <==> r & 0x100 != 0;
    case 9 => assert (r ^ 0x8810) & 0x200 != 0 <==> r & 0x200 != 0;
    case 10 => assert (r ^ 0x8810) & 0x400 != 0 <==> r & 0x400 != 0;
    case 11 => assert (r ^ 0x8810) & 0x800 != 0 <==> r & 0x800 == 0;
    case 12 => assert (r ^ 0x8810) & 0x1000 != 0 <==> r & 0x1000 != 0;
    case 13 => assert (r ^ 0x8810) & 0x2000 != 0 <==> r & 0x2000 != 0;
    case 14 => assert (r ^ 0x8810) & 0x4000 != 0 <==> r & 0x4000 != 0;
    case 15 => assert (r ^ 0x8810) & 0x8000 != 0 <==> r & 0x8000 == 0;
  }

  /** The polynomial has an odd number of ones. */
  lemma {:induction false} PolynomialTurnsParity(r: bv16, n: nat)
    requires n <= 16
    ensures OddBits(r ^ 0x8810, n) == (OddBits(r, n) != (4 < n <= 11 || n == 16))
  {
    hide RegBit;
    if n == 0 {
    } else {
      BitsFlip(r, n - 1);
      PolynomialTurnsParity(r, n - 1);
    }
  }

  lemma LowBit(r: bv16, bit: bool, i: nat)
    requires i < 16
    ensures RegBit(WithBit(r << 1, bit), i) == if i == 0 then bit else RegBit(r << 1, i)
  {
    match i
    case 0 => assert ((r << 1) | 1) & 0x1 != 0 <==> true;
    case 1 => assert ((r << 1) | 1) & 0x2 != 0 <==> (r << 1) & 0x2 != 0;
    case 2 => assert ((r << 1) | 1) & 0x4 != 0 <==> (r << 1) & 0x4 != 0;
    case 3 => assert ((r << 1) | 1) & 0x8 != 0 <==> (r << 1) & 0x8 != 0;
    case 4 => assert ((r << 1) | 1) & 0x10 != 0 <==> (r << 1) & 0x10 != 0;
    case 5 => assert ((r << 1) | 1) & 0x20 != 0 <==> (r << 1) & 0x20 != 0;
    case 6 => assert ((r << 1) | 1) & 0x40 != 0 <==> (r << 1) & 0x40 != 0;
    case 7 => assert ((r << 1) | 1) & 0x80 != 0 <==> (r << 1) & 0x80 != 0;
    case 8 => assert ((r << 1) | 1) & 0x100 != 0 <==> (r << 1) & 0x100 != 0;
    case 9 => assert ((r << 1) | 1) & 0x200 != 0 <==> (r << 1) & 0x200 != 0;
    case 10 => assert ((r << 1) | 1) & 0x400 != 0 <==> (r << 1) & 0x400 != 0;
    case 11 => assert ((r << 1) | 1) & 0x800 != 0 <==> (r << 1) & 0x800 != 0;
    case 12 => assert ((r << 1) | 1) & 0x1000 != 0 <==> (r << 1) & 0x1000 != 0;
    case 13 => assert ((r << 1) | 1) & 0x2000 != 0 <==> (r << 1) & 0x2000 != 0;
    case 14 => assert ((r << 1) | 1) & 0x4000 != 0 <==> (r << 1) & 0x4000 != 0;
    case 15 => assert ((r << 1) | 1) & 0x8000 != 0 <==> (r << 1) & 0x8000 != 0;
    assert (r << 1) & 1 == 0 && (r << 1) | 0 == r << 1;
  }

  lemma {:induction false} LowBitTurnsParity(r: bv16, bit: bool, n: nat)
    requires 0 < n <= 16
    ensures OddBits(WithBit(r << 1, bit), n) == (OddBits(r << 1, n) != bit)
  {
    hide RegBit, WithBit;
    LowBit(r, bit, n - 1);
    BitsShift(r, n - 1);
    if n == 1 {
      assert OddBits(r << 1, 0) == OddBits(WithBit(r << 1, bit), 0) == false;
    } else {
      LowBitTurnsParity(r, bit, n - 1);
    }
  }

  lemma BitTurnsParity(reg: bv16, bit: bool)
    ensures OddOnes(CrcBit(reg, bit)) == (OddOnes(reg) != bit)
  {
    hide OddBits, RegBit, WithBit;
    ShiftDropsOne(reg, 16);
    LowBitTurnsParity(reg, bit, 16);
    PolynomialTurnsParity(WithBit(reg << 1, bit), 16);
    TopBit(reg);
  }

  lemma TopBit(reg: bv16)
    ensures OddBits(reg, 16) == (OddBits(reg, 15) != RegBit(reg, 15))
  {
  }

  lemma {:induction false} BitsTurnParity(reg: bv16, b: byte, n: nat)
    requires n <= 8
    ensures OddOnes(CrcBits(reg, b, n)) == (OddOnes(reg) != (OnesIn(b, n) % 2 == 1))
  {
    if n == 0 {
    } else {
      hide OddOnes, CrcBit, DataBit, OnesIn;
      BitsTurnParity(reg, b, n - 1);
      BitTurnsParity(CrcBits(reg, b, n - 1), DataBit(b, n - 1));
      OneMoreBit(b, n);
    }
  }

  lemma OneMoreBit(b: byte, n: nat)
    requires 0 < n <= 8
    ensures (OnesIn(b, n) % 2 == 1) == ((OnesIn(b, n - 1) % 2 == 1) != DataBit(b, n - 1))
  {
    hide DataBit;
  }

  lemma {:induction false} SeedIsEven(n: nat)
    requires n <= 16
    ensures OddBits(0xFFFF, n) <==> n % 2 == 1
  {
    if n == 0 {
    } else {
      SeedIsEven(n - 1);
    }
  }

  /** The register has an odd number of ones exactly when the data has. */
  lemma {:induction false} CrcHasParity(data: seq<byte>)
    ensures OddOnes(Crc16(data)) <==> Ones(data) % 2 == 1
  {
    hide OddBits, CrcBits, OnesIn;
    if data == [] {
      SeedIsEven(16);
    } else {
      var n := |data| - 1;
      CrcHasParity(data[..n]);
      BitsTurnParity(Crc16(data[..n]), data[n], 8);
    }
  }

  // ---------- one block ----------

  ghost predicate ParityFits(parity: Parity)
  {
    forall s, n :: |parity(s, n)| == n
  }

  /** The check sequence behind the count and the data fits them and the frame type. */
  predicate CrcOk(s: seq<byte>, len: nat, t: byte)
    requires |s| >= len + 3
  {
    var c := Crc16(s[..len + 1]);
    s[len + 1] == HighByte(c) && s[len + 2] == TypedLowByte(c, t)
  }

  /** A block that holds the given content: counted, checked, with its parity. What follows a
      short content up to the block's length is whatever the buffer held. */
  predicate IsBlock(s: seq<byte>, content: seq<byte>, len: nat, rs: nat, t: byte, parity: Parity)
  {
    && |content| <= len && |content| < 256 && |s| == len + 3 + rs
    && s[0] == |content|
    && s[1..1 + |content|] == content
    && CrcOk(s, len, t)
    && s[len + 3..] == parity(s[..len + 3], rs)
  }

  /** A block passes the check of its own frame type and of no other. */
  lemma BlockBelongsToType(s: seq<byte>, content: seq<byte>, len: nat, rs: nat, t: byte, u: byte, parity: Parity)
    requires IsBlock(s, content, len, rs, t, parity)
    ensures CrcOk(s, len, u) <==> u == t
  {
    hide Crc16, TypedLowByte, HighByte;
    TypeShows(Crc16(s[..len + 1]), t, u);
  }

  /** Any odd number of wrong bits in the count and the data of a block is detected. */
  lemma OddErrorsAreDetected(s: seq<byte>, r: seq<byte>, len: nat, t: byte)
    requires |s| >= len + 3 && |r| >= len + 3 && r[len + 1..len + 3] == s[len + 1..len + 3]
    requires CrcOk(s, len, t) && (Ones(s[..len + 1]) + Ones(r[..len + 1])) % 2 == 1
    ensures !CrcOk(r, len, t)
  {
    hide Crc16, OddOnes, Ones, XorByte;
    CrcHasParity(s[..len + 1]);
    CrcHasParity(r[..len + 1]);
    assert r[len + 1] == r[len + 1..len + 3][0] == s[len + 1] && r[len + 2] == r[len + 1..len + 3][1] == s[len + 2];
    var c, d := Crc16(s[..len + 1]), Crc16(r[..len + 1]);
    if CrcOk(r, len, t) {
      CheckBytesTell(c, d, t);
    }
  }

  /** The two check bytes determine the register. */
  lemma CheckBytesTell(c: bv16, d: bv16, t: byte)
    requires HighByte(c) == HighByte(d) && TypedLowByte(c, t) == TypedLowByte(d, t)
    ensures c == d
  {
    hide XorBits;
    assert Pow2(8) == 256 by { assert Pow2(4) == 16; assert Pow2(6) == 64; }
    XorIsSymmetric((c as int) % 256, t, 8);
    XorIsSymmetric((d as int) % 256, t, 8);
    XorTells(t, (c as int) % 256, (d as int) % 256, 8);
    SameNumber(c, d);
  }

  lemma SameNumber(c: bv16, d: bv16)
    requires (c as int) / 256 == (d as int) / 256 && (c as int) % 256 == (d as int) % 256
    ensures c == d
  {
    var x, y := c as int, d as int;
    assert x == y;
    assert x as bv16 == c && y as bv16 == d;
  }

  lemma {:induction false} XorIsSymmetric(a: nat, b: nat, n: nat)
    ensures XorBits(a, b, n) == XorBits(b, a, n)
  {
    if n == 0 {
    } else {
      XorIsSymmetric(a / 2, b / 2, n - 1);
    }
  }

  method WriteBytes(s: seq<byte>, dst: array<byte>, to: nat)
    requires to + |s| <= dst.Length
    modifies dst
    ensures dst[to..to + |s|] == s
    ensures forall i :: 0 <= i < dst.Length && !(to <= i < to + |s|) ==> dst[i] == old(dst[i])
  {
    for i := 0 to |s|
      invariant dst[to..to + i] == s[..i]
      invariant forall k :: 0 <= k < dst.Length && !(to <= k < to + i) ==> dst[k] == old(dst[k])
    {
      dst[to + i] := s[i];
      assert dst[to..to + i + 1] == dst[to..to + i] + [s[i]];
    }
    assert s[..|s|] == s;
  }

  /** The count, and the content behind it. */
  method WriteContent(data: array<byte>, from: nat, count: nat, out: array<byte>, at: nat, len: nat)
    requires data != out && from + count <= data.Length && count <= len && count < 256 && at + len < out.Length
    modifies out
    ensures var s := out[at..at + len + 1]; s[0] == count && s[1..1 + count] == data[from..from + count]
    ensures forall i :: 0 <= i < out.Length && !(at <= i < at + len + 1) ==> out[i] == old(out[i])
  {
    out[at] := count;
    Copy(data, from, count, out, at + 1);
    ghost var s, d := out[at..at + len + 1], data[from..from + count];
    assert s[0] == out[at];
    assert out[at + 1..at + 1 + count] == d;
    SliceOfSlice(out[..], at, at + len + 1, 1, 1 + count);
    assert s == out[..][at..at + len + 1];
    assert d == out[..][at + 1..at + 1 + count];
  }

  /** Appends the check sequence to the first n bytes at `at`. */
  method GenCrc16FrameType(out: array<byte>, at: nat, n: nat, t: byte)
    requires at + n + 2 <= out.Length
    modifies out
    ensures var s := old(out[at..at + n]);
            out[at..at + n + 2] == s + [HighByte(Crc16(s)), TypedLowByte(Crc16(s), t)]
    ensures forall i :: 0 <= i < out.Length && !(at + n <= i < at + n + 2) ==> out[i] == old(out[i])
  {
    hide Crc16, HighByte, TypedLowByte;
    ghost var s := out[at..at + n];
    var crc := GenCrc16(out, at, n);
    out[at + n] := HighByte(crc);
    out[at + n + 1] := TypedLowByte(crc, t);
    assert out[at..at + n] == s;
  }

  lemma PartsMakeBlock(checked: seq<byte>, content: seq<byte>, len: nat, rs: nat, t: byte, parity: Parity)
    requires |checked| == len + 1 && |content| <= len && |content| < 256
    requires checked[0] == |content| && checked[1..1 + |content|] == content
    requires ParityFits(parity)
    ensures var covered := checked + [HighByte(Crc16(checked)), TypedLowByte(Crc16(checked), t)];
            IsBlock(covered + parity(covered, rs), content, len, rs, t, parity)
  {
    hide Crc16, HighByte, TypedLowByte;
    var covered := checked + [HighByte(Crc16(checked)), TypedLowByte(Crc16(checked), t)];
    var s := covered + parity(covered, rs);
    assert s[..len + 1] == checked && s[..len + 3] == covered;
    assert s[1..1 + |content|] == checked[1..1 + |content|];
  }

  /** Writes one block at `at`. */
  method EncodeBlock(data: array<byte>, from: nat, count: nat, out: array<byte>, at: nat,
                     len: nat, rs: nat, t: byte, parity: Parity)
    requires data != out && from + count <= data.Length && count <= len && count < 256
    requires at + len + 3 + rs <= out.Length
    requires ParityFits(parity)
    modifies out
    ensures IsBlock(out[at..at + len + 3 + rs], data[from..from + count], len, rs, t, parity)
    ensures forall i :: 0 <= i < out.Length && !(at <= i < at + len + 3 + rs) ==> out[i] == old(out[i])
  {
    hide Crc16, HighByte, TypedLowByte, IsBlock;
    WriteContent(data, from, count, out, at, len);
    ghost var checked := out[at..at + len + 1];
    ghost var content := data[from..from + count];
    GenCrc16FrameType(out, at, len + 1, t);
    var covered := out[at..at + len + 3];
    ghost var before := out[..];
    var p := parity(covered, rs);
    WriteBytes(p, out, at + len + 3);
    SameSlice(before, out[..], at, at + len + 3);
    SliceJoins(out[..], at, at + len + 3, at + len + 3 + rs);
    PartsMakeBlock(checked, content, len, rs, t, parity);
  }

  // ---------- a whole frame ----------

  /** Where the block of carrier c begins: behind the two type bytes and c blocks. */
  function Offset(c: nat, stride: nat): nat
  {
    2 + c * stride
  }

  lemma ProductGrows(a: nat, b: nat, s: nat)
    requires a <= b
    ensures a * s <= b * s
  {
    assert b * s == a * s + (b - a) * s;
  }

  lemma OffsetSteps(c: nat, n: nat, stride: nat)
    ensures Offset(0, stride) == 2 && Offset(c + 1, stride) == Offset(c, stride) + stride
    ensures c < n ==> Offset(c, stride) + stride <= Offset(n, stride)
  {
    assert (c + 1) * stride == c * stride + stride;
    if c < n {
      ProductGrows(c + 1, n, stride);
    }
  }

  predicate BlockAt(s: seq<byte>, c: nat, content: seq<byte>, len: nat, rs: nat, t: byte, parity: Parity)
  {
    var stride := len + 3 + rs;
    var o := Offset(c, stride);
    o + stride <= |s| && IsBlock(s[o..o + stride], content, len, rs, t, parity)
  }

  /** The first n blocks of the frame s hold the given contents. */
  predicate BlocksAre(s: seq<byte>, blocks: seq<seq<byte>>, n: nat, len: nat, rs: nat, t: byte, parity: Parity)
    requires n <= |blocks|
  {
    forall c: nat :: c < n ==> BlockAt(s, c, blocks[c], len, rs, t, parity)
  }

  lemma BlocksStay(s: seq<byte>, r: seq<byte>, blocks: seq<seq<byte>>, n: nat,
                   len: nat, rs: nat, t: byte, parity: Parity)
    requires n <= |blocks| && BlocksAre(s, blocks, n, len, rs, t, parity)
    requires |r| == |s| && Offset(n, len + 3 + rs) <= |s|
    requires r[..Offset(n, len + 3 + rs)] == s[..Offset(n, len + 3 + rs)]
    ensures BlocksAre(r, blocks, n, len, rs, t, parity)
  {
    hide IsBlock, Offset;
    var stride := len + 3 + rs;
    forall c: nat | c < n ensures BlockAt(r, c, blocks[c], len, rs, t, parity) {
      OffsetSteps(c, n, stride);
      assert BlockAt(s, c, blocks[c], len, rs, t, parity);
      var o := Offset(c, stride);
      SliceOfPrefix(r, Offset(n, stride), o, o + stride);
      SliceOfPrefix(s, Offset(n, stride), o, o + stride);
    }
  }

  lemma OneBlockMore(s: seq<byte>, r: seq<byte>, blocks: seq<seq<byte>>, c: nat,
                     len: nat, rs: nat, t: byte, parity: Parity)
    requires c < |blocks| && BlocksAre(s, blocks, c, len, rs, t, parity)
    requires var o := Offset(c, len + 3 + rs);
             && |r| == |s| && o + len + 3 + rs <= |s| && r[..o] == s[..o]
             && IsBlock(r[o..o + len + 3 + rs], blocks[c], len, rs, t, parity)
    ensures BlocksAre(r, blocks, c + 1, len, rs, t, parity) && r[..2] == s[..2]
  {
    hide IsBlock;
    BlocksStay(s, r, blocks, c, len, rs, t, parity);
    assert BlockAt(r, c, blocks[c], len, rs, t, parity);
    var o := Offset(c, len + 3 + rs);
    assert r[..2] == r[..o][..2];
  }

  lemma NoBlocks(s: seq<byte>, blocks: seq<seq<byte>>, len: nat, rs: nat, t: byte, parity: Parity)
    ensures BlocksAre(s, blocks, 0, len, rs, t, parity)
  {
  }

  lemma SplitAhead<T>(payload: seq<T>, n: nat, len: nat, c: nat, done: nat)
    requires c < n && done <= |payload|
    requires Split(payload, n, len)[c..] == Split(payload[done..], n - c, len)
    ensures var k := if |payload| - done > len then len else |payload| - done;
            && Split(payload, n, len)[c] == payload[done..done + k]
            && Split(payload, n, len)[c + 1..] == Split(payload[done + k..], n - c - 1, len)
  {
    var k := if |payload| - done > len then len else |payload| - done;
    var rest := payload[done..];
    assert rest[..k] == payload[done..done + k] && rest[k..] == payload[done + k..];
    assert Split(payload, n, len)[c] == Split(payload, n, len)[c..][0];
    assert Split(payload, n, len)[c + 1..] == Split(payload, n, len)[c..][1..];
  }

  /** The loop over the carriers. */
  method EncodeCarriers(data: array<byte>, length: nat, out: array<byte>, num: nat, len: nat, rs: nat,
                        t: byte, parity: Parity) returns (end: nat)
    requires data != out && length <= data.Length && len < 256
    requires Offset(num, len + 3 + rs) <= out.Length && ParityFits(parity)
    modifies out
    ensures end == Offset(num, len + 3 + rs)
    ensures BlocksAre(out[..], Split(data[..length], num, len), num, len, rs, t, parity)
    ensures out[..2] == old(out[..2])
  {
    hide IsBlock, Offset, BlocksAre, Split;
    ghost var payload := data[..length];
    ghost var blocks := Split(payload, num, len);
    var stride := len + 3 + rs;
    var sent: nat := 0;
    end := 2;
    OffsetSteps(0, num, stride);
    NoBlocks(out[..], blocks, len, rs, t, parity);
    assert blocks[0..] == blocks && payload[0..] == payload;
    for c := 0 to num
      invariant sent <= length == |payload| && |blocks| == num && 2 <= out.Length
      invariant end == Offset(c, stride) && data[..length] == payload
      invariant blocks[c..] == Split(payload[sent..], num - c, len)
      invariant BlocksAre(out[..], blocks, c, len, rs, t, parity)
      invariant out[..][..2] == old(out[..])[..2]
    {
      OffsetSteps(c, num, stride);
      SplitAhead(payload, num, len, c, sent);
      var count := length - sent;
      if count > len {
        count := len;
      }
      ghost var before := out[..];
      assert payload[sent..sent + count] == data[sent..sent + count];
      EncodeBlock(data, sent, count, out, end, len, rs, t, parity);
      ghost var after := out[..];
      assert after[..end] == before[..end] && after[end..end + stride] == out[end..end + stride];
      OneBlockMore(before, after, blocks, c, len, rs, t, parity);
      sent := sent + count;
      end := end + stride;
    }
    assert out[..2] == out[..][..2] && old(out[..2]) == old(out[..])[..2];
  }

  /** EncodePSKData; the same for one and for several carriers. */
  method EncodePskData(t: byte, session: byte, data: array<byte>, length: nat, out: array<byte>,
                       num: nat, len: nat, rs: nat, parity: Parity) returns (end: nat)
    requires data != out && length <= data.Length && len < 256
    requires Offset(num, len + 3 + rs) <= out.Length && ParityFits(parity)
    modifies out
    ensures len == 0 || length == 0 ==> end == 0
    ensures len > 0 && length > 0 ==>
      && end == 2 + num * (len + 3 + rs)
      && out[..2] == [t, XorByte(t, session)]
      && BlocksAre(out[..], Split(data[..length], num, len), num, len, rs, t, parity)
  {
    hide BlocksAre, Split;
    if len == 0 || length == 0 {
      return 0;
    }
    out[0] := t;
    out[1] := XorByte(t, session);
    end := EncodeCarriers(data, length, out, num, len, rs, t, parity);
  }

  /** EncodeFSKData; the 600-byte frames are three blocks of a third each on one carrier. */
  method EncodeFskData(t: byte, session: byte, baud: nat, data: array<byte>, length: nat, out: array<byte>,
                       num: nat, len: nat, rs: nat, parity: Parity) returns (end: nat)
    requires data != out && length <= data.Length
    requires if baud < 600 || len < 600 then len < 256 else len < 768
    requires out.Length >= if baud < 600 || len < 600 then Offset(num, len + 3 + rs) else Offset(3, len / 3 + 3 + rs / 3)
    requires ParityFits(parity)
    modifies out
    ensures len == 0 || length == 0 ==> end == 0
    ensures len > 0 && length > 0 ==>
      && out[..2] == [t, XorByte(t, session)]
      && if baud < 600 || len < 600 then
           && end == 2 + num * (len + 3 + rs)
           && BlocksAre(out[..], Split(data[..length], num, len), num, len, rs, t, parity)
         else
           && end == 2 + 3 * (len / 3 + 3 + rs / 3)
           && BlocksAre(out[..], Split(data[..length], 3, len / 3), 3, len / 3, rs / 3, t, parity)
  {
    hide BlocksAre, Split;
    if len == 0 || length == 0 {
      return 0;
    }
    out[0] := t;
    out[1] := XorByte(t, session);
    if baud < 600 || len < 600 {
      end := EncodeCarriers(data, length, out, num, len, rs, t, parity);
      return;
    }
    end := EncodeCarriers(data, length, out, 3, len / 3, rs / 3, t, parity);
  }

  // ---------- reading a frame ----------

  const RAW_SIZE := 760
  const CARRIERS := 8

  /** What is kept of one carrier: whether it has been decoded, and its bytes. */
  datatype Slot = Slot(ok: bool, raw: seq<byte>)

  ghost predicate RepairFits(fix: Repair)
  {
    forall s :: |fix(s).1| == |s|
  }

  /** The counted content of a block. */
  function Content(raw: seq<byte>): seq<byte>
    requires |raw| == RAW_SIZE
  {
    raw[1..1 + raw[0]]
  }

  function Repaired(raw: seq<byte>, n: nat, fix: Repair): (r: seq<byte>)
    requires n <= |raw| && |fix(raw[..n]).1| == n
    ensures |r| == |raw|
  {
    fix(raw[..n]).1 + raw[n..]
  }

  /** A carrier already decoded is not decoded again; otherwise the block counts only if its
      check sequence fits, as it came or as it was repaired. */
  function Corrected(s: Slot, len: nat, rs: nat, t: byte, fix: Repair): (r: (Slot, seq<byte>))
    requires |s.raw| == RAW_SIZE && len + 3 + rs <= RAW_SIZE && |fix(s.raw[..len + 3 + rs]).1| == len + 3 + rs
    ensures |r.0.raw| == RAW_SIZE
  {
    if s.ok || CrcOk(s.raw, len, t) then (Slot(true, s.raw), Content(s.raw))
    else
      var raw := Repaired(s.raw, len + 3 + rs, fix);
      if fix(s.raw[..len + 3 + rs]).0 && CrcOk(raw, len, t) then (Slot(true, raw), Content(raw))
      else (Slot(false, raw), raw[1..1 + len])
  }

  /** What is newly taken as good passes its check, and its content is what it counts. */
  lemma GoodIsChecked(s: Slot, len: nat, rs: nat, t: byte, fix: Repair)
    requires |s.raw| == RAW_SIZE && len + 3 + rs <= RAW_SIZE && RepairFits(fix) && !s.ok
    ensures var r := Corrected(s, len, rs, t, fix);
            if r.0.ok then CrcOk(r.0.raw, len, t) && r.1 == r.0.raw[1..1 + r.0.raw[0]]
            else !CrcOk(s.raw, len, t) && r.1 == r.0.raw[1..1 + len]
  {
    hide Crc16, HighByte, TypedLowByte;
  }

  /** A block of another frame type is refused, unless the repair makes another block of it. */
  lemma ForeignBlockIsRefused(s: Slot, content: seq<byte>, len: nat, rs: nat, t: byte, u: byte, parity: Parity, fix: Repair)
    requires |s.raw| == RAW_SIZE && len + 3 + rs <= RAW_SIZE && RepairFits(fix) && !s.ok
    requires IsBlock(s.raw[..len + 3 + rs], content, len, rs, u, parity) && t != u
    requires var f := fix(s.raw[..len + 3 + rs]); !f.0 || f.1 == s.raw[..len + 3 + rs]
    ensures var r := Corrected(s, len, rs, t, fix); !r.0.ok && |r.1| == len
  {
    hide Crc16, HighByte, TypedLowByte;
    var p := s.raw[..len + 3 + rs];
    BlockBelongsToType(p, content, len, rs, u, t, parity);
    assert p[..len + 1] == s.raw[..len + 1];
    if fix(p).1 == p {
      assert Repaired(s.raw, len + 3 + rs, fix) == s.raw;
    }
  }

  /** A block that does not pass its check and is repaired gives its content. */
  lemma RepairedBlockIsRead(s: Slot, content: seq<byte>, len: nat, rs: nat, t: byte, parity: Parity, fix: Repair)
    requires |s.raw| == RAW_SIZE && len + 3 + rs <= RAW_SIZE && RepairFits(fix) && !s.ok && !CrcOk(s.raw, len, t)
    requires var f := fix(s.raw[..len + 3 + rs]); f.0 && IsBlock(f.1, content, len, rs, t, parity)
    ensures var r := Corrected(s, len, rs, t, fix);
            r.0.ok && r.0.raw == fix(s.raw[..len + 3 + rs]).1 + s.raw[len + 3 + rs..] && r.1 == content
  {
    hide Crc16, HighByte, TypedLowByte;
    var p := fix(s.raw[..len + 3 + rs]).1;
    var raw := Repaired(s.raw, len + 3 + rs, fix);
    assert raw[..len + 1] == p[..len + 1];
    assert raw[1..1 + |content|] == p[1..1 + |content|];
  }

  method CheckCrc16FrameType(s: seq<byte>, len: nat, t: byte) returns (ok: bool)
    requires |s| >= len + 3
    ensures ok == CrcOk(s, len, t)
  {
    hide Crc16, HighByte, TypedLowByte;
    var buf := new byte[len + 1](i requires 0 <= i < len + 1 => s[i]);
    assert buf[0..0 + (len + 1)] == s[..len + 1];
    var crc := GenCrc16(buf, 0, len + 1);
    ok := HighByte(crc) == s[len + 1] && TypedLowByte(crc, t) == s[len + 2];
  }

  /** A block that was not decoded before is checked, and if it fails repaired and checked again. */
  method CheckOrRepair(raw: seq<byte>, held: bool, len: nat, rs: nat, t: byte, fix: Repair)
    returns (fixed: seq<byte>, ok: bool, n: nat)
    requires |raw| == RAW_SIZE && RepairFits(fix) && len < 256 && len + 3 + rs <= RAW_SIZE
    ensures |fixed| == RAW_SIZE && n <= 255
    ensures Corrected(Slot(held, raw), len, rs, t, fix) == (Slot(ok, fixed), fixed[1..1 + n])
  {
    hide CrcOk;
    fixed, ok := raw, held;
    if !ok {
      ok := CheckCrc16FrameType(raw, len, t);
    }
    if !ok {
      var (frameOk, repaired) := fix(raw[..len + 3 + rs]);
      fixed := repaired + raw[len + 3 + rs..];
      if frameOk {
        ok := CheckCrc16FrameType(fixed, len, t);
      }
    }
    n := if ok then fixed[0] else len;
  }

  /** The carriers of the frame being received. */
  class Receiver {
    const carrierOk: array<bool>
    const frameData: array<seq<byte>>

    constructor ()
      ensures Valid() && fresh(carrierOk) && fresh(frameData)
      ensures forall c :: 0 <= c < CARRIERS ==> !carrierOk[c]
    {
      carrierOk := new bool[CARRIERS](_ => false);
      frameData := new seq<byte>[CARRIERS](_ => seq(RAW_SIZE, _ => 0));
    }

    ghost predicate Valid()
      reads this, frameData
    {
      && carrierOk.Length == CARRIERS && frameData.Length == CARRIERS
      && forall c :: 0 <= c < CARRIERS ==> |frameData[c]| == RAW_SIZE
    }

    ghost function At(c: nat): Slot
      requires carrierOk.Length == CARRIERS && frameData.Length == CARRIERS && c < CARRIERS
      reads this, carrierOk, frameData
    {
      Slot(carrierOk[c], frameData[c])
    }

    /** Corrects one carrier and appends what it holds to the frame. */
    method CorrectRawDataWithRS(out: array<byte>, at: nat, len: nat, rs: nat, t: byte, c: nat, fix: Repair)
      returns (n: nat)
      requires Valid() && c < CARRIERS && RepairFits(fix) && len < 256
      requires len + 3 + rs <= RAW_SIZE && at + 255 <= out.Length
      modifies carrierOk, frameData, out
      ensures Valid()
      ensures var r := Corrected(old(At(c)), len, rs, t, fix);
              At(c) == r.0 && n == |r.1| <= 255 && out[at..at + n] == r.1
      ensures At(c).ok && !old(At(c)).ok ==> CrcOk(At(c).raw, len, t)
      ensures forall d: nat :: d < CARRIERS && d != c ==> At(d) == old(At(d))
      ensures out[..at] == old(out[..at])
    {
      hide Corrected, CrcOk;
      ghost var before := out[..at];
      var raw, ok := frameData[c], carrierOk[c];
      if !ok { GoodIsChecked(At(c), len, rs, t, fix); }
      raw, ok, n := CheckOrRepair(raw, ok, len, rs, t, fix);
      frameData[c] := raw;
      carrierOk[c] := ok;
      WriteBytes(raw[1..1 + n], out, at);
      assert out[..at] == before;
    }

    /** All carriers in order. */
    method DecodeCarriers(num: nat, out: array<byte>, len: nat, rs: nat, t: byte, fix: Repair)
      returns (frameLen: nat, ok: bool)
      requires Valid() && num <= CARRIERS && RepairFits(fix) && len < 256
      requires len + 3 + rs <= RAW_SIZE && num * 255 <= out.Length
      modifies carrierOk, frameData, out
      ensures Valid()
      ensures forall c: nat :: c < num ==> At(c) == Corrected(old(At(c)), len, rs, t, fix).0
      ensures frameLen <= out.Length && out[..frameLen] == Join(Contents(num, old(Slots()), len, rs, t, fix))
      ensures ok <==> forall c: nat :: c < num ==> Corrected(old(At(c)), len, rs, t, fix).0.ok
      ensures ok <==> forall c: nat :: c < num ==> At(c).ok
      ensures forall c: nat :: c < num && At(c).ok && !old(At(c)).ok ==> CrcOk(At(c).raw, len, t)
    {
      hide Corrected, Join, Contents, CrcOk;
      ghost var slots := Slots();
      frameLen, ok := 0, true;
      NothingJoined(slots, len, rs, t, fix);
      for c := 0 to num
        invariant Valid() && frameLen <= c * 255
        invariant forall d: nat :: c <= d < CARRIERS ==> At(d) == slots[d]
        invariant forall d: nat :: d < c ==> At(d) == Corrected(slots[d], len, rs, t, fix).0
        invariant out[..frameLen] == Join(Contents(c, slots, len, rs, t, fix))
        invariant ok <==> forall d: nat :: d < c ==> Corrected(slots[d], len, rs, t, fix).0.ok
        invariant forall d: nat :: d < c && At(d).ok && !slots[d].ok ==> CrcOk(At(d).raw, len, t)
      {
        OneMoreJoined(c, slots, len, rs, t, fix);
        ghost var before := out[..frameLen];
        var n := CorrectRawDataWithRS(out, frameLen, len, rs, t, c, fix);
        assert out[..frameLen + n] == before + out[frameLen..frameLen + n];
        if !carrierOk[c] {
          ok := false;
        }
        frameLen := frameLen + n;
      }
    }

    ghost function Slots(): (s: seq<Slot>)
      requires Valid()
      reads this, carrierOk, frameData
      ensures |s| == CARRIERS && forall c :: 0 <= c < CARRIERS ==> |s[c].raw| == RAW_SIZE
    {
      seq(CARRIERS, c requires 0 <= c < CARRIERS && Valid() reads this, carrierOk, frameData => At(c))
    }
  }

  /** The contents of the first n carriers. */
  ghost function Contents(n: nat, slots: seq<Slot>, len: nat, rs: nat, t: byte, fix: Repair): (r: seq<seq<byte>>)
    requires n <= |slots| && len + 3 + rs <= RAW_SIZE && RepairFits(fix)
    requires forall c :: 0 <= c < |slots| ==> |slots[c].raw| == RAW_SIZE
    ensures |r| == n
  {
    if n == 0 then [] else Contents(n - 1, slots, len, rs, t, fix) + [Corrected(slots[n - 1], len, rs, t, fix).1]
  }

  lemma NothingJoined(slots: seq<Slot>, len: nat, rs: nat, t: byte, fix: Repair)
    requires len + 3 + rs <= RAW_SIZE && RepairFits(fix)
    requires forall c :: 0 <= c < |slots| ==> |slots[c].raw| == RAW_SIZE
    ensures Join(Contents(0, slots, len, rs, t, fix)) == []
  {
  }

  lemma OneMoreJoined(n: nat, slots: seq<Slot>, len: nat, rs: nat, t: byte, fix: Repair)
    requires n < |slots| && len + 3 + rs <= RAW_SIZE && RepairFits(fix)
    requires forall c :: 0 <= c < |slots| ==> |slots[c].raw| == RAW_SIZE
    ensures Join(Contents(n + 1, slots, len, rs, t, fix))
         == Join(Contents(n, slots, len, rs, t, fix)) + Corrected(slots[n], len, rs, t, fix).1
  {
    hide Corrected, Join;
    JoinLast(Contents(n, slots, len, rs, t, fix), Corrected(slots[n], len, rs, t, fix).1);
  }

  /** A carrier that holds a block gives the block's content, whether it was decoded before or
      is decoded now. */
  lemma BlockIsRead(s: Slot, content: seq<byte>, len: nat, rs: nat, t: byte, parity: Parity, fix: Repair)
    requires |s.raw| == RAW_SIZE && len + 3 + rs <= RAW_SIZE && RepairFits(fix)
    requires IsBlock(s.raw[..len + 3 + rs], content, len, rs, t, parity)
    ensures Corrected(s, len, rs, t, fix) == (Slot(true, s.raw), content)
  {
    hide Crc16, HighByte, TypedLowByte;
    var p := s.raw[..len + 3 + rs];
    assert p[..len + 1] == s.raw[..len + 1];
    assert p[1..1 + |content|] == s.raw[1..1 + |content|];
  }

  /** How many bytes of s differ from those of r. */
  function Wrong(s: seq<byte>, r: seq<byte>): nat
    requires |s| == |r|
  {
    if s == [] then 0 else Wrong(s[..|s| - 1], r[..|r| - 1]) + if s[|s| - 1] != r[|r| - 1] then 1 else 0
  }

  /** What the check bytes of a Reed-Solomon code are for: up to half as many wrong bytes are put right. */
  ghost predicate Corrects(fix: Repair, parity: Parity, rs: nat)
  {
    forall data: seq<byte>, r: seq<byte> :: |r| == |data| + |parity(data, rs)| && Wrong(r, data + parity(data, rs)) <= rs / 2
      ==> fix(r) == (true, data + parity(data, rs))
  }

  /** Given such a code, a block with up to half as many wrong bytes as it has parity bytes is read as its content; unless the
      check passes by chance on what was received. */
  lemma DamagedBlockIsRead(s: Slot, block: seq<byte>, content: seq<byte>, len: nat, rs: nat, t: byte, parity: Parity, fix: Repair)
    requires |s.raw| == RAW_SIZE && len + 3 + rs <= RAW_SIZE && RepairFits(fix) && ParityFits(parity) && !s.ok
    requires Corrects(fix, parity, rs) && IsBlock(block, content, len, rs, t, parity)
    requires Wrong(s.raw[..len + 3 + rs], block) <= rs / 2
    requires CrcOk(s.raw, len, t) ==> s.raw[..len + 3] == block[..len + 3]
    ensures var r := Corrected(s, len, rs, t, fix); r.0.ok && r.1 == content
  {
    hide Crc16, HighByte, TypedLowByte, Wrong, Corrected, CrcOk;
    var data, received := block[..len + 3], s.raw[..len + 3 + rs];
    if CrcOk(s.raw, len, t) {
      IntactDataIsRead(s, block, content, len, rs, t, parity, fix);
    } else {
      assert data + parity(data, rs) == block;
      assert |received| == |data| + |parity(data, rs)|;
      assert fix(received) == (true, block);
      RepairedBlockIsRead(s, content, len, rs, t, parity, fix);
    }
  }

  lemma IntactDataIsRead(s: Slot, block: seq<byte>, content: seq<byte>, len: nat, rs: nat, t: byte, parity: Parity, fix: Repair)
    requires |s.raw| == RAW_SIZE && len + 3 + rs <= RAW_SIZE && RepairFits(fix) && !s.ok && CrcOk(s.raw, len, t)
    requires IsBlock(block, content, len, rs, t, parity) && s.raw[..len + 3] == block[..len + 3]
    ensures var r := Corrected(s, len, rs, t, fix); r.0.ok && r.1 == content
  {
    hide CrcOk;
    var n := |content|;
    SliceOfPrefix(s.raw, len + 3, 1, 1 + n);
    SliceOfPrefix(block, len + 3, 1, 1 + n);
    assert s.raw[..len + 3][0] == s.raw[0] && block[..len + 3][0] == block[0] == n;
    assert s.raw[1..1 + s.raw[0]] == s.raw[1..1 + n];
  }

  /** A carrier has a block: it holds it, decoded before or not, or what it holds is repaired to it. */
  ghost predicate HasBlock(s: Slot, content: seq<byte>, len: nat, rs: nat, t: byte, parity: Parity, fix: Repair)
    requires |s.raw| == RAW_SIZE && len + 3 + rs <= RAW_SIZE && RepairFits(fix)
  {
    var p := s.raw[..len + 3 + rs];
    || IsBlock(p, content, len, rs, t, parity)
    || (!s.ok && !CrcOk(s.raw, len, t) && fix(p).0 && IsBlock(fix(p).1, content, len, rs, t, parity))
  }

  lemma HeldBlockIsRead(s: Slot, content: seq<byte>, len: nat, rs: nat, t: byte, parity: Parity, fix: Repair)
    requires |s.raw| == RAW_SIZE && len + 3 + rs <= RAW_SIZE && RepairFits(fix)
    requires HasBlock(s, content, len, rs, t, parity, fix)
    ensures var r := Corrected(s, len, rs, t, fix); r.0.ok && r.1 == content
  {
    hide Corrected, IsBlock, CrcOk;
    if IsBlock(s.raw[..len + 3 + rs], content, len, rs, t, parity) {
      BlockIsRead(s, content, len, rs, t, parity, fix);
    } else {
      RepairedBlockIsRead(s, content, len, rs, t, parity, fix);
    }
  }

  /** Carriers gathered from one or several receptions of a frame give back its payload: every
      carrier holds its block, decoded before or not, or one that is repaired to it. */
  lemma {:induction false} PayloadComesBack(slots: seq<Slot>, payload: seq<byte>, num: nat, len: nat, rs: nat,
                                            t: byte, parity: Parity, fix: Repair)
    requires num <= |slots| && len + 3 + rs <= RAW_SIZE && RepairFits(fix) && |payload| <= num * len
    requires forall c :: 0 <= c < |slots| ==> |slots[c].raw| == RAW_SIZE
    requires forall c: nat :: c < num ==> HasBlock(slots[c], Split(payload, num, len)[c], len, rs, t, parity, fix)
    ensures Join(Contents(num, slots, len, rs, t, fix)) == payload
    ensures forall c: nat :: c < num ==> Corrected(slots[c], len, rs, t, fix).0.ok
  {
    hide HasBlock, Corrected, Join, Split;
    forall c: nat | c < num
      ensures var r := Corrected(slots[c], len, rs, t, fix); r.0.ok && r.1 == Split(payload, num, len)[c]
    {
      HeldBlockIsRead(slots[c], Split(payload, num, len)[c], len, rs, t, parity, fix);
    }
    ContentsAre(num, slots, Split(payload, num, len), len, rs, t, fix);
    assert Split(payload, num, len)[..num] == Split(payload, num, len);
    JoinSplit(payload, num, len);
  }

  lemma {:induction false} ContentsAre(n: nat, slots: seq<Slot>, blocks: seq<seq<byte>>,
                                       len: nat, rs: nat, t: byte, fix: Repair)
    requires n <= |slots| && n <= |blocks| && len + 3 + rs <= RAW_SIZE && RepairFits(fix)
    requires forall c :: 0 <= c < |slots| ==> |slots[c].raw| == RAW_SIZE
    requires forall c: nat :: c < n ==> Corrected(slots[c], len, rs, t, fix).1 == blocks[c]
    ensures Contents(n, slots, len, rs, t, fix) == blocks[..n]
  {
    hide Corrected;
    if n == 0 {
      assert blocks[..0] == [];
    } else {
      var k := n - 1;
      ContentsAre(k, slots, blocks, len, rs, t, fix);
      assert Corrected(slots[k], len, rs, t, fix).1 == blocks[k];
      assert blocks[..n] == blocks[..k] + [blocks[k]];
    }
  }

  /** A frame with a carrier that holds a block of another frame type, not repaired to any other, is not good. */
  lemma ForeignFrameIsRefused(slots: seq<Slot>, num: nat, c: nat, content: seq<byte>, len: nat, rs: nat,
                              t: byte, u: byte, parity: Parity, fix: Repair)
    requires c < num <= |slots| && len + 3 + rs <= RAW_SIZE && RepairFits(fix)
    requires forall d :: 0 <= d < |slots| ==> |slots[d].raw| == RAW_SIZE
    requires !slots[c].ok && IsBlock(slots[c].raw[..len + 3 + rs], content, len, rs, u, parity) && t != u
    requires var f := fix(slots[c].raw[..len + 3 + rs]); !f.0 || f.1 == slots[c].raw[..len + 3 + rs]
    ensures !forall d: nat :: d < num ==> Corrected(slots[d], len, rs, t, fix).0.ok
  {
    hide IsBlock, Corrected;
    ForeignBlockIsRefused(slots[c], content, len, rs, t, u, parity, fix);
  }

  /** A frame received as it was sent gives back its payload. */
  lemma FrameComesBack(frame: seq<byte>, slots: seq<Slot>, payload: seq<byte>, num: nat, len: nat, rs: nat,
                       t: byte, parity: Parity, fix: Repair)
    requires num <= |slots| && len + 3 + rs <= RAW_SIZE && RepairFits(fix) && |payload| <= num * len
    requires forall c :: 0 <= c < |slots| ==> |slots[c].raw| == RAW_SIZE
    requires BlocksAre(frame, Split(payload, num, len), num, len, rs, t, parity)
    requires forall c: nat :: c < num ==>
      var o := Offset(c, len + 3 + rs);
      o + len + 3 + rs <= |frame| && slots[c].raw[..len + 3 + rs] == frame[o..o + len + 3 + rs]
    ensures Join(Contents(num, slots, len, rs, t, fix)) == payload
    ensures forall c: nat :: c < num ==> Corrected(slots[c], len, rs, t, fix).0.ok
  {
    hide IsBlock, Split, Join, Corrected, Offset;
    forall c: nat | c < num
      ensures HasBlock(slots[c], Split(payload, num, len)[c], len, rs, t, parity, fix)
    {
      assert BlockAt(frame, c, Split(payload, num, len)[c], len, rs, t, parity);
    }
    PayloadComesBack(slots, payload, num, len, rs, t, parity, fix);
  }
}
