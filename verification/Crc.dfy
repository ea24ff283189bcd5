/** The 16-bit frame check sequence: the table-driven form (ext/ardop1/ARDOPC.c) and the
    bit-by-bit form (src/maths.cpp). */
module Crc {
  type Octet = bv8

  /** One bit of the shift register. */
  function Shift(c: bv16): bv16
  {
    if c & 1 == 1 then (c >> 1) ^ 0x8408 else c >> 1
  }

  function Shift8(c: bv16): bv16
  {
    Shift(Shift(Shift(Shift(Shift(Shift(Shift(Shift(c))))))))
  }

  function Mixed(c: bv16, b: Octet): bv16
  {
    c ^ (b as bv16)
  }

  /** The register after one byte. */
  function Feed(c: bv16, b: Octet): bv16
  {
    Shift8(Mixed(c, b))
  }

  /** The register after a message. */
  function Fcs(data: seq<Octet>): bv16
  {
    if data == [] then 0xFFFF else Feed(Fcs(data[..|data| - 1]), data[|data| - 1])
  }

  function Row0(j: Octet): bv16
  {
    match j
    case 0 => 0x0000 case 1 => 0x1189 case 2 => 0x2312 case 3 => 0x329B
    case 4 => 0x4624 case 5 => 0x57AD case 6 => 0x6536 case 7 => 0x74BF
    case 8 => 0x8C48 case 9 => 0x9DC1 case 10 => 0xAF5A case 11 => 0xBED3
    case 12 => 0xCA6C case 13 => 0xDBE5 case 14 => 0xE97E case _ => 0xF8F7
  }

  function Row1(j: Octet): bv16
  {
    match j
    case 0 => 0x1081 case 1 => 0x0108 case 2 => 0x3393 case 3 => 0x221A
    case 4 => 0x56A5 case 5 => 0x472C case 6 => 0x75B7 case 7 => 0x643E
    case 8 => 0x9CC9 case 9 => 0x8D40 case 10 => 0xBFDB case 11 => 0xAE52
    case 12 => 0xDAED case 13 => 0xCB64 case 14 => 0xF9FF case _ => 0xE876
  }

  function Row2(j: Octet): bv16
  {
    match j
    case 0 => 0x2102 case 1 => 0x308B case 2 => 0x0210 case 3 => 0x1399
    case 4 => 0x6726 case 5 => 0x76AF case 6 => 0x4434 case 7 => 0x55BD
    case 8 => 0xAD4A case 9 => 0xBCC3 case 10 => 0x8E58 case 11 => 0x9FD1
    case 12 => 0xEB6E case 13 => 0xFAE7 case 14 => 0xC87C case _ => 0xD9F5
  }

  function Row3(j: Octet): bv16
  {
    match j
    case 0 => 0x3183 case 1 => 0x200A case 2 => 0x1291 case 3 => 0x0318
    case 4 => 0x77A7 case 5 => 0x662E case 6 => 0x54B5 case 7 => 0x453C
    case 8 => 0xBDCB case 9 => 0xAC42 case 10 => 0x9ED9 case 11 => 0x8F50
    case 12 => 0xFBEF case 13 => 0xEA66 case 14 => 0xD8FD case _ => 0xC974
  }

  function Row4(j: Octet): bv16
  {
    match j
    case 0 => 0x4204 case 1 => 0x538D case 2 => 0x6116 case 3 => 0x709F
    case 4 => 0x0420 case 5 => 0x15A9 case 6 => 0x2732 case 7 => 0x36BB
    case 8 => 0xCE4C case 9 => 0xDFC5 case 10 => 0xED5E case 11 => 0xFCD7
    case 12 => 0x8868 case 13 => 0x99E1 case 14 => 0xAB7A case _ => 0xBAF3
  }

  function Row5(j: Octet): bv16
  {
    match j
    case 0 => 0x5285 case 1 => 0x430C case 2 => 0x7197 case 3 => 0x601E
    case 4 => 0x14A1 case 5 => 0x0528 case 6 => 0x37B3 case 7 => 0x263A
    case 8 => 0xDECD case 9 => 0xCF44 case 10 => 0xFDDF case 11 => 0xEC56
    case 12 => 0x98E9 case 13 => 0x8960 case 14 => 0xBBFB case _ => 0xAA72
  }

  function Row6(j: Octet): bv16
  {
    match j
    case 0 => 0x6306 case 1 => 0x728F case 2 => 0x4014 case 3 => 0x519D
    case 4 => 0x2522 case 5 => 0x34AB case 6 => 0x0630 case 7 => 0x17B9
    case 8 => 0xEF4E case 9 => 0xFEC7 case 10 => 0xCC5C case 11 => 0xDDD5
    case 12 => 0xA96A case 13 => 0xB8E3 case 14 => 0x8A78 case _ => 0x9BF1
  }

  function Row7(j: Octet): bv16
  {
    match j
    case 0 => 0x7387 case 1 => 0x620E case 2 => 0x5095 case 3 => 0x411C
    case 4 => 0x35A3 case 5 => 0x242A case 6 => 0x16B1 case 7 => 0x0738
    case 8 => 0xFFCF case 9 => 0xEE46 case 10 => 0xDCDD case 11 => 0xCD54
    case 12 => 0xB9EB case 13 => 0xA862 case 14 => 0x9AF9 case _ => 0x8B70
  }

  function Row8(j: Octet): bv16
  {
    match j
    case 0 => 0x8408 case 1 => 0x9581 case 2 => 0xA71A case 3 => 0xB693
    case 4 => 0xC22C case 5 => 0xD3A5 case 6 => 0xE13E case 7 => 0xF0B7
    case 8 => 0x0840 case 9 => 0x19C9 case 10 => 0x2B52 case 11 => 0x3ADB
    case 12 => 0x4E64 case 13 => 0x5FED case 14 => 0x6D76 case _ => 0x7CFF
  }

  function Row9(j: Octet): bv16
  {
    match j
    case 0 => 0x9489 case 1 => 0x8500 case 2 => 0xB79B case 3 => 0xA612
    case 4 => 0xD2AD case 5 => 0xC324 case 6 => 0xF1BF case 7 => 0xE036
    case 8 => 0x18C1 case 9 => 0x0948 case 10 => 0x3BD3 case 11 => 0x2A5A
    case 12 => 0x5EE5 case 13 => 0x4F6C case 14 => 0x7DF7 case _ => 0x6C7E
  }

  function RowA(j: Octet): bv16
  {
    match j
    case 0 => 0xA50A case 1 => 0xB483 case 2 => 0x8618 case 3 => 0x9791
    case 4 => 0xE32E case 5 => 0xF2A7 case 6 => 0xC03C case 7 => 0xD1B5
    case 8 => 0x2942 case 9 => 0x38CB case 10 => 0x0A50 case 11 => 0x1BD9
    case 12 => 0x6F66 case 13 => 0x7EEF case 14 => 0x4C74 case _ => 0x5DFD
  }

  function RowB(j: Octet): bv16
  {
    match j
    case 0 => 0xB58B case 1 => 0xA402 case 2 => 0x9699 case 3 => 0x8710
    case 4 => 0xF3AF case 5 => 0xE226 case 6 => 0xD0BD case 7 => 0xC134
    case 8 => 0x39C3 case 9 => 0x284A case 10 => 0x1AD1 case 11 => 0x0B58
    case 12 => 0x7FE7 case 13 => 0x6E6E case 14 => 0x5CF5 case _ => 0x4D7C
  }

  function RowC(j: Octet): bv16
  {
    match j
    case 0 => 0xC60C case 1 => 0xD785 case 2 => 0xE51E case 3 => 0xF497
    case 4 => 0x8028 case 5 => 0x91A1 case 6 => 0xA33A case 7 => 0xB2B3
    case 8 => 0x4A44 case 9 => 0x5BCD case 10 => 0x6956 case 11 => 0x78DF
    case 12 => 0x0C60 case 13 => 0x1DE9 case 14 => 0x2F72 case _ => 0x3EFB
  }

  function RowD(j: Octet): bv16
  {
    match j
    case 0 => 0xD68D case 1 => 0xC704 case 2 => 0xF59F case 3 => 0xE416
    case 4 => 0x90A9 case 5 => 0x8120 case 6 => 0xB3BB case 7 => 0xA232
    case 8 => 0x5AC5 case 9 => 0x4B4C case 10 => 0x79D7 case 11 => 0x685E
    case 12 => 0x1CE1 case 13 => 0x0D68 case 14 => 0x3FF3 case _ => 0x2E7A
  }

  function RowE(j: Octet): bv16
  {
    match j
    case 0 => 0xE70E case 1 => 0xF687 case 2 => 0xC41C case 3 => 0xD595
    case 4 => 0xA12A case 5 => 0xB0A3 case 6 => 0x8238 case 7 => 0x93B1
    case 8 => 0x6B46 case 9 => 0x7ACF case 10 => 0x4854 case 11 => 0x59DD
    case 12 => 0x2D62 case 13 => 0x3CEB case 14 => 0x0E70 case _ => 0x1FF9
  }

  function RowF(j: Octet): bv16
  {
    match j
    case 0 => 0xF78F case 1 => 0xE606 case 2 => 0xD49D case 3 => 0xC514
    case 4 => 0xB1AB case 5 => 0xA022 case 6 => 0x92B9 case 7 => 0x8330
    case 8 => 0x7BC7 case 9 => 0x6A4E case 10 => 0x58D5 case 11 => 0x495C
    case 12 => 0x3DE3 case 13 => 0x2C6A case 14 => 0x1EF1 case _ => 0x0F78
  }

  /** The table of the program, by row and column of sixteen. */
  function CrcTab(i: Octet): bv16
  {
    match i >> 4
    case 0 => Row0(Column(i))
    case 1 => Row1(Column(i))
    case 2 => Row2(Column(i))
    case 3 => Row3(Column(i))
    case 4 => Row4(Column(i))
    case 5 => Row5(Column(i))
    case 6 => Row6(Column(i))
    case 7 => Row7(Column(i))
    case 8 => Row8(Column(i))
    case 9 => Row9(Column(i))
    case 10 => RowA(Column(i))
    case 11 => RowB(Column(i))
    case 12 => RowC(Column(i))
    case 13 => RowD(Column(i))
    case 14 => RowE(Column(i))
    case _ => RowF(Column(i))
  }

  function Column(i: Octet): Octet { i & 0x0F }

  function Wide(b: Octet): bv16 { b as bv16 }

  function Xor(a: bv16, b: bv16): bv16 { a ^ b }
  function Upper(c: bv16): bv16 { c >> 8 }
  function LowByte(x: bv16): Octet { (x & 0xFF) as Octet }

  function Half(c: bv16): bv16 { c >> 1 }
  predicate LowBit(c: bv16) { c & 1 == 1 }

  lemma ShiftIs(c: bv16)
    ensures Shift(c) == if LowBit(c) then Xor(Half(c), 0x8408) else Half(c)
  {
  }

  lemma HalfOfXor(a: bv16, b: bv16)
    ensures Half(Xor(a, b)) == Xor(Half(a), Half(b))
  {
  }

  lemma LowBitOfXor(a: bv16, b: bv16)
    ensures LowBit(Xor(a, b)) <==> LowBit(a) != LowBit(b)
  {
  }

  lemma XorMoves(a: bv16, b: bv16, p: bv16)
    ensures Xor(Xor(a, p), b) == Xor(Xor(a, b), p) == Xor(a, Xor(b, p))
  {
  }

  lemma XorCancels(a: bv16, p: bv16)
    ensures Xor(Xor(a, p), p) == a
  {
  }

  lemma XorTwice(a: bv16, b: bv16, p: bv16)
    ensures Xor(Xor(a, p), Xor(b, p)) == Xor(a, b)
  {
    hide Xor;
    XorMoves(Xor(a, p), b, p);
    XorMoves(a, b, p);
    XorCancels(Xor(a, b), p);
  }

  /** The register is linear. */
  lemma ShiftOfXor(a: bv16, b: bv16)
    ensures Shift(Xor(a, b)) == Xor(Shift(a), Shift(b))
  {
    hide Shift, Xor, Half, LowBit;
    ShiftIs(a);
    ShiftIs(b);
    ShiftIs(Xor(a, b));
    HalfOfXor(a, b);
    LowBitOfXor(a, b);
    XorTwice(Half(a), Half(b), 0x8408);
    XorMoves(Half(a), Half(b), 0x8408);
  }

  lemma Shift8OfXor(a: bv16, b: bv16)
    ensures Shift8(Xor(a, b)) == Xor(Shift8(a), Shift8(b))
  {
    hide Shift, Xor;
    var a1, b1 := Shift(a), Shift(b);
    var a2, b2 := Shift(a1), Shift(b1);
    var a3, b3 := Shift(a2), Shift(b2);
    var a4, b4 := Shift(a3), Shift(b3);
    var a5, b5 := Shift(a4), Shift(b4);
    var a6, b6 := Shift(a5), Shift(b5);
    var a7, b7 := Shift(a6), Shift(b6);
    ShiftOfXor(a, b);
    ShiftOfXor(a1, b1);
    ShiftOfXor(a2, b2);
    ShiftOfXor(a3, b3);
    ShiftOfXor(a4, b4);
    ShiftOfXor(a5, b5);
    ShiftOfXor(a6, b6);
    ShiftOfXor(a7, b7);
  }

  function Raised(b: bv16, n: bv5): bv16
    requires n <= 16
  {
    b << n
  }

  /** While the low bits are zero a shift only moves the others down. */
  lemma ShiftLowers(b: bv16, n: bv5)
    requires 0 < n <= 8 && b < 0x100
    ensures Shift(Raised(b, n)) == Raised(b, n - 1)
  {
  }

  lemma Shift8Lowers(b: bv16)
    requires b < 0x100
    ensures Shift8(Raised(b, 8)) == b
  {
    hide Shift, Raised;
    ShiftLowers(b, 8);
    ShiftLowers(b, 7);
    ShiftLowers(b, 6);
    ShiftLowers(b, 5);
    ShiftLowers(b, 4);
    ShiftLowers(b, 3);
    ShiftLowers(b, 2);
    ShiftLowers(b, 1);
    RaisedByNothing(b);
  }

  lemma RaisedByNothing(b: bv16)
    ensures Raised(b, 0) == b
  {
  }

  lemma TwoBytes(c: bv16)
    ensures Upper(c) < 0x100 && c == Xor(Raised(Upper(c), 8), Wide(LowByte(c)))
  {
  }

  /** Eight shifts move the high byte down and replace the low byte by its table entry. */
  lemma Shift8Splits(c: bv16)
    ensures Shift8(c) == Xor(Upper(c), Shift8(Wide(LowByte(c))))
  {
    hide Shift8, Xor, Upper, LowByte, Wide, Raised;
    TwoBytes(c);
    Shift8OfXor(Raised(Upper(c), 8), Wide(LowByte(c)));
    Shift8Lowers(Upper(c));
  }

  // ---------- the table ----------

  lemma Row1IsRow0(j: Octet)
    ensures Row1(j) == Xor(Row1(0), Row0(j))
  {
  }

  lemma Row2IsRow0(j: Octet)
    ensures Row2(j) == Xor(Row2(0), Row0(j))
  {
  }

  lemma Row3IsRow0(j: Octet)
    ensures Row3(j) == Xor(Row3(0), Row0(j))
  {
  }

  lemma Row4IsRow0(j: Octet)
    ensures Row4(j) == Xor(Row4(0), Row0(j))
  {
  }

  lemma Row5IsRow0(j: Octet)
    ensures Row5(j) == Xor(Row5(0), Row0(j))
  {
  }

  lemma Row6IsRow0(j: Octet)
    ensures Row6(j) == Xor(Row6(0), Row0(j))
  {
  }

  lemma Row7IsRow0(j: Octet)
    ensures Row7(j) == Xor(Row7(0), Row0(j))
  {
  }

  lemma Row8IsRow0(j: Octet)
    ensures Row8(j) == Xor(Row8(0), Row0(j))
  {
  }

  lemma Row9IsRow0(j: Octet)
    ensures Row9(j) == Xor(Row9(0), Row0(j))
  {
  }

  lemma RowAIsRow0(j: Octet)
    ensures RowA(j) == Xor(RowA(0), Row0(j))
  {
  }

  lemma RowBIsRow0(j: Octet)
    ensures RowB(j) == Xor(RowB(0), Row0(j))
  {
  }

  lemma RowCIsRow0(j: Octet)
    ensures RowC(j) == Xor(RowC(0), Row0(j))
  {
  }

  lemma RowDIsRow0(j: Octet)
    ensures RowD(j) == Xor(RowD(0), Row0(j))
  {
  }

  lemma RowEIsRow0(j: Octet)
    ensures RowE(j) == Xor(RowE(0), Row0(j))
  {
  }

  lemma RowFIsRow0(j: Octet)
    ensures RowF(j) == Xor(RowF(0), Row0(j))
  {
  }

  lemma Row0IsShift8(j: Octet)
    requires j < 16
    ensures Row0(j) == Shift8(Wide(j))
  {
  }

  /** The first column of row r. */
  function FirstOf(r: Octet): bv16
  {
    match r
    case 0 => Row0(0)
    case 1 => Row1(0)
    case 2 => Row2(0)
    case 3 => Row3(0)
    case 4 => Row4(0)
    case 5 => Row5(0)
    case 6 => Row6(0)
    case 7 => Row7(0)
    case 8 => Row8(0)
    case 9 => Row9(0)
    case 10 => RowA(0)
    case 11 => RowB(0)
    case 12 => RowC(0)
    case 13 => RowD(0)
    case 14 => RowE(0)
    case _ => RowF(0)
  }

  lemma RowStarts(r: Octet)
    requires r < 16
    ensures FirstOf(r) == Shift8(Wide(r << 4))
  {
  }

  lemma RowsAreAlike(i: Octet)
    ensures CrcTab(i) == Xor(FirstOf(i >> 4), Row0(Column(i)))
  {
    hide Xor, Column, Row0, Row1, Row2, Row3, Row4, Row5, Row6, Row7, Row8, Row9, RowA, RowB, RowC, RowD, RowE, RowF;
    var j := Column(i);
    match i >> 4 {
      case 0 => Row0IsRow0(j);
      case 1 => Row1IsRow0(j);
      case 2 => Row2IsRow0(j);
      case 3 => Row3IsRow0(j);
      case 4 => Row4IsRow0(j);
      case 5 => Row5IsRow0(j);
      case 6 => Row6IsRow0(j);
      case 7 => Row7IsRow0(j);
      case 8 => Row8IsRow0(j);
      case 9 => Row9IsRow0(j);
      case 10 => RowAIsRow0(j);
      case 11 => RowBIsRow0(j);
      case 12 => RowCIsRow0(j);
      case 13 => RowDIsRow0(j);
      case 14 => RowEIsRow0(j);
      case _ => RowFIsRow0(j);
    }
  }

  lemma Row0IsRow0(j: Octet)
    ensures Row0(j) == Xor(Row0(0), Row0(j))
  {
  }

  lemma RowAndColumn(i: Octet)
    ensures i >> 4 < 16 && Column(i) < 16 && Wide(i) == Xor(Wide((i >> 4) << 4), Wide(Column(i)))
  {
  }

  /** Every entry of the table is its index shifted through the register. */
  lemma TableIsShift8(i: Octet)
    ensures CrcTab(i) == Shift8(Wide(i))
  {
    hide CrcTab, Shift8, Wide, Column, Xor, FirstOf, Row0;
    var r, j := i >> 4, Column(i);
    RowAndColumn(i);
    RowsAreAlike(i);
    RowStarts(r);
    Row0IsShift8(j);
    Shift8OfXor(Wide(r << 4), Wide(j));
  }

  lemma HighByteKept(c: bv16, b: Octet)
    ensures Upper(Mixed(c, b)) == Upper(c)
  {
  }

  function TableFeed(c: bv16, b: Octet): bv16
  {
    Xor(Upper(c), CrcTab(LowByte(Mixed(c, b))))
  }

  /** A table step is eight bit steps. */
  lemma TableStep(c: bv16, b: Octet)
    ensures Feed(c, b) == TableFeed(c, b)
  {
    hide CrcTab, Shift8, LowByte, Mixed, Xor, Upper, Wide;
    var x := Mixed(c, b);
    Shift8Splits(x);
    TableIsShift8(LowByte(x));
    HighByteKept(c, b);
  }

  lemma FcsOneMore(data: seq<Octet>, i: nat)
    requires i < |data|
    ensures Fcs(data[..i + 1]) == Feed(Fcs(data[..i]), data[i])
  {
    hide Feed;
    assert data[..i + 1][..i] == data[..i];
  }

  /** The table-driven form. */
  method ComputeCrc(buf: array<Octet>, from: nat, len: nat) returns (fcs: bv16)
    requires from + len <= buf.Length
    ensures fcs == Fcs(buf[from..from + len])
  {
    hide TableFeed, Feed, Fcs;
    ghost var data := buf[from..from + len];
    fcs := 0xFFFF;
    EmptyFcs();
    for i := 0 to len
      invariant fcs == Fcs(data[..i])
    {
      TableStep(fcs, buf[from + i]);
      FcsOneMore(data, i);
      fcs := TableFeed(fcs, buf[from + i]);
    }
    assert data[..len] == data;
  }

  lemma EmptyFcs()
    ensures Fcs([]) == 0xFFFF
  {
  }

  // ---------- the bit-by-bit form ----------

  /** The register of the program is 32 bits wide. */
  function WideShift(c: bv32): bv32
  {
    if c & 1 == 1 then (c >> 1) ^ 0x8408 else c >> 1
  }

  function WideShifts(x: bv32, n: nat): bv32
  {
    if n == 0 then x else WideShift(WideShifts(x, n - 1))
  }

  function Widen(x: bv16): bv32 { x as bv32 }

  lemma HalfWidens(x: bv16)
    ensures Widen(x) >> 1 == Widen(Half(x))
  {
    assert x == (x >> 1 << 1) | (x & 1);
  }

  lemma LowBitWidens(x: bv16)
    ensures Widen(x) & 1 == 1 <==> LowBit(x)
  {
  }

  lemma XorsWiden(a: bv16, b: bv16)
    ensures Widen(a) ^ Widen(b) == Widen(Xor(a, b))
  {
  }

  lemma PolynomialIsWide()
    ensures Widen(0x8408) == 0x8408
  {
  }

  lemma PolynomialWidens(x: bv16)
    ensures Widen(x) ^ 0x8408 == Widen(Xor(x, 0x8408))
  {
    hide Widen, Xor;
    XorsWiden(x, 0x8408);
    PolynomialIsWide();
  }

  /** The upper half of the wide register stays zero. */
  lemma ShiftWidens(x: bv16)
    ensures WideShift(Widen(x)) == Widen(Shift(x))
  {
    hide Shift, Widen, Half, LowBit, Xor;
    ShiftIs(x);
    HalfWidens(x);
    LowBitWidens(x);
    PolynomialWidens(Half(x));
  }

  /** One bit of data, the lowest of work, goes into the register. */
  function BitStep(cs: bv32, work: bv32): bv32
  {
    if (cs & 1) ^ (work & 1) != 0 then (cs >> 1) ^ 0x8408 else cs >> 1
  }

  function Halved(work: bv32): bv32 { work >> 1 }

  lemma XorLow(a: bv32, b: bv32)
    ensures (a & 1) ^ (b & 1) == (a ^ b) & 1
    ensures (a ^ b) & 1 == 1 || (a ^ b) & 1 == 0
  {
  }

  lemma XorHalved(a: bv32, b: bv32)
    ensures (a >> 1) ^ (b >> 1) == (a ^ b) >> 1
  {
  }

  lemma XorSwap(a: bv32, b: bv32, p: bv32)
    ensures (a ^ p) ^ b == (a ^ b) ^ p
  {
  }

  /** Register and remaining data together make one step of the shift register. */
  lemma BitStepShifts(cs: bv32, work: bv32)
    ensures BitStep(cs, work) ^ Halved(work) == WideShift(cs ^ work)
  {
    XorLow(cs, work);
    XorHalved(cs, work);
    XorSwap(cs >> 1, work >> 1, 0x8408);
  }

  function Remaining(b: Octet, n: nat): bv32
  {
    if n == 0 then b as bv32 else Halved(Remaining(b, n - 1))
  }

  lemma NothingRemains(b: Octet)
    ensures Remaining(b, 8) == 0
  {
    var w := b as bv32;
    var h := Halved(Halved(Halved(Halved(w))));
    assert Halved(Halved(Halved(Halved(h)))) == 0;
    hide Halved;
    assert Remaining(b, 1) == Halved(Remaining(b, 0)) && Remaining(b, 2) == Halved(Remaining(b, 1));
    assert Remaining(b, 3) == Halved(Remaining(b, 2)) && Remaining(b, 4) == Halved(Remaining(b, 3));
    assert Remaining(b, 5) == Halved(Remaining(b, 4)) && Remaining(b, 6) == Halved(Remaining(b, 5));
    assert Remaining(b, 7) == Halved(Remaining(b, 6)) && Remaining(b, 8) == Halved(Remaining(b, 7));
  }

  lemma EightWideShifts(x: bv16)
    ensures WideShifts(Widen(x), 8) == Widen(Shift8(x))
  {
    hide Shift, WideShift, Widen;
    var x1 := Shift(x);
    var x2, x3 := Shift(x1), Shift(Shift(x1));
    var x4, x5 := Shift(x3), Shift(Shift(x3));
    var x6, x7 := Shift(x5), Shift(Shift(x5));
    OneWideShift(x, x, 0);
    OneWideShift(x, x1, 1);
    OneWideShift(x, x2, 2);
    OneWideShift(x, x3, 3);
    OneWideShift(x, x4, 4);
    OneWideShift(x, x5, 5);
    OneWideShift(x, x6, 6);
    OneWideShift(x, x7, 7);
  }

  lemma OneWideShift(x: bv16, y: bv16, n: nat)
    requires WideShifts(Widen(x), n) == Widen(y)
    ensures WideShifts(Widen(x), n + 1) == Widen(Shift(y))
  {
    ShiftWidens(y);
  }

  lemma XorWidens(cs: bv16, b: Octet)
    ensures Widen(cs) ^ (b as bv32) == Widen(Mixed(cs, b))
  {
  }

  lemma XorZero(c: bv32)
    ensures c ^ 0 == c
  {
  }

  /** The inner loop of the program: eight bits of one byte. */
  method FeedBits(register: bv32, b: Octet, ghost c: bv16) returns (cs: bv32)
    requires register == Widen(c)
    ensures cs == Widen(Feed(c, b))
  {
    hide BitStep, WideShift, Shift8, Widen, Halved, Mixed;
    cs := register;
    var work := b as bv32;
    ghost var x := Mixed(c, b);
    XorWidens(c, b);
    for i := 0 to 8
      invariant cs ^ work == WideShifts(Widen(x), i) && work == Remaining(b, i)
    {
      BitStepShifts(cs, work);
      cs := BitStep(cs, work);
      work := Halved(work);
    }
    NothingRemains(b);
    EightWideShifts(x);
    XorZero(cs);
  }

  function SwapBytes(c: bv16): bv16
  {
    (c << 8) | (c >> 8)
  }

  /** Complements the register and exchanges its two low bytes. */
  function Finish(cs: bv32): bv32
  {
    var c := !cs;
    ((c << 8) | ((c >> 8) & 0x00FF)) & 0xFFFF
  }

  lemma UpperToLower(c: bv16)
    ensures (!Widen(c) >> 8) & 0x00FF == Widen(!c >> 8)
  {
  }

  lemma LowerToUpper(c: bv16)
    ensures (!Widen(c) << 8) & 0xFFFF == Widen(!c << 8)
  {
  }

  lemma OrWidens(a: bv16, b: bv16, c: bv32)
    requires c & 0xFFFF == Widen(a)
    ensures (c | Widen(b)) & 0xFFFF == Widen(a | b)
  {
  }

  lemma FinishSwaps(c: bv16)
    ensures Finish(Widen(c)) == Widen(SwapBytes(!c))
  {
    UpperToLower(c);
    LowerToUpper(c);
    OrWidens(!c << 8, !c >> 8, !Widen(c) << 8);
    hide Widen;
  }

  lemma StartIsWide()
    ensures Widen(0xFFFF) == 0xFFFF
  {
  }

  /** The bit-by-bit form: the byte swap of the complement of what the table-driven form
      computes, except that the complement of an empty message is not cut to 16 bits. */
  method CcittCrc16(data: array<Octet>, size: nat) returns (cs: bv32)
    requires size <= data.Length
    ensures size == 0 ==> cs == 0xFFFF_0000
    ensures size > 0 ==> cs == Widen(SwapBytes(!Fcs(data[..size])))
  {
    hide Fcs, Widen, Finish, Feed, SwapBytes;
    cs := 0xFFFF;
    if size < 1 {
      return 0xFFFF_0000;
    }
    StartIsWide();
    EmptyFcs();
    ghost var d := data[..size];
    var cnt := 0;
    while cnt < size
      invariant cnt <= size && cs == Widen(Fcs(d[..cnt]))
    {
      cs := FeedBits(cs, data[cnt], Fcs(d[..cnt]));
      FcsOneMore(d, cnt);
      cnt := cnt + 1;
    }
    assert d[..size] == d;
    FinishSwaps(Fcs(d));
    cs := Finish(cs);
  }

  // ---------- the residue ----------

  function LowOf(c: bv16): Octet { (c & 0xFF) as Octet }
  function HighOf(c: bv16): Octet { (c >> 8) as Octet }

  /** The complemented check sequence, low byte first. */
  function Check(data: seq<Octet>): seq<Octet>
  {
    var crc := Xor(Fcs(data), 0xFFFF);
    [LowOf(crc), HighOf(crc)]
  }

  lemma AfterLowByte(c: bv16)
    ensures LowByte(Mixed(c, LowOf(c ^ 0xFFFF))) == 0xFF
    ensures Upper(Mixed(c, LowOf(c ^ 0xFFFF))) == Upper(c)
  {
  }

  lemma AfterHighByte(c: bv16)
    ensures Mixed(Xor(Upper(c), 0x0F78), HighOf(c ^ 0xFFFF)) == 0x0F87
  {
  }

  lemma ShiftedConstants()
    ensures Shift8(Wide(0xFF)) == 0x0F78 && Shift8(0x0F87) == 0xF0B8
  {
  }

  /** Whatever the register, feeding its complement leaves the constant of RFC 1662. */
  lemma Residue(c: bv16)
    ensures Feed(Feed(c, LowOf(c ^ 0xFFFF)), HighOf(c ^ 0xFFFF)) == 0xF0B8
  {
    hide Shift8, Mixed, LowOf, HighOf, LowByte, Upper, Xor, Wide;
    AfterLowByte(c);
    Shift8Splits(Mixed(c, LowOf(c ^ 0xFFFF)));
    ShiftedConstants();
    AfterHighByte(c);
  }

  /** A message followed by its check sequence always leaves the residue. */
  lemma CheckedLeavesResidue(data: seq<Octet>)
    ensures Fcs(data + Check(data)) == 0xF0B8
  {
    hide Feed, LowOf, HighOf, Fcs;
    FcsOfTwoMore(data, Check(data)[0], Check(data)[1]);
    Residue(Fcs(data));
  }

  // ---------- only the check sequence leaves the residue ----------

  function Unshift(d: bv16): bv16
  {
    if d & 0x8000 != 0 then ((d ^ 0x8408) << 1) | 1 else d << 1
  }

  lemma UnshiftUndoes(c: bv16)
    ensures Unshift(Shift(c)) == c
  {
  }

  lemma Shift8IsInjective(a: bv16, b: bv16)
    requires Shift8(a) == Shift8(b)
    ensures a == b
  {
    hide Shift, Unshift;
    var a2, b2 := Shift(Shift(a)), Shift(Shift(b));
    var a4, b4 := Shift(Shift(a2)), Shift(Shift(b2));
    var a6, b6 := Shift(Shift(a4)), Shift(Shift(b4));
    TwoShiftsAreInjective(a6, b6);
    TwoShiftsAreInjective(a4, b4);
    TwoShiftsAreInjective(a2, b2);
    TwoShiftsAreInjective(a, b);
  }

  lemma TwoShiftsAreInjective(a: bv16, b: bv16)
    requires Shift(Shift(a)) == Shift(Shift(b))
    ensures a == b
  {
    hide Shift, Unshift;
    UnshiftUndoes(Shift(a));
    UnshiftUndoes(Shift(b));
    UnshiftUndoes(a);
    UnshiftUndoes(b);
  }

  lemma UpperByteTells(a: Octet, b: Octet)
    requires Upper(Shift8(Wide(a))) == Upper(Shift8(Wide(b)))
    ensures a == b
  {
  }

  /** The upper byte after a step comes from the table alone. */
  lemma UpperOfXor(c: bv16, t: bv16)
    ensures Upper(Xor(Upper(c), t)) == Upper(t)
  {
  }

  lemma MixedIsInjective(c: bv16, a: Octet, b: Octet)
    requires LowByte(Mixed(c, a)) == LowByte(Mixed(c, b))
    ensures a == b
  {
  }

  lemma MixedUpper(u: bv16, v: bv16, a: Octet, b: Octet)
    requires Mixed(u, a) == Mixed(v, b)
    ensures Upper(u) == Upper(v)
  {
  }

  lemma FeedSplits(c: bv16, a: Octet)
    ensures Upper(Feed(c, a)) == Upper(Shift8(Wide(LowByte(Mixed(c, a)))))
  {
    hide Shift8, Mixed, LowByte, Upper, Xor, Wide;
    Shift8Splits(Mixed(c, a));
    HighByteKept(c, a);
    UpperOfXor(c, Shift8(Wide(LowByte(Mixed(c, a)))));
  }

  /** Two bytes are told apart by the register they leave. */
  lemma TwoBytesTell(c: bv16, a1: Octet, a2: Octet, b1: Octet, b2: Octet)
    requires Feed(Feed(c, a1), a2) == Feed(Feed(c, b1), b2)
    ensures a1 == b1 && a2 == b2
  {
    hide Shift8, Mixed, LowByte, Upper, Xor, Wide;
    var u, v := Feed(c, a1), Feed(c, b1);
    Shift8IsInjective(Mixed(u, a2), Mixed(v, b2));
    MixedUpper(u, v, a2, b2);
    FeedSplits(c, a1);
    FeedSplits(c, b1);
    UpperByteTells(LowByte(Mixed(c, a1)), LowByte(Mixed(c, b1)));
    MixedIsInjective(c, a1, b1);
    MixedIsInjective(u, a2, b2);
  }

  /** Of all pairs of bytes after a message exactly its check sequence leaves the residue. */
  lemma OnlyCheckLeavesResidue(data: seq<Octet>, a: Octet, b: Octet)
    ensures Fcs(data + [a, b]) == 0xF0B8 <==> [a, b] == Check(data)
  {
    hide Feed, LowOf, HighOf, Fcs;
    CheckedLeavesResidue(data);
    var k := Check(data);
    FcsOfTwoMore(data, a, b);
    FcsOfTwoMore(data, k[0], k[1]);
    assert k == [k[0], k[1]];
    if Fcs(data + [a, b]) == 0xF0B8 {
      TwoBytesTell(Fcs(data), a, b, k[0], k[1]);
    }
  }

  lemma FcsOfTwoMore(data: seq<Octet>, a: Octet, b: Octet)
    ensures Fcs(data + [a, b]) == Feed(Feed(Fcs(data), a), b)
  {
    hide Feed;
    var d, n := data + [a, b], |data|;
    assert d[..n] == data && d[..n + 2] == d;
    FcsOneMore(d, n);
    FcsOneMore(d, n + 1);
  }
}
