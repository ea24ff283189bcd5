/** Frame types of the ARDOP air protocol and the tables indexed by them
    (ext/ardop1/ARDOPC.c, ext/ardop1/SoundInput.c, ext/ardop1/ARQ.c). */
module Frames {

  type byte = x: int | 0 <= x < 256

  // Control frames without a data part.
  const BREAK: byte := 0x23
  const IDLEFRAME: byte := 0x24
  const DISCFRAME: byte := 0x29
  const END: byte := 0x2C
  const CONREJBUSY: byte := 0x2D
  const CONREJBW: byte := 0x2E

  /** A frame on the air: its type, and for a data frame the counted content of each
      carrier block in carrier order. Control frames have no blocks. */
  datatype Frame = Frame(ftype: byte, blocks: seq<seq<byte>>)

  predicate IsNak(t: byte) { t <= 0x1F }

  predicate IsAck(t: byte) { t >= 0xE0 }

  predicate IsConReq(t: byte) { 0x31 <= t <= 0x38 }

  predicate IsConAck(t: byte) { 0x39 <= t <= 0x3C }

  predicate IsShortControl(t: byte)
  {
    IsNak(t) || IsAck(t) || t == BREAK || t == IDLEFRAME || t == DISCFRAME || t == END || t == CONREJBUSY || t == CONREJBW
  }

  /** Data frames come in pairs: an even type and the odd type above it. */
  predicate IsData(t: byte)
  {
    0x40 <= t <= 0x4D || 0x50 <= t <= 0x55 || 0x60 <= t <= 0x65 || 0x70 <= t <= 0x75 || 0x7A <= t <= 0x7D
  }

  /** Frame types demodulated as multi-tone FSK, whose blocks are checked in DecodeFrame. */
  predicate IsFsk(t: byte) { 0x48 <= t <= 0x4D || 0x7A <= t <= 0x7D }

  predicate IsOdd(t: byte) { t % 2 == 1 }

  /** The other frame of the pair: flips the low bit. */
  function Toggle(t: byte): byte { if IsOdd(t) then t - 1 else t + 1 }

  function Even(t: byte): byte { if IsOdd(t) then t - 1 else t }

  /** The even data types, which name the modes. */
  predicate IsMode(e: byte)
  {
    e in {0x40, 0x42, 0x44, 0x46, 0x48, 0x4A, 0x4C, 0x50, 0x52, 0x54, 0x60, 0x62, 0x64, 0x70, 0x72, 0x74, 0x7A, 0x7C}
  }

  lemma ModeOfData(t: byte)
    ensures IsData(t) <==> IsMode(Even(t))
    ensures IsData(t) ==> IsData(Toggle(t)) && Even(Toggle(t)) == Even(t) && IsOdd(Toggle(t)) != IsOdd(t)
  {
    if 0x40 <= t <= 0x4D {} else if 0x50 <= t <= 0x55 {} else if 0x60 <= t <= 0x65 {} else if 0x70 <= t <= 0x75 {}
  }

  /** What can be told from the type alone: the kinds of frames exclude each other, the requests and their answers lie side by
      side, and both frames of a pair are FSK or neither is. */
  lemma KindsAreDisjoint(t: byte)
    ensures IsShortControl(t) ==> !IsConReq(t) && !IsConAck(t) && !IsData(t)
    ensures IsNak(t) ==> !IsAck(t) && t !in {BREAK, IDLEFRAME, DISCFRAME, END, CONREJBUSY, CONREJBW}
    ensures IsAck(t) ==> t !in {BREAK, IDLEFRAME, DISCFRAME, END, CONREJBUSY, CONREJBW}
    ensures IsConReq(t) || IsConAck(t) <==> 0x31 <= t <= 0x3C
    ensures IsConReq(t) ==> !IsConAck(t) && !IsData(t)
    ensures IsConAck(t) ==> !IsData(t)
    ensures IsFsk(t) ==> IsData(t) && IsFsk(Toggle(t))
  {
  }

  /** Number of separately checked blocks in a data frame. The long 600 baud frame is sent
      on one carrier but carries three blocks. */
  function BlockCount(t: byte): nat { Shape(Even(t)).count }

  /** Largest data content of one block. */
  function BlockLen(t: byte): nat { Shape(Even(t)).len }

  datatype BlockShape = BlockShape(count: nat, len: nat)

  function Shape(e: byte): BlockShape
  {
    match e
    case 0x40 => BlockShape(1, 64)
    case 0x42 => BlockShape(1, 16)
    case 0x44 => BlockShape(1, 108)
    case 0x46 => BlockShape(1, 128)
    case 0x48 => BlockShape(1, 16)
    case 0x4A => BlockShape(1, 64)
    case 0x4C => BlockShape(1, 32)
    case 0x50 => BlockShape(2, 64)
    case 0x52 => BlockShape(2, 108)
    case 0x54 => BlockShape(2, 128)
    case 0x60 => BlockShape(4, 64)
    case 0x62 => BlockShape(4, 108)
    case 0x64 => BlockShape(4, 128)
    case 0x70 => BlockShape(8, 64)
    case 0x72 => BlockShape(8, 108)
    case 0x74 => BlockShape(8, 128)
    case 0x7A => BlockShape(3, 200)
    case 0x7C => BlockShape(1, 200)
    case _ => BlockShape(0, 0)
  }

  /** Data bytes a frame of this mode can carry (the table of that name, at its even entries). */
  function FrameSize(t: byte): nat
  {
    match t
    case 0x40 => 64
    case 0x42 => 16
    case 0x44 => 108
    case 0x46 => 128
    case 0x48 => 16
    case 0x4A => 64
    case 0x4C => 32
    case 0x50 => 128
    case 0x52 => 216
    case 0x54 => 256
    case 0x60 => 256
    case 0x62 => 432
    case 0x64 => 512
    case 0x70 => 512
    case 0x72 => 864
    case 0x74 => 1024
    case 0x7A => 600
    case 0x7C => 200
    case _ => 0
  }

  function Capacity(s: BlockShape): nat { s.count * s.len }

  /** The capacity used when slicing the queue and the capacity used when deciding whether
      to shift up are kept in two tables; they agree on every mode. */
  lemma CapacitiesAgree(e: byte)
    requires IsMode(e)
    ensures Capacity(Shape(e)) == FrameSize(e) > 0
    ensures 1 <= Shape(e).count <= 8
  {
  }

  // ---------- splitting a payload over the blocks of a frame ----------

  function Min(a: nat, b: nat): nat { if a < b then a else b }

  /** The counted content of each of n blocks of at most len bytes, filled in order. */
  function Split<T>(payload: seq<T>, n: nat, len: nat): (blocks: seq<seq<T>>)
    ensures |blocks| == n
    ensures forall c :: 0 <= c < n ==> |blocks[c]| <= len
  {
    if n == 0 then []
    else
      var k := Min(len, |payload|);
      [payload[..k]] + Split(payload[k..], n - 1, len)
  }

  /** What the receiver passes up: the counted contents in block order. */
  function Join<T>(blocks: seq<seq<T>>): seq<T>
  {
    if blocks == [] then [] else blocks[0] + Join(blocks[1..])
  }

  lemma OneBlockLess(size: nat, n: nat, len: nat)
    requires n > 0 && size <= n * len
    ensures size - Min(len, size) <= (n - 1) * len
  {
    assert n * len == len + (n - 1) * len;
    assert (n - 1) * len >= 0;
  }

  lemma {:induction false} JoinSplit<T>(payload: seq<T>, n: nat, len: nat)
    requires |payload| <= n * len
    ensures Join(Split(payload, n, len)) == payload
    decreases n
  {
    if n == 0 {
      assert payload == [];
    } else {
      var k := Min(len, |payload|);
      OneBlockLess(|payload|, n, len);
      JoinSplit(payload[k..], n - 1, len);
      var blocks := Split(payload, n, len);
      assert blocks[1..] == Split(payload[k..], n - 1, len);
      assert payload == payload[..k] + payload[k..];
    }
  }

  lemma {:induction false} JoinLast<T>(blocks: seq<seq<T>>, b: seq<T>)
    ensures Join(blocks + [b]) == Join(blocks) + b
  {
    if blocks == [] {
      assert [] + [b] == [b];
      assert Join([b]) == b + Join([b][1..]);
    } else {
      JoinLast(blocks[1..], b);
      assert (blocks + [b])[1..] == blocks[1..] + [b];
    }
  }
}
