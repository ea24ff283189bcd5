/** KISS framing over cyclic buffers (ext/ardop1/KISSModule.c): what the host encodes, cut and
    interleaved in any way, comes back frame by frame. */
module Kiss {
  import opened Frames
  import opened Options

  const FEND: byte := 0xC0
  const FESC: byte := 0xDB
  const TFEND: byte := 0xDC
  const TFESC: byte := 0xDD

  const RING_SIZE := 4096
  const FRAME_LIMIT := 498

  // ---------- encoding ----------

  function Escape(c: byte): seq<byte>
  {
    if c == FEND then [FESC, TFEND] else if c == FESC then [FESC, TFESC] else [c]
  }

  function Escaped(data: seq<byte>): seq<byte>
  {
    if data == [] then [] else Escape(data[0]) + Escaped(data[1..])
  }

  function Encoded(frame: seq<byte>): seq<byte>
  {
    [FEND] + (Escaped(frame) + [FEND])
  }

  function EncodeAll(frames: seq<seq<byte>>): seq<byte>
  {
    if frames == [] then [] else Encoded(frames[0]) + EncodeAll(frames[1..])
  }

  function CountFends(s: seq<byte>): (n: nat)
    ensures n <= |s|
  {
    if s == [] then 0 else (if s[0] == FEND then 1 else 0) + CountFends(s[1..])
  }

  // ---------- the receiver as a value ----------

  /** The bytes between the get and the put pointer, the count of FENDs, and the escape flag. */
  datatype Rx = Rx(bytes: seq<byte>, fends: int, esc: bool)

  /** A full ring counts as empty. */
  function Put(q: Rx, c: byte): Rx
  {
    if |q.bytes| + 1 == RING_SIZE then q.(bytes := [], fends := 0)
    else q.(bytes := q.bytes + [c], fends := q.fends + if c == FEND then 1 else 0)
  }

  function PutAll(q: Rx, data: seq<byte>): Rx
  {
    if data == [] then q else Put(PutAll(q, data[..|data| - 1]), data[|data| - 1])
  }

  function Unescaped(c: byte): byte
  {
    if c == TFESC then FESC else if c == TFEND then FEND else c
  }

  /** The frame buffer keeps what fits; a byte beyond its limit overwrites an unused place. */
  function Store(buf: seq<byte>, c: byte): seq<byte>
  {
    if |buf| >= FRAME_LIMIT then buf else buf + [c]
  }

  /** A frame, complete or not, and what is left. */
  datatype Taken = Taken(q: Rx, frame: Option<seq<byte>>)

  /** Reads up to the FEND that ends the frame. */
  function Scan(q: Rx, buf: seq<byte>): Taken
    decreases |q.bytes|
  {
    if q.bytes == [] then Taken(q.(fends := 0), None)
    else
      var c, rest := q.bytes[0], q.(bytes := q.bytes[1..]);
      if q.esc then Scan(rest.(esc := false), Store(buf, Unescaped(c)))
      else if c == FEND then
        if buf == [] then Scan(rest.(fends := q.fends - 1), buf)
        else Taken(rest.(fends := q.fends - 1), Some(buf))
      else if c == FESC then Scan(rest.(esc := true), buf)
      else Scan(rest, Store(buf, c))
  }

  /** What is behind the first FEND, if there is one. */
  function BehindFend(bytes: seq<byte>): Option<seq<byte>>
  {
    if bytes == [] then None
    else if bytes[0] == FEND then Some(bytes[1..])
    else BehindFend(bytes[1..])
  }

  /** Drops everything up to and including the next FEND. */
  function Resync(q: Rx): Rx
  {
    match BehindFend(q.bytes)
    case None => q.(bytes := [], fends := 0)
    case Some(rest) => q.(bytes := rest, fends := q.fends - 1)
  }

  function Next(q: Rx): Taken
  {
    if q.bytes == [] || q.fends < 2 then Taken(q, None)
    else
      var rest := q.(bytes := q.bytes[1..]);
      if q.bytes[0] != FEND then Taken(Resync(rest), None)
      else Scan(rest.(fends := q.fends - 1), [])
  }

  /** Only data and acknowledged-data commands are handed on; other frames are consumed. */
  predicate IsDataFrame(frame: seq<byte>)
  {
    frame != [] && (frame[0] == 0 || frame[0] == 6 || frame[0] == 12)
  }

  function HandedOn(t: Taken): bool
  {
    t.frame.Some? && IsDataFrame(t.frame.value)
  }

  /** FENDs between frames cost nothing: an extra one at the front is skipped in the same call. */
  lemma ExtraFendIsSkipped(q: Rx)
    requires |q.bytes| >= 2 && q.bytes[0] == q.bytes[1] == FEND && q.fends >= 3 && !q.esc
    ensures Next(q) == Next(q.(bytes := q.bytes[1..], fends := q.fends - 1))
  {
    assert q.bytes[1..][1..] == q.bytes[2..];
  }

  /** A byte that need not have been escaped is read as it is. */
  lemma StrayEscapeIsDropped(c: byte)
    requires c != FEND && c != TFEND && c != TFESC
    ensures Next(Rx([FEND, 0, FESC, c, FEND], 2, false)) == Taken(Rx([], 0, false), Some([0, c]))
  {
    hide Scan;
    var q := Rx([0, FESC, c, FEND], 1, false);
    assert [FEND, 0, FESC, c, FEND][1..] == q.bytes;
    OneScan(q, []);
    assert q.bytes[1..] == [FESC, c, FEND] && [] + [0] == [0];
    OneScan(Rx([FESC, c, FEND], 1, false), [0]);
    assert [FESC, c, FEND][1..] == [c, FEND];
    OneScan(Rx([c, FEND], 1, true), [0]);
    assert [c, FEND][1..] == [FEND] && [0] + [c] == [0, c];
    OneScan(Rx([FEND], 1, false), [0, c]);
    assert [FEND][1..] == [];
  }

  lemma OneScan(q: Rx, buf: seq<byte>)
    requires q.bytes != []
    ensures var c, rest := q.bytes[0], q.(bytes := q.bytes[1..]);
            Scan(q, buf) ==
            if q.esc then Scan(rest.(esc := false), Store(buf, Unescaped(c)))
            else if c == FEND && buf != [] then Taken(rest.(fends := q.fends - 1), Some(buf))
            else if c == FEND then Scan(rest.(fends := q.fends - 1), buf)
            else if c == FESC then Scan(rest.(esc := true), buf)
            else Scan(rest, Store(buf, c))
  {
  }

  // ---------- one frame ----------

  function Clamped(frame: seq<byte>): seq<byte>
  {
    if |frame| <= FRAME_LIMIT then frame else frame[..FRAME_LIMIT]
  }

  lemma {:induction false} ScanReadsEscaped(q: Rx, buf: seq<byte>, data: seq<byte>, rest: seq<byte>)
    requires !q.esc && q.bytes == Escaped(data) + rest && |buf| <= FRAME_LIMIT
    ensures Scan(q, buf) == Scan(q.(bytes := rest), Clamped(buf + data))
    decreases |data|
  {
    hide Scan, Escape, Store, Clamped;
    if data == [] {
      assert buf + data == buf && q.bytes == rest;
      StoreClamps(buf, 0, []);
    } else {
      var c, tail := data[0], data[1..];
      var after := Escaped(tail) + rest;
      assert q.bytes == Escape(c) + after;
      ScanReadsOne(q, buf, c, after);
      StoreClamps(buf, c, tail);
      assert data == [c] + tail;
      ScanReadsEscaped(q.(bytes := after), Store(buf, c), tail, rest);
    }
  }

  lemma StoreClamps(buf: seq<byte>, c: byte, tail: seq<byte>)
    requires |buf| <= FRAME_LIMIT
    ensures |Store(buf, c)| <= FRAME_LIMIT && Clamped(buf) == buf
    ensures Clamped(Store(buf, c) + tail) == Clamped(buf + ([c] + tail))
  {
    assert (buf + [c]) + tail == buf + ([c] + tail);
  }

  lemma ScanReadsOne(q: Rx, buf: seq<byte>, c: byte, after: seq<byte>)
    requires !q.esc && q.bytes == Escape(c) + after
    ensures Scan(q, buf) == Scan(q.(bytes := after), Store(buf, c))
  {
    assert q.bytes[1..] == Escape(c)[1..] + after;
    if |Escape(c)| == 2 {
      assert q.bytes[1..][1..] == after;
    }
  }

  /** A complete encoded frame at the head of the buffer is read back, cut at the buffer's limit. */
  lemma NextReadsFrame(q: Rx, frame: seq<byte>, rest: seq<byte>)
    requires !q.esc && frame != [] && q.bytes == Encoded(frame) + rest && q.fends >= 2
    ensures Next(q) == Taken(Rx(rest, q.fends - 2, false), Some(Clamped(frame)))
  {
    hide Scan, Escaped, Clamped;
    var q1 := q.(bytes := q.bytes[1..], fends := q.fends - 1);
    assert q1.bytes == Escaped(frame) + ([FEND] + rest);
    assert [] + frame == frame;
    ClampedIsNotEmpty(frame);
    ScanEndsFrame(q1.(bytes := [FEND] + rest), Clamped(frame), rest);
    ScanReadsEscaped(q1, [], frame, [FEND] + rest);
  }

  lemma ClampedIsNotEmpty(frame: seq<byte>)
    requires frame != []
    ensures Clamped(frame) != []
  {
  }

  lemma ScanEndsFrame(q: Rx, buf: seq<byte>, rest: seq<byte>)
    requires !q.esc && buf != [] && q.bytes == [FEND] + rest
    ensures Scan(q, buf) == Taken(Rx(rest, q.fends - 1, false), Some(buf))
  {
    assert q.bytes[1..] == rest;
  }

  // ---------- counting ----------

  lemma {:induction false} CountAdds(s: seq<byte>, t: seq<byte>)
    ensures CountFends(s + t) == CountFends(s) + CountFends(t)
  {
    if s == [] {
      assert s + t == t;
    } else {
      CountAdds(s[1..], t);
      assert (s + t)[1..] == s[1..] + t;
    }
  }

  lemma {:induction false} NoFendEscaped(data: seq<byte>)
    ensures CountFends(Escaped(data)) == 0
  {
    if data == [] {
    } else {
      NoFendEscaped(data[1..]);
      CountAdds(Escape(data[0]), Escaped(data[1..]));
      var e := Escape(data[0]);
      assert CountFends(e) == 0 by {
        assert CountFends(e[1..]) == 0 by {
          if |e| == 2 { assert e[1..][1..] == []; }
        }
      }
    }
  }

  lemma TwoFends(frame: seq<byte>)
    ensures CountFends(Encoded(frame)) == 2
    ensures CountFends([FEND] + Escaped(frame)) == 1
  {
    NoFendEscaped(frame);
    CountAdds(Escaped(frame), [FEND]);
    CountAdds([FEND], Escaped(frame) + [FEND]);
    CountAdds([FEND], Escaped(frame));
    assert CountFends([FEND]) == 1 by { assert [FEND][1..] == []; }
  }

  lemma CountOfPrefix(s: seq<byte>, k: nat)
    requires k <= |s|
    ensures CountFends(s[..k]) <= CountFends(s)
  {
    CountAdds(s[..k], s[k..]);
    assert s[..k] + s[k..] == s;
  }

  /** A start of the encoded stream that holds two FENDs holds the whole first frame. */
  lemma TwoFendsAreAFrame(frame: seq<byte>, rest: seq<byte>, k: nat)
    requires k <= |Encoded(frame) + rest| && CountFends((Encoded(frame) + rest)[..k]) >= 2
    ensures k >= |Encoded(frame)|
  {
    var e := Encoded(frame);
    if k < |e| {
      TwoFends(frame);
      var p := [FEND] + Escaped(frame);
      assert (e + rest)[..k] == p[..k];
      CountOfPrefix(p, k);
    }
  }

  // ---------- streams ----------

  /** The host feeds bytes in chunks; the modem asks for frames. */
  datatype Op = Feed(chunk: seq<byte>) | Get

  /** What has been fed, what is buffered, and the frames returned so far. */
  datatype Session = Session(q: Rx, returned: seq<seq<byte>>)

  function Start(): Session { Session(Rx([], 0, false), []) }

  function Step(s: Session, op: Op): Session
  {
    match op
    case Feed(chunk) => s.(q := PutAll(s.q, chunk))
    case Get =>
      var t := Next(s.q);
      Session(t.q, if HandedOn(t) then s.returned + [t.frame.value] else s.returned)
  }

  function Run(ops: seq<Op>): Session
  {
    if ops == [] then Start() else Step(Run(ops[..|ops| - 1]), ops[|ops| - 1])
  }

  function Fed(ops: seq<Op>): seq<byte>
  {
    if ops == [] then []
    else Fed(ops[..|ops| - 1]) + match ops[|ops| - 1] case Feed(chunk) => chunk case Get => []
  }

  /** No chunk fills the ring. */
  predicate NoOverrun(ops: seq<Op>)
  {
    ops == []
    || (&& NoOverrun(ops[..|ops| - 1])
        && (ops[|ops| - 1].Feed? ==> |Run(ops[..|ops| - 1]).q.bytes| + |ops[|ops| - 1].chunk| < RING_SIZE))
  }

  /** The frames with a data command, in order, cut at the frame buffer's limit. */
  function DataFrames(frames: seq<seq<byte>>): seq<seq<byte>>
  {
    if frames == [] then []
    else
      var n := |frames| - 1;
      DataFrames(frames[..n]) + if IsDataFrame(frames[n]) then [Clamped(frames[n])] else []
  }

  predicate NoEmptyFrame(frames: seq<seq<byte>>)
  {
    forall f :: f in frames ==> f != []
  }

  /** The first k frames have been taken, and the buffer holds the fed bytes after them. */
  predicate InOrder(frames: seq<seq<byte>>, s: Session, fed: seq<byte>, k: nat)
  {
    && k <= |frames|
    && fed == EncodeAll(frames[..k]) + s.q.bytes
    && s.q.fends == CountFends(s.q.bytes) && !s.q.esc
    && s.returned == DataFrames(frames[..k])
  }

  lemma {:induction false} PutAllAppends(q: Rx, data: seq<byte>)
    requires |q.bytes| + |data| < RING_SIZE && q.fends == CountFends(q.bytes)
    ensures PutAll(q, data) == Rx(q.bytes + data, CountFends(q.bytes + data), q.esc)
  {
    if data == [] {
      assert q.bytes + data == q.bytes;
    } else {
      var n := |data| - 1;
      PutAllAppends(q, data[..n]);
      CountAdds(q.bytes + data[..n], [data[n]]);
      assert [data[n]][1..] == [];
      assert q.bytes + data == (q.bytes + data[..n]) + [data[n]];
    }
  }

  lemma EncodeFirst(f: seq<byte>, rest: seq<seq<byte>>)
    ensures EncodeAll([]) == [] && EncodeAll([f] + rest) == Encoded(f) + EncodeAll(rest)
  {
    assert ([f] + rest)[1..] == rest;
  }

  lemma Associates<T>(a: seq<T>, b: seq<T>, c: seq<T>)
    ensures a + (b + c) == (a + b) + c
  {
  }

  lemma {:induction false} EncodeAllSplits(a: seq<seq<byte>>, b: seq<seq<byte>>)
    ensures EncodeAll(a + b) == EncodeAll(a) + EncodeAll(b)
  {
    hide Encoded, EncodeAll;
    if a == [] {
      assert a + b == b;
      EncodeFirst([], []);
    } else {
      EncodeAllSplits(a[1..], b);
      EncodeFirst(a[0], a[1..]);
      EncodeFirst(a[0], a[1..] + b);
      assert [a[0]] + a[1..] == a;
      Associates([a[0]], a[1..], b);
      Associates(Encoded(a[0]), EncodeAll(a[1..]), EncodeAll(b));
    }
  }

  /** What is left to take starts with the next frame. */
  lemma LeftToTake(frames: seq<seq<byte>>, bytes: seq<byte>, k: nat)
    requires k <= |frames| && EncodeAll(frames[..k]) + bytes <= EncodeAll(frames)
    ensures bytes <= EncodeAll(frames[k..])
    ensures k < |frames| ==> EncodeAll(frames[k..]) == Encoded(frames[k]) + EncodeAll(frames[k + 1..])
    ensures k == |frames| ==> bytes == []
  {
    hide Encoded;
    EncodeAllSplits(frames[..k], frames[k..]);
    assert frames[..k] + frames[k..] == frames;
    PrefixAfter(EncodeAll(frames[..k]), bytes, EncodeAll(frames[k..]));
    if k < |frames| {
      assert frames[k..][1..] == frames[k + 1..];
    }
  }

  /** With two FENDs buffered the next frame is there as a whole. */
  lemma WholeFrameThere(frames: seq<seq<byte>>, bytes: seq<byte>, k: nat) returns (rest: seq<byte>)
    requires k <= |frames| && EncodeAll(frames[..k]) + bytes <= EncodeAll(frames) && CountFends(bytes) >= 2
    ensures k < |frames| && bytes == Encoded(frames[k]) + rest && CountFends(rest) == CountFends(bytes) - 2
  {
    LeftToTake(frames, bytes, k);
    assert bytes != [];
    hide Encoded, EncodeAll, CountFends;
    var f, more := frames[k], EncodeAll(frames[k + 1..]);
    assert bytes == (Encoded(f) + more)[..|bytes|];
    TwoFendsAreAFrame(f, more, |bytes|);
    rest := bytes[|Encoded(f)|..];
    assert bytes == Encoded(f) + rest;
    CountAdds(Encoded(f), rest);
    TwoFends(f);
  }

  lemma TakeOne(frames: seq<seq<byte>>, s: Session, fed: seq<byte>, k: nat)
    requires NoEmptyFrame(frames) && InOrder(frames, s, fed, k) && fed <= EncodeAll(frames)
    requires s.q.fends >= 2
    ensures k < |frames| && InOrder(frames, Step(s, Get), fed, k + 1)
  {
    hide Encoded, EncodeAll, Step, DataFrames, Next, CountFends, Clamped;
    var rest := WholeFrameThere(frames, s.q.bytes, k);
    assert frames[k] in frames;
    NextReadsFrame(s.q, frames[k], rest);
    TookOne(frames, s, fed, k, rest);
  }

  /** A ring with whole frames in order begins with a FEND: nothing has to be dropped. */
  lemma NothingToDrop(frames: seq<seq<byte>>, s: Session, fed: seq<byte>, k: nat)
    requires NoEmptyFrame(frames) && InOrder(frames, s, fed, k) && fed <= EncodeAll(frames)
    requires s.q.fends >= 2
    ensures s.q.bytes != [] && s.q.bytes[0] == FEND
  {
    hide EncodeAll, DataFrames, CountFends;
    var rest := WholeFrameThere(frames, s.q.bytes, k);
  }

  lemma TookOne(frames: seq<seq<byte>>, s: Session, fed: seq<byte>, k: nat, rest: seq<byte>)
    requires k < |frames| && frames[k] != [] && InOrder(frames, s, fed, k)
    requires s.q.bytes == Encoded(frames[k]) + rest && s.q.fends - 2 == CountFends(rest)
    requires Next(s.q) == Taken(Rx(rest, s.q.fends - 2, false), Some(Clamped(frames[k])))
    ensures InOrder(frames, Step(s, Get), fed, k + 1)
  {
    hide Next, Encoded, Escaped, CountFends;
    var f, w := frames[k], frames[..k + 1];
    assert w[..k] == frames[..k] && w == frames[..k] + [f];
    EncodeAllSplits(frames[..k], [f]);
    assert EncodeAll([f]) == Encoded(f) by {
      var none: seq<seq<byte>> := [];
      assert [f][1..] == none && EncodeAll(none) == [];
      assert Encoded(f) + [] == Encoded(f);
    }
    assert EncodeAll(frames[..k]) + (Encoded(f) + rest) == (EncodeAll(frames[..k]) + Encoded(f)) + rest;
    assert IsDataFrame(Clamped(f)) == IsDataFrame(f);
  }

  lemma PrefixAfter(a: seq<byte>, b: seq<byte>, c: seq<byte>)
    requires a + b <= a + c
    ensures b <= c
  {
    forall i | 0 <= i < |b| ensures |b| <= |c| && b[i] == c[i] {
      assert (a + b)[|a| + i] == (a + c)[|a| + i];
    }
  }

  lemma FeedKeepsOrder(frames: seq<seq<byte>>, s: Session, fed: seq<byte>, k: nat, chunk: seq<byte>)
    requires InOrder(frames, s, fed, k) && |s.q.bytes| + |chunk| < RING_SIZE
    ensures InOrder(frames, Step(s, Feed(chunk)), fed + chunk, k)
  {
    hide EncodeAll, DataFrames, PutAll;
    PutAllAppends(s.q, chunk);
    assert EncodeAll(frames[..k]) + (s.q.bytes + chunk) == (EncodeAll(frames[..k]) + s.q.bytes) + chunk;
  }

  lemma GetKeepsOrder(frames: seq<seq<byte>>, s: Session, fed: seq<byte>, k: nat) returns (k': nat)
    requires NoEmptyFrame(frames) && InOrder(frames, s, fed, k) && fed <= EncodeAll(frames)
    ensures InOrder(frames, Step(s, Get), fed, k')
  {
    if s.q.fends >= 2 {
      TakeOne(frames, s, fed, k);
      k' := k + 1;
    } else {
      k' := k;
    }
  }

  /** Whatever the chunks and whenever frames are asked for: the frames taken so far are the
      first ones fed, in order, each once, and the FEND count is that of the buffer. */
  lemma {:induction false} StreamIsInOrder(frames: seq<seq<byte>>, ops: seq<Op>) returns (k: nat)
    requires NoEmptyFrame(frames) && NoOverrun(ops) && Fed(ops) <= EncodeAll(frames)
    ensures InOrder(frames, Run(ops), Fed(ops), k)
  {
    if ops == [] {
      k := 0;
    } else {
      hide Step, EncodeAll, InOrder, DataFrames;
      var n := |ops| - 1;
      assert Fed(ops[..n]) <= Fed(ops);
      k := StreamIsInOrder(frames, ops[..n]);
      match ops[n] {
        case Feed(chunk) =>
          FeedKeepsOrder(frames, Run(ops[..n]), Fed(ops[..n]), k, chunk);
        case Get =>
          assert Fed(ops) == Fed(ops[..n]);
          k := GetKeepsOrder(frames, Run(ops[..n]), Fed(ops[..n]), k);
      }
    }
  }

  /** Once everything has been fed and no complete frame is left, all the frames with a data
      command have been returned. */
  lemma StreamIsComplete(frames: seq<seq<byte>>, ops: seq<Op>)
    requires NoEmptyFrame(frames) && NoOverrun(ops) && Fed(ops) == EncodeAll(frames)
    requires Run(ops).q.fends < 2
    ensures Run(ops).returned == DataFrames(frames) && Run(ops).q.bytes == []
  {
    hide Run, NoOverrun, Fed, Encoded, EncodeAll, CountFends, DataFrames, NoEmptyFrame;
    var k := StreamIsInOrder(frames, ops);
    NothingLeft(frames, Run(ops), k);
  }

  lemma NothingLeft(frames: seq<seq<byte>>, s: Session, k: nat)
    requires InOrder(frames, s, EncodeAll(frames), k) && s.q.fends < 2
    ensures k == |frames| && s.q.bytes == [] && s.returned == DataFrames(frames)
  {
    hide Encoded, EncodeAll, CountFends, DataFrames;
    EncodeAllSplits(frames[..k], frames[k..]);
    assert frames[..k] + frames[k..] == frames;
    PrefixAfter(EncodeAll(frames[..k]), s.q.bytes, EncodeAll(frames[k..]));
    assert s.q.bytes == EncodeAll(frames[k..]);
    if k < |frames| {
      EncodeFirst(frames[k], frames[k + 1..]);
      assert [frames[k]] + frames[k + 1..] == frames[k..];
      CountAdds(Encoded(frames[k]), EncodeAll(frames[k + 1..]));
      TwoFends(frames[k]);
    } else {
      EncodeFirst([], []);
      assert frames[k..] == [] && frames[..k] == frames;
    }
  }

  // ---------- any input ----------

  /** No FEND stands where the byte after a FESC is read. */
  predicate NoEscapedFend(esc: bool, bytes: seq<byte>)
    decreases |bytes|
  {
    bytes == [] || (!(esc && bytes[0] == FEND) && NoEscapedFend(!esc && bytes[0] == FESC, bytes[1..]))
  }

  /** The count is that of the FENDs in the ring, and they all end or begin frames. */
  predicate Counted(q: Rx) { q.fends == CountFends(q.bytes) && NoEscapedFend(q.esc, q.bytes) }

  lemma {:induction false} ScanKeepsCount(q: Rx, buf: seq<byte>)
    requires Counted(q)
    ensures Counted(Scan(q, buf).q)
    decreases |q.bytes|
  {
    if q.bytes == [] {
    } else {
      var c, rest := q.bytes[0], q.(bytes := q.bytes[1..]);
      if q.esc {
        ScanKeepsCount(rest.(esc := false), Store(buf, Unescaped(c)));
      } else if c == FEND {
        if buf == [] { ScanKeepsCount(rest.(fends := q.fends - 1), buf); }
      } else if c == FESC {
        ScanKeepsCount(rest.(esc := true), buf);
      } else {
        ScanKeepsCount(rest, Store(buf, c));
      }
    }
  }

  lemma {:induction false} BehindFendCounts(bytes: seq<byte>, esc: bool)
    requires NoEscapedFend(esc, bytes)
    ensures match BehindFend(bytes)
            case None => CountFends(bytes) == 0
            case Some(rest) => CountFends(bytes) == CountFends(rest) + 1 && NoEscapedFend(false, rest)
  {
    if bytes == [] {
    } else if bytes[0] == FEND {
    } else {
      BehindFendCounts(bytes[1..], !esc && bytes[0] == FESC);
    }
  }

  /** Whatever the ring holds, noise and pieces of frames included, taking a frame or dropping noise keeps the count right,
      as long as no FEND follows a FESC. Dropping begins with no escape pending. */
  lemma NextKeepsCount(q: Rx)
    requires Counted(q) && !q.esc
    ensures Counted(Next(q).q)
  {
    if q.bytes == [] || q.fends < 2 {
    } else if q.bytes[0] != FEND {
      BehindFendCounts(q.bytes[1..], q.bytes[0] == FESC);
    } else {
      ScanKeepsCount(q.(bytes := q.bytes[1..], fends := q.fends - 1), []);
    }
  }

  /** And on any input at all: when no frame and no FEND is found the ring is empty, and counts as holding none. */
  lemma {:induction false} ScanRunsOut(q: Rx, buf: seq<byte>)
    ensures Scan(q, buf).frame == None ==> Scan(q, buf).q.bytes == [] && Scan(q, buf).q.fends == 0
    decreases |q.bytes|
  {
    if q.bytes == [] {
    } else {
      var c, rest := q.bytes[0], q.(bytes := q.bytes[1..]);
      if q.esc {
        ScanRunsOut(rest.(esc := false), Store(buf, Unescaped(c)));
      } else if c == FEND {
        if buf == [] { ScanRunsOut(rest.(fends := q.fends - 1), buf); }
      } else if c == FESC {
        ScanRunsOut(rest.(esc := true), buf);
      } else {
        ScanRunsOut(rest, Store(buf, c));
      }
    }
  }

  lemma NothingFoundEmptiesRing(q: Rx)
    requires q.bytes != [] && q.fends >= 2 && Next(q).frame == None
    requires q.bytes[0] == FEND || BehindFend(q.bytes[1..]) == None
    ensures Next(q).q.bytes == [] && Next(q).q.fends == 0
  {
    if q.bytes[0] == FEND {
      ScanRunsOut(q.(bytes := q.bytes[1..], fends := q.fends - 1), []);
    }
  }

  lemma {:induction false} BehindNoise(noise: seq<byte>, rest: seq<byte>)
    requires FEND !in noise
    ensures BehindFend(noise + ([FEND] + rest)) == Some(rest)
  {
    if noise == [] {
      assert noise + ([FEND] + rest) == [FEND] + rest;
    } else {
      BehindNoise(noise[1..], rest);
      assert (noise + ([FEND] + rest))[1..] == noise[1..] + ([FEND] + rest);
      assert noise[0] in noise;
    }
  }

  lemma {:induction false} EscapedHasNoFend(data: seq<byte>)
    ensures FEND !in Escaped(data)
  {
    if data == [] {
    } else {
      EscapedHasNoFend(data[1..]);
    }
  }

  lemma ResyncBehindNoise(q: Rx, noise: seq<byte>, rest: seq<byte>)
    requires noise != [] && FEND !in noise && q.bytes == noise + ([FEND] + rest) && q.fends >= 2
    ensures Next(q) == Taken(q.(bytes := rest, fends := q.fends - 1), None)
  {
    assert noise[0] in noise && FEND !in noise[1..];
    BehindNoise(noise[1..], rest);
    assert q.bytes[1..] == noise[1..] + ([FEND] + rest);
  }

  lemma EscapedIsNotEmpty(f: seq<byte>)
    requires f != []
    ensures Escaped(f) != []
  {
  }

  /** Noise before a frame costs that frame, since the FEND it begins with is taken for the end of the noise, and no other:
      the frame after it is returned. */
  lemma NoiseCostsOneFrame(noise: seq<byte>, f: seq<byte>, g: seq<byte>)
    requires noise != [] && FEND !in noise && f != [] && g != []
    ensures var q0 := Rx(noise + (Encoded(f) + Encoded(g)), 4, false);
            var t1 := Next(q0); var t2 := Next(t1.q);
            t1.frame == None && t2.frame == None && Next(t2.q) == Taken(Rx([], 0, false), Some(Clamped(g)))
  {
    hide Escaped, Clamped, Next;
    EscapedHasNoFend(f);
    EscapedIsNotEmpty(f);
    var q0 := Rx(noise + (Encoded(f) + Encoded(g)), 4, false);
    assert Encoded(f) + Encoded(g) == [FEND] + (Escaped(f) + ([FEND] + Encoded(g)));
    ResyncBehindNoise(q0, noise, Escaped(f) + ([FEND] + Encoded(g)));
    ResyncBehindNoise(Rx(Escaped(f) + ([FEND] + Encoded(g)), 3, false), Escaped(f), Encoded(g));
    assert Encoded(g) == Encoded(g) + [];
    NextReadsFrame(Rx(Encoded(g), 2, false), g, []);
  }

  /** Bytes that fill the ring up empty it, and nothing of what was in it counts. */
  lemma OverrunForgets(q: Rx, data: seq<byte>)
    requires |q.bytes| < RING_SIZE && |q.bytes| + |data| == RING_SIZE && q.fends == CountFends(q.bytes)
    ensures PutAll(q, data) == Rx([], 0, q.esc)
  {
    PutAllAppends(q, data[..|data| - 1]);
  }

  /** The frames that begin with one of the given bytes. */
  function BeginningWith(frames: seq<seq<byte>>, first: set<byte>): seq<seq<byte>>
  {
    if frames == [] then []
    else
      var n := |frames| - 1;
      BeginningWith(frames[..n], first) + if frames[n] != [] && frames[n][0] in first then [frames[n]] else []
  }

  lemma {:induction false} DataFramesBegin(frames: seq<seq<byte>>, first: set<byte>)
    requires first == {0, 6, 12} && forall i :: 0 <= i < |frames| ==> 0 < |frames[i]| <= 498
    ensures DataFrames(frames) == BeginningWith(frames, first)
  {
    hide Clamped, IsDataFrame;
    if frames == [] {
    } else {
      var n := |frames| - 1;
      DataFramesBegin(frames[..n], first);
      OneFrameBegins(frames[n], first);
    }
  }

  lemma OneFrameBegins(f: seq<byte>, first: set<byte>)
    requires 0 < |f| <= 498 && first == {0, 6, 12}
    ensures Clamped(f) == f && (IsDataFrame(f) <==> f[0] in first)
  {
  }

  lemma {:induction false} AllBegin(frames: seq<seq<byte>>, first: set<byte>)
    requires forall f :: f in frames ==> f != [] && f[0] in first
    ensures BeginningWith(frames, first) == frames
  {
    if frames == [] {
    } else {
      var n := |frames| - 1;
      assert frames[n] in frames;
      assert forall f :: f in frames[..n] ==> f in frames;
      AllBegin(frames[..n], first);
      assert frames == frames[..n] + [frames[n]];
    }
  }

  /** Of the frames fed, those with a data command 0, 6 or 12 are returned, in order, and the others are taken and
      never returned. */
  lemma CommandsAreReturned(frames: seq<seq<byte>>, ops: seq<Op>)
    requires NoOverrun(ops) && Fed(ops) == EncodeAll(frames) && Run(ops).q.fends < 2
    requires forall f :: f in frames ==> 0 < |f| <= 498
    ensures Run(ops).returned == BeginningWith(frames, {0, 6, 12}) && Run(ops).q.bytes == []
  {
    hide Run, NoOverrun, Fed, EncodeAll, DataFrames, BeginningWith;
    StreamIsComplete(frames, ops);
    assert forall i :: 0 <= i < |frames| ==> frames[i] in frames;
    DataFramesBegin(frames, {0, 6, 12});
  }

  /** If all of them have such a command, exactly the frames fed are returned. */
  lemma EveryFrameIsReturned(frames: seq<seq<byte>>, ops: seq<Op>)
    requires NoOverrun(ops) && Fed(ops) == EncodeAll(frames) && Run(ops).q.fends < 2
    requires forall f :: f in frames ==> 0 < |f| <= 498 && (f[0] == 0 || f[0] == 6 || f[0] == 12)
    ensures Run(ops).returned == frames
  {
    hide Run, NoOverrun, Fed, EncodeAll, DataFrames, BeginningWith;
    CommandsAreReturned(frames, ops);
    AllBegin(frames, {0, 6, 12});
  }

  // ---------- the program's buffers ----------

  /** A cyclic buffer: equal pointers mean it is empty. */
  class Ring {
    const data: array<byte>
    var put: nat
    var get: nat

    constructor ()
      ensures Valid() && fresh(data) && Contents() == [] && put == get == 0
    {
      data := new byte[RING_SIZE](_ => 0);
      put, get := 0, 0;
    }

    ghost predicate Valid()
      reads this
    {
      data.Length == RING_SIZE && put < RING_SIZE && get < RING_SIZE
    }

    ghost function Length(): (n: nat)
      requires Valid()
      reads this
    {
      if put >= get then put - get else put + RING_SIZE - get
    }

    ghost function Contents(): (s: seq<byte>)
      requires Valid()
      reads this, data
      ensures |s| == Length()
    {
      if put >= get then data[get..put] else data[get..] + data[..put]
    }

    method Append(c: byte)
      requires Valid()
      modifies `put, data
      ensures Valid()
      ensures Contents() == if |old(Contents())| + 1 == RING_SIZE then [] else old(Contents()) + [c]
      ensures put == get <==> |old(Contents())| + 1 == RING_SIZE
    {
      ghost var before := Contents();
      data[put] := c;
      put := put + 1;
      if put == RING_SIZE {
        put := 0;
        assert put < get ==> Contents() == data[get..] + [];
      }
      assert put != get ==> Contents() == before + [c];
    }

    /** Whether a search for the next FEND that does not bring the get pointer back to the start of the
        ring ends before the ring does. */
    ghost predicate StaysInside()
      requires Valid()
      reads this, data
    {
      get < put || exists i :: get < i < RING_SIZE && data[i] == FEND
    }

    /** The bytes from a position on that has not been brought back to the start of the ring. */
    ghost function Behind(p: nat): seq<byte>
      requires Valid() && get < p <= RING_SIZE && (get < put ==> p <= put)
      reads this, data
    {
      if get < put then data[p..put] else data[p..] + data[..put]
    }

    lemma OneBehind(p: nat)
      requires Valid() && get < p < RING_SIZE && p != put && (get < put ==> p <= put)
      ensures Behind(p) == [data[p]] + Behind(p + 1)
      ensures BehindFend(Behind(p)) == if data[p] == FEND then Some(Behind(p + 1)) else BehindFend(Behind(p + 1))
    {
      assert Behind(p) == [data[p]] + Behind(p + 1);
      assert Behind(p)[1..] == Behind(p + 1);
    }

    lemma EmptyExactly()
      requires Valid()
      ensures Contents() == [] <==> put == get
    {
    }

    lemma PutAfterContents()
      requires Valid() && get == 0
      ensures put == |Contents()|
    {
    }

    /** With noise at the front the search stays inside exactly when the first FEND behind it lies
        before the end of the ring. */
    lemma FendInTime(noise: seq<byte>, rest: seq<byte>)
      requires Valid() && Contents() == noise + rest
      requires noise != [] && FEND !in noise && rest != [] && rest[0] == FEND
      ensures StaysInside() <==> get + |noise| < RING_SIZE
    {
      assert Contents()[|noise|] == FEND;
      if get >= put {
        forall i | get < i < RING_SIZE && data[i] == FEND ensures i >= get + |noise| {
          assert data[i] == Contents()[i - get];
        }
        if get + |noise| < RING_SIZE {
          assert data[get + |noise|] == Contents()[|noise|];
        }
      }
    }

    lemma FirstByte()
      requires Valid() && put != get
      ensures Contents() != [] && Contents()[0] == data[get]
    {
    }

    lemma FirstBehind()
      requires Valid() && put != get
      ensures Contents() == [data[get]] + Behind(get + 1)
    {
    }

    /** Drops the first byte and all up to the next FEND. The pointer is brought back to the start of
        the ring only when one is found. */
    method DropToFend() returns (found: bool, inside: bool)
      requires Valid() && put != get
      modifies `get
      ensures Valid() && inside == old(StaysInside())
      ensures inside ==> found == BehindFend(old(Contents())[1..]).Some?
      ensures inside && found ==> Some(Contents()) == BehindFend(old(Contents())[1..])
      ensures inside && !found ==> Contents() == []
    {
      hide BehindFend, Behind, Length;
      FirstBehind();
      ghost var wanted := BehindFend(Behind(get + 1));
      assert Contents()[1..] == Behind(get + 1);
      var p := get + 1;
      while put != p
        invariant get == old(get) && get < p <= RING_SIZE && (get < put ==> p <= put)
        invariant forall i :: get < i < p ==> data[i] != FEND
        invariant BehindFend(Behind(p)) == wanted
        decreases RING_SIZE - p
      {
        if p == RING_SIZE {
          return false, false;
        }
        OneBehind(p);
        if data[p] == FEND {
          ArriveAt(p + 1);
          get := if p + 1 == RING_SIZE then 0 else p + 1;
          return true, true;
        }
        p := p + 1;
      }
      NothingBehind();
      get := p;
      return false, true;
    }

    /** What the ring holds once its get pointer has moved to p. */
    lemma ArriveAt(p: nat)
      requires Valid() && get < p <= RING_SIZE && (get < put ==> p <= put)
      ensures Behind(p) == if p == RING_SIZE then data[..put] else if put >= p then data[p..put] else data[p..] + data[..put]
    {
      if p == RING_SIZE && get >= put { assert data[p..] == []; }
    }

    lemma NothingBehind()
      requires Valid() && get < put
      ensures Behind(put) == [] && BehindFend(Behind(put)) == None
    {
    }

    method Remove() returns (c: byte)
      requires Valid() && put != get
      modifies `get
      ensures Valid() && old(Contents()) == [c] + Contents()
    {
      c := data[get];
      get := get + 1;
      if get == RING_SIZE {
        get := 0;
      }
    }
  }

  class Modem {
    const rx: Ring
    const tx: Ring
    var fendCount: int
    var escFlag: bool
    const buffer: array<byte>
    var length: nat

    constructor ()
      ensures Valid() && fresh(rx) && fresh(tx) && fresh(rx.data) && fresh(tx.data) && fresh(buffer)
      ensures State() == Start().q && tx.Contents() == [] && rx.get == 0
    {
      rx := new Ring();
      tx := new Ring();
      fendCount, escFlag, length := 0, false, 0;
      buffer := new byte[500](_ => 0);
    }

    ghost predicate Valid()
      reads this, rx, tx
    {
      && rx != tx && rx.data != tx.data && buffer != rx.data && buffer != tx.data
      && rx.Valid() && tx.Valid()
      && buffer.Length == 500 && length <= FRAME_LIMIT
    }

    ghost function State(): Rx
      requires Valid()
      reads this, rx, tx, rx.data
    {
      Rx(rx.Contents(), fendCount, escFlag)
    }

    method ProcessByte(c: byte)
      requires Valid()
      modifies `fendCount, rx`put, rx.data
      ensures Valid() && State() == Put(old(State()), c)
    {
      if c == FEND {
        fendCount := fendCount + 1;
      }
      rx.Append(c);
      if rx.put == rx.get {
        fendCount := 0;
      }
    }

    method ProcessBytes(data: array<byte>, count: nat)
      requires Valid() && count <= data.Length && data != rx.data
      modifies `fendCount, rx`put, rx.data
      ensures Valid() && State() == PutAll(old(State()), data[..count])
    {
      hide Put;
      for i := 0 to count
        invariant Valid() && State() == PutAll(old(State()), data[..i])
        invariant data[..] == old(data[..])
      {
        assert data[..i + 1][..i] == data[..i];
        ProcessByte(data[i]);
      }
    }

    /** The first byte is no FEND: drops everything up to the next FEND. False when that runs off the
        end of the ring, after which nothing is defined. */
    method Discard() returns (inside: bool)
      requires Valid() && rx.put != rx.get
      modifies `fendCount, rx`get
      ensures Valid() && inside == old(rx.StaysInside())
      ensures inside ==> State() == Resync(old(State()).(bytes := old(State()).bytes[1..]))
    {
      hide Ring.Contents, Ring.Length, Ring.StaysInside, BehindFend;
      var found;
      found, inside := rx.DropToFend();
      if inside {
        fendCount := if found then fendCount - 1 else 0;
      }
    }

    /** Stores a byte unless the buffer is full; the place after the last is overwritten then. */
    method StoreByte(c: byte)
      requires Valid()
      modifies `length, buffer
      ensures Valid() && buffer[..length] == Store(old(buffer[..length]), c)
    {
      buffer[length] := c;
      length := length + 1;
      if length == 499 {
        length := length - 1;
      }
    }

    /** One byte of a frame; true when it ends the frame. */
    method ReadByte() returns (done: bool)
      requires Valid() && rx.put != rx.get
      modifies `fendCount, `escFlag, `length, buffer, rx`get
      ensures Valid() && rx.Length() < old(rx.Length())
      ensures var t := Scan(old(State()), old(buffer[..length]));
              if done then t == Taken(State(), Some(buffer[..length])) && length > 0
              else t == Scan(State(), buffer[..length])
    {
      hide Store, Ring.Contents, Ring.Length;
      ghost var before := rx.Contents();
      var c := rx.Remove();
      assert before[0] == c && before[1..] == rx.Contents();
      done := false;
      if escFlag {
        escFlag := false;
        if c == TFESC {
          c := FESC;
        } else if c == TFEND {
          c := FEND;
        }
        StoreByte(c);
      } else if c == FEND {
        fendCount := fendCount - 1;
        done := length != 0;
      } else if c == FESC {
        escFlag := true;
      } else {
        StoreByte(c);
      }
    }

    /** Takes the next complete frame into the frame buffer; true when it is to be sent. When the ring
        does not begin with a FEND, all up to the next one is dropped first, if one is met in time. */
    method GetNextFrame() returns (got: bool, inside: bool)
      requires Valid()
      modifies `fendCount, `escFlag, `length, buffer, rx`get
      ensures Valid()
      ensures !inside <==> var q := old(State());
              q.bytes != [] && q.fends >= 2 && q.bytes[0] != FEND && !old(rx.StaysInside())
      ensures inside ==>
              var t := Next(old(State()));
              && State() == t.q
              && got == HandedOn(t)
              && (got ==> t.frame == Some(buffer[..length]))
    {
      hide Scan, Resync, Ring.Contents, Ring.Length, Ring.StaysInside;
      rx.EmptyExactly();
      got, inside := false, true;
      if rx.put == rx.get || fendCount < 2 {
        return;
      }
      rx.FirstByte();
      if rx.data[rx.get] != FEND {
        inside := Discard();
        return;
      }
      ghost var before := rx.Contents();
      var c := rx.Remove();
      assert before[0] == c && before[1..] == rx.Contents();
      fendCount := fendCount - 1;
      got := ReadFrame();
    }

    /** Reads up to the end of the frame behind the first FEND. */
    method ReadFrame() returns (got: bool)
      requires Valid()
      modifies `fendCount, `escFlag, `length, buffer, rx`get
      ensures Valid()
      ensures var t := Scan(old(State()), []);
              && State() == t.q
              && got == HandedOn(t)
              && (got ==> t.frame == Some(buffer[..length]))
    {
      length := 0;
      ghost var t := Scan(State(), []);
      assert buffer[..0] == [];
      while rx.put != rx.get
        invariant Valid() && Scan(State(), buffer[..length]) == t
        decreases rx.Length()
      {
        hide Scan;
        var done := ReadByte();
        if done {
          got := buffer[0] == 0 || buffer[0] == 6 || buffer[0] == 12;
          return;
        }
      }
      fendCount := 0;
      got := false;
    }

    method SendByte(c: byte)
      requires Valid()
      modifies tx`put, tx.data
      ensures Valid() && tx.Contents() == Fill(old(tx.Contents()), Escape(c))
    {
      hide Ring.Contents, Ring.Length;
      FillShort(tx.Contents(), FESC, if c == FEND then TFEND else TFESC);
      FillShort(tx.Contents(), c, 0);
      if c == FEND {
        tx.Append(FESC);
        tx.Append(TFEND);
      } else if c == FESC {
        tx.Append(FESC);
        tx.Append(TFESC);
      } else {
        tx.Append(c);
      }
    }

    /** Sends a received frame to the host, encoded as a data frame. */
    method SendFrameToHost(data: array<byte>, count: nat)
      requires Valid() && count <= data.Length && data != tx.data
      modifies tx`put, tx.data
      ensures Valid() && tx.Contents() == Fill(old(tx.Contents()), Encoded([0] + data[..count]))
    {
      hide Ring.Contents, Ring.Length, Escaped, Encoded, Escape, Fill;
      ghost var before, d := tx.Contents(), data[..count];
      EncodedData(d);
      FillShort(before, FEND, 0);
      tx.Append(FEND);
      tx.Append(0);
      FillAdds(before, [FEND, 0], Escaped(d) + [FEND]);
      FillAdds(tx.Contents(), Escaped(d), [FEND]);
      SendBytes(data, count);
      FillShort(tx.Contents(), FEND, 0);
      tx.Append(FEND);
    }

    method SendBytes(data: array<byte>, count: nat)
      requires Valid() && count <= data.Length && data != tx.data
      modifies tx`put, tx.data
      ensures Valid() && tx.Contents() == Fill(old(tx.Contents()), Escaped(data[..count]))
    {
      hide Ring.Contents, Ring.Length, Escaped, Escape, Fill;
      ghost var before, d := tx.Contents(), data[..count];
      EscapedNothing();
      FillNothing(before);
      assert d[..0] == [];
      for i := 0 to count
        invariant Valid() && data[..count] == d && tx.Contents() == Fill(before, Escaped(d[..i]))
      {
        EscapedOneMore(d, i);
        assert d[i] == data[i];
        FillAdds(before, Escaped(d[..i]), Escape(d[i]));
        SendByte(data[i]);
      }
      assert d[..count] == d;
    }
  }

  // ---------- leaving the ring ----------

  lemma {:induction false} NothingToEscape(data: seq<byte>)
    requires forall i :: 0 <= i < |data| ==> data[i] != FEND && data[i] != FESC
    ensures Escaped(data) == data
  {
    if data == [] {
    } else {
      NothingToEscape(data[1..]);
    }
  }

  lemma {:induction false} NoFendCounted(s: seq<byte>)
    requires FEND !in s
    ensures CountFends(s) == 0
  {
    if s == [] {
    } else {
      NoFendCounted(s[1..]);
    }
  }

  lemma FedOnce(frame: seq<byte>)
    requires |Encoded(frame)| < RING_SIZE
    ensures PutAll(Start().q, Encoded(frame)) == Rx(Encoded(frame), 2, false)
  {
    hide Encoded;
    PutAllAppends(Start().q, Encoded(frame));
    TwoFends(frame);
    assert [] + Encoded(frame) == Encoded(frame);
  }

  lemma EncodedBegins(frame: seq<byte>)
    ensures Encoded(frame) != [] && Encoded(frame)[0] == FEND
  {
  }

  /** The first frame through a new modem is taken whole: the ring is empty behind it. */
  lemma FirstFrameThrough(frame: seq<byte>)
    requires frame != [] && |Encoded(frame)| < RING_SIZE
    ensures Next(PutAll(Start().q, Encoded(frame))).q == Rx([], 0, false)
  {
    hide Encoded, Next;
    FedOnce(frame);
    assert Encoded(frame) == Encoded(frame) + [];
    NextReadsFrame(Rx(Encoded(frame), 2, false), frame, []);
  }

  /** Noise before a frame: the count says that there is a frame, and the first byte is no FEND. */
  lemma NoiseThenFrame(noise: seq<byte>, frame: seq<byte>)
    requires FEND !in noise && noise != [] && |noise + Encoded(frame)| < RING_SIZE
    ensures PutAll(Rx([], 0, false), noise + Encoded(frame)) == Rx(noise + Encoded(frame), 2, false)
    ensures (noise + Encoded(frame))[0] != FEND
  {
    hide Encoded, CountFends;
    PutAllAppends(Rx([], 0, false), noise + Encoded(frame));
    NoFendCounted(noise);
    TwoFends(frame);
    CountAdds(noise, Encoded(frame));
    assert [] + (noise + Encoded(frame)) == noise + Encoded(frame);
    assert noise[0] in noise;
  }

  /** A whole frame goes through a new modem, then noise without a FEND and another frame come in.
      Looking for the FEND behind the noise stays inside the ring exactly when that FEND does not
      lie behind the place where the ring wraps. Nothing is ever overrun. */
  method ResyncAfterNoise(first: array<byte>, late: array<byte>, ghost frame: seq<byte>, ghost noise: seq<byte>,
                          ghost second: seq<byte>) returns (inside: bool)
    requires frame != [] && first[..] == Encoded(frame) && first.Length < RING_SIZE
    requires noise != [] && FEND !in noise && late[..] == noise + Encoded(second) && late.Length < RING_SIZE
    ensures inside <==> first.Length + |noise| < RING_SIZE
  {
    hide PutAll, Next, Encoded, Ring.Contents, Ring.Length, Ring.StaysInside;
    var m := new Modem();
    FirstFrameThrough(frame);
    assert first[..first.Length] == first[..];
    m.ProcessBytes(first, first.Length);
    FedOnce(frame);
    EncodedBegins(frame);
    m.rx.PutAfterContents();
    var got;
    got, inside := m.GetNextFrame();
    m.rx.EmptyExactly();
    NoiseThenFrame(noise, second);
    assert late[..late.Length] == late[..];
    m.ProcessBytes(late, late.Length);
    EncodedBegins(second);
    m.rx.FendInTime(noise, Encoded(second));
    got, inside := m.GetNextFrame();
  }

  /** It is left by a frame of 4002 bytes on the line, 94 bytes of noise and a short frame. */
  method NoiseCanLeaveTheRing() returns (inside: bool)
    ensures !inside
  {
    var first := new byte[4002](i => if i == 0 || i == 4001 then FEND else 0);
    var late := new byte[98](i => if i == 94 || i == 97 then FEND else if i == 95 then 0 else 88);
    ghost var frame: seq<byte>, noise: seq<byte> := seq(4000, _ => 0), seq(94, _ => 88);
    NothingToEscape(frame);
    NothingToEscape([0, 88]);
    assert first[..] == Encoded(frame);
    assert late[..] == noise + Encoded([0, 88]);
    inside := ResyncAfterNoise(first, late, frame, noise, [0, 88]);
  }

  /** Bytes put into a ring one by one; one that fills up counts as empty. */
  function Fill(s: seq<byte>, data: seq<byte>): seq<byte>
    decreases |data|
  {
    if data == [] then s else Fill(if |s| + 1 == RING_SIZE then [] else s + [data[0]], data[1..])
  }

  lemma FillNothing(s: seq<byte>)
    ensures Fill(s, []) == s
  {
  }

  lemma FillShort(s: seq<byte>, b: byte, c: byte)
    ensures Fill(s, [b]) == if |s| + 1 == RING_SIZE then [] else s + [b]
    ensures Fill(s, [b, c]) == Fill(Fill(s, [b]), [c])
    ensures var t := Fill(s, [b]); Fill(t, [c]) == if |t| + 1 == RING_SIZE then [] else t + [c]
  {
    assert [b][1..] == [] && [b, c][1..] == [c] && [c][1..] == [];
  }

  lemma {:induction false} FillAdds(s: seq<byte>, a: seq<byte>, b: seq<byte>)
    ensures Fill(s, a + b) == Fill(Fill(s, a), b)
    decreases |a|
  {
    if a == [] {
      assert a + b == b;
    } else {
      assert (a + b)[1..] == a[1..] + b;
      FillAdds(if |s| + 1 == RING_SIZE then [] else s + [a[0]], a[1..], b);
    }
  }

  lemma {:induction false} FillIsShort(s: seq<byte>, data: seq<byte>)
    requires |s| < RING_SIZE
    ensures |Fill(s, data)| < RING_SIZE
    decreases |data|
  {
    if data == [] {
    } else {
      FillIsShort(if |s| + 1 == RING_SIZE then [] else s + [data[0]], data[1..]);
    }
  }

  /** All bytes are in the ring in order exactly when there is room for them. */
  lemma {:induction false} FillAppends(s: seq<byte>, data: seq<byte>)
    requires |s| < RING_SIZE
    ensures Fill(s, data) == s + data <==> |s| + |data| < RING_SIZE
    decreases |data|
  {
    FillIsShort(s, data);
    if data == [] {
      assert s + data == s;
    } else if |s| + |data| < RING_SIZE {
      FillAppends(s + [data[0]], data[1..]);
      assert s + data == (s + [data[0]]) + data[1..];
    }
  }

  lemma EscapedNothing()
    ensures Escaped([]) == []
  {
  }

  lemma EncodedData(d: seq<byte>)
    ensures Encoded([0] + d) == [FEND, 0] + (Escaped(d) + [FEND])
  {
    assert ([0] + d)[1..] == d;
  }

  lemma EscapedFirst(c: byte, rest: seq<byte>)
    ensures Escaped([c] + rest) == Escape(c) + Escaped(rest)
  {
    assert ([c] + rest)[1..] == rest;
  }

  lemma {:induction false} EscapedSplits(a: seq<byte>, b: seq<byte>)
    ensures Escaped(a + b) == Escaped(a) + Escaped(b)
  {
    hide Escape, Escaped;
    if a == [] {
      assert a + b == b;
      EscapedNothing();
    } else {
      EscapedSplits(a[1..], b);
      EscapedFirst(a[0], a[1..]);
      EscapedFirst(a[0], a[1..] + b);
      assert [a[0]] + a[1..] == a;
      Associates([a[0]], a[1..], b);
      Associates(Escape(a[0]), Escaped(a[1..]), Escaped(b));
    }
  }

  lemma EscapedOneMore(d: seq<byte>, i: nat)
    requires i < |d|
    ensures Escaped(d[..i + 1]) == Escaped(d[..i]) + Escape(d[i])
    ensures |Escaped(d[..i + 1])| <= |Escaped(d)|
  {
    assert d[..i + 1] == d[..i] + [d[i]];
    EscapedSplits(d[..i], [d[i]]);
    assert Escaped([d[i]]) == Escape(d[i]) + Escaped([d[i]][1..]);
    EscapedSplits(d[..i + 1], d[i + 1..]);
    assert d[..i + 1] + d[i + 1..] == d;
  }
}
