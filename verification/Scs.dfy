/** The byte-stuffed host frames of the SCS emulation (ext/ardop1/SCSHostInterface.c). */
module Scs {
  import opened Arrays
  import opened Crc
  import opened Options

  const MARK: Octet := 170
  const STUFF_SIZE := 500
  const GOOD_CRC: bv16 := 0xF0B8

  // ---------- stuffing ----------

  function Stuffed(m: seq<Octet>): (s: seq<Octet>)
    ensures |m| <= |s| <= 2 * |m|
  {
    if m == [] then [] else StuffedByte(m[0]) + Stuffed(m[1..])
  }

  function StuffedByte(c: Octet): (s: seq<Octet>)
    ensures 1 <= |s| <= 2
  {
    if c == MARK then [MARK, 0] else [c]
  }

  /** None for a mark followed by anything but 0. A mark at the very end is kept. */
  function Unstuffed(s: seq<Octet>): Option<seq<Octet>>
  {
    if s == [] then Some([])
    else if s[0] != MARK then Prepend(s[0], Unstuffed(s[1..]))
    else if |s| == 1 then Some([MARK])
    else if s[1] != 0 then None
    else Prepend(MARK, Unstuffed(s[2..]))
  }

  function Prepend(c: Octet, r: Option<seq<Octet>>): Option<seq<Octet>>
  {
    match r case None => None case Some(m) => Some([c] + m)
  }

  /** Every start of a stuffed message unstuffs to a start of the message; it is never an error.
      The whole message comes back whole. */
  lemma {:induction false} PrefixUnstuffs(m: seq<Octet>, k: nat)
    requires k <= |Stuffed(m)|
    ensures Unstuffed(Stuffed(m)[..k]).Some? && Unstuffed(Stuffed(m)[..k]).value <= m
    ensures k == |Stuffed(m)| ==> Unstuffed(Stuffed(m)[..k]) == Some(m)
  {
    hide Stuffed, Unstuffed, StuffedByte;
    UnstuffStarts();
    if k == 0 {
      assert Stuffed(m)[..0] == [];
      return;
    }
    NothingStuffed();
    StuffedFirst(m[0], m[1..]);
    var one, rest := StuffedByte(m[0]), Stuffed(m[1..]);
    var p := Stuffed(m)[..k];
    assert m == [m[0]] + m[1..];
    if k < |one| {
      MarkIsTwoBytes(m[0]);
      assert p == [MARK];
    } else {
      PrefixUnstuffs(m[1..], k - |one|);
      assert p == one + rest[..k - |one|];
      UnstuffFirst(m[0], rest[..k - |one|]);
    }
  }

  lemma UnstuffStarts()
    ensures Unstuffed([]) == Some([]) && Unstuffed([MARK]) == Some([MARK])
  {
  }

  lemma MarkIsTwoBytes(c: Octet)
    ensures StuffedByte(c) == if |StuffedByte(c)| == 1 then [c] else [MARK, 0]
    ensures |StuffedByte(c)| == 2 <==> c == MARK
  {
  }

  lemma UnstuffFirst(c: Octet, s: seq<Octet>)
    ensures Unstuffed(StuffedByte(c) + s) == Prepend(c, Unstuffed(s))
  {
    var t := StuffedByte(c) + s;
    assert t[|StuffedByte(c)|..] == s;
  }

  /** Which sequences unstuff without an error: those where every mark that is read as one is
      followed by 0 or by the end. */
  predicate MarksOk(s: seq<Octet>)
  {
    s == [] || (if s[0] != MARK then MarksOk(s[1..]) else |s| == 1 || (s[1] == 0 && MarksOk(s[2..])))
  }

  lemma {:induction false} ErrorsAreBadMarks(s: seq<Octet>)
    ensures Unstuffed(s).Some? <==> MarksOk(s)
  {
    if s == [] {
    } else {
      if s[0] != MARK {
        ErrorsAreBadMarks(s[1..]);
      } else if |s| > 1 {
        ErrorsAreBadMarks(s[2..]);
      }
    }
  }

  lemma UnstuffAhead(s: seq<Octet>, i: nat, done: seq<Octet>)
    requires i < |s|
    ensures s[i] != MARK ==> Append(done, Unstuffed(s[i..])) == Append(done + [s[i]], Unstuffed(s[i + 1..]))
    ensures s[i] == MARK && i + 1 < |s| && s[i + 1] == 0 ==>
              Append(done, Unstuffed(s[i..])) == Append(done + [MARK], Unstuffed(s[i + 2..]))
    ensures s[i] == MARK && i + 1 < |s| && s[i + 1] != 0 ==> Append(done, Unstuffed(s[i..])) == None
    ensures s[i] == MARK && i + 1 == |s| ==> Append(done, Unstuffed(s[i..])) == Some(done + [MARK])
  {
    assert s[i..][1..] == s[i + 1..];
    if i + 1 < |s| {
      assert s[i..][2..] == s[i + 2..];
    }
    PrependAppends(done, s[i], Unstuffed(s[i + 1..]));
    if i + 1 < |s| {
      PrependAppends(done, s[i], Unstuffed(s[i + 2..]));
    }
  }

  lemma NothingAhead(s: seq<Octet>, done: seq<Octet>)
    ensures Append(done, Unstuffed(s[|s|..])) == Some(done)
  {
    assert s[|s|..] == [] && done + [] == done;
  }

  function Append(done: seq<Octet>, r: Option<seq<Octet>>): Option<seq<Octet>>
  {
    match r case None => None case Some(m) => Some(done + m)
  }

  lemma PrependAppends(done: seq<Octet>, c: Octet, r: Option<seq<Octet>>)
    ensures Append(done, Prepend(c, r)) == Append(done + [c], r)
  {
    match r
    case None =>
    case Some(m) => assert done + ([c] + m) == (done + [c]) + m;
  }

  lemma AppendToNothing(r: Option<seq<Octet>>)
    ensures Append([], r) == r
  {
    match r
    case None =>
    case Some(m) => assert [] + m == m;
  }

  /** Unstuffs into another buffer. The byte after a mark is read even behind the last one. */
  method EmUnstuff(msgIn: array<Octet>, msgOut: array<Octet>, from: nat, len: nat) returns (n: int)
    requires msgIn != msgOut && from + len < msgIn.Length && from + len <= msgOut.Length
    modifies msgOut
    ensures n == -1 <==> Unstuffed(msgIn[from..from + len]) == None
    ensures n != -1 ==> 0 <= n <= len && Unstuffed(msgIn[from..from + len]) == Some(msgOut[from..from + n])
  {
    hide Unstuffed, Append;
    ghost var s := msgIn[from..from + len];
    var i, j := 0, 0;
    assert s[0..] == s && msgOut[from..from] == [];
    AppendToNothing(Unstuffed(s));
    while i < len
      invariant 0 <= j <= i && j <= len
      invariant i <= len || (i == len + 1 && Unstuffed(s) == Some(msgOut[from..from + j]))
      invariant i <= len ==> Append(msgOut[from..from + j], Unstuffed(s[i..])) == Unstuffed(s)
      invariant msgIn[from..from + len] == s
    {
      ghost var done := msgOut[from..from + j];
      UnstuffAhead(s, i, done);
      assert s[i] == msgIn[from + i] && (i + 1 < len ==> s[i + 1] == msgIn[from + i + 1]);
      msgOut[from + j] := msgIn[from + i];
      assert msgOut[from..from + j + 1] == done + [s[i]];
      if msgIn[from + i] == MARK {
        i := i + 1;
        if msgIn[from + i] != 0 {
          if i != len {
            return -1;
          }
        }
      }
      i := i + 1;
      j := j + 1;
    }
    NothingAhead(s, msgOut[from..from + j]);
    n := j;
  }

  // ---------- sending ----------

  /** The bytes of a frame behind its two leading marks. */
  function Framed(body: seq<Octet>): seq<Octet>
  {
    Stuffed(body + Check(body))
  }

  lemma Associates(a: seq<Octet>, b: seq<Octet>, c: seq<Octet>)
    ensures a + (b + c) == (a + b) + c
  {
  }

  lemma StuffedFirst(c: Octet, m: seq<Octet>)
    ensures Stuffed([c] + m) == StuffedByte(c) + Stuffed(m)
  {
    assert ([c] + m)[1..] == m;
  }

  lemma {:induction false} StuffedSplits(a: seq<Octet>, b: seq<Octet>)
    ensures Stuffed(a + b) == Stuffed(a) + Stuffed(b)
  {
    hide StuffedByte, Stuffed;
    if a == [] {
      assert a + b == b;
      NothingStuffed();
    } else {
      StuffedSplits(a[1..], b);
      StuffedFirst(a[0], a[1..]);
      StuffedFirst(a[0], a[1..] + b);
      assert [a[0]] + a[1..] == a;
      Associates([a[0]], a[1..], b);
      Associates(StuffedByte(a[0]), Stuffed(a[1..]), Stuffed(b));
    }
  }

  lemma StuffedOneMore(m: seq<Octet>, i: nat)
    requires i < |m|
    ensures Stuffed(m[..i + 1]) == Stuffed(m[..i]) + StuffedByte(m[i])
    ensures |Stuffed(m[..i + 1])| <= |Stuffed(m)|
  {
    assert m[..i + 1] == m[..i] + [m[i]];
    StuffedSplits(m[..i], [m[i]]);
    assert [m[i]][1..] == [];
    assert Stuffed([m[i]]) == StuffedByte(m[i]) + Stuffed([m[i]][1..]);
    StuffedSplits(m[..i + 1], m[i + 1..]);
    assert m[..i + 1] + m[i + 1..] == m;
  }

  function Marks(m: seq<Octet>): (n: nat)
    ensures n <= |m|
  {
    if m == [] then 0 else (if m[0] == MARK then 1 else 0) + Marks(m[1..])
  }

  lemma {:induction false} StuffedLength(m: seq<Octet>)
    ensures |Stuffed(m)| == |m| + Marks(m)
  {
    if m == [] {
    } else {
      StuffedLength(m[1..]);
    }
  }

  /** Stuffs the bytes from index 2 into a buffer of its own, as far as that has room. */
  method Stuff(msg: array<Octet>, len: nat, stuffed: array<Octet>) returns (j: nat, fits: bool)
    requires msg != stuffed && 2 <= len <= msg.Length && 2 <= stuffed.Length
    modifies stuffed
    ensures fits <==> 2 + |Stuffed(msg[2..len])| <= stuffed.Length
    ensures fits ==> 2 <= j <= stuffed.Length && stuffed[2..j] == Stuffed(msg[2..len])
  {
    hide Stuffed;
    ghost var m := msg[2..len];
    j := 2;
    NothingStuffed();
    for i := 2 to len
      invariant 2 <= j <= stuffed.Length && stuffed[2..j] == Stuffed(m[..i - 2]) && msg[2..len] == m
    {
      StuffedOneMore(m, i - 2);
      assert m[i - 2] == msg[i];
      if stuffed.Length - j < (if msg[i] == MARK then 2 else 1) {
        return j, false;
      }
      j := StuffByte(msg[i], stuffed, j);
    }
    assert m[..len - 2] == m;
    fits := true;
  }

  method StuffByte(c: Octet, stuffed: array<Octet>, at: nat) returns (j: nat)
    requires 2 <= at && at + |StuffedByte(c)| <= stuffed.Length
    modifies stuffed
    ensures j == at + |StuffedByte(c)| && stuffed[2..j] == old(stuffed[2..at]) + StuffedByte(c)
  {
    stuffed[at] := c;
    j := at + 1;
    if c == MARK {
      stuffed[j] := 0;
      j := j + 1;
    }
  }

  lemma NothingStuffed()
    ensures Stuffed([]) == []
  {
  }

  /** Outside native mode bit 7 of the second byte carries the toggle. */
  function SetToggle(body: seq<Octet>, ptcMode: bool, toggle: Octet): (r: seq<Octet>)
    requires |body| >= 2
    ensures |r| == |body| && r[0] == body[0]
  {
    if ptcMode then body else body[1 := Toggled(body[1], toggle)]
  }

  function Toggled(b: Octet, toggle: Octet): Octet { (b & 0x7F) | toggle }

  /** Outside native mode the reply carries the toggle of the request in bit 7 of its second byte, and is otherwise the
      reply; in native mode it is the reply. */
  lemma ToggleIsCarried(body: seq<Octet>, ptcMode: bool, toggle: Octet)
    requires |body| >= 2 && (toggle == 0 || toggle == 0x80)
    ensures var r := SetToggle(body, ptcMode, toggle);
            && r[0] == body[0] && r[2..] == body[2..] && r[1] & 0x7F == body[1] & 0x7F
            && r[1] & 0x80 == if ptcMode then body[1] & 0x80 else toggle
  {
    hide Toggled;
    ToggledBits(body[1], toggle);
    var r := SetToggle(body, ptcMode, toggle);
    assert r[2..] == body[2..];
  }

  lemma ToggledBits(b: Octet, toggle: Octet)
    requires toggle == 0 || toggle == 0x80
    ensures Toggled(b, toggle) & 0x7F == b & 0x7F && Toggled(b, toggle) & 0x80 == toggle
  {
  }

  /** Appends the complemented check sequence of the bytes from index 2. */
  method AppendCheck(msg: array<Octet>, length: nat)
    requires 2 <= length && length + 2 <= msg.Length
    modifies msg
    ensures msg[2..length + 2] == old(msg[2..length]) + Check(old(msg[2..length]))
  {
    hide Fcs, LowOf, HighOf, Xor;
    ghost var body := msg[2..length];
    var crc := ComputeCrc(msg, 2, length - 2);
    crc := Xor(crc, 0xFFFF);
    CheckOf(body);
    msg[length] := LowOf(crc);
    msg[length + 1] := HighOf(crc);
    assert msg[2..length] == body;
  }

  /** Whether a reply stays inside the stuffing buffer and the buffer of the given size it is in. */
  predicate FitsBuffers(body: seq<Octet>, capacity: nat)
  {
    2 + |Framed(body)| <= STUFF_SIZE && 2 + |Framed(body)| <= capacity
  }

  /** Appends the check sequence, stuffs the message and puts the two marks in front, in place.
      None stands for a write behind one of the buffers, after which nothing is defined. */
  method CrcStuffAndSend(msg: array<Octet>, length: nat, ptcMode: bool, toggle: Octet)
    returns (sent: Option<seq<Octet>>)
    requires 4 <= length && length + 2 <= msg.Length
    modifies msg
    ensures var body := SetToggle(old(msg[2..length]), ptcMode, toggle);
            sent == if FitsBuffers(body, msg.Length) then Some([MARK, MARK] + Framed(body)) else None
    ensures sent.Some? ==> |sent.value| <= msg.Length && msg[..|sent.value|] == sent.value
  {
    hide Framed, Check, Fcs, Stuffed, Toggled;
    ghost var body := SetToggle(msg[2..length], ptcMode, toggle);
    if !ptcMode {
      msg[3] := Toggled(msg[3], toggle);
    }
    assert msg[2..length] == body;
    AppendCheck(msg, length);
    FramedIs(body);
    var len, fits := StuffInPlace(msg, length + 2, body + Check(body));
    if !fits {
      return None;
    }
    msg[0] := MARK;
    msg[1] := MARK;
    assert msg[2..len] == Framed(body);
    sent := Some(msg[..len]);
    assert sent.value == [msg[0], msg[1]] + msg[2..len];
  }

  /** Stuffs through a buffer, and copies back only when that changed the length. */
  method StuffInPlace(msg: array<Octet>, length: nat, ghost m: seq<Octet>) returns (len: nat, fits: bool)
    requires 2 <= length <= msg.Length && msg[2..length] == m
    modifies msg
    ensures fits <==> 2 + |Stuffed(m)| <= STUFF_SIZE && 2 + |Stuffed(m)| <= msg.Length
    ensures fits ==> 2 <= len <= msg.Length && msg[2..len] == Stuffed(m)
  {
    hide Stuffed;
    var stuffedMsg := new Octet[STUFF_SIZE](_ => 0);
    len, fits := Stuff(msg, length, stuffedMsg);
    if !fits {
      return;
    }
    if len != length {
      if len > msg.Length {
        return len, false;
      }
      Copy(stuffedMsg, 0, len, msg, 0);
      assert msg[0..len][2..] == msg[2..len] && stuffedMsg[0..len][2..] == stuffedMsg[2..len];
    } else {
      SameLength(m);
    }
  }

  /** A reply fits exactly when its bytes, two for each 170, leave room for the two leading marks. */
  lemma ReplyFits(body: seq<Octet>, capacity: nat)
    ensures FitsBuffers(body, capacity) <==>
            var n := |body| + 4 + Marks(body + Check(body)); n <= STUFF_SIZE && n <= capacity
  {
    hide Check;
    FramedIs(body);
    StuffedLength(body + Check(body));
    CheckOf(body);
  }

  /** Size of the buffer that host mode replies are built in, and of a reply with 256 data bytes
      behind channel, type and count. */
  const REPLY_SIZE := 266
  const FULL_REPLY := 259

  /** A full reply fits exactly when at most three of its bytes and its check are 170. */
  lemma FullReplyFits(body: seq<Octet>)
    requires |body| == FULL_REPLY
    ensures FitsBuffers(body, REPLY_SIZE) <==> Marks(body + Check(body)) <= 3
  {
    hide Check, Marks, FitsBuffers;
    ReplyFits(body, REPLY_SIZE);
  }

  lemma {:induction false} MarksAdd(a: seq<Octet>, b: seq<Octet>)
    ensures Marks(a + b) == Marks(a) + Marks(b)
  {
    if a == [] {
      assert a + b == b;
    } else {
      MarksAdd(a[1..], b);
      assert (a + b)[1..] == a[1..] + b;
    }
  }

  lemma {:induction false} AllMarks(m: seq<Octet>)
    requires forall i :: 0 <= i < |m| ==> m[i] == MARK
    ensures Marks(m) == |m|
  {
    if m == [] {
    } else {
      AllMarks(m[1..]);
    }
  }

  /** 256 data bytes 170 are more than either side can hold. */
  lemma MarksDoNotFit(header: seq<Octet>, data: seq<Octet>)
    requires |header| == 3 && |data| == 256 && forall i :: 0 <= i < |data| ==> data[i] == MARK
    ensures |Framed(header + data)| >= 517 && !FitsBuffers(header + data, STUFF_SIZE)
  {
    hide Check, Fcs;
    var body := header + data;
    MarksAdd(header, data);
    AllMarks(data);
    MarksAdd(body, Check(body));
    ReplyFits(body, STUFF_SIZE);
    StuffedLength(body + Check(body));
    FramedIs(body);
    CheckOf(body);
  }

  lemma CheckOf(body: seq<Octet>)
    ensures Check(body) == [LowOf(Xor(Fcs(body), 0xFFFF)), HighOf(Xor(Fcs(body), 0xFFFF))]
  {
  }

  lemma FramedIs(body: seq<Octet>)
    ensures Framed(body) == Stuffed(body + Check(body))
  {
  }

  /** Stuffing that does not lengthen a message leaves it as it is. */
  lemma {:induction false} SameLength(m: seq<Octet>)
    requires |Stuffed(m)| == |m|
    ensures Stuffed(m) == m
  {
    if m == [] {
    } else {
      SameLength(m[1..]);
      assert m == [m[0]] + m[1..];
    }
  }

  // ---------- receiving ----------

  /** A frame is dropped, kept until more of it has come, or handed on with its check sequence. */
  datatype Verdict = Dropped | Waiting | Accepted(message: seq<Octet>)

  function Judge(buf: seq<Octet>): Verdict
    requires buf != []
  {
    if buf[0] != MARK then Dropped
    else if |buf| < 6 then Waiting
    else if buf[2] == MARK then Dropped
    else
      match Unstuffed(buf[2..])
      case None => Dropped
      case Some(m) => if Fcs(m) == GOOD_CRC then Accepted(m) else Waiting
  }

  /** What is made of the bytes read so far in host mode. */
  method ReceiveFrame(rxBuffer: array<Octet>, length: nat) returns (v: Verdict)
    requires 0 < length < rxBuffer.Length && length <= STUFF_SIZE
    ensures v == Judge(rxBuffer[..length])
  {
    hide Fcs, Unstuffed;
    if rxBuffer[0] != MARK {
      return Dropped;
    }
    if length < 6 {
      return Waiting;
    }
    if rxBuffer[2] == MARK {
      return Dropped;
    }
    var unstuffBuffer := new Octet[STUFF_SIZE](_ => 0);
    var n := EmUnstuff(rxBuffer, unstuffBuffer, 2, length - 2);
    assert rxBuffer[..length][2..] == rxBuffer[2..length];
    if n == -1 {
      return Dropped;
    }
    var crc := ComputeCrc(unstuffBuffer, 2, n);
    if crc == GOOD_CRC {
      v := Accepted(unstuffBuffer[2..2 + n]);
    } else {
      v := Waiting;
    }
  }

  /** The serial port is read into the buffer up to this many bytes. */
  const RX_LIMIT := 499

  /** What of a frame the buffer can hold. */
  function Held(frame: seq<Octet>): seq<Octet>
  {
    if |frame| <= RX_LIMIT then frame else frame[..RX_LIMIT]
  }

  /** Less than the whole of a stuffed message unstuffs to all of it only when just the 0 behind a
      final mark is missing. */
  lemma {:induction false} OnlyLastZeroCanMiss(m: seq<Octet>, k: nat)
    requires k < |Stuffed(m)|
    ensures Unstuffed(Stuffed(m)[..k]) == Some(m) <==> k + 1 == |Stuffed(m)| && m[|m| - 1] == MARK
  {
    var s := Stuffed(m);
    var p := s[..k];
    var rest := Stuffed(m[1..]);
    var step := |StuffedByte(m[0])|;
    assert m == [m[0]] + m[1..] && s == StuffedByte(m[0]) + rest;
    assert |m| == 1 <==> rest == [];
    if k == 0 {
      assert p == [] && Unstuffed(p) == Some([]);
    } else if k < step {
      assert m[0] == MARK && p == [MARK] && Unstuffed(p) == Some([MARK]);
      if |m| == 1 { assert m == [MARK]; }
    } else {
      assert p == StuffedByte(m[0]) + rest[..k - step] && p[step..] == rest[..k - step];
      OnlyLastZeroCanMiss(m[1..], k - step);
      PrefixUnstuffs(m[1..], k - step);
    }
  }

  /** A frame is accepted as it was sent exactly when it does not begin with a mark, which is taken
      for a request to repeat, and the buffer can hold it, or all of it but the 0 behind a final mark. */
  lemma WholeFrameIsAccepted(body: seq<Octet>)
    requires |body| >= 2
    ensures var n := 2 + |Framed(body)|;
            Judge(Held([MARK, MARK] + Framed(body))) == Accepted(body + Check(body)) <==>
            body[0] != MARK && (n <= RX_LIMIT || (n == RX_LIMIT + 1 && Check(body)[1] == MARK))
  {
    hide Fcs, Check, Unstuffed, Stuffed;
    var m := body + Check(body);
    var buf := [MARK, MARK] + Framed(body);
    CheckOf(body);
    FramedIs(body);
    CheckedLeavesResidue(body);
    StuffedStarts(m);
    assert buf[2..] == Stuffed(m);
    if |buf| <= RX_LIMIT {
      PrefixUnstuffs(m, |Stuffed(m)|);
      assert Stuffed(m)[..|Stuffed(m)|] == Stuffed(m);
    } else {
      assert Held(buf)[2..] == Stuffed(m)[..RX_LIMIT - 2];
      OnlyLastZeroCanMiss(m, RX_LIMIT - 2);
    }
  }

  lemma StuffedStarts(m: seq<Octet>)
    requires m != []
    ensures Stuffed(m) != [] && Stuffed(m)[0] == m[0]
  {
  }

  /** A frame of 256 data bytes 170 is never accepted: the buffer is full before it is complete. */
  lemma OverlongFrameIsNotAccepted(header: seq<Octet>, data: seq<Octet>)
    requires |header| == 3 && |data| == 256 && forall i :: 0 <= i < |data| ==> data[i] == MARK
    ensures var body := header + data;
            Judge(Held([MARK, MARK] + Framed(body))) != Accepted(body + Check(body))
  {
    hide Judge, Check, Framed;
    MarksDoNotFit(header, data);
    WholeFrameIsAccepted(header + data);
  }

  /** A frame of which only a part has come is never dropped for its stuffing. */
  lemma PartOfFrameIsKept(body: seq<Octet>, k: nat)
    requires |body| >= 2 && body[0] != MARK && k <= |Framed(body)|
    ensures Judge([MARK, MARK] + Framed(body)[..k]) != Dropped
  {
    hide Fcs, Check, Unstuffed;
    var m := body + Check(body);
    var buf := [MARK, MARK] + Framed(body)[..k];
    PrefixUnstuffs(m, k);
    assert buf[2..] == Stuffed(m)[..k];
  }

  lemma UnstuffedStep(s: seq<Octet>, m: seq<Octet>) returns (k: nat)
    requires Unstuffed(s) == Some(m) && s != [] && s != [MARK]
    ensures m != [] && 1 <= k <= |s| && s == StuffedByte(m[0]) + s[k..] && Unstuffed(s[k..]) == Some(m[1..])
  {
    k := if s[0] == MARK then 2 else 1;
    var rest := Unstuffed(s[k..]);
    assert rest.Some? && m == [s[0]] + rest.value;
    assert m[1..] == rest.value;
    assert s[..k] == StuffedByte(m[0]);
  }

  /** What unstuffs to m is m stuffed, or that without the 0 behind a final mark. */
  lemma {:induction false} StuffsBack(s: seq<Octet>, m: seq<Octet>)
    requires Unstuffed(s) == Some(m)
    ensures s == Stuffed(m) || (s + [0] == Stuffed(m) && m != [] && m[|m| - 1] == MARK)
  {
    if s == [] {
      assert m == [];
    } else if s == [MARK] {
      assert m == [MARK] && m[1..] == [];
      assert s + [0] == [MARK, 0];
    } else {
      hide Unstuffed, StuffedByte;
      var k := UnstuffedStep(s, m);
      StuffsBack(s[k..], m[1..]);
      assert s + [0] == StuffedByte(m[0]) + (s[k..] + [0]);
    }
  }

  /** Nothing is accepted that does not carry its own check, and everything that does is: what has been read is two bytes, the
      first a mark, and a stuffed message of which at most the 0 behind a final mark is missing. */
  lemma AcceptedExactly(buf: seq<Octet>, m: seq<Octet>)
    requires buf != []
    ensures Judge(buf) == Accepted(m) <==>
            && buf[0] == MARK && |buf| >= 6 && |m| >= 2 && m[0] != MARK && m[|m| - 2..] == Check(m[..|m| - 2])
            && (buf[2..] == Stuffed(m) || (buf[2..] + [0] == Stuffed(m) && m[|m| - 1] == MARK))
  {
    hide Fcs, Check, Unstuffed, Stuffed;
    if |buf| < 6 {
      return;
    }
    if |m| >= 2 {
      StuffedStarts(m);
      CheckTells(m);
      UnstuffsBack(buf[2..], m);
    }
    if Unstuffed(buf[2..]) == Some(m) {
      StuffsBack(buf[2..], m);
    }
  }

  lemma CheckTells(m: seq<Octet>)
    requires |m| >= 2
    ensures Fcs(m) == GOOD_CRC <==> m[|m| - 2..] == Check(m[..|m| - 2])
  {
    hide Fcs, Check;
    var body, a, b := m[..|m| - 2], m[|m| - 2], m[|m| - 1];
    assert m == body + [a, b] && m[|m| - 2..] == [a, b];
    OnlyCheckLeavesResidue(body, a, b);
  }

  lemma UnstuffsBack(s: seq<Octet>, m: seq<Octet>)
    requires m != []
    ensures s == Stuffed(m) || (s + [0] == Stuffed(m) && m[|m| - 1] == MARK) ==> Unstuffed(s) == Some(m)
  {
    hide Unstuffed, Stuffed;
    if s == Stuffed(m) {
      PrefixUnstuffs(m, |s|);
      assert Stuffed(m)[..|s|] == s;
    } else if s + [0] == Stuffed(m) && m[|m| - 1] == MARK {
      OnlyLastZeroCanMiss(m, |s|);
      assert Stuffed(m)[..|s|] == s;
    }
  }

  /** What is dropped: noise, a request to repeat, and what no stuffing yields. */
  lemma DroppedExactly(buf: seq<Octet>)
    requires buf != []
    ensures Judge(buf) == Dropped <==>
            buf[0] != MARK || (|buf| >= 6 && (buf[2] == MARK || forall m: seq<Octet>, k :: 0 <= k <= |Stuffed(m)| ==> buf[2..] != Stuffed(m)[..k]))
  {
    hide Fcs, Unstuffed, Stuffed;
    if |buf| >= 6 {
      if m :| Unstuffed(buf[2..]) == Some(m) {
        StuffsBack(buf[2..], m);
        assert buf[2..] == Stuffed(m)[..|buf[2..]|];
      }
      forall m: seq<Octet>, k | 0 <= k <= |Stuffed(m)| && buf[2..] == Stuffed(m)[..k] ensures Unstuffed(buf[2..]) != None {
        PrefixUnstuffs(m, k);
      }
    }
  }
}
