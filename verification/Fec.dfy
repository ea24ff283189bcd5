/** Broadcast without acknowledgement (ext/ardop1/FEC.c): every block is sent several times, and
    the receiver passes each on at most once, in order. */
module Fec {
  import opened Frames
  import opened Options

  type Crc = seq<byte> -> int

  // ---------- the sender ----------

  /** A transmission: frame type and data. */
  datatype Air = Air(ftype: byte, data: seq<byte>)

  /** `air` is the frame encoded last, which a repeat sends again; `blocks` is the history of
      what has been taken off the queue. */
  datatype Sender = Sender(queue: seq<byte>, mode: byte, repeats: int, sending: bool, abort: bool,
                           framesSent: int, repeatsSent: int, lastSent: byte,
                           air: Option<Air>, blocks: seq<seq<byte>>)

  /** Takes the next block off the queue; nothing waits for an acknowledgement. */
  function SendNew(s: Sender, t: byte): Sender
  {
    var len := Min(BlockCount(t) * BlockLen(t), |s.queue|);
    s.(lastSent := t, repeatsSent := 0, framesSent := s.framesSent + 1, queue := s.queue[len..],
       air := Some(Air(t, s.queue[..len])), blocks := s.blocks + [s.queue[..len]])
  }

  datatype Next = Next(s: Sender, more: bool)

  function GetNextFrame(s: Sender): Next
  {
    if s.abort then Next(s.(queue := [], sending := false, abort := false), false)
    else if s.framesSent == -1 then Next(Stopped(s), false)
    else if s.queue == [] && s.repeatsSent >= s.repeats && s.sending then Next(Stopped(s), false)
    else if !s.sending then Next(s, false)
    else if s.framesSent == 0 then Next(SendNew(s, s.mode), true)
    else if s.repeatsSent >= s.repeats then Next(SendNew(s, Toggle(s.lastSent)), true)
    else Next(s.(repeatsSent := s.repeatsSent + 1, framesSent := s.framesSent + 1), true)
  }

  function Stopped(s: Sender): Sender
  {
    if s.sending then s.(sending := false, queue := []) else s
  }

  // ---------- the receiver ----------

  /** `passed` and `errors` are what the host has been given under the FEC and the ERR tag. */
  datatype Receiver = Receiver(lastId: int, lastCrc: int, failed: seq<byte>, failedId: int,
                               passed: seq<seq<byte>>, errors: seq<seq<byte>>)

  function Flushed(r: Receiver): Receiver
  {
    r.(errors := r.errors + [r.failed], failed := [])
  }

  function Receive(r: Receiver, t: byte, data: seq<byte>, ok: bool, crc: Crc): Receiver
  {
    var stale := r.failed != [] && r.failedId != t;
    if ok then
      if t == r.lastId && crc(data) == r.lastCrc then r
      else
        var r1 := if stale then Flushed(r).(failedId := -1) else r;
        var r2 := r1.(passed := r1.passed + [data], lastCrc := crc(data), lastId := t);
        if r2.failedId == t then r2.(failed := [], failedId := -1) else r2
    else
      var r1 := if stale then Flushed(r).(lastId := r.failedId) else r;
      r1.(failed := data, failedId := t)
  }

  // ---------- both together ----------

  /** What becomes of one transmission on the way. */
  datatype Fate = Lost | Clear | Garbled(noise: seq<byte>)

  /** The host queues data, begins or stops sending, or sets the mode or the number of repeats; the
      sender is polled, or it plays the last frame again. */
  datatype Op =
    | Queue(data: seq<byte>) | Begin | Stop | SetMode(mode: byte) | SetRepeats(n: int)
    | Poll(fate: Fate) | Replay(fate: Fate)

  /** Beginning keeps the counters of the session before; setting the mode clears the count of frames. */
  function Host(s: Sender, op: Op): Sender
  {
    match op
    case Queue(data) => s.(queue := s.queue + data)
    case Begin => if s.sending || s.queue == [] then s else s.(abort := false, sending := true)
    case Stop => s.(abort := true)
    case SetMode(mode) => if IsMode(mode) then s.(mode := mode, framesSent := 0) else s
    case SetRepeats(n) => if 0 <= n <= 5 then s.(repeats := n) else s
    case Poll(_) => s
    case Replay(_) => s
  }

  datatype Link = Link(s: Sender, r: Receiver)

  function Hear(r: Receiver, air: Option<Air>, fate: Fate, crc: Crc): Receiver
  {
    if air.None? then r
    else
      match fate
      case Lost => r
      case Clear => Receive(r, air.value.ftype, air.value.data, true, crc)
      case Garbled(noise) => Receive(r, air.value.ftype, noise, false, crc)
  }

  function Step(l: Link, op: Op, crc: Crc): Link
  {
    match op
    case Poll(fate) =>
      var s := GetNextFrame(l.s).s;
      Link(s, if |s.blocks| > |l.s.blocks| then Hear(l.r, s.air, fate, crc) else l.r)
    case Replay(fate) => l.(r := Hear(l.r, l.s.air, fate, crc))
    case _ => l.(s := Host(l.s, op))
  }

  function Run(l: Link, ops: seq<Op>, crc: Crc): Link
  {
    if ops == [] then l else Step(Run(l, ops[..|ops| - 1], crc), ops[|ops| - 1], crc)
  }

  /** Nothing sent or received since the program started. Any number of sessions may follow. */
  predicate Fresh(l: Link)
  {
    && l.s.framesSent == 0 && l.s.blocks == [] && l.s.air == None && IsData(l.s.mode)
    && !IsDataId(l.r.lastId) && l.r.failed == [] && l.r.passed == []
  }

  predicate IsDataId(id: int) { 0 <= id < 256 && IsData(id) }

  // ---------- in order, at most once ----------

  predicate Increasing(idx: seq<nat>, bound: nat)
  {
    && (forall i :: 0 <= i < |idx| ==> idx[i] < bound)
    && forall i, j :: 0 <= i < j < |idx| ==> idx[i] < idx[j]
  }

  predicate Picks(passed: seq<seq<byte>>, blocks: seq<seq<byte>>, idx: seq<nat>)
  {
    |idx| == |passed| && Increasing(idx, |blocks|) && forall i :: 0 <= i < |idx| ==> passed[i] == blocks[idx[i]]
  }

  predicate SenderOk(s: Sender)
  {
    && (s.blocks == [] ==> s.air == None && s.framesSent == 0)
    && (s.blocks != [] ==> s.air == Some(Air(s.lastSent, s.blocks[|s.blocks| - 1])) && IsData(s.lastSent))
    && IsData(s.mode) && s.framesSent >= 0
  }

  /** Once the current block has been passed, a further copy is known for one. */
  predicate Recognises(l: Link, idx: seq<nat>, crc: Crc)
  {
    idx != [] && idx[|idx| - 1] + 1 == |l.s.blocks| ==>
      && l.r.lastId == l.s.lastSent && l.r.lastCrc == crc(l.s.blocks[|l.s.blocks| - 1])
      && (l.r.failed == [] || l.r.failedId == l.s.lastSent)
  }

  predicate InStep(l: Link, idx: seq<nat>, crc: Crc)
  {
    SenderOk(l.s) && Picks(l.r.passed, l.s.blocks, idx) && Recognises(l, idx, crc)
  }

  lemma SenderStays(s: Sender)
    requires SenderOk(s)
    ensures var s' := GetNextFrame(s).s;
            && SenderOk(s')
            && ((s'.blocks == s.blocks && s'.air == s.air && s'.lastSent == s.lastSent)
                || (|s'.blocks| == |s.blocks| + 1 && s'.blocks[..|s.blocks|] == s.blocks
                    && s'.lastSent == if s.framesSent == 0 then s.mode else Toggle(s.lastSent)))
  {
    hide BlockCount, BlockLen, IsData, Toggle;
    if s.blocks != [] { ToggleIsData(s.lastSent); }
  }

  lemma HostStays(s: Sender, op: Op)
    requires SenderOk(s)
    ensures var s' := Host(s, op);
            SenderOk(s') && s'.blocks == s.blocks && s'.air == s.air && s'.lastSent == s.lastSent
  {
    hide IsData, IsMode;
    if op.SetMode? && IsMode(op.mode) { ModesAreData(op.mode); }
  }

  lemma ModesAreData(m: byte)
    requires IsMode(m)
    ensures IsData(m)
  {
    assert Even(m) == m;
    ModeOfData(m);
  }

  lemma ToggleIsData(t: byte)
    requires IsData(t)
    ensures IsData(Toggle(t)) && Toggle(t) != t
  {
    ModeOfData(t);
  }

  lemma HearKeepsInStep(l: Link, fate: Fate, idx: seq<nat>, crc: Crc) returns (idx': seq<nat>)
    requires InStep(l, idx, crc)
    ensures InStep(l.(r := Hear(l.r, l.s.air, fate, crc)), idx', crc)
  {
    hide IsData;
    idx' := idx;
    if l.s.air.Some? && fate.Clear? {
      var n, t, data := |l.s.blocks|, l.s.lastSent, l.s.air.value.data;
      if !(t == l.r.lastId && crc(data) == l.r.lastCrc) {
        idx' := idx + [n - 1];
        assert data == l.s.blocks[n - 1];
      }
    }
  }

  /** A new block is not yet passed; whatever was passed before stays picked. */
  lemma NewBlockKeepsInStep(l: Link, s: Sender, idx: seq<nat>, crc: Crc)
    requires InStep(l, idx, crc) && SenderOk(s)
    requires |s.blocks| == |l.s.blocks| + 1 && s.blocks[..|l.s.blocks|] == l.s.blocks
    ensures InStep(Link(s, l.r), idx, crc)
  {
    hide IsData;
    forall i | 0 <= i < |idx| ensures l.r.passed[i] == s.blocks[idx[i]] {
      assert s.blocks[..|l.s.blocks|][idx[i]] == s.blocks[idx[i]];
    }
  }

  lemma StepKeepsInStep(l: Link, op: Op, idx: seq<nat>, crc: Crc) returns (idx': seq<nat>)
    requires InStep(l, idx, crc)
    ensures InStep(Step(l, op, crc), idx', crc)
  {
    hide Hear, GetNextFrame, IsData, Host;
    match op
    case Replay(fate) => idx' := HearKeepsInStep(l, fate, idx, crc);
    case Poll(fate) =>
      SenderStays(l.s);
      var s := GetNextFrame(l.s).s;
      if |s.blocks| > |l.s.blocks| {
        NewBlockKeepsInStep(l, s, idx, crc);
        idx' := HearKeepsInStep(Link(s, l.r), fate, idx, crc);
      } else {
        idx' := idx;
      }
    case _ =>
      HostStays(l.s, op);
      idx' := idx;
  }

  /** Whatever copies are lost or garbled, the payloads passed to the host are blocks the sender
      took off its queue, in their order, each at most once. */
  lemma {:induction false} PassedInOrder(l: Link, ops: seq<Op>, crc: Crc) returns (idx: seq<nat>)
    requires Fresh(l)
    ensures InStep(Run(l, ops, crc), idx, crc)
    ensures Picks(Run(l, ops, crc).r.passed, Run(l, ops, crc).s.blocks, idx)
  {
    if ops == [] {
      idx := [];
    } else {
      idx := PassedInOrder(l, ops[..|ops| - 1], crc);
      idx := StepKeepsInStep(Run(l, ops[..|ops| - 1], crc), ops[|ops| - 1], idx, crc);
    }
  }

  // ---------- what is reported as an error ----------

  /** A copy of a block as it is heard: whole, or garbled to some noise. */
  datatype Copy = Whole | Noise(data: seq<byte>)

  function HearCopies(r: Receiver, t: byte, data: seq<byte>, copies: seq<Copy>, crc: Crc): Receiver
  {
    if copies == [] then r
    else
      var before, last := HearCopies(r, t, data, copies[..|copies| - 1], crc), copies[|copies| - 1];
      if last.Whole? then Receive(before, t, data, true, crc) else Receive(before, t, last.data, false, crc)
  }

  /** The last noise since the first whole copy, or since the beginning when there is none. */
  function LeftOver(copies: seq<Copy>): seq<byte>
  {
    if copies == [] then []
    else
      var before, last := copies[..|copies| - 1], copies[|copies| - 1];
      if last.Noise? then last.data else if Whole in before then LeftOver(before) else []
  }

  /** What the copies of one block leave: it is passed on exactly if one was whole, once, and nothing is reported yet. Noise
      heard before the first whole copy is forgotten, noise heard after it is kept. */
  lemma {:induction false} CopiesOfBlock(r: Receiver, t: byte, data: seq<byte>, copies: seq<Copy>, crc: Crc)
    requires r.failed == [] && !(t == r.lastId && crc(data) == r.lastCrc)
    ensures var h := HearCopies(r, t, data, copies, crc);
            && h.passed == r.passed + (if Whole in copies then [data] else []) && h.errors == r.errors
            && h.failed == LeftOver(copies) && (h.failed != [] ==> h.failedId == t)
            && if Whole in copies then h.lastId == t && h.lastCrc == crc(data)
               else h.lastId == r.lastId && h.lastCrc == r.lastCrc
  {
    if copies == [] {
    } else {
      var before, last := copies[..|copies| - 1], copies[|copies| - 1];
      CopiesOfBlock(r, t, data, before, crc);
      WholeOneMore(copies);
    }
  }

  lemma WholeOneMore(copies: seq<Copy>)
    requires copies != []
    ensures Whole in copies <==> Whole in copies[..|copies| - 1] || copies[|copies| - 1] == Whole
  {
    assert copies == copies[..|copies| - 1] + [copies[|copies| - 1]];
  }

  /** The first frame of another type has the noise that is left reported as an error, once, and forgotten; unless it is
      taken for the block passed on last. */
  lemma TypeChangeReports(r: Receiver, t: byte, u: byte, data: seq<byte>, ok: bool, crc: Crc)
    requires r.failed != [] ==> r.failedId == t
    requires t != u && !(ok && u == r.lastId && crc(data) == r.lastCrc)
    ensures var h := Receive(r, u, data, ok, crc);
            && h.errors == r.errors + (if r.failed == [] then [] else [r.failed])
            && h.failed == (if ok then [] else data)
  {
  }

  // ---------- nothing missed ----------

  /** Every block has been passed, or every block but the current one, which will not be taken
      for a repeat of the last one passed. */
  predicate CaughtUp(l: Link, crc: Crc)
  {
    var n := |l.s.blocks|;
    if l.r.passed == l.s.blocks then
      if n == 0 then !IsDataId(l.r.lastId) && l.r.failed == []
      else && l.r.lastId == l.s.lastSent && l.r.lastCrc == crc(l.s.blocks[n - 1])
           && (l.r.failed == [] || l.r.failedId == l.s.lastSent)
    else
      && n > 0 && l.r.passed == l.s.blocks[..n - 1]
      && (l.r.lastId != l.s.lastSent || l.r.lastCrc != crc(l.s.blocks[n - 1]))
  }

  lemma HearCatchesUp(l: Link, fate: Fate, crc: Crc)
    requires SenderOk(l.s) && CaughtUp(l, crc)
    ensures CaughtUp(l.(r := Hear(l.r, l.s.air, fate, crc)), crc)
    ensures fate.Clear? && l.s.blocks != [] ==> Hear(l.r, l.s.air, fate, crc).passed == l.s.blocks
  {
    hide IsData;
    if l.s.blocks != [] {
      var n := |l.s.blocks|;
      assert l.s.blocks == l.s.blocks[..n - 1] + [l.s.blocks[n - 1]];
    }
  }

  /** The next block is taken only after the current one has been passed. When the mode has just been
      set, its even type is not the one sent last, or the check of the new block is another. */
  predicate Patient(l: Link, op: Op, crc: Crc)
  {
    var n, s := |l.s.blocks|, GetNextFrame(l.s).s;
    op.Poll? && |s.blocks| > n ==>
      && l.r.passed == l.s.blocks
      && (n > 0 && l.s.framesSent == 0 ==> l.s.mode != l.s.lastSent || crc(s.blocks[n]) != crc(s.blocks[n - 1]))
  }

  lemma NewBlockCatchesUp(l: Link, s: Sender, crc: Crc)
    requires SenderOk(l.s) && CaughtUp(l, crc) && l.r.passed == l.s.blocks && IsData(s.lastSent)
    requires |s.blocks| == |l.s.blocks| + 1 && s.blocks[..|l.s.blocks|] == l.s.blocks
    requires var n := |l.s.blocks|; n > 0 ==> s.lastSent != l.s.lastSent || crc(s.blocks[n]) != crc(s.blocks[n - 1])
    ensures CaughtUp(Link(s, l.r), crc)
  {
    var n := |l.s.blocks|;
    if n > 0 { assert s.blocks[..n][n - 1] == s.blocks[n - 1]; }
  }

  lemma StepCatchesUp(l: Link, op: Op, crc: Crc)
    requires SenderOk(l.s) && CaughtUp(l, crc) && Patient(l, op, crc)
    ensures SenderOk(Step(l, op, crc).s) && CaughtUp(Step(l, op, crc), crc)
  {
    hide Hear, GetNextFrame, IsData, CaughtUp, Host, Toggle;
    match op
    case Replay(fate) => HearCatchesUp(l, fate, crc);
    case Poll(fate) =>
      SenderStays(l.s);
      var s := GetNextFrame(l.s).s;
      if |s.blocks| > |l.s.blocks| {
        if l.s.blocks != [] { ToggleIsData(l.s.lastSent); }
        NewBlockCatchesUp(l, s, crc);
        HearCatchesUp(Link(s, l.r), fate, crc);
      } else {
        SameBlocksCatchUp(l, s, crc);
      }
    case _ =>
      HostStays(l.s, op);
      SameBlocksCatchUp(l, Host(l.s, op), crc);
  }

  lemma SameBlocksCatchUp(l: Link, s: Sender, crc: Crc)
    requires CaughtUp(l, crc) && s.blocks == l.s.blocks && s.lastSent == l.s.lastSent
    ensures CaughtUp(Link(s, l.r), crc)
  {
  }

  predicate AllPatient(l: Link, ops: seq<Op>, crc: Crc)
  {
    ops == []
    || (AllPatient(l, ops[..|ops| - 1], crc) && Patient(Run(l, ops[..|ops| - 1], crc), ops[|ops| - 1], crc))
  }

  /** If every block gets through once before the next is taken, the host is given every block:
      alternating frame types keep equal blocks apart. */
  lemma {:induction false} NothingMissed(l: Link, ops: seq<Op>, crc: Crc)
    requires Fresh(l) && AllPatient(l, ops, crc)
    ensures SenderOk(Run(l, ops, crc).s) && CaughtUp(Run(l, ops, crc), crc)
    ensures var e := Run(l, ops, crc);
            e.r.passed == e.s.blocks || (e.s.blocks != [] && e.r.passed == e.s.blocks[..|e.s.blocks| - 1])
  {
    if ops == [] {
    } else {
      NothingMissed(l, ops[..|ops| - 1], crc);
      StepCatchesUp(Run(l, ops[..|ops| - 1], crc), ops[|ops| - 1], crc);
    }
  }

  function Alike(m: byte, x: byte): (ops: seq<Op>)
    ensures |ops| == 6
  {
    [Queue([x]), Begin, Poll(Clear), Queue([x]), SetMode(m), Poll(Clear)]
  }

  lemma RunOneMore(l: Link, ops: seq<Op>, k: nat, crc: Crc)
    requires k < |ops|
    ensures Run(l, ops[..k + 1], crc) == Step(Run(l, ops[..k], crc), ops[k], crc)
  {
    assert ops[..k + 1][..k] == ops[..k];
  }

  lemma OneByteFits(m: byte, x: byte)
    requires IsMode(m)
    ensures BlockCount(m) * BlockLen(m) >= 1 && Min(BlockCount(m) * BlockLen(m), |[x]|) == 1
  {
    assert Even(m) == m;
    CapacitiesAgree(m);
  }

  lemma FirstOfAlike(l: Link, m: byte, x: byte, crc: Crc)
    requires IsMode(m) && l == Link(Sender([], m, 0, false, false, 0, 0, m, None, []), Receiver(-1, 0, [], -1, [], []))
    ensures Run(l, Alike(m, x)[..3], crc) ==
            Link(Sender([], m, 0, true, false, 1, 0, m, Some(Air(m, [x])), [[x]]), Receiver(m, crc([x]), [], -1, [[x]], []))
  {
    hide Run, BlockCount, BlockLen, IsMode;
    RunNothing(l, Alike(m, x), crc);
    RunOneMore(l, Alike(m, x), 0, crc);
    RunOneMore(l, Alike(m, x), 1, crc);
    RunOneMore(l, Alike(m, x), 2, crc);
    OneByteFits(m, x);
    assert [] + [x] == [x] && [x][..1] == [x] && [x][1..] == [];
  }

  lemma RunNothing(l: Link, ops: seq<Op>, crc: Crc)
    ensures Run(l, ops[..0], crc) == l
  {
  }

  /** Setting the mode again between two equal blocks loses the second, though both come through. */
  lemma EqualBlockCanBeLost(m: byte, x: byte, crc: Crc)
    requires IsMode(m)
    ensures var s := Sender([], m, 0, false, false, 0, 0, m, None, []);
            var e := Run(Link(s, Receiver(-1, 0, [], -1, [], [])), Alike(m, x), crc);
            e.s.blocks == [[x], [x]] && e.r.passed == [[x]]
  {
    hide Run, BlockCount, BlockLen, IsMode;
    var l := Link(Sender([], m, 0, false, false, 0, 0, m, None, []), Receiver(-1, 0, [], -1, [], []));
    FirstOfAlike(l, m, x, crc);
    RunOneMore(l, Alike(m, x), 3, crc);
    RunOneMore(l, Alike(m, x), 4, crc);
    RunOneMore(l, Alike(m, x), 5, crc);
    OneByteFits(m, x);
    assert [] + [x] == [x] && [x][..1] == [x] && [[x]] + [[x]] == [[x], [x]];
    assert Alike(m, x)[..6] == Alike(m, x);
  }

  /** The first poll of a session plays the last block of the session before exactly when there was
      one, the mode has not been set since, and more repeats are wanted than were sent of it. */
  lemma FirstPollRepeats(s: Sender)
    requires SenderOk(s) && s.blocks != [] && !s.sending && s.queue != []
    ensures var b := Host(s, Begin); var n := GetNextFrame(b);
            n.more && (n.s.blocks == s.blocks <==> s.framesSent > 0 && s.repeatsSent < s.repeats)
  {
    hide BlockCount, BlockLen, IsData, Toggle;
    var b := Host(s, Begin);
    assert b.sending && !b.abort && b.queue == s.queue && b.blocks == s.blocks;
    assert b.framesSent == s.framesSent && b.framesSent != -1;
    assert |SendNew(b, b.mode).blocks| == |SendNew(b, Toggle(b.lastSent)).blocks| == |s.blocks| + 1;
  }

  // ---------- how often a block is played ----------

  /** How many polls have asked for the newest block to be played again. */
  function RepeatsOf(l: Link, ops: seq<Op>, crc: Crc): nat
  {
    if ops == [] then 0
    else
      var before, op := ops[..|ops| - 1], ops[|ops| - 1];
      var s := Run(l, before, crc).s;
      var n := GetNextFrame(s);
      if !op.Poll? || !n.more then RepeatsOf(l, before, crc)
      else if n.s.blocks == s.blocks && n.s.air == s.air then RepeatsOf(l, before, crc) + 1
      else 0
  }

  /** The mode has been set since the newest block was taken. */
  function ModeSetSince(l: Link, ops: seq<Op>, crc: Crc): bool
  {
    if ops == [] then false
    else
      var before, op := ops[..|ops| - 1], ops[|ops| - 1];
      if op.SetMode? then IsMode(op.mode) || ModeSetSince(l, before, crc)
      else if op.Poll? && GetNextFrame(Run(l, before, crc).s).more then false
      else ModeSetSince(l, before, crc)
  }

  /** The counters of the sender say how often the newest block has been asked for again. */
  predicate Counted(s: Sender, repeats: nat, modeSet: bool)
  {
    s.blocks != [] ==> s.repeatsSent == repeats && (s.framesSent == 0 <==> modeSet)
  }

  lemma PollCounts(s: Sender, repeats: nat, modeSet: bool)
    requires SenderOk(s) && Counted(s, repeats, modeSet)
    ensures var n := GetNextFrame(s);
            var repeated := n.s.blocks == s.blocks && n.s.air == s.air;
            Counted(n.s, if !n.more then repeats else if repeated then repeats + 1 else 0, modeSet && !n.more)
  {
    hide BlockCount, BlockLen, IsData, Toggle;
    assert |SendNew(s, s.mode).blocks| == |SendNew(s, Toggle(s.lastSent)).blocks| == |s.blocks| + 1;
  }

  lemma {:induction false} RunCounts(l: Link, ops: seq<Op>, crc: Crc)
    requires Fresh(l)
    ensures SenderOk(Run(l, ops, crc).s)
    ensures Counted(Run(l, ops, crc).s, RepeatsOf(l, ops, crc), ModeSetSince(l, ops, crc))
  {
    hide IsData, GetNextFrame, Hear, IsMode;
    if ops == [] {
    } else {
      var before, op := ops[..|ops| - 1], ops[|ops| - 1];
      var s := Run(l, before, crc).s;
      RunCounts(l, before, crc);
      if op.Poll? {
        SenderStays(s);
        PollCounts(s, RepeatsOf(l, before, crc), ModeSetSince(l, before, crc));
      } else {
        HostStays(s, op);
      }
    }
  }

  /** In every run, over any number of sessions: a block is played again exactly while it has been asked for fewer times
      than the repeats that are set, unless the mode has been set anew; the next block is begun, and the session ends by
      itself, only after as many repeats as are set; and it ends by itself only with an empty queue. */
  lemma EveryBlockIsRepeated(l: Link, ops: seq<Op>, crc: Crc)
    requires Fresh(l)
    ensures var s, asked := Run(l, ops, crc).s, RepeatsOf(l, ops, crc);
            var n := GetNextFrame(s);
            s.blocks != [] && s.sending && !s.abort ==>
              && (!n.s.sending <==> asked >= s.repeats && s.queue == [])
              && (!ModeSetSince(l, ops, crc) ==>
                    && (n.more && n.s.blocks == s.blocks && n.s.air == s.air <==> asked < s.repeats)
                    && (n.more && n.s.blocks != s.blocks <==> asked >= s.repeats && s.queue != []))
  {
    hide Run, IsData, BlockCount, BlockLen, Toggle, IsMode;
    RunCounts(l, ops, crc);
    var s := Run(l, ops, crc).s;
    assert |SendNew(s, s.mode).blocks| == |SendNew(s, Toggle(s.lastSent)).blocks| == |s.blocks| + 1;
  }

  /** A block fills its frame, or takes all that is queued. */
  lemma BlocksAreFull(s: Sender)
    requires SenderOk(s) && |GetNextFrame(s).s.blocks| > |s.blocks|
    ensures var s' := GetNextFrame(s).s;
            var b := s'.blocks[|s.blocks|];
            |b| == FrameSize(Even(s'.lastSent)) || (|b| < FrameSize(Even(s'.lastSent)) && b == s.queue && s'.queue == [])
  {
    hide IsData;
    var t := GetNextFrame(s).s.lastSent;
    if s.blocks != [] { ToggleIsData(s.lastSent); }
    ModeOfData(t);
    CapacitiesAgree(Even(t));
    assert Even(Even(t)) == Even(t);
  }

  /** The polls and commands that stop a session and begin another. */
  function StopAndBegin(d: seq<byte>): (ops: seq<Op>)
    ensures |ops| == 6
  {
    [Stop, Poll(Lost), Queue(d), Poll(Lost), Begin, Poll(Lost)]
  }

  lemma {:induction false} RunAppends(l: Link, a: seq<Op>, b: seq<Op>, crc: Crc)
    ensures Run(l, a + b, crc) == Run(Run(l, a, crc), b, crc)
  {
    if b == [] {
      assert a + b == a;
    } else {
      var n := |b| - 1;
      assert (a + b)[..|a + b| - 1] == a + b[..n];
      RunAppends(l, a, b[..n], crc);
    }
  }

  lemma RunOne(l: Link, op: Op, crc: Crc)
    ensures Run(l, [op], crc) == Step(l, op, crc)
  {
    assert [op][..0] == [];
    assert Run(l, [op], crc) == Step(Run(l, [op][..0], crc), op, crc);
  }

  lemma RunOfTwo(l: Link, a: Op, b: Op, crc: Crc)
    ensures Run(l, [a, b], crc) == Step(Step(l, a, crc), b, crc)
  {
    hide Run, Step;
    assert [a, b] == [a] + [b];
    RunAppends(l, [a], [b], crc);
    RunOne(l, a, crc);
    RunOne(Step(l, a, crc), b, crc);
  }

  lemma RunOfSix(l: Link, ops: seq<Op>, crc: Crc)
    requires |ops| == 6
    ensures Run(l, ops, crc)
            == Step(Step(Step(Step(Step(Step(l, ops[0], crc), ops[1], crc), ops[2], crc), ops[3], crc), ops[4], crc), ops[5], crc)
  {
    hide Run, Step;
    var a, b, c := [ops[0], ops[1]], [ops[2], ops[3]], [ops[4], ops[5]];
    assert ops == a + (b + c);
    RunAppends(l, a, b + c, crc);
    RunAppends(Run(l, a, crc), b, c, crc);
    RunOfTwo(l, ops[0], ops[1], crc);
    RunOfTwo(Run(l, a, crc), ops[2], ops[3], crc);
    RunOfTwo(Run(Run(l, a, crc), b, crc), ops[4], ops[5], crc);
  }

  lemma StepOfSender(l: Link, op: Op, crc: Crc)
    ensures Step(l, op, crc).s == if op.Poll? then GetNextFrame(l.s).s else Host(l.s, op)
  {
    hide GetNextFrame, Hear;
  }

  lemma StopEnds(s: Sender)
    requires SenderOk(s)
    ensures var s' := GetNextFrame(Host(s, Stop)).s;
            s' == s.(queue := [], sending := false, abort := false) && s'.framesSent >= 0
  {
    hide IsData, IsMode;
  }

  lemma NotSendingWaits(s: Sender)
    requires !s.sending && !s.abort
    ensures GetNextFrame(s).s == s
  {
    hide BlockCount, BlockLen, Toggle;
  }

  lemma FirstPoll(s: Sender)
    requires s.sending && !s.abort && s.queue != [] && s.framesSent >= 0
    ensures var s' := GetNextFrame(s).s;
            s'.sending && if s.framesSent > 0 && s.repeatsSent < s.repeats
                          then s'.blocks == s.blocks && s'.queue == s.queue
                          else |s'.blocks| == |s.blocks| + 1 && s'.blocks[|s.blocks|] + s'.queue == s.queue
  {
    hide BlockCount, BlockLen, Toggle;
  }

  /** A stop that the host asks for ends the session at the next poll, whatever is queued. Nothing of that is ever sent: what
      the next session has to send is the new data, and its first block, unless the last one is played again first, is
      the beginning of that. */
  lemma StopForgetsQueue(l: Link, d: seq<byte>, crc: Crc)
    requires SenderOk(l.s) && d != []
    ensures var s := Run(l, StopAndBegin(d)[..2], crc).s; !s.sending && s.queue == [] && s.blocks == l.s.blocks
    ensures var s := Run(l, StopAndBegin(d), crc).s;
            s.sending && if l.s.framesSent > 0 && l.s.repeatsSent < l.s.repeats
                         then s.blocks == l.s.blocks && s.queue == d
                         else |s.blocks| == |l.s.blocks| + 1 && s.blocks[|l.s.blocks|] + s.queue == d
  {
    hide Run, Step, SenderOk, GetNextFrame;
    var ops := StopAndBegin(d);
    assert ops[..2] == [ops[0], ops[1]];
    RunOfTwo(l, ops[0], ops[1], crc);
    RunOfSix(l, ops, crc);
    StepOfSender(l, Stop, crc);
    var l1 := Step(l, Stop, crc);
    StepOfSender(l1, Poll(Lost), crc);
    StopEnds(l.s);
    var l2 := Step(l1, Poll(Lost), crc);
    StepOfSender(l2, Queue(d), crc);
    var l3 := Step(l2, Queue(d), crc);
    StepOfSender(l3, Poll(Lost), crc);
    var l4 := Step(l3, Poll(Lost), crc);
    StepOfSender(l4, Begin, crc);
    assert [] + d == d && l3.s.queue == d;
    NotSendingWaits(l3.s);
    var l5 := Step(l4, Begin, crc);
    StepOfSender(l5, Poll(Lost), crc);
    FirstPoll(l5.s);
  }

  /** A mode that is set is that of the next block, in its even type. */
  lemma ModeIsUsed(s: Sender, m: byte)
    requires SenderOk(s) && IsMode(m) && s.sending && !s.abort && (s.queue != [] || s.repeatsSent < s.repeats)
    ensures var n := GetNextFrame(Host(s, SetMode(m)));
            n.more && |n.s.blocks| == |s.blocks| + 1 && n.s.lastSent == m && n.s.air.value.ftype == m
  {
    hide BlockCount, BlockLen, IsData, Toggle;
  }

  /** What is no number of repeats from 0 to 5, or no mode, is not set. */
  lemma SettingsAreChecked(s: Sender, n: int, m: byte)
    ensures (Host(s, SetRepeats(n)) == s <==> n < 0 || n > 5 || n == s.repeats) && (0 <= n <= 5 ==> Host(s, SetRepeats(n)).repeats == n)
    ensures !IsMode(m) ==> Host(s, SetMode(m)) == s
  {
    hide IsMode;
  }

  /** Without data no session begins; and beginning again does not undo a stop that is pending. */
  lemma BeginIsRefused(s: Sender)
    requires SenderOk(s)
    ensures !s.sending && s.queue == [] && !s.abort ==> var n := GetNextFrame(Host(s, Begin)); !n.more && n.s == s
    ensures s.sending ==> var n := GetNextFrame(Host(Host(s, Stop), Begin)); !n.more && !n.s.sending && n.s.queue == []
  {
    hide BlockCount, BlockLen, IsData, Toggle;
  }

  /** A session with one block of data and n repeats, with k polls. */
  function OneBlock(d: seq<byte>, n: int, k: nat): (ops: seq<Op>)
    ensures |ops| == k + 3
  {
    if k == 0 then [Queue(d), SetRepeats(n), Begin] else OneBlock(d, n, k - 1) + [Poll(Lost)]
  }

  /** The sender after k polls of a session with the one block d and n repeats in mode m. */
  predicate PlayedTimes(s: Sender, d: seq<byte>, n: int, m: byte, k: nat)
  {
    && s.repeats == n && !s.abort && s.mode == m && (s.sending <==> k <= n + 1)
    && if k == 0 then s.queue == d && s.blocks == [] && s.framesSent == 0
       else s.queue == [] && s.blocks == [d] && s.framesSent > 0 && s.repeatsSent == if k == n + 2 then n else k - 1
  }

  lemma PlayedOnceMore(s: Sender, d: seq<byte>, n: int, m: byte, k: nat)
    requires IsMode(m) && d != [] && |d| <= FrameSize(m) && 0 <= n && k <= n + 1 && PlayedTimes(s, d, n, m, k)
    ensures PlayedTimes(GetNextFrame(s).s, d, n, m, k + 1) && (GetNextFrame(s).more <==> k <= n)
  {
    hide IsMode, BlockCount, BlockLen, FrameSize, Toggle;
    if k == 0 {
      OneBlockFits(m, d);
      assert d[..|d|] == d && d[|d|..] == [] && [] + [d] == [d];
    }
  }

  /** For every number of repeats that can be set the block is played once more than that, and then the session ends. */
  lemma {:induction false} OneBlockSession(l: Link, d: seq<byte>, n: int, k: nat, crc: Crc)
    requires Fresh(l) && IsMode(l.s.mode) && !l.s.sending && l.s.queue == [] && !l.s.abort
    requires d != [] && |d| <= FrameSize(l.s.mode) && 0 <= n <= 5 && k <= n + 2
    ensures PlayedTimes(Run(l, OneBlock(d, n, k), crc).s, d, n, l.s.mode, k)
  {
    hide GetNextFrame, PlayedTimes, IsMode, FrameSize, Run, Fresh, Step, OneBlock;
    if k == 0 {
      BeginsOneBlock(l, d, n, crc);
      NotPlayedYet(l, d, n);
    } else {
      OneBlockSession(l, d, n, k - 1, crc);
      OneMorePoll(l, d, n, k, crc);
      PlayedOnceMore(Run(l, OneBlock(d, n, k - 1), crc).s, d, n, l.s.mode, k - 1);
    }
  }

  lemma OneMorePoll(l: Link, d: seq<byte>, n: int, k: nat, crc: Crc)
    requires k > 0
    ensures Run(l, OneBlock(d, n, k), crc).s == GetNextFrame(Run(l, OneBlock(d, n, k - 1), crc).s).s
  {
    hide Run, GetNextFrame, Hear;
    RunAppends(l, OneBlock(d, n, k - 1), [Poll(Lost)], crc);
    RunOne(Run(l, OneBlock(d, n, k - 1), crc), Poll(Lost), crc);
  }

  lemma NotPlayedYet(l: Link, d: seq<byte>, n: int)
    requires Fresh(l) && !l.s.sending && !l.s.abort && 0 <= n
    ensures PlayedTimes(l.s.(queue := d, repeats := n, sending := true), d, n, l.s.mode, 0)
  {
  }

  lemma BeginsOneBlock(l: Link, d: seq<byte>, n: int, crc: Crc)
    requires Fresh(l) && !l.s.sending && l.s.queue == [] && !l.s.abort && d != [] && 0 <= n <= 5
    ensures Run(l, OneBlock(d, n, 0), crc).s == l.s.(queue := d, repeats := n, sending := true)
  {
    hide IsData;
    var ops := OneBlock(d, n, 0);
    assert ops[..2] == [Queue(d), SetRepeats(n)] && ops[..2][..1] == [Queue(d)] && [Queue(d)][..0] == [];
    assert [] + d == d;
    RunOne(l, Queue(d), crc);
  }

  lemma OneBlockFits(m: byte, d: seq<byte>)
    requires IsMode(m) && |d| <= FrameSize(m)
    ensures Min(BlockCount(m) * BlockLen(m), |d|) == |d|
  {
    assert Even(m) == m;
    CapacitiesAgree(m);
  }

  // ---------- conservation ----------

  function Offered(ops: seq<Op>): seq<byte>
  {
    if ops == [] then []
    else
      var op := ops[|ops| - 1];
      Offered(ops[..|ops| - 1]) + if op.Queue? then op.data else []
  }

  /** The blocks taken and the bytes still queued are what was offered, until sending stops. */
  predicate Kept(s: Sender, offered: seq<byte>)
  {
    if s.sending then Join(s.blocks) + s.queue == offered else Join(s.blocks) <= offered
  }

  lemma CutAnywhere(a: seq<byte>, b: seq<byte>, i: nat)
    requires i <= |b|
    ensures a + b == (a + b[..i]) + b[i..]
  {
  }

  lemma SendNewKeeps(s: Sender, t: byte, offered: seq<byte>)
    requires s.sending && Kept(s, offered)
    ensures Kept(SendNew(s, t), offered)
  {
    hide Join, BlockCount, BlockLen;
    var len := Min(BlockCount(t) * BlockLen(t), |s.queue|);
    JoinLast(s.blocks, s.queue[..len]);
    CutAnywhere(Join(s.blocks), s.queue, len);
  }

  lemma PollKeeps(s: Sender, offered: seq<byte>)
    requires Kept(s, offered)
    ensures Kept(GetNextFrame(s).s, offered)
  {
    hide SendNew, Join;
    if s.sending {
      SendNewKeeps(s, s.mode, offered);
      SendNewKeeps(s, Toggle(s.lastSent), offered);
    }
  }

  lemma HostKeeps(s: Sender, op: Op, offered: seq<byte>)
    requires Kept(s, offered) && (op.Begin? ==> s.sending)
    ensures Kept(Host(s, op), offered + if op.Queue? then op.data else [])
  {
    hide Join;
    if op.Queue? {
      assert Join(s.blocks) + (s.queue + op.data) == (Join(s.blocks) + s.queue) + op.data;
    } else {
      assert offered + [] == offered;
    }
  }

  /** No session is begun after the first one has ended. */
  predicate OneSession(l: Link, ops: seq<Op>, crc: Crc)
  {
    ops == []
    || (OneSession(l, ops[..|ops| - 1], crc) && (ops[|ops| - 1].Begin? ==> Run(l, ops[..|ops| - 1], crc).s.sending))
  }

  /** From any state of a session under way, whatever was sent before: the blocks sent are the queued
      and then the offered bytes, in order, without gap. */
  lemma {:induction false} BlocksAreOffered(l: Link, ops: seq<Op>, crc: Crc)
    requires l.s.sending && OneSession(l, ops, crc)
    ensures Kept(Run(l, ops, crc).s, (Join(l.s.blocks) + l.s.queue) + Offered(ops))
  {
    var start := Join(l.s.blocks) + l.s.queue;
    if ops == [] {
      assert start + [] == start;
    } else {
      hide Join, Host, GetNextFrame, Kept;
      var n := |ops| - 1;
      BlocksAreOffered(l, ops[..n], crc);
      var before := Run(l, ops[..n], crc);
      var more := if ops[n].Queue? then ops[n].data else [];
      PollKeeps(before.s, start + Offered(ops[..n]));
      HostKeeps(before.s, ops[n], start + Offered(ops[..n]));
      OfferedSplits(start, Offered(ops[..n]), more);
    }
  }

  lemma OfferedSplits(start: seq<byte>, offered: seq<byte>, more: seq<byte>)
    ensures start + (offered + more) == (start + offered) + more
    ensures more == [] ==> start + (offered + more) == start + offered
  {
  }

  // ---------- the program's variables ----------

  class FecSender {
    var queue: seq<byte>
    var mode: byte
    var repeats: int
    var sending: bool
    var abort: bool
    var framesSent: int
    var repeatsSent: int
    var lastSent: byte
    var encoded: Option<Air>
    ghost var blocks: seq<seq<byte>>

    constructor (mode: byte)
      ensures State() == Sender([], mode, 0, false, false, 0, 0, mode, None, [])
    {
      this.mode, repeats := mode, 0;
      queue, sending, abort, framesSent, repeatsSent := [], false, false, 0, 0;
      lastSent, encoded, blocks := mode, None, [];
    }

    ghost function State(): Sender
      reads this
    {
      Sender(queue, mode, repeats, sending, abort, framesSent, repeatsSent, lastSent, encoded, blocks)
    }

    /** The host asks for sending to begin. */
    method StartFEC() returns (ok: bool)
      modifies `sending, `abort
      ensures State() == Host(old(State()), Begin) && ok == sending
    {
      if sending {
        return true;
      }
      if queue == [] {
        return false;
      }
      abort := false;
      sending := true;
      ok := true;
    }

    method SetFECMode(mode: byte) returns (ok: bool)
      modifies `mode, `framesSent
      ensures State() == Host(old(State()), SetMode(mode)) && ok == IsMode(mode)
    {
      ok := IsMode(mode);
      if ok {
        this.mode := mode;
        framesSent := 0;
      }
    }

    method Stop()
      modifies `queue, `sending
      ensures State() == Stopped(old(State()))
    {
      if sending {
        sending := false;
        queue := [];
      }
    }

    /** Encodes the next block and takes it off the queue. */
    method SendIt(t: byte)
      modifies this
      ensures State() == SendNew(old(State()), t)
    {
      hide BlockCount, BlockLen;
      var len := BlockCount(t) * BlockLen(t);
      if len > |queue| {
        len := |queue|;
      }
      lastSent := t;
      repeatsSent := 0;
      framesSent := framesSent + 1;
      encoded := Some(Air(t, queue[..len]));
      blocks := blocks + [queue[..len]];
      queue := queue[len..];
    }

    /** True when a frame has been sent or is to be sent again. */
    method GetNextFECFrame() returns (more: bool)
      modifies this
      ensures Next(State(), more) == GetNextFrame(old(State()))
    {
      hide SendNew;
      if abort {
        queue := [];
        sending := false;
        abort := false;
        return false;
      }
      if framesSent == -1 {
        Stop();
        return false;
      }
      if queue == [] && repeatsSent >= repeats && sending {
        Stop();
        return false;
      }
      if !sending {
        return false;
      }
      if framesSent == 0 {
        SendIt(mode);
        return true;
      }
      if repeatsSent >= repeats {
        SendIt(Toggle(lastSent));
        return true;
      }
      repeatsSent := repeatsSent + 1;
      framesSent := framesSent + 1;
      more := true;
    }
  }

  class FecReceiver {
    var lastId: int
    var lastCrc: int
    var failed: seq<byte>
    var failedId: int
    ghost var passed: seq<seq<byte>>
    ghost var errors: seq<seq<byte>>

    constructor ()
      ensures State() == Receiver(-1, 0, [], -1, [], [])
    {
      lastId, lastCrc, failed, failedId, passed, errors := -1, 0, [], -1, [], [];
    }

    ghost function State(): Receiver
      reads this
    {
      Receiver(lastId, lastCrc, failed, failedId, passed, errors)
    }

    method ProcessRcvdFECDataFrame(t: byte, data: seq<byte>, ok: bool, crc: Crc)
      modifies this
      ensures State() == Receive(old(State()), t, data, ok, crc)
    {
      if ok {
        if t == lastId && crc(data) == lastCrc {
          return;
        }
        if |failed| > 0 && failedId != t {
          errors := errors + [failed];
          failed := [];
          failedId := -1;
        }
        passed := passed + [data];
        lastCrc := crc(data);
        lastId := t;
        if failedId == t {
          failed := [];
          failedId := -1;
        }
      } else {
        if |failed| > 0 && failedId != t {
          errors := errors + [failed];
          failed := [];
          lastId := failedId;
        }
        failed := data;
        failedId := t;
      }
    }
  }
}
