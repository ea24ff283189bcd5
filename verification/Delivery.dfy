/** What every run of the link guarantees to the two hosts. */
module Delivery {
  import opened Frames
  import opened Options
  import opened Gear
  import opened ArqStation
  import opened ArqLink

  predicate Master(s: Station) { s.protocol == ISS || s.protocol == IDLE }

  predicate InSendingPhase(s: Station) { s.protocol == ISS && s.substate == ISSData && !s.discRepeating }

  /** In one direction: nothing leaves the queue of s before r has passed it to its host, r is
      ahead by at most the one frame in process, and that frame is the head of the queue. */
  predicate DirectionSafe(s: Station, r: Station)
  {
    && (r.inn.delivered == s.out.removed || r.inn.delivered == s.out.removed + Payload(s))
    && (InSendingPhase(s) ==>
          && 0 < s.out.inProcess <= |s.out.queue|
          && Payload(s) == s.out.queue[..s.out.inProcess]
          && r.inn.delivered <= s.out.removed + s.out.queue)
    && (s.protocol == IDLE ==> r.inn.delivered == s.out.removed)
  }

  lemma LeadIsSafe(s: Station, r: Station, toR: Option<Frame>, toS: Option<Frame>)
    requires Lead(s, r, toR, toS)
    ensures DirectionSafe(s, r) && DirectionSafe(r, s)
  {
    hide Join, TablesOk, IsOdd, Even, BlockCount, Collecting, NothingPassed, TypesAcked, HistoryOk;
    if InSendingPhase(s) {
      assert s.out.removed + s.out.queue == s.out.removed + Payload(s) + s.out.queue[s.out.inProcess..];
    }
  }

  /** ARQ delivery: from any call between two stations, in every reachable state. */
  lemma DeliveryIsSafe(a: Station, b: Station, now: int, request: byte, events: seq<Event>)
    requires Unused(a) && Unused(b) && IsConReq(request)
    ensures var l := Run(Started(a, b, now, request), events);
            DirectionSafe(l.a, l.b) && DirectionSafe(l.b, l.a)
  {
    hide Started, DirectionSafe, Lead;
    StartedIsInvariant(a, b, now, request);
    RunKeepsInvariant(Started(a, b, now, request), events);
    var l := Run(Started(a, b, now, request), events);
    var toA, toB := ToAFrame(l), ToBFrame(l);
    if Lead(l.a, l.b, toB, toA) { LeadIsSafe(l.a, l.b, toB, toA); } else { LeadIsSafe(l.b, l.a, toA, toB); }
  }

  lemma InvariantHasOneMaster(l: Link)
    requires Invariant(l)
    ensures !(Master(l.a) && Master(l.b))
  {
    hide Sound, WithinOne, Calling, Confirming, Sending, Closing, Idling, Taking, Ended;
  }

  /** The two stations are never both sending. */
  lemma SingleMaster(a: Station, b: Station, now: int, request: byte, events: seq<Event>)
    requires Unused(a) && Unused(b) && IsConReq(request)
    ensures var l := Run(Started(a, b, now, request), events); !(Master(l.a) && Master(l.b))
  {
    hide Started, Invariant;
    StartedIsInvariant(a, b, now, request);
    RunKeepsInvariant(Started(a, b, now, request), events);
    InvariantHasOneMaster(Run(Started(a, b, now, request), events));
  }

  // ---------- taking the link over ----------

  /** Hearing turns a station that is breaking in into a sender only on an ACK. */
  lemma TakesOnAckOnly(s: Station, now: int, f: Frame, rx: Rx)
    requires s.protocol == IRStoISS && Master(Hear(s, now, f, rx).s)
    ensures IsShortControl(f.ftype) && IsAck(f.ftype)
  {
    hide SendData, Demodulated, Join;
  }

  lemma PollsDoNotTake(s: Station, p: PollKind, now: int)
    requires Sound(s) && s.protocol == IRStoISS
    ensures !Master(Poll(s, p, now).s)
  {
    hide Poll, HistoryOk, Ending, Sound, FlagsOnly;
    PollKinds(s, p, now);
    FlagsKeep(s, Poll(s, p, now).s);
  }

  lemma FlagsKeep(s: Station, s': Station)
    ensures FlagsOnly(s, s') ==> s'.protocol == s.protocol && s'.out == s.out && s'.inn == s.inn
  {
  }

  lemma AckMeansYielded(s: Station, r: Station, f: Frame, toR: Option<Frame>)
    requires Paired(s, r, toR, Some(f)) && s.protocol == IRStoISS && IsAck(f.ftype)
    ensures r.protocol == IRS
  {
    hide Join, TablesOk, Collecting, NothingPassed, TypesAcked, HistoryOk, Passed, NotPassed, BlockCount;
  }

  /** A station becomes the sender only after its peer has become the receiver. */
  lemma TakesOverOnlyAfterYield(l: Link, e: Event)
    requires Invariant(l)
    ensures var l' := Step(l, e);
            && (l.a.protocol == IRStoISS && Master(l'.a) ==> l.b.protocol == IRS && l'.b.protocol == IRS)
            && (l.b.protocol == IRStoISS && Master(l'.b) ==> l.a.protocol == IRS && l'.a.protocol == IRS)
  {
    hide Hear, Poll, Command, Lead;
    var l' := Step(l, e);
    if l.a.protocol == IRStoISS && Master(l'.a) { TakerHeardAck(l.a, l.b, l.air, e); }
    if l.b.protocol == IRStoISS && Master(l'.b) { TakerHeardAck(l.b, l.a, Mirror(l.air), MirrorEvent(e)); }
  }

  function Mirror(air: Air): Air
  {
    match air case Clear => Clear case ToA(f) => ToB(f) case ToB(f) => ToA(f)
  }

  function MirrorEvent(e: Event): Event
  {
    match e
    case Polled(byA, kind, now) => Polled(!byA, kind, now)
    case Commands(toA, c) => Commands(!toA, c)
    case _ => e
  }

  lemma TakerHeardAck(s: Station, r: Station, air: Air, e: Event)
    requires Invariant(Link(s, r, air)) && s.protocol == IRStoISS && Master(Step(Link(s, r, air), e).a)
    ensures r.protocol == IRS && Step(Link(s, r, air), e).b == r
  {
    hide Hear, Poll, Command, Lead;
    var l := Link(s, r, air);
    match e
    case Lost =>
    case Heard(now, rx) =>
      if air.ToA? {
        TakesOnAckOnly(s, now, air.frame, rx);
        AckMeansYielded(s, r, air.frame, ToBFrame(l));
      }
    case Polled(byA, kind, now) =>
      if !air.ToB? && byA {
        PairedIsSound(s, r, ToBFrame(l), ToAFrame(l));
        PollsDoNotTake(s, kind, now);
      }
    case Commands(toA, c) =>
      CommandKinds(s, c);
  }

  lemma PairedIsSound(s: Station, r: Station, toR: Option<Frame>, toS: Option<Frame>)
    requires Paired(s, r, toR, toS)
    ensures Sound(s) && Sound(r)
  {
    hide Sound, WithinOne, Calling, Confirming, Sending, Closing, Idling, Taking, Ended;
  }

  // ---------- memory ARQ ----------

  /** Whatever copies and blocks were lost, a block held under the type of the frame in process, or
      of the last one when everything is acknowledged, is that frame's block. */
  predicate MemorySound(s: Station, r: Station)
  {
    && (InSendingPhase(s) || (s.protocol == IDLE && IsData(s.out.lastSent)))
    && r.protocol == IRS && r.inn.lastType == s.out.lastSent ==>
      forall c :: 0 <= c < BlockCount(s.out.lastSent) && HeldAt(r.inn, c) ==>
        BlockAt(r.inn.frameData, c) == BlockAt(s.out.record.blocks, c)
  }

  lemma MemoryArqIsSound(l: Link)
    requires Invariant(l)
    ensures MemorySound(l.a, l.b) && MemorySound(l.b, l.a)
  {
    hide Join, TablesOk, IsOdd, Even, BlockCount, NothingPassed, TypesAcked, HistoryOk;
  }

  // ---------- the stream of bytes, over whole runs ----------

  /** Equality of byte strings under a name, so that a proof can carry it as a whole. */
  predicate Same(x: seq<byte>, y: seq<byte>) { x == y }

  lemma Unchanged(s: Station)
    ensures Same(s.out.queue, s.out.queue) && Same(s.out.removed, s.out.removed)
    ensures Same(s.inn.delivered, s.inn.delivered) && Same([], [])
  {
  }

  /** What a step can do to the sending side: nothing, discard the whole queue, or take the
      frame in process off its head. */
  predicate Moves(o: Sender, o': Sender)
  {
    || (Same(o'.removed, o.removed) && (Same(o'.queue, o.queue) || Same(o'.queue, [])))
    || (Same(o'.removed, TakenOff(o, o.inProcess).removed) && Same(o'.queue, TakenOff(o, o.inProcess).queue))
  }

  predicate Kept(s: Station, s': Station)
  {
    Moves(s.out, s'.out) && Same(s'.inn.delivered, s.inn.delivered)
  }

  lemma SendDataKeeps(s: Station, now: int)
    ensures var s' := SendData(s, now).s;
            s'.out.queue == s.out.queue && s'.out.removed == s.out.removed && s'.inn == s.inn
  {
    hide NextDataFrame, Applied, BlockCount, BlockLen;
  }

  lemma AckKeeps(s: Station, t: byte, now: int)
    requires IsAck(t) && !s.disconnect
    ensures Kept(s, ReceiveISSData(s, now, t, true).s)
  {
    Unchanged(s);
    hide Same, SendData, Reported, TakenOff;
    TakenOffIgnoresAcked(s.out, s.out.lastSent);
    var s1 := if s.out.sentData then Acknowledged(s, t - 0xE0) else s;
    if s.out.sentData && s.out.inProcess != 0 {}
    SendDataKeeps(s1.(timeoutTrip := now, gear := s1.gear.(naks := 0), repeat := false), now);
  }

  lemma TakenOffIgnoresAcked(o: Sender, acked: byte)
    ensures var t, u := TakenOff(o, o.inProcess), TakenOff(o.(lastAcked := acked), o.inProcess);
            && Same(u.removed, t.removed) && Same(u.queue, t.queue)
  {
  }

  lemma NakKeeps(s: Station, t: byte, now: int)
    requires IsNak(t) && !s.disconnect
    ensures Kept(s, ReceiveISSData(s, now, t, true).s)
  {
    Unchanged(s);
    hide Same, SendData, Reported, TakenOff;
    var g := Reported(s.gear.(naks := s.gear.naks + 1), t, |s.out.queue|);
    SendDataKeeps(s.(gear := g.(naks := 0), timeoutTrip := now), now);
  }

  lemma YieldKeeps(s: Station, now: int, lastType: int)
    ensures var s' := YieldLink(s, now, lastType).s;
            s'.out == s.out && Same(s'.inn.delivered, s.inn.delivered)
  {
  }

  lemma CloseKeeps(s: Station)
    ensures var s' := CloseSession(s); Kept(s, s')
    ensures var s' := SetState(ClearQueue(s.(discRepeating := false)), DISC); Kept(s, s')
  {
    Unchanged(s);
    hide Same, TakenOff;
  }

  lemma ClosingKeeps(s: Station, t: byte, ok: bool, now: int)
    requires s.disconnect || !ok || !(IsAck(t) || IsNak(t))
    ensures Kept(s, ReceiveISSData(s, now, t, ok).s)
  {
    Unchanged(s);
    CloseKeeps(s);
    YieldKeeps(ClearQueue(s.(gear := s.gear.(naks := 0))), now, t);
    hide Same, SendData, Reported, TakenOff, Acknowledged, CloseSession, YieldLink;
    if s.disconnect {
    } else if !ok {
    } else if t == BREAK {
    } else if t == DISCFRAME {
    }
  }

  lemma FirstAckedKeeps(s: Station)
    ensures Kept(s, FirstAcked(s)) && Kept(s, ClearQueue(FirstAcked(s)))
    ensures FirstAcked(s).inn == s.inn && ClearQueue(FirstAcked(s)).inn == s.inn
  {
    Unchanged(s);
    hide Same, TakenOff;
  }

  lemma RejectedKeeps(s: Station)
    ensures Kept(s, InitConnection(SetState(s, DISC)))
  {
    Unchanged(s);
    InitKeepsHistory(SetState(s, DISC));
    DiscKeepsHistory(s);
    hide Same, TakenOff, InitConnection, SetState;
  }

  lemma QuietKeeps(s: Station)
    ensures Kept(s, s)
  {
    Unchanged(s);
    hide Same, TakenOff;
  }

  lemma SameOutKeeps(s: Station, s1: Station, s2: Station)
    requires Kept(s, s1) && s2.out.queue == s1.out.queue && s2.out.removed == s1.out.removed
    requires Same(s2.inn.delivered, s1.inn.delivered)
    ensures Kept(s, s2)
  {
  }

  lemma ConfirmingKeeps(s: Station, t: byte, ok: bool, now: int)
    ensures Kept(s, ReceiveISSConAck(s, now, t, ok).s)
  {
    Unchanged(s);
    hide Kept, Same, SendData, YieldLink, FirstAcked, ClearQueue, SetState, InitConnection;
    QuietKeeps(s);
    RejectedKeeps(s);
    FirstAckedKeeps(s);
    if (ok && IsAck(t)) || t == BREAK {
      var s1 := FirstAcked(s);
      SendDataKeeps(s1, now);
      SameOutKeeps(s, s1, SendData(s1, now).s);
      YieldKeeps(ClearQueue(s1), now, t);
      SameOutKeeps(s, ClearQueue(s1), YieldLink(ClearQueue(s1), now, t).s);
    }
  }

  lemma ReceiveISSKeeps(s: Station, now: int, t: byte, ok: bool)
    ensures Kept(s, ReceiveISS(s, now, t, ok).s)
  {
    Unchanged(s);
    hide Same, ReceiveISSConAck, ReceiveISSData, Initialised, TakenOff;
    if s.substate == ISSConAck { ConfirmingKeeps(s, t, ok, now); }
    else if s.disconnect || !ok || !(IsAck(t) || IsNak(t)) { ClosingKeeps(s, t, ok, now); }
    else if IsAck(t) { AckKeeps(s, t, now); }
    else { NakKeeps(s, t, now); }
  }

  lemma ReceiveIDLEKeeps(s: Station, now: int, t: byte, ok: bool)
    ensures Kept(s, ReceiveIDLE(s, now, t, ok).s)
  {
    Unchanged(s);
    CloseKeeps(s);
    YieldKeeps(s, now, -1);
    ResumeKeeps(s, now);
    hide Same, SendData, TakenOff, YieldLink, SetState, ClearQueue;
  }

  lemma ResumeKeeps(s: Station, now: int)
    ensures Kept(s, SendData(SetState(s, ISS).(substate := ISSData), now).s)
  {
    Unchanged(s);
    SendDataKeeps(SetState(s, ISS).(substate := ISSData), now);
    hide Same, SendData, TakenOff;
  }

  /** Only a good data frame heard in IRS adds to what the host has been given. */
  lemma ReceiveIRSDataKeeps(s: Station, now: int, t: byte, data: seq<byte>, ok: bool, rx: Rx)
    ensures var s' := ReceiveIRSData(s, now, t, data, ok, rx).s;
            Moves(s.out, s'.out) && (!IsData(t) ==> Same(s'.inn.delivered, s.inn.delivered))
  {
    Unchanged(s);
    CloseKeeps(s);
    AskKeeps(s);
    GoodDataMoves(s, now, t, data, rx);
    hide Same, TakenOff, CloseSession, ScaledQuality, ReceiveGoodData, AskForLink;
  }

  lemma AskKeeps(s: Station)
    ensures var s' := AskForLink(s).s; s'.out == s.out && Same(s'.inn.delivered, s.inn.delivered)
  {
  }

  lemma GoodDataMoves(s: Station, now: int, t: byte, data: seq<byte>, rx: Rx)
    ensures Moves(s.out, ReceiveGoodData(s, now, t, data, rx).s.out)
  {
    Unchanged(s);
    hide Same, TakenOff, ScaledQuality;
    if s.substate == IRSData && s.breakCmd && t != s.inn.lastACKed {
    } else if t != s.inn.lastToHost {
    }
  }

  lemma InitKeepsQueue(s: Station)
    ensures InitConnection(s).out == s.out
  {
  }

  lemma AcceptedKeeps(s: Station, now: int, reply: Negotiation)
    ensures Kept(s, AcceptCall(s, now, reply).s)
  {
    Unchanged(s);
    hide Same, TakenOff, InitConnection;
    InitKeepsHistory(s);
    InitKeepsQueue(s);
  }

  lemma OtherFieldsKeep(s: Station, s': Station)
    requires s'.out == s.out && s'.inn.delivered == s.inn.delivered
    ensures Kept(s, s')
  {
    Unchanged(s);
    hide TakenOff;
  }

  lemma ConnectedKeeps(s: Station, now: int, t: byte, q: Quality)
    ensures Kept(s, Connected(s, now, t, q).s)
  {
    hide Kept, Initialised, Bandwidth, ScaledQuality;
    OtherFieldsKeep(s, Connected(s, now, t, q).s);
  }

  lemma CallsKeep(s: Station, now: int, t: byte, ok: bool, rx: Rx)
    ensures Kept(s, ReceiveDISC(s, now, t, ok, rx).s)
    ensures Kept(s, ReceiveIRSConAck(s, now, t, ok, rx).s)
  {
    hide Kept, AcceptCall, Connected;
    AcceptingKeeps(s, now, t, ok, rx);
    var o := ReceiveDISC(s, now, t, ok, rx);
    if !(ok && IsConReq(t) && rx.reply != CONREJBW) { OtherFieldsKeep(s, o.s); }
  }

  lemma AcceptingKeeps(s: Station, now: int, t: byte, ok: bool, rx: Rx)
    ensures ok && IsConReq(t) && rx.reply != CONREJBW ==> Kept(s, ReceiveDISC(s, now, t, ok, rx).s)
    ensures Kept(s, ReceiveIRSConAck(s, now, t, ok, rx).s)
  {
    hide Kept, AcceptCall, Connected;
    QuietKeeps(s);
    ConnectedKeeps(s, now, t, rx.quality);
    if rx.reply != CONREJBW {
      var s1 := AcceptCall(s, now, rx.reply).s;
      AcceptedKeeps(s, now, rx.reply);
      RepeatFlagKeeps(s, s1, s.repeat);
    } else {
      OtherFieldsKeep(s, Transmit(s, Control(CONREJBW)).s);
    }
  }

  lemma RepeatFlagKeeps(s: Station, s1: Station, repeat: bool)
    requires Kept(s, s1)
    ensures Kept(s, s1.(repeat := repeat))
  {
  }

  lemma ProcessKeeps(s: Station, now: int, t: byte, data: seq<byte>, ok: bool, rx: Rx)
    ensures var s' := ProcessFrame(s, now, t, data, ok, rx).s;
            && Moves(s.out, s'.out)
            && (!Same(s'.inn.delivered, s.inn.delivered) ==> s.protocol == IRS && IsData(t))
  {
    Unchanged(s);
    hide Same, ReceiveDISC, ReceiveIRSConAck, ReceiveIRSData, ReceiveIDLE, ReceiveISS, Moves;
    CallsKeep(s, now, t, ok, rx);
    ReceiveIRSDataKeeps(s, now, t, data, ok, rx);
    ReceiveIDLEKeeps(s, now, t, ok);
    ReceiveISSKeeps(s, now, t, ok);
    assert Moves(s.out, s.out) by { NothingMoves(s.out); }
  }

  lemma NothingMoves(o: Sender)
    ensures Moves(o, o)
  {
  }

  lemma HearKeeps(s: Station, now: int, f: Frame, rx: Rx)
    ensures var s' := Hear(s, now, f, rx).s;
            && Moves(s.out, s'.out)
            && (!Same(s'.inn.delivered, s.inn.delivered) ==> s.protocol == IRS && IsData(f.ftype))
  {
    Unchanged(s);
    hide Same, ProcessFrame, Collected, AllHeld, TakenOff;
    if IsShortControl(f.ftype) {
      ProcessKeeps(s, now, f.ftype, [], true, rx);
      if s.protocol == IRStoISS && IsAck(f.ftype) { TakeLinkKeeps(s, now); }
    } else {
      LongKeeps(s, now, f, rx);
    }
  }

  lemma TakeLinkKeeps(s: Station, now: int)
    ensures Kept(s, TakeLink(s, now).s)
  {
    Unchanged(s);
    hide Same, SendData, TakenOff, Initialised;
    var s1 := s.(repeat := false, inn := s.inn.(lastToHost := -1));
    var s2 := if s1.gear.current == 0 then s1.(gear := Initialised(s1.gear, s1.cfg.gears, s1.bw)) else s1;
    SendDataKeeps(SetState(s2, ISS).(substate := ISSData), now);
  }

  lemma LongKeeps(s: Station, now: int, f: Frame, rx: Rx)
    ensures var s' := HearLong(s, now, f, rx).s;
            && Moves(s.out, s'.out)
            && (!Same(s'.inn.delivered, s.inn.delivered) ==> s.protocol == IRS && IsData(f.ftype))
  {
    Unchanged(s);
    hide Same, Collected, AllHeld, TakenOff, Demodulated, NewCollection, SkipsDecode, BreaksIn, AnswerLong;
    var r := NewCollection(s.inn, f.ftype);
    var s1 := s.(inn := if IsData(f.ftype) && !(IsFsk(f.ftype) && SkipsDecode(s, f.ftype)) then Demodulated(r, f, rx) else r);
    StoringDelivers(s.inn, f, rx);
    assert s1.out == s.out && Same(s1.inn.delivered, s.inn.delivered);
    AnsweringKeeps(s1, BreaksIn(s, f.ftype), now, f, rx);
  }

  lemma AnsweringKeeps(s: Station, breaksIn: bool, now: int, f: Frame, rx: Rx)
    ensures var s' := AnswerLong(s, breaksIn, now, f, rx).s;
            && Moves(s.out, s'.out)
            && (!Same(s'.inn.delivered, s.inn.delivered) ==> s.protocol == IRS && IsData(f.ftype))
  {
    Unchanged(s);
    hide Same, ProcessFrame, Collected, AllHeld, TakenOff;
    if breaksIn {
      return;
    } else if s.protocol == IRStoISS && IsData(f.ftype) {
      return;
    } else if s.timeoutTriggered {
      return;
    } else {
      var n := BlockCount(f.ftype);
      ProcessKeeps(s, now, f.ftype, Collected(s.inn, n), if IsData(f.ftype) then AllHeld(s.inn, n) else rx.intact, rx);
      return;
    }
  }

  lemma StoringDelivers(r: Receiver, f: Frame, rx: Rx)
    ensures NewCollection(r, f.ftype).delivered == r.delivered
    ensures Demodulated(NewCollection(r, f.ftype), f, rx).delivered == r.delivered
  {
  }

  lemma PollMoves(s: Station, p: PollKind, now: int)
    requires Sound(s)
    ensures Kept(s, Poll(s, p, now).s)
  {
    Unchanged(s);
    hide Same, Poll, TakenOff, HistoryOk, Sound, Ending, FlagsOnly;
    PollKinds(s, p, now);
    var s' := Poll(s, p, now).s;
    FlagsKeep(s, s');
    FlagsKeep(StartDisconnect(s).s, s');
    StartKeeps(s);
  }

  lemma StartKeeps(s: Station)
    ensures StartDisconnect(s).s.out == s.out && StartDisconnect(s).s.inn == s.inn
  {
  }

  // ---------- what the hosts see, over whole runs ----------

  predicate Subsequence(xs: seq<byte>, ys: seq<byte>)
    decreases |ys|
  {
    || xs == []
    || (ys != []
        && (|| (xs[|xs| - 1] == ys[|ys| - 1] && Subsequence(xs[..|xs| - 1], ys[..|ys| - 1]))
            || Subsequence(xs, ys[..|ys| - 1])))
  }

  lemma {:induction false} SubsequenceOfMore(xs: seq<byte>, ys: seq<byte>, d: seq<byte>)
    requires Subsequence(xs, ys)
    ensures Subsequence(xs, ys + d)
    decreases |d|
  {
    if d == [] {
      assert ys + d == ys;
    } else {
      SubsequenceOfMore(xs, ys, d[..|d| - 1]);
      assert (ys + d)[..|ys + d| - 1] == ys + d[..|d| - 1];
    }
  }

  lemma {:induction false} SubsequenceOfBoth(xs: seq<byte>, ys: seq<byte>, d: seq<byte>)
    requires Subsequence(xs, ys)
    ensures Subsequence(xs + d, ys + d)
    decreases |d|
  {
    if d == [] {
      assert ys + d == ys && xs + d == xs;
    } else {
      SubsequenceOfBoth(xs, ys, d[..|d| - 1]);
      assert (ys + d)[..|ys + d| - 1] == ys + d[..|d| - 1];
      assert (xs + d)[..|xs + d| - 1] == xs + d[..|d| - 1];
    }
  }

  lemma {:induction false} PrefixOfSubsequence(p: seq<byte>, xs: seq<byte>, ys: seq<byte>)
    requires p <= xs && Subsequence(xs, ys)
    ensures Subsequence(p, ys)
    decreases |ys|
  {
    if p == xs || p == [] {
    } else {
      var ys1 := ys[..|ys| - 1];
      if xs[|xs| - 1] == ys[|ys| - 1] && Subsequence(xs[..|xs| - 1], ys1) {
        PrefixOfSubsequence(p, xs[..|xs| - 1], ys1);
      } else {
        PrefixOfSubsequence(p, xs, ys1);
      }
    }
  }

  /** The bytes a station still accounts for: acknowledged, then queued. */
  function Stream(s: Station): seq<byte> { s.out.removed + s.out.queue }

  /** Bytes the host of one station has put into its queue, in order, over a run. */
  function Offered(l: ArqLink.Link, events: seq<Event>, byA: bool): seq<byte>
  {
    if events == [] then (if byA then Stream(l.a) else Stream(l.b))
    else
      var before := events[..|events| - 1];
      Offered(l, before, byA) + Accepted(Run(l, before), events[|events| - 1], byA)
  }

  function Accepted(l: ArqLink.Link, e: Event, byA: bool): seq<byte>
  {
    if e.Commands? && e.toA == byA then AcceptedBy(if byA then l.a else l.b, e.command) else []
  }

  function AcceptedBy(s: Station, c: HostCommand): seq<byte>
  {
    if c.SendBytes? && |s.out.queue| + |c.data| < QUEUE_LIMIT then c.data else []
  }

  /** Both what s accounts for and what r has passed on come from the offered bytes. */
  predicate FromOffered(s: Station, r: Station, offered: seq<byte>)
  {
    Subsequence(Stream(s), offered) && Subsequence(r.inn.delivered, offered)
  }

  lemma MovesStayFromOffered(s: Station, s': Station, offered: seq<byte>)
    requires Moves(s.out, s'.out) && Subsequence(Stream(s), offered)
    ensures Subsequence(Stream(s'), offered)
  {
    var o := s.out;
    if s'.out.removed == o.removed && (s'.out.queue == o.queue || s'.out.queue == []) {
      assert Stream(s') <= Stream(s);
      PrefixOfSubsequence(Stream(s'), Stream(s), offered);
    } else {
      var k := Min(o.inProcess, |o.queue|);
      assert o.queue == o.queue[..k] + o.queue[k..];
      assert Stream(s') == Stream(s);
    }
  }

  lemma DataMeansSending(s: Station, r: Station, f: Frame)
    requires Paired(s, r, Some(f), None) && IsData(f.ftype) && r.protocol == IRS
    ensures InSendingPhase(s)
  {
    hide Join, TablesOk, Collecting, NothingPassed, TypesAcked, HistoryOk, Passed, NotPassed, BlockCount, HasFrame;
  }

  lemma PairedIsSafe(s: Station, r: Station, toR: Option<Frame>, toS: Option<Frame>)
    requires Paired(s, r, toR, toS)
    ensures DirectionSafe(s, r) && DirectionSafe(r, s)
  {
    hide Lead, DirectionSafe;
    if Lead(s, r, toR, toS) { LeadIsSafe(s, r, toR, toS); } else { LeadIsSafe(r, s, toS, toR); }
  }

  /** Station s acts (hears or polls): both directions stay within what was offered. */
  lemma ActorStaysFromOffered(s: Station, r: Station, s': Station, toS: Option<Frame>, tx: Option<Frame>, offS: seq<byte>, offR: seq<byte>)
    requires Paired(s, r, None, toS) && Paired(s', r, tx, None)
    requires Moves(s.out, s'.out)
    requires s'.inn.delivered != s.inn.delivered ==> s.protocol == IRS && toS.Some? && IsData(toS.value.ftype)
    requires FromOffered(s, r, offS) && FromOffered(r, s, offR)
    ensures FromOffered(s', r, offS) && FromOffered(r, s', offR)
  {
    hide Paired, Moves, Subsequence;
    MovesStayFromOffered(s, s', offS);
    if s'.inn.delivered != s.inn.delivered {
      PairedTurns(s, r, None, toS);
      DataMeansSending(r, s, toS.value);
      PairedIsSafe(s', r, tx, None);
      PrefixOfSubsequence(s'.inn.delivered, Stream(r), offR);
    }
  }

  lemma PollStaysFromOffered(s: Station, r: Station, s': Station, offS: seq<byte>, offR: seq<byte>)
    requires Moves(s.out, s'.out) && s'.inn.delivered == s.inn.delivered
    requires FromOffered(s, r, offS) && FromOffered(r, s, offR)
    ensures FromOffered(s', r, offS) && FromOffered(r, s', offR)
  {
    hide Moves, Subsequence;
    MovesStayFromOffered(s, s', offS);
  }

  lemma PairedTurns(s: Station, r: Station, toR: Option<Frame>, toS: Option<Frame>)
    requires Paired(s, r, toR, toS)
    ensures Paired(r, s, toS, toR)
  {
    hide Lead;
  }

  lemma SenderStaysFromOffered(s: Station, r: Station, s': Station, d: seq<byte>, offS: seq<byte>)
    requires Commanded(s, s') && s'.out.queue == s.out.queue + d && FromOffered(s, r, offS)
    ensures FromOffered(s', r, offS + d)
  {
    assert Stream(s') == Stream(s) + d;
    SubsequenceOfBoth(Stream(s), offS, d);
    SubsequenceOfMore(r.inn.delivered, offS, d);
  }

  predicate LinkFromOffered(l: ArqLink.Link, offA: seq<byte>, offB: seq<byte>)
  {
    FromOffered(l.a, l.b, offA) && FromOffered(l.b, l.a, offB)
  }

  lemma QueueingAccepts(s: Station, data: seq<byte>)
    ensures QueueData(s, data).out.queue == s.out.queue + AcceptedBy(s, SendBytes(data))
  {
  }

  lemma CommandAccepts(s: Station, c: HostCommand)
    ensures Command(s, c).out.queue == s.out.queue + AcceptedBy(s, c)
  {
    hide QueueData;
    match c
    case SendBytes(data) => QueueingAccepts(s, data);
    case AskDisconnect => NothingOffered(s.out.queue);
    case AskBreak => NothingOffered(s.out.queue);
  }

  lemma CommandStaysFromOffered(s: Station, r: Station, c: HostCommand, offS: seq<byte>, offR: seq<byte>)
    requires FromOffered(s, r, offS) && FromOffered(r, s, offR)
    ensures FromOffered(Command(s, c), r, offS + AcceptedBy(s, c)) && FromOffered(r, Command(s, c), offR)
  {
    hide Command, Subsequence, AcceptedBy;
    CommandKinds(s, c);
    CommandAccepts(s, c);
    SenderStaysFromOffered(s, r, Command(s, c), AcceptedBy(s, c), offS);
  }

  lemma NothingOffered(off: seq<byte>)
    ensures off + [] == off
  {
  }

  lemma StepStaysFromOffered(l: ArqLink.Link, e: Event, offA: seq<byte>, offB: seq<byte>)
    requires Invariant(l) && LinkFromOffered(l, offA, offB)
    ensures LinkFromOffered(Step(l, e), offA + Accepted(l, e, true), offB + Accepted(l, e, false))
  {
    hide Hear, Poll, Command, Paired, FromOffered, Moves, AcceptedBy;
    StepKeepsInvariant(l, e);
    NothingOffered(offA);
    NothingOffered(offB);
    match e
    case Lost =>
    case Heard(now, rx) =>
      match l.air {
        case Clear =>
        case ToA(f) =>
          var o := Hear(l.a, now, f, rx);
          HearKeeps(l.a, now, f, rx);
          ActorStaysFromOffered(l.a, l.b, o.s, Some(f), o.tx, offA, offB);
        case ToB(f) =>
          var o := Hear(l.b, now, f, rx);
          HearKeeps(l.b, now, f, rx);
          PairedTurns(l.a, l.b, Some(f), None);
          PairedTurns(l.a, o.s, None, o.tx);
          ActorStaysFromOffered(l.b, l.a, o.s, Some(f), o.tx, offB, offA);
      }
    case Polled(byA, kind, now) =>
      PairedIsSound(l.a, l.b, ToBFrame(l), ToAFrame(l));
      if byA {
        PollMoves(l.a, kind, now);
        PollStaysFromOffered(l.a, l.b, Poll(l.a, kind, now).s, offA, offB);
      } else {
        PollMoves(l.b, kind, now);
        PollStaysFromOffered(l.b, l.a, Poll(l.b, kind, now).s, offB, offA);
      }
    case Commands(toA, c) =>
      if toA { CommandStaysFromOffered(l.a, l.b, c, offA, offB); } else { CommandStaysFromOffered(l.b, l.a, c, offB, offA); }
  }

  /** In every run, what each host receives is, in order and without repetition, part of what
      the other host put into its queue. */
  lemma {:induction false} HostsReceiveWhatWasOffered(l: ArqLink.Link, events: seq<Event>)
    requires Invariant(l) && l.a.inn.delivered == [] && l.b.inn.delivered == []
    ensures LinkFromOffered(Run(l, events), Offered(l, events, true), Offered(l, events, false))
  {
    if events == [] {
      StartsFromOffered(l);
    } else {
      hide Invariant, Step, LinkFromOffered, Accepted;
      var before := events[..|events| - 1];
      HostsReceiveWhatWasOffered(l, before);
      RunKeepsInvariant(l, before);
      StepStaysFromOffered(Run(l, before), events[|events| - 1], Offered(l, before, true), Offered(l, before, false));
    }
  }

  lemma StartsFromOffered(l: ArqLink.Link)
    requires l.a.inn.delivered == [] && l.b.inn.delivered == []
    ensures LinkFromOffered(l, Stream(l.a), Stream(l.b))
  {
    SubsequenceOfBoth([], [], Stream(l.a));
    SubsequenceOfBoth([], [], Stream(l.b));
    assert [] + Stream(l.a) == Stream(l.a) && [] + Stream(l.b) == Stream(l.b);
  }

  // ---------- room in the queue ----------

  predicate BelowLimit(s: Station) { |s.out.queue| < QUEUE_LIMIT }

  lemma MovesStayBelowLimit(s: Station, s': Station)
    requires BelowLimit(s) && Moves(s.out, s'.out)
    ensures BelowLimit(s')
  {
  }

  lemma CommandStaysBelowLimit(s: Station, c: HostCommand)
    requires BelowLimit(s)
    ensures BelowLimit(Command(s, c))
  {
  }

  lemma StepStaysBelowLimit(l: ArqLink.Link, e: Event)
    requires Invariant(l) && BelowLimit(l.a) && BelowLimit(l.b)
    ensures BelowLimit(Step(l, e).a) && BelowLimit(Step(l, e).b)
  {
    hide Hear, Poll, Command, Paired, Moves, BelowLimit;
    match e
    case Lost =>
    case Heard(now, rx) =>
      match l.air {
        case Clear =>
        case ToA(f) =>
          HearKeeps(l.a, now, f, rx);
          MovesStayBelowLimit(l.a, Hear(l.a, now, f, rx).s);
        case ToB(f) =>
          HearKeeps(l.b, now, f, rx);
          MovesStayBelowLimit(l.b, Hear(l.b, now, f, rx).s);
      }
    case Polled(byA, kind, now) =>
      PairedIsSound(l.a, l.b, ToBFrame(l), ToAFrame(l));
      PollMoves(l.a, kind, now);
      PollMoves(l.b, kind, now);
      MovesStayBelowLimit(l.a, Poll(l.a, kind, now).s);
      MovesStayBelowLimit(l.b, Poll(l.b, kind, now).s);
    case Commands(toA, c) =>
      if toA { CommandStaysBelowLimit(l.a, c); } else { CommandStaysBelowLimit(l.b, c); }
  }

  /** In every run both queues stay inside the buffer they are kept in. */
  lemma {:induction false} QueuesStayBelowLimit(l: ArqLink.Link, events: seq<Event>)
    requires Invariant(l) && BelowLimit(l.a) && BelowLimit(l.b)
    ensures BelowLimit(Run(l, events).a) && BelowLimit(Run(l, events).b)
  {
    hide Invariant, Step, BelowLimit;
    if events == [] {
    } else {
      var before := events[..|events| - 1];
      QueuesStayBelowLimit(l, before);
      RunKeepsInvariant(l, before);
      StepStaysBelowLimit(Run(l, before), events[|events| - 1]);
    }
  }

  // ---------- from a call on ----------

  /** In every run that a call starts: blocks held are the sender's, and the link changes hands
      only after it has been yielded. */
  lemma EveryRunIsSound(a: Station, b: Station, now: int, request: byte, events: seq<Event>, e: Event)
    requires Unused(a) && Unused(b) && IsConReq(request)
    ensures var l := Run(Started(a, b, now, request), events);
            && MemorySound(l.a, l.b) && MemorySound(l.b, l.a)
            && (l.a.protocol == IRStoISS && Master(Step(l, e).a) ==> l.b.protocol == IRS && Step(l, e).b.protocol == IRS)
            && (l.b.protocol == IRStoISS && Master(Step(l, e).b) ==> l.a.protocol == IRS && Step(l, e).a.protocol == IRS)
  {
    hide Started, Invariant, MemorySound, Step;
    StartedIsInvariant(a, b, now, request);
    RunKeepsInvariant(Started(a, b, now, request), events);
    MemoryArqIsSound(Run(Started(a, b, now, request), events));
    TakesOverOnlyAfterYield(Run(Started(a, b, now, request), events), e);
  }

  /** In every run that a call starts, each host is given a subsequence of what the other offered. */
  lemma CallDeliversWhatWasOffered(a: Station, b: Station, now: int, request: byte, events: seq<Event>)
    requires Unused(a) && Unused(b) && IsConReq(request)
    ensures var l := Started(a, b, now, request);
            && Subsequence(Run(l, events).a.inn.delivered, Offered(l, events, false))
            && Subsequence(Run(l, events).b.inn.delivered, Offered(l, events, true))
  {
    StartedIsInvariant(a, b, now, request);
    hide Invariant, Run, Offered, Subsequence;
    HostsReceiveWhatWasOffered(Started(a, b, now, request), events);
  }
}
