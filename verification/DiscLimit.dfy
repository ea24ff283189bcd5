/** What whole runs of the link keep about timeouts and repeats: the timeout flag follows the send
    timeout, what a station repeats is a DISC only when it is disconnecting, and it sends at most five
    DISC frames each time it is asked to disconnect (ext/ardop1/ARQ.c, GetNextARQFrame). */
module DiscLimit {
  import opened Frames
  import opened Options
  import opened Gear
  import opened ArqStation
  import opened ArqLink
  import opened DeadPeer

  // ---------- what hearing a frame leaves alone ----------

  /** A disconnect that was asked for has begun, with its first DISC. */
  predicate Begun(s: Station, s': Station)
  {
    s.disconnect && !s'.disconnect && s'.discRepeating && s'.repeatCount == 1
  }

  /** A data frame just built from the queue goes out. */
  predicate SendsSlice(o: Outcome)
  {
    && o.s.protocol == ISS && o.s.substate == ISSData && !o.s.discRepeating
    && o.tx == Some(o.s.out.record)
  }

  /** The timeouts stay as they are, and no DISC is sent or left to send but those asked for. */
  predicate Kept(s: Station, o: Outcome)
  {
    && o.s.timeoutTriggered == s.timeoutTriggered && o.s.sendTimeout == s.sendTimeout
    && (o.s.disconnect ==> s.disconnect)
    && (Begun(s, o.s)
        || ((o.s.discRepeating ==> s.discRepeating && o.s.repeatCount == s.repeatCount)
            && (Discs(o.tx) == 0 || SendsSlice(o))))
  }

  lemma KeptTwice(s: Station, s1: Station, o: Outcome)
    requires Kept(s, Quiet(s1)) && Kept(s1, o)
    ensures Kept(s, o)
  {
    hide Discs;
  }

  lemma QuietKeeps(s: Station)
    ensures Kept(s, Quiet(s))
  {
  }

  lemma SetStateKeeps(s: Station, p: Protocol)
    ensures Kept(s, Quiet(SetState(s, p)))
  {
    match p {
      case DISC => return;
      case ISS => return;
      case IRS => return;
      case IDLE => return;
      case IRStoISS => return;
    }
  }

  lemma InitKeeps(s: Station)
    ensures Kept(s, Quiet(InitConnection(s))) && Kept(s, Quiet(ClearQueue(s)))
  {
  }

  lemma DisconnectKeeps(s: Station)
    requires s.disconnect
    ensures Kept(s, StartDisconnect(s))
  {
  }

  lemma IdlingStartKeeps(s: Station, now: int)
    ensures Kept(s, StartIdling(s, now))
  {
    hide SetState;
    SetStateKeeps(s, IDLE);
  }

  lemma SendingKeeps(s: Station, now: int)
    ensures Kept(s, SendData(s, now))
  {
    hide NextDataFrame, BlockCount, BlockLen, Applied, StartIdling;
    if s.discRepeating || s.protocol != ISS {
      return;
    } else if s.disconnect {
      return;
    } else if |s.out.queue| > 0 {
      return;
    } else {
      IdlingStartKeeps(s, now);
      return;
    }
  }

  lemma YieldingKeeps(s: Station, now: int, lastType: int)
    ensures Kept(s, YieldLink(s, now, lastType)) && Kept(s, AskForLink(s))
  {
    hide SetState, ScaledQuality;
    SetStateKeeps(s.(repeat := false, timeoutTrip := now), IRS);
    SetStateKeeps(s, IRStoISS);
  }

  lemma ClosingKeeps(s: Station)
    ensures Kept(s, Quiet(CloseSession(s))) && Kept(s, Quiet(EndIdling(s)))
    ensures Kept(s, Quiet(InitConnection(SetState(s, DISC))))
  {
    hide SetState, InitConnection, ClearQueue;
    var s0 := s.(discRepeating := false);
    InitKeeps(s0);
    SetStateKeeps(ClearQueue(s0), DISC);
    InitKeeps(SetState(ClearQueue(s0), DISC));
    SetStateKeeps(s, DISC);
    InitKeeps(SetState(s, DISC));
  }

  lemma TransmitKeeps(s: Station, s1: Station, f: Frame)
    requires Kept(s, Quiet(s1)) && f.ftype != DISCFRAME
    ensures Kept(s, Transmit(s1, f))
  {
  }

  lemma AcceptingKeeps(s: Station, now: int, reply: Negotiation)
    ensures Kept(s, AcceptCall(s, now, reply))
  {
    hide SetState, InitConnection, Kept, Answering;
    var s1 := InitConnection(s);
    var s2 := SetState(s1, IRS);
    InitKeeps(s);
    SetStateKeeps(s1, IRS);
    KeptTwice(s, s1, Quiet(s2));
    AnsweringKeeps(s2, now, reply);
    KeptTwice(s, s2, Answering(ClearQueue(s2), now, reply));
  }

  lemma AnsweringKeeps(s: Station, now: int, reply: Negotiation)
    ensures Kept(s, Answering(ClearQueue(s), now, reply))
  {
    assert IsConAck(reply) || reply == CONREJBW;
  }

  lemma CallsKeep(s: Station, now: int, t: byte, ok: bool, rx: Rx)
    ensures Kept(s, ReceiveDISC(s, now, t, ok, rx))
  {
    hide AcceptCall;
    if rx.reply != CONREJBW { AcceptingKeeps(s, now, rx.reply); }
  }

  lemma AnswersKeep(s: Station, now: int, t: byte, ok: bool, rx: Rx)
    ensures Kept(s, ReceiveIRSConAck(s, now, t, ok, rx))
  {
    hide AcceptCall, Connected;
    if !ok {
      return;
    } else if IsConReq(t) {
      if rx.reply != CONREJBW { AcceptingKeeps(s, now, rx.reply); }
      return;
    } else if IsConAck(t) {
      ConnectedKeeps(s, now, t, rx.quality);
      return;
    }
  }

  lemma ConnectedKeeps(s: Station, now: int, t: byte, q: Quality)
    ensures Kept(s, Connected(s, now, t, q))
  {
    hide AckFrame, Bandwidth, Initialised;
    ReplyIsNoDisc(q);
  }

  lemma ReplyIsNoDisc(q: Quality)
    ensures AckFrame(q).ftype != DISCFRAME && NakFrame(q).ftype != DISCFRAME
  {
  }

  lemma HearIdleKeeps(s: Station, now: int)
    ensures Kept(s, HearIdleFrame(s, now))
  {
    hide AskForLink, AckFrame;
    ReplyIsNoDisc(100);
    YieldingKeeps(s, now, 0);
  }

  lemma ReceivingKeeps(s: Station, now: int, t: byte, data: seq<byte>, ok: bool, rx: Rx)
    ensures Kept(s, ReceiveIRSData(s, now, t, data, ok, rx))
  {
    hide CloseSession, HearIdleFrame, ReceiveGoodData, AckFrame, NakFrame, Bandwidth, Kept;
    ReplyIsNoDisc(rx.quality);
    ReplyIsNoDisc(100);
    QuietKeeps(s);
    FlagsKeep(s, now, Bandwidth(t));
    if IsConAck(t) {
      TransmitKeeps(s, s.(bw := Bandwidth(t), timeoutTrip := now), AckFrame(rx.quality));
      return;
    } else if ok && (t == DISCFRAME || t == END) {
      ClosingKeeps(s);
      TransmitKeeps(s, CloseSession(s), Control(END));
      return;
    } else if ok && t == BREAK {
      TransmitKeeps(s, s.(repeat := false, timeoutTrip := now), AckFrame(100));
      return;
    } else if ok && t == IDLEFRAME {
      HearIdleKeeps(s, now);
      return;
    } else if ok && IsData(t) {
      GoodDataKeeps(s, now, t, data, rx);
      return;
    } else if !ok && t == s.inn.lastACKed {
      TransmitKeeps(s, s.(repeat := false), AckFrame(rx.quality));
      return;
    } else if !ok && IsData(t) {
      TransmitKeeps(s, s.(substate := IRSData, repeat := false), NakFrame(rx.quality));
      return;
    }
  }

  lemma FlagsKeep(s: Station, now: int, bw: int)
    ensures Kept(s, Quiet(s.(bw := bw, timeoutTrip := now))) && Kept(s, Quiet(s.(repeat := false, timeoutTrip := now)))
    ensures Kept(s, Quiet(s.(repeat := false))) && Kept(s, Quiet(s.(substate := IRSData, repeat := false)))
  {
  }

  lemma GoodDataKeeps(s: Station, now: int, t: byte, data: seq<byte>, rx: Rx)
    ensures Kept(s, ReceiveGoodData(s, now, t, data, rx))
  {
    hide AckFrame, AskForLink, PassedOn;
    ReplyIsNoDisc(rx.quality);
    PassingKeeps(s, now, t, data);
    YieldingKeeps(s.(timeoutTrip := now, breakCmd := false), now, 0);
  }

  lemma PassingKeeps(s: Station, now: int, t: byte, data: seq<byte>)
    ensures Kept(s, Quiet(PassedOn(s, now, t, data)))
  {
  }

  lemma IdlingKeeps(s: Station, now: int, t: byte, ok: bool)
    ensures Kept(s, ReceiveIDLE(s, now, t, ok))
  {
    hide SendData, YieldLink, SetState, EndIdling, Kept;
    QuietKeeps(s);
    ClosingKeeps(s);
    if !ok {
      return;
    } else if IsAck(t) && |s.out.queue| > 0 {
      SetStateKeeps(s, ISS);
      SubstateKeeps(s, SetState(s, ISS));
      var s1 := SetState(s, ISS).(substate := ISSData);
      SendingKeeps(s1, now);
      KeptTwice(s, s1, SendData(s1, now));
      return;
    } else if t == BREAK {
      YieldingKeeps(s, now, -1);
      return;
    } else if t == DISCFRAME {
      TransmitKeeps(s, EndIdling(s), Control(END));
      return;
    } else {
      return;
    }
  }

  lemma SubstateKeeps(s: Station, s1: Station)
    requires Kept(s, Quiet(s1))
    ensures Kept(s, Quiet(s1.(substate := ISSData))) && Kept(s, Quiet(s1.(repeat := s.repeat)))
  {
  }

  lemma AckedKeeps(s: Station, level: int)
    ensures Kept(s, Quiet(Acknowledged(s, level)))
  {
    hide Reported, TakenOff;
  }

  lemma SenderAckKeeps(s: Station, now: int, t: byte)
    requires IsAck(t)
    ensures var s1 := if s.out.sentData then Acknowledged(s, t - 0xE0) else s;
            Kept(s, SendData(s1.(timeoutTrip := now, gear := s1.gear.(naks := 0), repeat := false), now))
  {
    hide SendData, Acknowledged;
    AckedKeeps(s, t - 0xE0);
    var s1 := if s.out.sentData then Acknowledged(s, t - 0xE0) else s;
    var s2 := s1.(timeoutTrip := now, gear := s1.gear.(naks := 0), repeat := false);
    SendingKeeps(s2, now);
    KeptTwice(s, s2, SendData(s2, now));
  }

  lemma SenderNakKeeps(s: Station, now: int, t: byte)
    requires IsNak(t) && !s.disconnect
    ensures Kept(s, ReceiveISSData(s, now, t, true))
  {
    hide SendData, Reported, Kept;
    var g := Reported(s.gear.(naks := s.gear.naks + 1), t, |s.out.queue|);
    QuietKeeps(s);
    GearKeeps(s, Quiet(s), g.(acks := 0), s.timeoutTrip);
    GearKeeps(s, Quiet(s), g.(naks := 0), now);
    var s1 := s.(gear := g.(naks := 0), timeoutTrip := now);
    SendingKeeps(s1, now);
    KeptTwice(s, s1, SendData(s1, now));
    var o := SendData(s1, now);
    GearKeeps(s, o, o.s.gear.(acks := 0), o.s.timeoutTrip);
  }

  lemma GearKeeps(s: Station, o: Outcome, g: Gears, trip: int)
    requires Kept(s, o)
    ensures Kept(s, o.(s := o.s.(gear := g, timeoutTrip := trip)))
  {
  }

  lemma FirstAckedKeeps(s: Station)
    ensures Kept(s, Quiet(ClearQueue(s.(gear := s.gear.(naks := 0)))))
    ensures Kept(s, Quiet(FirstAcked(s))) && Kept(s, Quiet(ClearQueue(FirstAcked(s))))
  {
  }

  lemma SenderKeeps(s: Station, now: int, t: byte, ok: bool)
    ensures Kept(s, ReceiveISSData(s, now, t, ok))
  {
    hide SendData, YieldLink, CloseSession, Acknowledged, Reported, Kept, StartDisconnect;
    QuietKeeps(s);
    ClosingKeeps(s);
    if s.disconnect {
      DisconnectKeeps(s);
      return;
    } else if !ok {
      return;
    } else if IsAck(t) {
      SenderAckKeeps(s, now, t);
      return;
    } else if t == BREAK {
      var s1 := ClearQueue(s.(gear := s.gear.(naks := 0)));
      FirstAckedKeeps(s);
      YieldingKeeps(s1, now, t);
      KeptTwice(s, s1, YieldLink(s1, now, t));
      return;
    } else if IsNak(t) {
      SenderNakKeeps(s, now, t);
      return;
    } else if t == DISCFRAME {
      TransmitKeeps(s, CloseSession(s), Control(END));
      return;
    } else if t == END {
      SubstateKeeps(s, CloseSession(s));
      return;
    } else {
      return;
    }
  }

  lemma ConfirmingKeeps(s: Station, now: int, t: byte, ok: bool)
    ensures Kept(s, ReceiveISSConAck(s, now, t, ok))
  {
    hide SendData, YieldLink, SetState, InitConnection, FirstAcked, ClearQueue, Kept;
    QuietKeeps(s);
    if (ok && IsAck(t)) || t == BREAK {
      var s1 := FirstAcked(s);
      FirstAckedKeeps(s);
      YieldingKeeps(ClearQueue(s1), now, t);
      KeptTwice(s, ClearQueue(s1), YieldLink(ClearQueue(s1), now, t));
      SendingKeeps(s1, now);
      KeptTwice(s, s1, SendData(s1, now));
      return;
    } else {
      ClosingKeeps(s);
      return;
    }
  }

  lemma CallingKeeps(s: Station, t: byte, ok: bool)
    ensures Kept(s, ReceiveISSConReq(s, t, ok))
  {
    hide Initialised, Bandwidth;
  }

  lemma ProcessKeeps(s: Station, now: int, t: byte, data: seq<byte>, ok: bool, rx: Rx)
    ensures Kept(s, ProcessFrame(s, now, t, data, ok, rx))
  {
    hide ReceiveDISC, ReceiveIRSConAck, ReceiveIRSData, ReceiveIDLE, ReceiveISSConReq, ReceiveISSConAck, ReceiveISSData, Kept;
    QuietKeeps(s);
    CallsKeep(s, now, t, ok, rx);
    AnswersKeep(s, now, t, ok, rx);
    ReceivingKeeps(s, now, t, data, ok, rx);
    IdlingKeeps(s, now, t, ok);
    SenderKeeps(s, now, t, ok);
    ConfirmingKeeps(s, now, t, ok);
    CallingKeeps(s, t, ok);
  }

  lemma TakingKeeps(s: Station, now: int)
    ensures Kept(s, TakeLink(s, now))
  {
    hide SendData, Initialised;
    var s2 := SetState(ReadyToTake(s), ISS).(substate := ISSData);
    SendingKeeps(s2, now);
    KeptTwice(s, s2, SendData(s2, now));
  }

  lemma LongKeeps(s: Station, breaksIn: bool, now: int, f: Frame, rx: Rx)
    ensures Kept(s, AnswerLong(s, breaksIn, now, f, rx))
  {
    hide ProcessFrame, Collected, AllHeld, AskForLink;
    if breaksIn {
      YieldingKeeps(s.(breakCmd := false), now, 0);
      return;
    } else if (s.protocol == IRStoISS && IsData(f.ftype)) || s.timeoutTriggered {
      return;
    } else {
      var n := BlockCount(f.ftype);
      ProcessKeeps(s, now, f.ftype, Collected(s.inn, n), if IsData(f.ftype) then AllHeld(s.inn, n) else rx.intact, rx);
      return;
    }
  }

  lemma HearingKeeps(s: Station, now: int, f: Frame, rx: Rx)
    ensures Kept(s, Hear(s, now, f, rx))
  {
    hide ProcessFrame, TakeLink, Demodulated, NewCollection, AnswerLong, SkipsDecode, BreaksIn;
    if IsShortControl(f.ftype) {
      TakingKeeps(s, now);
      ProcessKeeps(s, now, f.ftype, [], true, rx);
      return;
    }
    var r := NewCollection(s.inn, f.ftype);
    var s1 := s.(inn := if IsData(f.ftype) && !(IsFsk(f.ftype) && SkipsDecode(s, f.ftype)) then Demodulated(r, f, rx) else r);
    LongKeeps(s1, BreaksIn(s, f.ftype), now, f, rx);
  }

  // ---------- over whole runs ----------

  lemma KeptIsTimed(s: Station, o: Outcome)
    requires Kept(s, o) && Timed(s)
    ensures Timed(o.s)
  {
  }

  lemma PollKeepsTimed(s: Station, kind: PollKind, now: nat)
    requires Timed(s)
    ensures Timed(Poll(s, kind, now).s)
  {
    hide RepeatPoll, MainPoll, SendTimeoutPoll, PendingPoll, GetNextARQFrame, Timed, Rank;
    match kind
    case RepeatTimer => RepeatRanks(s, now); return;
    case SendTimer => SendTimeoutRanks(s, now); return;
    case PendingTimer => PendingRanks(s, now); return;
    case MainLoop => MainRanks(s, now); return;
    case Abort => AbortKeepsTimed(s, now); return;
  }

  lemma AbortKeepsTimed(s: Station, now: nat)
    requires Timed(s)
    ensures Timed(HostAbort(s, now).s)
  {
    hide GetNextARQFrame, Rank;
    NextFrameRanks(s.(abort := true), now);
  }

  lemma StepKeepsTimed(l: ArqLink.Link, e: Event)
    requires Timed(l.a) && Timed(l.b)
    requires e.Polled? ==> e.when >= 0
    ensures Timed(Step(l, e).a) && Timed(Step(l, e).b)
  {
    hide Hear, Poll, Command, Kept;
    match e
    case Lost =>
    case Heard(now, rx) =>
      if l.air.ToA? {
        HearingKeeps(l.a, now, l.air.frame, rx);
        KeptIsTimed(l.a, Hear(l.a, now, l.air.frame, rx));
      }
      if l.air.ToB? {
        HearingKeeps(l.b, now, l.air.frame, rx);
        KeptIsTimed(l.b, Hear(l.b, now, l.air.frame, rx));
      }
    case Polled(byA, kind, now) =>
      if byA { PollKeepsTimed(l.a, kind, now); } else { PollKeepsTimed(l.b, kind, now); }
    case Commands(toA, c) =>
      CommandKinds(l.a, c);
      CommandKinds(l.b, c);
  }

  /** In every run of the link from two stations whose timers are in order, they stay so. */
  lemma {:induction false} RunKeepsTimed(l: ArqLink.Link, events: seq<Event>)
    requires Timed(l.a) && Timed(l.b)
    requires forall e :: e in events && e.Polled? ==> e.when >= 0
    ensures Timed(Run(l, events).a) && Timed(Run(l, events).b)
  {
    if events == [] {
    } else {
      hide Step, Timed;
      var before := events[..|events| - 1];
      assert events[|events| - 1] in events;
      RunKeepsTimed(l, before);
      StepKeepsTimed(Run(l, before), events[|events| - 1]);
    }
  }

  lemma StartedIsTimed(a: Station, b: Station, now: int, request: byte)
    requires IsConReq(request) && Timed(a) && Timed(b)
    ensures var l := Started(a, b, now, request); Timed(l.a) && Timed(l.b)
  {
  }

  /** In every phase of a session what a station would repeat is no DISC unless it is disconnecting. */
  lemma LeadRepeatsNoDisc(s: Station, r: Station, toR: Option<Frame>, toS: Option<Frame>)
    requires Lead(s, r, toR, toS) && Timed(s) && Timed(r)
    ensures RepeatsNoDisc(s) && RepeatsNoDisc(r)
  {
  }

  /** The premise under which a silence costs at most five DISC frames holds in every state of
      every run that a call starts. */
  lemma RunRepeatsNoDisc(a: Station, b: Station, now: int, request: byte, events: seq<Event>)
    requires Unused(a) && Unused(b) && IsConReq(request)
    requires Timed(a) && Timed(b)
    requires forall e :: e in events && e.Polled? ==> e.when >= 0
    ensures var l := Run(Started(a, b, now, request), events); RepeatsNoDisc(l.a) && RepeatsNoDisc(l.b)
  {
    hide Run, Timed, RepeatsNoDisc, Lead, Started;
    var l := Started(a, b, now, request);
    StartedIsInvariant(a, b, now, request);
    StartedIsTimed(a, b, now, request);
    RunKeepsInvariant(l, events);
    RunKeepsTimed(l, events);
    var u := Run(l, events);
    if Lead(u.a, u.b, ToBFrame(u), ToAFrame(u)) {
      LeadRepeatsNoDisc(u.a, u.b, ToBFrame(u), ToAFrame(u));
    } else {
      LeadRepeatsNoDisc(u.b, u.a, ToAFrame(u), ToBFrame(u));
    }
  }

  /** A silence that begins in any state of any run costs at most five DISC frames. */
  lemma SilenceAfterRun(a: Station, b: Station, now: int, request: byte, events: seq<Event>, ticks: seq<Tick>)
    requires Unused(a) && Unused(b) && IsConReq(request) && Timed(a) && Timed(b)
    requires forall e :: e in events && e.Polled? ==> e.when >= 0
    ensures var l := Run(Started(a, b, now, request), events);
            FramesSent(l.a, ticks, DISCFRAME) <= DISC_TRIES && FramesSent(l.b, ticks, DISCFRAME) <= DISC_TRIES
  {
    hide Run, Timed, RepeatsNoDisc, Started, FramesSent;
    RunRepeatsNoDisc(a, b, now, request, events);
    var l := Run(Started(a, b, now, request), events);
    AtMostFiveDiscs(l.a, ticks);
    AtMostFiveDiscs(l.b, ticks);
  }

  // ---------- how many DISC frames a run sends ----------

  function Side(l: ArqLink.Link, a: bool): Station { if a then l.a else l.b }

  /** What one of the stations transmits in a step, other than the DISC that announces the send timeout. */
  function SentBy(l: ArqLink.Link, e: Event, a: bool): Option<Frame>
  {
    match e
    case Lost => None
    case Commands(_, _) => None
    case Heard(now, rx) =>
      if a && l.air.ToA? then Hear(l.a, now, l.air.frame, rx).tx
      else if !a && l.air.ToB? then Hear(l.b, now, l.air.frame, rx).tx
      else None
    case Polled(byA, kind, now) =>
      if byA == a && !Transmits(l, a) && kind != SendTimer then Poll(Side(l, a), kind, now).tx else None
  }

  function DiscsSent(l: ArqLink.Link, events: seq<Event>, a: bool): nat
  {
    if events == [] then 0
    else
      var before := events[..|events| - 1];
      DiscsSent(l, before, a) + Discs(SentBy(Run(l, before), events[|events| - 1], a))
  }

  predicate AsksDisconnect(e: Event, a: bool) { e.Commands? && e.toA == a && e.command == AskDisconnect }

  function Asked(events: seq<Event>, a: bool): nat
  {
    if events == [] then 0
    else Asked(events[..|events| - 1], a) + if AsksDisconnect(events[|events| - 1], a) then 1 else 0
  }

  lemma KeptSpends(s: Station, o: Outcome)
    requires Kept(s, o)
    ensures Promised(o.s) + (if SendsSlice(o) then 0 else Discs(o.tx)) <= Promised(s)
  {
  }

  /** A data frame is none of the DISC frames: its type is one of data. */
  lemma SliceIsNoDisc(o: Outcome, r: Station)
    requires Paired(o.s, r, o.tx, None) && SendsSlice(o)
    ensures Discs(o.tx) == 0
  {
  }

  lemma HearingSpends(s: Station, r: Station, f: Frame, now: int, rx: Rx)
    requires Paired(s, r, None, Some(f))
    ensures var o := Hear(s, now, f, rx); Promised(o.s) + Discs(o.tx) <= Promised(s)
  {
    hide Hear, Lead, Promised, Discs, Kept, SendsSlice;
    var o := Hear(s, now, f, rx);
    if Lead(s, r, None, Some(f)) { LeaderHears(s, r, f, now, rx); } else { FollowerHears(r, s, f, now, rx); }
    HearingKeeps(s, now, f, rx);
    KeptSpends(s, o);
    if SendsSlice(o) { SliceIsNoDisc(o, r); }
  }

  lemma PollSpends(s: Station, kind: PollKind, now: nat)
    requires RepeatsNoDisc(s)
    ensures var o := Poll(s, kind, now); Promised(o.s) + (if kind == SendTimer then 0 else Discs(o.tx)) <= Promised(s)
  {
    hide Poll, Promised, Discs, RepeatsNoDisc;
    PollDiscs(s, Tick(kind, now));
  }

  lemma CommandSpends(s: Station, c: HostCommand)
    ensures Promised(Command(s, c)) <= Promised(s) + if c == AskDisconnect then DISC_TRIES else 0
  {
  }

  lemma StepSpends(l: ArqLink.Link, e: Event, a: bool)
    requires Invariant(l) && RepeatsNoDisc(l.a) && RepeatsNoDisc(l.b)
    requires e.Polled? ==> e.when >= 0
    ensures Promised(Side(Step(l, e), a)) + Discs(SentBy(l, e, a))
         <= Promised(Side(l, a)) + if AsksDisconnect(e, a) then DISC_TRIES else 0
  {
    hide Hear, Poll, Command, Promised, RepeatsNoDisc, Lead;
    match e
    case Lost =>
    case Heard(now, rx) =>
      match l.air {
        case Clear =>
        case ToA(f) => if a { HearingSpends(l.a, l.b, f, now, rx); }
        case ToB(f) => if !a { HearingSpends(l.b, l.a, f, now, rx); }
      }
    case Polled(byA, kind, now) => PollSpends(Side(l, a), kind, now);
    case Commands(toA, c) => CommandSpends(Side(l, a), c);
  }

  /** In every run that a call starts, whatever is received, lost, polled and commanded, a station sends
      at most five DISC frames each time its host asks it to disconnect, besides what it still had to
      send at the start. */
  lemma {:induction false} FiveDiscsPerRequest(a: Station, b: Station, now: int, request: byte, events: seq<Event>, byA: bool)
    requires Unused(a) && Unused(b) && IsConReq(request) && Timed(a) && Timed(b)
    requires forall e :: e in events && e.Polled? ==> e.when >= 0
    ensures var l := Started(a, b, now, request);
            Promised(Side(Run(l, events), byA)) + DiscsSent(l, events, byA)
            <= Promised(Side(l, byA)) + DISC_TRIES * Asked(events, byA)
  {
    if events == [] {
    } else {
      hide Step, Timed, RepeatsNoDisc, Started, Promised, SentBy, Side, Discs, Invariant, Unused;
      var l, before, e := Started(a, b, now, request), events[..|events| - 1], events[|events| - 1];
      assert e in events;
      FiveDiscsPerRequest(a, b, now, request, before, byA);
      StartedIsInvariant(a, b, now, request);
      RunKeepsInvariant(l, before);
      RunRepeatsNoDisc(a, b, now, request, before);
      StepSpends(Run(l, before), e, byA);
    }
  }
}
