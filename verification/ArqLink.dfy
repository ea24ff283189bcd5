/** Two stations on a half-duplex link that loses frames and corrupts blocks. A station
    transmits to completion before it does anything else, and misses what is on its way to
    it when it begins to transmit, so at most one frame is on the air; it is lost, or heard
    with any subset of its blocks intact. */
module ArqLink {
  import opened Frames
  import opened Options
  import opened Gear
  import opened ArqStation

  // ---------- relations between a sending station s and a receiving station r ----------

  /** Content of the last data frame s built from its queue. */
  function Payload(s: Station): seq<byte> { Join(s.out.record.blocks) }

  /** Everything acknowledged to s has been passed to r's host, and nothing else. */
  predicate Level(s: Station, r: Station) { r.inn.delivered == s.out.removed }

  /** ... or exactly one frame content more. */
  predicate WithinOne(s: Station, r: Station)
  {
    Level(s, r) || r.inn.delivered == s.out.removed + Payload(s)
  }

  predicate OfParity(t: int, odd: bool) { 0 <= t < 256 && IsData(t) ==> IsOdd(t) == odd }

  predicate NotData(t: int) { 0 <= t < 256 ==> !IsData(t) }

  predicate NothingPassed(r: Station)
  {
    r.inn.lastToHost == -1 && r.inn.lastACKed == 0 && NotData(r.inn.lastType)
  }

  /** What r remembers of types belongs to frames that s has had acknowledged. */
  predicate TypesAcked(s: Station, r: Station)
  {
    OfParity(r.inn.lastToHost, IsOdd(s.out.lastAcked)) && OfParity(r.inn.lastACKed, IsOdd(s.out.lastAcked))
  }

  predicate Receiving(r: Station)
  {
    r.protocol == IRS && (r.substate == IRSData || r.substate == IRSfromISS) && Ready(r.gear)
  }

  /** Every block the receiver holds is the block of that carrier in frame f. */
  predicate HoldsBlocksOf(r: Receiver, f: Frame)
  {
    forall c :: 0 <= c < BlockCount(f.ftype) && HeldAt(r, c) ==> BlockAt(r.frameData, c) == BlockAt(f.blocks, c)
  }

  predicate Collecting(r: Receiver, f: Frame)
  {
    |r.frameData| == CARRIERS && (r.lastType == f.ftype ==> HoldsBlocksOf(r, f))
  }

  /** What r still holds under the type of the last data frame is that frame's. */
  predicate HoldsLastSent(s: Station, r: Station)
  {
    IsData(s.out.lastSent) && r.inn.lastType == s.out.lastSent ==>
      s.out.record.ftype == s.out.lastSent && HoldsBlocksOf(r.inn, s.out.record)
  }

  /** The frame in process has been passed to the host of r. */
  predicate Passed(s: Station, r: Station)
  {
    var t := s.out.lastSent;
    && r.inn.lastToHost == t && r.inn.lastACKed == t && r.inn.lastType == t
    && r.inn.delivered == s.out.removed + Payload(s)
  }

  /** The frame in process has not been passed to the host of r. */
  predicate NotPassed(s: Station, r: Station)
  {
    Level(s, r) && TypesAcked(s, r)
  }

  /** s has a data frame in process, encoded from the head of its queue. */
  predicate HasFrame(s: Station)
  {
    var o := s.out;
    && o.sentData && s.encoded == o.record && o.record.ftype == o.lastSent
    && IsData(o.lastSent) && IsOdd(o.lastSent) != IsOdd(o.lastAcked)
    && 0 < o.inProcess <= |o.queue| && o.queue[..o.inProcess] == Payload(s)
    && |o.record.blocks| == BlockCount(o.lastSent)
    && Ready(s.gear) && s.gear.shift == 0 && s.gear.current == Even(o.lastSent)
  }

  // ---------- what may be on the air ----------

  predicate Silent(x: Option<Frame>) { x.None? }
  predicate IsType(x: Option<Frame>, t: byte) { x == Some(Control(t)) }
  predicate IsAckFrame(x: Option<Frame>) { x.Some? && IsAck(x.value.ftype) }
  predicate IsNakFrame(x: Option<Frame>) { x.Some? && IsNak(x.value.ftype) }
  predicate IsConAckFrame(x: Option<Frame>) { x.Some? && IsConAck(x.value.ftype) }
  predicate IsConReqFrame(x: Option<Frame>) { x.Some? && IsConReq(x.value.ftype) }
  predicate Ending(x: Option<Frame>) { Silent(x) || IsType(x, DISCFRAME) || IsType(x, END) || IsType(x, CONREJBW) }

  /** Frames that a station which is not sending transmits. */
  predicate Reply(x: Option<Frame>)
  {
    Ending(x) || IsType(x, BREAK) || IsAckFrame(x) || IsNakFrame(x) || IsConAckFrame(x)
  }

  // ---------- the phases of a session ----------

  /** s is calling; r is idle or has answered. */
  predicate Calling(s: Station, r: Station, toR: Option<Frame>, toS: Option<Frame>)
  {
    && Level(s, r)
    && (r.protocol == DISC || (r.protocol == IRS && r.substate == IRSConAck && NothingPassed(r)))
    && (s.discRepeating || IsConReq(s.encoded.ftype))
    && (Ending(toR) || IsConReqFrame(toR))
    && (Ending(toS) || IsConAckFrame(toS))
  }

  /** s has the ConAck and is confirming it. */
  predicate Confirming(s: Station, r: Station, toR: Option<Frame>, toS: Option<Frame>)
  {
    && Level(s, r) && Ready(s.gear)
    && (r.protocol == IRS ==> NothingPassed(r) && (r.substate == IRSConAck || Receiving(r)))
    && (s.discRepeating || IsConAck(s.encoded.ftype))
    && (Ending(toR) || IsConAckFrame(toR))
    && (Ending(toS) || (IsAckFrame(toS) && Receiving(r)) || (IsType(toS, BREAK) && r.protocol == IRStoISS))
  }

  /** s has a data frame in process. */
  predicate Sending(s: Station, r: Station, toR: Option<Frame>, toS: Option<Frame>)
  {
    && HasFrame(s)
    && (r.protocol == IRStoISS ==> Level(s, r))
    && (r.protocol == IRS ==> Receiving(r) && Collecting(r.inn, s.out.record) && (Passed(s, r) || NotPassed(s, r)))
    && (Silent(toR) || toR == Some(s.out.record))
    && (|| Ending(toS)
        || (IsAckFrame(toS) && Receiving(r) && Passed(s, r))
        || (IsNakFrame(toS) && Receiving(r) && NotPassed(s, r) && r.inn.lastType == s.out.lastSent)
        || (IsType(toS, BREAK) && r.protocol == IRStoISS))
  }

  /** s is sending DISC and nothing else. */
  predicate Closing(s: Station, r: Station, toR: Option<Frame>, toS: Option<Frame>)
  {
    && Ready(s.gear)
    && (r.protocol == IRStoISS ==> Level(s, r))
    && (r.protocol == IRS ==> Receiving(r))
    && Ending(toR)
    && (Ending(toS) || (IsType(toS, BREAK) && r.protocol == IRStoISS))
  }

  /** s has nothing to send and everything is acknowledged. */
  predicate Idling(s: Station, r: Station, toR: Option<Frame>, toS: Option<Frame>)
  {
    && Level(s, r) && Ready(s.gear) && !s.out.sentData
    && (s.discRepeating || s.encoded == Control(IDLEFRAME))
    && (r.protocol == IRS ==> Receiving(r) && TypesAcked(s, r) && OfParity(r.inn.lastType, IsOdd(s.out.lastAcked))
                              && HoldsLastSent(s, r))
    && (Ending(toR) || IsType(toR, IDLEFRAME))
    && (Ending(toS) || (IsAckFrame(toS) && Receiving(r)) || (IsType(toS, BREAK) && r.protocol == IRStoISS))
  }

  /** s asks for the link of r, which has already yielded it. */
  predicate Taking(s: Station, r: Station, toR: Option<Frame>, toS: Option<Frame>)
  {
    && Level(s, r) && Ready(s.gear)
    && Receiving(r) && r.substate == IRSfromISS && NothingPassed(r)
    && (Ending(toR) || IsType(toR, BREAK))
    && (Ending(toS) || IsAckFrame(toS))
  }

  /** s is disconnected and r is not sending, but may have answered. */
  predicate Ended(s: Station, r: Station, toR: Option<Frame>, toS: Option<Frame>)
  {
    && Ending(toR)
    && Reply(toS)
  }

  /** Holds of any station. */
  predicate Sound(s: Station)
  {
    && HistoryOk(s.gear)
    && |s.inn.frameData| == CARRIERS
    && (s.protocol == IRStoISS ==> Ready(s.gear) && (s.discRepeating || s.encoded == Control(BREAK)))
    && (s.protocol == IRS ==> !s.repeat)
    && (s.protocol == IRS ==> s.substate == IRSConAck || s.substate == IRSData || s.substate == IRSfromISS)
  }

  /** s leads: it is the sender, or is taking the link over, or the session is over. */
  predicate Lead(s: Station, r: Station, toR: Option<Frame>, toS: Option<Frame>)
  {
    && Sound(s) && Sound(r)
    && WithinOne(s, r)
    && (if s.protocol == DISC || (r.protocol == DISC && !(s.protocol == ISS && s.substate == ISSConReq))
        then WithinOne(r, s) else Level(r, s))
    && (r.protocol == DISC || r.protocol == IRS || r.protocol == IRStoISS)
    && match s.protocol
       case ISS =>
         (match s.substate
          case ISSConReq => Calling(s, r, toR, toS)
          case ISSConAck => Confirming(s, r, toR, toS)
          case ISSData => if s.discRepeating then Closing(s, r, toR, toS) else Sending(s, r, toR, toS)
          case _ => false)
       case IDLE => Idling(s, r, toR, toS)
       case IRStoISS => Taking(s, r, toR, toS)
       case DISC => Ended(s, r, toR, toS)
       case IRS => false
  }

  /** One of the two stations leads. */
  predicate Paired(s: Station, r: Station, toR: Option<Frame>, toS: Option<Frame>)
  {
    Lead(s, r, toR, toS) || Lead(r, s, toS, toR)
  }

  // ---------- starting to send ----------

  /** The frame sliced from the head of the queue: a data type of the other parity, whose
      content is a non-empty prefix of the queue. */
  lemma NextDataFrameOk(queue: seq<byte>, current: byte, lastAcked: byte)
    requires IsMode(current) && queue != []
    ensures var f := NextDataFrame(queue, current, lastAcked);
            var len := Min(BlockCount(current) * BlockLen(current), |queue|);
            && IsData(f.ftype) && IsOdd(f.ftype) != IsOdd(lastAcked) && Even(f.ftype) == current
            && |f.blocks| == BlockCount(f.ftype) && 0 < len <= |queue| && Join(f.blocks) == queue[..len]
  {
    hide IsData, NextType, IsMode, BlockCount, BlockLen, Join, Split, IsOdd, Even;
    NextTypeAlternates(current, lastAcked);
    ModeHasRoom(current, NextType(current, lastAcked));
    var len := Min(BlockCount(current) * BlockLen(current), |queue|);
    JoinSplit(queue[..len], BlockCount(current), BlockLen(current));
  }

  lemma ModeHasRoom(e: byte, t: byte)
    requires IsMode(e) && Even(t) == e
    ensures BlockCount(e) * BlockLen(e) > 0 && BlockCount(t) == BlockCount(e)
  {
    hide Shape, FrameSize, IsMode;
    ModesAreEven(e);
    CapacitiesAgree(e);
  }

  lemma ModesAreEven(e: byte)
    requires IsMode(e)
    ensures Even(e) == e
  {
  }

  lemma SendsFrame(s: Station, r: Station, now: int)
    requires Sound(s) && s.protocol == ISS && s.substate == ISSData && Ready(s.gear)
    requires !s.discRepeating && !s.disconnect && s.out.queue != []
    ensures var o := SendData(s, now);
            && HasFrame(o.s) && Sound(o.s) && o.tx == Some(o.s.out.record)
            && o.s.protocol == ISS && o.s.substate == ISSData && !o.s.discRepeating
            && o.s.out.removed == s.out.removed && o.s.out.lastAcked == s.out.lastAcked && o.s.inn == s.inn
            && o.s.out.lastSent == NextType(Applied(s.gear).current, s.out.lastAcked)
  {
    hide Shape, FrameSize, IsData, NextType;
    AppliedIsReady(s.gear);
    NextDataFrameOk(s.out.queue, Applied(s.gear).current, s.out.lastAcked);
  }

  /** SendData from a point where everything is acknowledged: a fresh data frame, IDLE, or DISC. */
  lemma SendDataLeads(s: Station, r: Station, now: int)
    requires Sound(s) && Sound(r) && s.protocol == ISS && s.substate == ISSData
    requires r.protocol == IRS || r.protocol == IRStoISS
    requires Level(s, r) && Level(r, s) && Ready(s.gear)
    requires r.protocol == IRS ==> Receiving(r) && TypesAcked(s, r)
    requires r.protocol == IRS ==> r.inn.lastType != NextType(Applied(s.gear).current, s.out.lastAcked)
    requires r.protocol == IRS && s.out.queue == [] ==>
               OfParity(r.inn.lastType, IsOdd(s.out.lastAcked)) && HoldsLastSent(s, r)
    ensures var o := SendData(s, now); Lead(o.s, r, o.tx, None)
  {
    hide IsData, NextType, Applied, HasFrame, HoldsBlocksOf;
    if !s.discRepeating && !s.disconnect && s.out.queue != [] {
      SendsFrame(s, r, now);
    }
  }

  /** Types of the parity last acknowledged differ from the type of the next frame. */
  lemma NextTypeIsNew(g: Gears, lastAcked: byte, t: int)
    requires Ready(g) && OfParity(t, IsOdd(lastAcked))
    ensures IsMode(g.current) && t != NextType(Applied(g).current, lastAcked)
  {
    hide NextType;
    AppliedIsReady(g);
    NextTypeAlternates(Applied(g).current, lastAcked);
  }

  // ---------- giving the link up, and hanging up ----------

  /** A sender with nothing unacknowledged answers BREAK: the other station now leads. */
  lemma YieldLeads(s: Station, r: Station, now: int, lastType: int)
    requires Sound(s) && Sound(r) && (s.protocol == ISS || s.protocol == IDLE) && r.protocol == IRStoISS
    requires Level(s, r) && Level(r, s) && Ready(s.gear) && NotData(lastType)
    ensures var o := YieldLink(s, now, lastType); Lead(r, o.s, None, o.tx)
  {
    hide TablesOk;
  }

  predicate SameHistory(s: Station, s': Station)
  {
    s'.out.removed == s.out.removed && s'.out.record == s.out.record && s'.inn.delivered == s.inn.delivered
  }

  lemma HangUpLeads(s: Station, s': Station, r: Station, tx: Option<Frame>)
    requires WithinOne(s, r) && WithinOne(r, s) && Sound(r) && (r.protocol == DISC || r.protocol == IRS || r.protocol == IRStoISS)
    requires SameHistory(s, s') && s'.protocol == DISC && Sound(s') && Ending(tx)
    ensures Lead(s', r, tx, None)
  {
  }

  // ---------- the leader hears a frame ----------

  /** A long control frame carries no data: only the record of types and blocks changes. */
  function AfterLongControl(r: Station, t: byte): Station { r.(inn := NewCollection(r.inn, t)) }

  lemma HearsLongControl(r: Station, f: Frame, now: int, rx: Rx)
    requires IsConReq(f.ftype) || IsConAck(f.ftype)
    ensures var r1 := AfterLongControl(r, f.ftype);
            Hear(r, now, f, rx) ==
            if BreaksIn(r, f.ftype) then AskForLink(r1.(breakCmd := false))
            else if r.timeoutTriggered then Quiet(r1)
            else ProcessFrame(r1, now, f.ftype, Collected(r1.inn, 0), rx.intact, rx)
  {
    hide ProcessFrame, AskForLink, Join;
  }

  lemma HearsShort(s: Station, f: Frame, now: int, rx: Rx)
    requires IsShortControl(f.ftype) && s.protocol != IRStoISS
    ensures Hear(s, now, f, rx) == if s.timeoutTriggered then Quiet(s) else ProcessFrame(s, now, f.ftype, [], true, rx)
  {
    hide ProcessFrame, TakeLink, HearLong;
  }

  /** The ConAck for a call. */
  lemma CallerHearsConAck(s: Station, r: Station, f: Frame, now: int, rx: Rx)
    requires Lead(s, r, None, Some(f)) && s.protocol == ISS && s.substate == ISSConReq && IsConAck(f.ftype)
    ensures var o := Hear(s, now, f, rx); Lead(o.s, r, o.tx, None)
  {
    hide Hear, Join, TablesOk, Collected, Initialised, Bandwidth, HistoryOk, Ready, ReceiveDISC, ReceiveIRSConAck, ReceiveIRSData, ReceiveIDLE,
         ReceiveISSConAck, ReceiveISSData, Sending, Closing, Idling, Taking, Ended;
    HearsLongControl(s, f, now, rx);
    ConfirmedIsReady(s.gear, s.cfg.gears, f.ftype);
    if s.timeoutTriggered || !rx.intact {
      return;
    }
  }

  lemma ConfirmedIsReady(g: Gears, cfg: GearConfig, t: byte)
    ensures var g1 := Initialised(g, cfg, Bandwidth(t)); Ready(g1) && (HistoryOk(g) ==> HistoryOk(g1))
  {
    InitialisedIsReady(g, cfg, Bandwidth(t));
  }

  /** A rejection, or the end of an earlier session, while calling. */
  lemma CallerHearsEnding(s: Station, r: Station, f: Frame, now: int, rx: Rx)
    requires Lead(s, r, None, Some(f)) && s.protocol == ISS && s.substate == ISSConReq && Ending(Some(f))
    ensures var o := Hear(s, now, f, rx); Lead(o.s, r, o.tx, None)
  {
    hide Hear, Join, TablesOk, HistoryOk, Ready, ReceiveDISC, ReceiveIRSConAck, ReceiveIRSData, ReceiveIDLE,
         ReceiveISSConAck, ReceiveISSData, Sending, Closing, Idling, Taking, Ended;
    HearsShort(s, f, now, rx);
  }

  lemma LeaderHearsWhileCalling(s: Station, r: Station, f: Frame, now: int, rx: Rx)
    requires Lead(s, r, None, Some(f)) && s.protocol == ISS && s.substate == ISSConReq
    ensures var o := Hear(s, now, f, rx); Paired(o.s, r, o.tx, None)
  {
    hide Hear, Sound, WithinOne, Confirming, Sending, Closing, Idling, Taking, Ended;
    if IsConAck(f.ftype) { CallerHearsConAck(s, r, f, now, rx); } else { CallerHearsEnding(s, r, f, now, rx); }
  }

  /** The confirmation is through: the first data frame (or IDLE, or DISC) goes out. */
  lemma ConfirmedLeads(s: Station, r: Station, now: int)
    requires Sound(s) && Sound(r) && s.protocol == ISS && Level(s, r) && Level(r, s) && Ready(s.gear)
    requires (Receiving(r) && NothingPassed(r)) || r.protocol == IRStoISS
    ensures var s1 := s.(gear := s.gear.(avg := 0, naks := 0), repeat := false,
                         out := s.out.(lastAcked := 1), substate := ISSData);
            var o := SendData(s1, now); Lead(o.s, r, o.tx, None)
  {
    hide Join, SendData, TablesOk, NextType, Applied, IsOdd, Lead;
    var s1 := s.(gear := s.gear.(avg := 0, naks := 0), repeat := false, out := s.out.(lastAcked := 1), substate := ISSData);
    if r.protocol == IRS { NextTypeIsNew(s1.gear, 1, r.inn.lastType); }
    SendDataLeads(s1, r, now);
  }

  lemma LeaderConfirmed(s: Station, r: Station, f: Frame, now: int)
    requires Lead(s, r, None, Some(f)) && s.protocol == ISS && s.substate == ISSConAck
    requires (IsAck(f.ftype) || f.ftype == BREAK) && !(f.ftype == BREAK && s.out.queue == [])
    ensures var o := ReceiveISSConAck(s, now, f.ftype, true); Paired(o.s, r, o.tx, None)
  {
    hide Join, SendData, TablesOk, Calling, Sending, Closing, Idling, Taking, Ended;
    ConfirmedLeads(s, r, now);
  }

  lemma ConfirmerIgnores(s: Station, now: int, t: byte)
    requires !IsAck(t) && t != BREAK && t != CONREJBW && t != CONREJBUSY
    ensures ReceiveISSConAck(s, now, t, true) == Quiet(s)
  {
  }

  lemma LeaderNotConfirmed(s: Station, r: Station, f: Frame, now: int)
    requires Lead(s, r, None, Some(f)) && s.protocol == ISS && s.substate == ISSConAck
    requires !IsAck(f.ftype) && !(f.ftype == BREAK && s.out.queue != [])
    ensures var o := ReceiveISSConAck(s, now, f.ftype, true); Paired(o.s, r, o.tx, None)
  {
    hide Join, SendData, YieldLink, TablesOk, IsData, ReceiveISSConAck, Calling, Sending, Closing, Idling, Taking, Ended;
    if f.ftype == BREAK {
      LeaderYieldsAtOnce(s, r, f, now);
    } else if f.ftype == CONREJBW {
      LeaderIsRejected(s, r, f, now);
    } else {
      ConfirmerIgnores(s, now, f.ftype);
      FrameConsumed(s, r, None, Some(f));
    }
  }

  lemma LeaderYieldsAtOnce(s: Station, r: Station, f: Frame, now: int)
    requires Lead(s, r, None, Some(f)) && s.protocol == ISS && s.substate == ISSConAck
    requires f.ftype == BREAK && s.out.queue == []
    ensures var o := ReceiveISSConAck(s, now, f.ftype, true); Lead(r, o.s, None, o.tx)
  {
    hide Join, SendData, YieldLink, TablesOk, Calling, Sending, Closing, Idling, Taking, Ended;
    YieldLeads(ClearQueue(FirstAcked(s)), r, now, BREAK);
  }

  lemma LeaderIsRejected(s: Station, r: Station, f: Frame, now: int)
    requires Lead(s, r, None, Some(f)) && s.protocol == ISS && s.substate == ISSConAck && f.ftype == CONREJBW
    ensures var o := ReceiveISSConAck(s, now, f.ftype, true); Lead(o.s, r, o.tx, None)
  {
    hide Join, SendData, YieldLink, TablesOk, Calling, Sending, Closing, Idling, Taking, Ended, SetState, InitConnection;
    DiscKeepsHistory(s);
    InitKeepsHistory(SetState(s, DISC));
    HangUpLeads(s, InitConnection(SetState(s, DISC)), r, None);
  }

  lemma LeaderHearsWhileConfirming(s: Station, r: Station, f: Frame, now: int, rx: Rx)
    requires Lead(s, r, None, Some(f)) && s.protocol == ISS && s.substate == ISSConAck
    ensures var o := Hear(s, now, f, rx); Paired(o.s, r, o.tx, None)
  {
    hide Hear, ReceiveISSConReq, ReceiveISSConAck, ReceiveISSData, ReceiveDISC, ReceiveIDLE, ReceiveIRSData, ReceiveIRSConAck,
         Calling, Sending, Closing, Idling, Taking, Ended, Join, TablesOk, IsOdd;
    HearsShort(s, f, now, rx);
    if s.timeoutTriggered {
      FrameConsumed(s, r, None, Some(f));
    } else if IsAck(f.ftype) || (f.ftype == BREAK && s.out.queue != []) {
      LeaderConfirmed(s, r, f, now);
    } else {
      LeaderNotConfirmed(s, r, f, now);
    }
  }

  lemma DisconnecterIgnores(s: Station, now: int, t: byte)
    requires !s.disconnect && !IsAck(t) && !IsNak(t) && t != BREAK && t != DISCFRAME && t != END
    ensures ReceiveISSData(s, now, t, true) == Quiet(s)
  {
  }

  lemma DisconnecterStartsAgain(s: Station, r: Station)
    requires Lead(s, r, None, None) && s.protocol == ISS && s.substate == ISSData && s.discRepeating
    ensures var o := StartDisconnect(s); Lead(o.s, r, o.tx, None)
  {
    hide Join, TablesOk, Calling, Confirming, Sending, Idling, Taking, Ended;
  }

  lemma LeaderHearsWhileClosing(s: Station, r: Station, f: Frame, now: int, rx: Rx)
    requires Lead(s, r, None, Some(f)) && s.protocol == ISS && s.substate == ISSData && s.discRepeating
    ensures var o := Hear(s, now, f, rx); Paired(o.s, r, o.tx, None)
  {
    hide Hear, StartDisconnect, ReceiveISSConReq, ReceiveISSConAck, ReceiveISSData, ReceiveDISC, ReceiveIDLE, ReceiveIRSData,
         ReceiveIRSConAck, Join, YieldLink, TablesOk, Calling, Confirming, Sending, Idling, Taking, Ended;
    HearsShort(s, f, now, rx);
    FrameConsumed(s, r, None, Some(f));
    if s.timeoutTriggered {
    } else if s.disconnect {
      StartsClosing(s, f, now);
      DisconnecterStartsAgain(s, r);
    } else if f.ftype == BREAK {
      DisconnecterYields(s, r, f, now);
    } else if f.ftype == DISCFRAME || f.ftype == END {
      DisconnecterIsAnswered(s, r, f, now);
    } else {
      DisconnecterIgnores(s, now, f.ftype);
    }
  }

  lemma DisconnecterYields(s: Station, r: Station, f: Frame, now: int)
    requires Lead(s, r, None, Some(f)) && s.protocol == ISS && s.substate == ISSData && s.discRepeating
    requires !s.disconnect && f.ftype == BREAK
    ensures var o := ReceiveISSData(s, now, f.ftype, true); Lead(r, o.s, None, o.tx)
  {
    hide Join, SendData, YieldLink, TablesOk, Reported, Acknowledged, Calling, Confirming, Sending, Idling, Taking, Ended;
    YieldLeads(ClearQueue(s.(gear := s.gear.(naks := 0))), r, now, BREAK);
  }

  lemma DisconnecterIsAnswered(s: Station, r: Station, f: Frame, now: int)
    requires Lead(s, r, None, Some(f)) && s.protocol == ISS && s.substate == ISSData && s.discRepeating
    requires !s.disconnect && (f.ftype == DISCFRAME || f.ftype == END)
    ensures var o := ReceiveISSData(s, now, f.ftype, true); Lead(o.s, r, o.tx, None)
  {
    hide Join, SendData, YieldLink, TablesOk, Reported, Acknowledged, Calling, Confirming, Sending, Idling, Taking, Ended,
         SetState, InitConnection;
    ClosedKeepsHistory(s);
    var o := ReceiveISSData(s, now, f.ftype, true);
    HangUpLeads(s, o.s, r, o.tx);
  }

  lemma ClosedKeepsHistory(s: Station)
    ensures var s' := CloseSession(s);
            && s'.protocol == DISC && SameHistory(s, s') && s'.inn.frameData == s.inn.frameData
            && (HistoryOk(s.gear) ==> HistoryOk(s'.gear))
  {
    hide SetState, InitConnection;
    var s1 := ClearQueue(s.(discRepeating := false));
    DiscKeepsHistory(s1);
    InitKeepsHistory(SetState(s1, DISC));
  }

  lemma EndedIdleKeepsHistory(s: Station)
    ensures var s' := EndIdling(s);
            s'.protocol == DISC && SameHistory(s, s') && s'.inn == s.inn && s'.gear == s.gear
  {
    hide SetState;
    DiscKeepsHistory(ClearQueue(s.(discRepeating := false)));
  }

  lemma LeaderEndsWhileIdling(s: Station, r: Station, f: Frame, now: int, rx: Rx)
    requires Lead(s, r, None, Some(f)) && s.protocol == IDLE && !s.timeoutTriggered
    requires f.ftype == DISCFRAME || f.ftype == END
    ensures var o := Hear(s, now, f, rx); Paired(o.s, r, o.tx, None)
  {
    hide Hear, EndIdling, HistoryOk, ReceiveDISC, ReceiveIRSConAck, ReceiveIRSData, ReceiveISS, Join, SendData, YieldLink, TablesOk, IsOdd,
         Calling, Confirming, Sending, Closing, Taking, Ended, Idling;
    HearsShort(s, f, now, rx);
    EndedIdleKeepsHistory(s);
    var o := Hear(s, now, f, rx);
    HangUpLeads(s, o.s, r, o.tx);
  }

  lemma LeaderHearsWhileIdling(s: Station, r: Station, f: Frame, now: int, rx: Rx)
    requires Lead(s, r, None, Some(f)) && s.protocol == IDLE
    ensures var o := Hear(s, now, f, rx); Paired(o.s, r, o.tx, None)
  {
    hide HearLong, ReceiveDISC, ReceiveIRSConAck, ReceiveIRSData, ReceiveISS, Join, SendData, YieldLink, TablesOk, NextType, Applied, IsOdd, Calling, Confirming, Sending, Closing, Taking, Ended;
    if s.timeoutTriggered {
      return;
    } else if IsAck(f.ftype) {
      if s.out.queue != [] {
        if r.protocol == IRS { NextTypeIsNew(s.gear, s.out.lastAcked, r.inn.lastType); }
        SendDataLeads(SetState(s, ISS).(substate := ISSData), r, now);
        return;
      }
      return;
    } else if f.ftype == BREAK {
      YieldLeads(s, r, now, -1);
      return;
    } else if f.ftype == DISCFRAME || f.ftype == END {
      LeaderEndsWhileIdling(s, r, f, now, rx);
      return;
    }
  }

  lemma LeaderHearsWhileTaking(s: Station, r: Station, f: Frame, now: int, rx: Rx)
    requires Lead(s, r, None, Some(f)) && s.protocol == IRStoISS
    ensures var o := Hear(s, now, f, rx); Paired(o.s, r, o.tx, None)
  {
    hide HearLong, ReceiveDISC, ReceiveIRSConAck, ReceiveIRSData, ReceiveIDLE, ReceiveISS, Join, SendData, TablesOk, NextType, Applied, IsOdd, Calling, Confirming, Sending, Closing, Idling, Ended;
    if IsAck(f.ftype) {
      NextTypeIsNew(s.gear, s.out.lastAcked, r.inn.lastType);
      var s1 := s.(repeat := false, inn := s.inn.(lastToHost := -1));
      SendDataLeads(SetState(s1, ISS).(substate := ISSData), r, now);
    }
  }

  lemma LeaderHearsWhenEnded(s: Station, r: Station, f: Frame, now: int, rx: Rx)
    requires Lead(s, r, None, Some(f)) && s.protocol == DISC
    ensures var o := Hear(s, now, f, rx); Paired(o.s, r, o.tx, None)
  {
    hide HearLong, ReceiveIRSConAck, ReceiveIRSData, ReceiveIDLE, ReceiveISS, Join, TablesOk, Calling, Confirming, Sending, Closing, Idling, Taking;
    if IsConAck(f.ftype) { EndedHearsConAck(s, r, f, now, rx); }
  }

  lemma EndedHearsConAck(s: Station, r: Station, f: Frame, now: int, rx: Rx)
    requires Lead(s, r, None, Some(f)) && s.protocol == DISC && IsConAck(f.ftype)
    ensures var o := Hear(s, now, f, rx); Lead(o.s, r, o.tx, None)
  {
    hide Hear, Join, Collected, ProcessFrame, TablesOk, Calling, Confirming, Sending, Closing, Idling, Taking;
    HearsLongControl(s, f, now, rx);
    NothingCollected(AfterLongControl(s, f.ftype).inn);
    DeafToConAck(AfterLongControl(s, f.ftype), f.ftype, now, rx);
  }

  /** The heart of delivery: the ACK removes exactly what r has passed to its host. */
  lemma AckLevels(s: Station, r: Station, level: int)
    requires Sound(s) && HasFrame(s) && Passed(s, r) && Collecting(r.inn, s.out.record) && 0 <= level <= 31
    ensures var s1 := Acknowledged(s, level);
            && Level(s1, r) && HoldsLastSent(s1, r) && Ready(s1.gear) && HistoryOk(s1.gear) && s1.inn == s.inn
            && s1.out.lastAcked == s.out.lastSent
  {
    hide Reported, Join, IsData, IsOdd, Even, TablesOk, BlockCount;
    var o1 := TakenOff(s.out.(lastAcked := s.out.lastSent), s.out.inProcess);
    ReportedIsReady(s.gear.(acks := s.gear.acks + 1), level, |o1.queue|);
  }

  lemma LeaderAcked(s: Station, r: Station, f: Frame, now: int)
    requires Lead(s, r, None, Some(f)) && s.protocol == ISS && s.substate == ISSData && !s.discRepeating
    requires IsAck(f.ftype) && !s.disconnect
    ensures var o := ReceiveISSData(s, now, f.ftype, true); Lead(o.s, r, o.tx, None)
  {
    hide Join, SendData, TablesOk, NextType, Applied, IsOdd, Even, Acknowledged, BlockCount, Collecting,
         Calling, Confirming, Closing, Idling, Taking, Ended;
    AckLevels(s, r, f.ftype - 0xE0);
    var s1 := Acknowledged(s, f.ftype - 0xE0);
    AckedKeeps(s, f.ftype - 0xE0);
    var s2 := s1.(timeoutTrip := now, gear := s1.gear.(naks := 0), repeat := false);
    NextTypeIsNew(s2.gear, s2.out.lastAcked, r.inn.lastType);
    SendDataLeads(s2, r, now);
  }

  lemma AckedKeeps(s: Station, level: int)
    ensures var s1 := Acknowledged(s, level);
            s1 == s.(out := s1.out, gear := s1.gear)
  {
  }

  lemma ResetAcksLeads(s: Station, r: Station, toR: Option<Frame>, toS: Option<Frame>)
    requires Lead(s, r, toR, toS)
    ensures Lead(s.(gear := s.gear.(acks := 0)), r, toR, toS)
  {
    hide TablesOk, Join, IsOdd, Even, BlockCount, Collecting, OfParity;
  }

  /** A NAK keeps the frame, or slices the queue again for another mode. */
  lemma LeaderNaked(s: Station, r: Station, f: Frame, now: int)
    requires Lead(s, r, None, Some(f)) && s.protocol == ISS && s.substate == ISSData && !s.discRepeating
    requires IsNak(f.ftype) && !s.disconnect
    ensures var o := ReceiveISSData(s, now, f.ftype, true); Lead(o.s, r, o.tx, None)
  {
    hide Join, SendData, TablesOk, NextType, Applied, IsOdd, Even, BlockCount, Collecting, Reported,
         Calling, Confirming, Closing, Idling, Taking, Ended;
    var g0 := s.gear.(naks := s.gear.naks + 1);
    ReportedIsReady(g0, f.ftype, |s.out.queue|);
    var g := Reported(g0, f.ftype, |s.out.queue|);
    if g.shift != 0 {
      var s1 := s.(gear := g.(naks := 0), timeoutTrip := now);
      AppliedIsReady(s1.gear);
      NextTypeAlternates(Applied(s1.gear).current, s.out.lastAcked);
      SendDataLeads(s1, r, now);
      var o := SendData(s1, now);
      ResetAcksLeads(o.s, r, o.tx, None);
    }
  }

  /** A disconnect command turns a sender into one that only sends DISC. */
  lemma LeaderStartsClosing(s: Station, r: Station)
    requires Lead(s, r, None, None) && s.protocol == ISS && s.substate == ISSData && !s.discRepeating
    ensures var o := StartDisconnect(s); Lead(o.s, r, o.tx, None)
  {
    hide Join, TablesOk, IsOdd, Even, BlockCount, Collecting, Calling, Confirming, Idling, Taking, Ended;
  }

  lemma StartsClosing(s: Station, f: Frame, now: int)
    requires s.disconnect
    ensures ReceiveISSData(s, now, f.ftype, true) == StartDisconnect(s)
  {
  }

  /** A BREAK reaches a sender only while its frame has not been passed on. */
  lemma LeaderYields(s: Station, r: Station, f: Frame, now: int)
    requires Lead(s, r, None, Some(f)) && s.protocol == ISS && s.substate == ISSData && !s.discRepeating
    requires !s.disconnect && f.ftype == BREAK
    ensures var o := ReceiveISSData(s, now, f.ftype, true); Lead(r, o.s, None, o.tx)
  {
    hide Join, SendData, YieldLink, TablesOk, IsOdd, Even, BlockCount, Collecting, Reported, Acknowledged,
         Calling, Confirming, Closing, Idling, Taking, Ended;
    YieldLeads(ClearQueue(s.(gear := s.gear.(naks := 0))), r, now, BREAK);
  }

  lemma LeaderHearsEnd(s: Station, r: Station, f: Frame, now: int)
    requires Lead(s, r, None, Some(f)) && s.protocol == ISS && s.substate == ISSData && !s.discRepeating
    requires !s.disconnect && Ending(Some(f))
    ensures var o := ReceiveISSData(s, now, f.ftype, true); Lead(o.s, r, o.tx, None)
  {
    hide Join, SendData, YieldLink, TablesOk, IsOdd, Even, BlockCount, Collecting, Reported, Acknowledged, HasFrame,
         Calling, Confirming, Closing, Idling, Taking, Ended;
    if f.ftype == DISCFRAME || f.ftype == END {
      var o := ReceiveISSData(s, now, f.ftype, true);
      HangUpLeads(s, o.s, r, o.tx);
    }
  }

  lemma LeaderHearsWhileSending(s: Station, r: Station, f: Frame, now: int, rx: Rx)
    requires Lead(s, r, None, Some(f)) && s.protocol == ISS && s.substate == ISSData && !s.discRepeating
    ensures var o := Hear(s, now, f, rx); Paired(o.s, r, o.tx, None)
  {
    hide HearLong, ReceiveDISC, ReceiveIRSConAck, ReceiveIRSData, ReceiveIDLE, ReceiveISSConReq, ReceiveISSConAck, ReceiveISSData,
         Join, TablesOk, IsOdd, Even, BlockCount, Collecting, HasFrame, Passed, NotPassed,
         Calling, Confirming, Closing, Idling, Taking, Ended;
    if !s.timeoutTriggered {
      if s.disconnect { LeaderStartsClosing(s, r); StartsClosing(s, f, now); }
      else if f.ftype == BREAK { LeaderYields(s, r, f, now); }
      else if Ending(Some(f)) { LeaderHearsEnd(s, r, f, now); }
      else if IsAck(f.ftype) { LeaderAcked(s, r, f, now); }
      else { LeaderNaked(s, r, f, now); }
    }
  }

  lemma LeaderHears(s: Station, r: Station, f: Frame, now: int, rx: Rx)
    requires Lead(s, r, None, Some(f))
    ensures var o := Hear(s, now, f, rx); Paired(o.s, r, o.tx, None)
  {
    hide Hear, Paired, Calling, Confirming, Closing, Sending, Idling, Taking, Ended;
    match s.protocol
    case ISS =>
      match s.substate {
        case ISSConReq => LeaderHearsWhileCalling(s, r, f, now, rx);
        case ISSConAck => LeaderHearsWhileConfirming(s, r, f, now, rx);
        case ISSData =>
          if s.discRepeating { LeaderHearsWhileClosing(s, r, f, now, rx); } else { LeaderHearsWhileSending(s, r, f, now, rx); }
        case _ =>
      }
    case IDLE => LeaderHearsWhileIdling(s, r, f, now, rx);
    case IRStoISS => LeaderHearsWhileTaking(s, r, f, now, rx);
    case DISC => LeaderHearsWhenEnded(s, r, f, now, rx);
    case IRS =>
  }

  // ---------- the other station hears a frame ----------

  /** The receiver's store after demodulating f. */
  function Stored(r: Receiver, f: Frame, rx: Rx): Receiver { Demodulated(NewCollection(r, f.ftype), f, rx) }

  /** Memory ARQ: blocks kept from earlier copies and blocks read now all belong to f. */
  lemma StoreHoldsBlocks(r: Receiver, f: Frame, rx: Rx)
    requires Collecting(r, f) && IsData(f.ftype) && |f.blocks| == BlockCount(f.ftype)
    ensures var r1 := Stored(r, f, rx);
            && Collecting(r1, f) && HoldsBlocksOf(r1, f) && r1.lastType == f.ftype
            && r1 == r.(lastType := f.ftype, carrierOk := r1.carrierOk, frameData := r1.frameData)
  {
    hide Shape, IsData;
  }

  /** A frame accepted from blocks gathered over several copies is exactly the frame sent. */
  lemma AcceptedIsSent(r: Receiver, f: Frame)
    requires HoldsBlocksOf(r, f) && AllHeld(r, BlockCount(f.ftype)) && |r.frameData| == CARRIERS
    requires IsData(f.ftype) && |f.blocks| == BlockCount(f.ftype)
    ensures Collected(r, BlockCount(f.ftype)) == Join(f.blocks)
  {
    ModeOfData(f.ftype);
    CapacitiesAgree(Even(f.ftype));
    hide Shape, IsData, Join;
    var n := BlockCount(f.ftype);
    forall c | 0 <= c < n ensures r.frameData[..n][c] == f.blocks[c] {
      assert HeldAt(r, c);
    }
    assert r.frameData[..n] == f.blocks;
  }

  /** A good data frame that is not answered by breaking in is passed on, unless it was, and acknowledged. */
  lemma GoodDataIsAcked(r: Station, t: byte, now: int, data: seq<byte>, rx: Rx)
    requires IsData(t) && !BreaksIn(r, t) && r.protocol == IRS
    ensures ReceiveIRSData(r, now, t, data, true, rx) == AckData(PassedOn(r, now, t, data), t, rx.quality)
  {
    hide AckData, PassedOn;
  }

  lemma FirstCopyIsPassed(s: Station, r: Station, t: byte, now: int, q: Quality)
    requires Lead(s, r, None, None) && s.protocol == ISS && s.substate == ISSData && !s.discRepeating
    requires t == s.out.lastSent == r.inn.lastType && r.protocol == IRS && NotPassed(s, r)
    ensures var o := AckData(PassedOn(r, now, t, Payload(s)), t, q); Lead(s, o.s, None, o.tx)
  {
    hide Join, TablesOk, Even, BlockCount, IsOdd, HistoryOk, Calling, Confirming, Closing, Idling, Taking, Ended;
  }

  lemma LaterCopyIsAcked(s: Station, r: Station, t: byte, now: int, q: Quality)
    requires Lead(s, r, None, None) && s.protocol == ISS && s.substate == ISSData && !s.discRepeating
    requires t == s.out.lastSent && r.protocol == IRS && Passed(s, r)
    ensures var o := AckData(PassedOn(r, now, t, Payload(s)), t, q); Lead(s, o.s, None, o.tx)
  {
    hide Join, TablesOk, Even, BlockCount, IsOdd, HistoryOk, HoldsBlocksOf, Calling, Confirming, Closing, Idling, Taking, Ended;
  }

  /** Hearing a data frame in IRS: at most one delivery, of exactly its content. */
  lemma ReceiverGetsGoodData(s: Station, r: Station, f: Frame, now: int, rx: Rx)
    requires Lead(s, r, Some(f), None) && s.protocol == ISS && s.substate == ISSData && !s.discRepeating
    requires f == s.out.record && r.protocol == IRS && r.inn.lastType == f.ftype && !BreaksIn(r, f.ftype)
    ensures var o := ReceiveIRSData(r, now, f.ftype, Payload(s), true, rx); Lead(s, o.s, None, o.tx)
  {
    hide Lead, Passed, NotPassed, Payload, AckData, PassedOn, ReceiveIRSData;
    FrameConsumed(s, r, Some(f), None);
    SendingHasFrame(s, r);
    GoodDataIsAcked(r, f.ftype, now, Payload(s), rx);
    if Passed(s, r) {
      LaterCopyIsAcked(s, r, f.ftype, now, rx.quality);
    } else {
      FirstCopyIsPassed(s, r, f.ftype, now, rx.quality);
    }
  }

  lemma SendingHasFrame(s: Station, r: Station)
    requires Lead(s, r, None, None) && s.protocol == ISS && s.substate == ISSData && !s.discRepeating
    ensures IsData(s.out.record.ftype) && s.out.record.ftype == s.out.lastSent
    ensures r.protocol == IRS ==> Passed(s, r) || NotPassed(s, r)
  {
    hide Join, TablesOk, Even, BlockCount, IsOdd, HistoryOk, Passed, NotPassed, Collecting, IsData,
         Calling, Confirming, Closing, Idling, Taking, Ended;
  }

  lemma ReceiverGetsBadData(s: Station, r: Station, f: Frame, now: int, data: seq<byte>, rx: Rx)
    requires Lead(s, r, Some(f), None) && s.protocol == ISS && s.substate == ISSData && !s.discRepeating
    requires f == s.out.record && r.protocol == IRS && r.inn.lastType == f.ftype && !BreaksIn(r, f.ftype)
    ensures var o := ReceiveIRSData(r, now, f.ftype, data, false, rx); Lead(s, o.s, None, o.tx)
  {
    hide Join, TablesOk, Even, BlockCount, IsOdd,
         Calling, Confirming, Closing, Idling, Taking, Ended;
  }

  /** A receiver that breaks in has not passed the frame on. */
  lemma ReceiverBreaksIn(s: Station, r: Station, f: Frame)
    requires Lead(s, r, Some(f), None) && s.protocol == ISS && s.substate == ISSData && !s.discRepeating
    requires f == s.out.record && BreaksIn(r, f.ftype)
    ensures var o := AskForLink(r.(breakCmd := false)); Lead(s, o.s, None, o.tx)
  {
    hide Join, TablesOk, Even, BlockCount, Collecting, IsOdd,
         Calling, Confirming, Closing, Idling, Taking, Ended;
  }

  lemma StoringKeepsLead(s: Station, r: Station, f: Frame, rx: Rx)
    requires Lead(s, r, Some(f), None) && s.protocol == ISS && s.substate == ISSData && !s.discRepeating
    requires f == s.out.record && r.protocol == IRS
    ensures var r1 := r.(inn := Stored(r.inn, f, rx));
            && Lead(s, r1, Some(f), None) && HoldsBlocksOf(r1.inn, f)
            && r1.inn.lastType == f.ftype && r1.inn.lastACKed == r.inn.lastACKed
  {
    hide Join, TablesOk, Even, BlockCount, IsOdd, Stored, IsData,
         Calling, Confirming, Closing, Idling, Taking, Ended;
    StoreHoldsBlocks(r.inn, f, rx);
  }

  lemma ReceiverHearsData(s: Station, r: Station, f: Frame, now: int, rx: Rx)
    requires Lead(s, r, Some(f), None) && s.protocol == ISS && s.substate == ISSData && !s.discRepeating
    requires f == s.out.record && r.protocol == IRS
    ensures var o := HearLong(r, now, f, rx); Lead(s, o.s, None, o.tx)
  {
    hide Join, TablesOk, Even, BlockCount, IsOdd, Shape, ReceiveIRSData, ReceiveIRSConAck, ReceiveISS, ReceiveDISC, ReceiveIDLE, Demodulated;
    StoringKeepsLead(s, r, f, rx);
    var r1 := r.(inn := Stored(r.inn, f, rx));
    if BreaksIn(r, f.ftype) {
      if IsFsk(f.ftype) {
        var r2 := r.(inn := NewCollection(r.inn, f.ftype));
        assert Lead(s, r2, Some(f), None);
        ReceiverBreaksIn(s, r2, f);
      } else {
        ReceiverBreaksIn(s, r1, f);
      }
    } else if !r.timeoutTriggered {
      if AllHeld(r1.inn, BlockCount(f.ftype)) {
        AcceptedIsSent(r1.inn, f);
        ReceiverGetsGoodData(s, r1, f, now, rx);
      } else {
        ReceiverGetsBadData(s, r1, f, now, Collected(r1.inn, BlockCount(f.ftype)), rx);
      }
    }
  }

  lemma FollowerHearsDuringSending(s: Station, r: Station, f: Frame, now: int, rx: Rx)
    requires Lead(s, r, Some(f), None) && s.protocol == ISS && s.substate == ISSData && !s.discRepeating
    ensures var o := Hear(r, now, f, rx); Paired(s, o.s, None, o.tx)
  {
    hide Join, TablesOk, Even, BlockCount, IsOdd, Shape, Passed, NotPassed, Collecting, HearLong,
         Calling, Confirming, Closing, Idling, Taking, Ended;
    if r.protocol == IRS {
      ReceiverHearsData(s, r, f, now, rx);
    } else {
      IdleHearsData(s, r, f, now, rx);
    }
  }

  lemma IdleHearsData(s: Station, r: Station, f: Frame, now: int, rx: Rx)
    requires Lead(s, r, Some(f), None) && s.protocol == ISS && s.substate == ISSData && !s.discRepeating
    requires r.protocol == DISC || r.protocol == IRStoISS
    ensures var o := HearLong(r, now, f, rx); Lead(s, o.s, None, o.tx)
  {
    hide Join, TablesOk, Even, IsOdd, Shape, Passed, NotPassed, Collecting,
         ReceiveIRSData, ReceiveIRSConAck, ReceiveISS, ReceiveIDLE,
         Calling, Confirming, Closing, Idling, Taking, Ended;
  }

  predicate EndsOrIgnores(r: Station, o: Outcome)
  {
    && SameHistory(r, o.s) && Sound(o.s) && Ending(o.tx)
    && (o.s.protocol == DISC || o == Outcome(r, None))
  }

  lemma ReceiverHearsEnding(r: Station, t: byte, now: int, rx: Rx)
    requires Sound(r) && (t == DISCFRAME || t == END || t == CONREJBW)
    ensures EndsOrIgnores(r, ReceiveIRSData(r, now, t, [], true, rx))
  {
    hide Join, TablesOk, SendData, StartDisconnect, AskForLink, ReceiveGoodData;
  }

  /** DISC, END or a rejection either changes nothing or ends the session. */
  lemma HearsEnding(r: Station, f: Frame, now: int, rx: Rx)
    requires Sound(r) && (r.protocol == DISC || r.protocol == IRS || r.protocol == IRStoISS)
    requires f == Control(DISCFRAME) || f == Control(END) || f == Control(CONREJBW)
    ensures EndsOrIgnores(r, Hear(r, now, f, rx))
  {
    hide Join, TablesOk, HearLong, ReceiveISS, ReceiveIDLE, TakeLink, AcceptCall, ReceiveIRSData, HistoryOk;
    ReceiverHearsEnding(r, f.ftype, now, rx);
  }

  lemma FollowerEnds(s: Station, r: Station, r': Station, toR: Option<Frame>, tx: Option<Frame>)
    requires Lead(s, r, toR, None) && r'.protocol == DISC && SameHistory(r, r') && Sound(r') && Ending(tx)
    ensures Paired(s, r', toR, tx)
  {
    hide Join, TablesOk, IsOdd, Even, BlockCount, HasFrame, Collecting;
  }

  lemma FollowerHearsEnding(s: Station, r: Station, f: Frame, now: int, rx: Rx)
    requires Lead(s, r, Some(f), None) && (f == Control(DISCFRAME) || f == Control(END) || f == Control(CONREJBW))
    ensures var o := Hear(r, now, f, rx); Paired(s, o.s, None, o.tx)
  {
    hide Hear, Join, TablesOk, IsOdd, Even, BlockCount, HasFrame, Collecting, Calling, Confirming, Sending, Closing, Idling, Taking, Ended;
    HearsEnding(r, f, now, rx);
    var o := Hear(r, now, f, rx);
    FrameConsumed(s, r, Some(f), None);
    if o.s.protocol == DISC { FollowerEnds(s, r, o.s, None, o.tx); }
  }

  /** A frame that is lost, or heard without effect. */
  lemma FrameConsumed(s: Station, r: Station, toR: Option<Frame>, toS: Option<Frame>)
    requires Lead(s, r, toR, toS)
    ensures Lead(s, r, None, None)
  {
    hide Join, TablesOk, IsOdd, Even, BlockCount, HasFrame, Collecting, NothingPassed, TypesAcked;
  }

  predicate Answered(r: Station, o: Outcome)
  {
    && SameHistory(r, o.s) && Sound(o.s) && o.s.protocol == IRS && o.s.substate == IRSConAck && NothingPassed(o.s)
    && IsConAckFrame(o.tx)
  }

  lemma AcceptCallAnswers(r: Station, now: int, reply: Negotiation)
    requires Sound(r) && reply != CONREJBW
    ensures Answered(r, AcceptCall(r, now, reply))
  {
  }

  /** What a station that is not in a session, or has not been confirmed, makes of a call. */
  lemma CalledAnswers(r: Station, t: byte, now: int, rx: Rx)
    requires IsConReq(t) && Sound(r) && (r.protocol == DISC || (r.protocol == IRS && r.substate == IRSConAck))
    ensures var o := ProcessFrame(r, now, t, [], rx.intact, rx);
            || Answered(r, o)
            || (o.s == r.(repeat := o.s.repeat, encoded := o.s.encoded) && Ending(o.tx) && (o.s.repeat ==> r.repeat))
  {
    hide AcceptCall, Answered, HistoryOk, Join, ReceiveISS, ReceiveIDLE, ReceiveIRSData;
    if rx.reply != CONREJBW {
      AcceptCallAnswers(r, now, rx.reply);
      if r.protocol == IRS { AnsweredWhateverRepeats(r, AcceptCall(r, now, rx.reply), r.repeat); }
    }
  }

  lemma AnsweredWhateverRepeats(r: Station, o: Outcome, repeat: bool)
    requires Answered(r, o) && (o.s.protocol == IRS ==> !repeat)
    ensures Answered(r, o.(s := o.s.(repeat := repeat)))
  {
    hide HistoryOk;
  }

  lemma CallIsPending(s: Station, r: Station, r': Station, tx: Option<Frame>)
    requires Lead(s, r, None, None) && s.protocol == ISS && s.substate == ISSConReq
    requires Answered(r, Outcome(r', tx))
    ensures Lead(s, r', None, tx)
  {
    hide Join, HistoryOk, Confirming, Closing, Sending, Idling, Taking, Ended;
  }

  lemma CallIsRefused(s: Station, r: Station, r': Station, tx: Option<Frame>)
    requires Lead(s, r, None, None) && s.protocol == ISS && s.substate == ISSConReq
    requires r' == r.(repeat := r'.repeat, encoded := r'.encoded) && Ending(tx) && (r'.repeat ==> r.repeat)
    ensures Lead(s, r', None, tx)
  {
    hide Join, HistoryOk, Confirming, Closing, Sending, Idling, Taking, Ended;
  }

  lemma NewTypeKeepsCall(s: Station, r: Station, t: byte)
    requires Lead(s, r, None, None) && s.protocol == ISS && s.substate == ISSConReq && IsConReq(t)
    ensures Lead(s, AfterLongControl(r, t), None, None)
  {
    hide Join, HistoryOk, Confirming, Closing, Sending, Idling, Taking, Ended;
  }

  lemma FollowerIsCalled(s: Station, r: Station, f: Frame, now: int, rx: Rx)
    requires Lead(s, r, Some(f), None) && s.protocol == ISS && s.substate == ISSConReq && IsConReq(f.ftype)
    ensures var o := Hear(r, now, f, rx); Paired(s, o.s, None, o.tx)
  {
    hide Join, Hear, ProcessFrame, Collected, Sound, Answered, WithinOne, Ending, Confirming, Closing, Sending, Idling, Taking, Ended;
    HearsLongControl(r, f, now, rx);
    FrameConsumed(s, r, Some(f), None);
    NewTypeKeepsCall(s, r, f.ftype);
    var r1 := AfterLongControl(r, f.ftype);
    if !r.timeoutTriggered {
      NothingCollected(r1.inn);
      CalledAnswers(r1, f.ftype, now, rx);
      var o := ProcessFrame(r1, now, f.ftype, [], rx.intact, rx);
      if Answered(r1, o) { CallIsPending(s, r1, o.s, o.tx); } else { CallIsRefused(s, r1, o.s, o.tx); }
    }
  }

  lemma NothingCollected(r: Receiver)
    ensures Collected(r, 0) == []
  {
  }

  lemma FollowerConfirmedBreaksIn(s: Station, r: Station, f: Frame)
    requires Lead(s, r, Some(f), None) && s.protocol == ISS && s.substate == ISSConAck && IsConAck(f.ftype)
    requires BreaksIn(r, f.ftype)
    ensures var o := AskForLink(AfterLongControl(r, f.ftype).(breakCmd := false)); Lead(s, o.s, None, o.tx)
  {
    hide Join, TablesOk, HeldAt, HistoryOk, Calling, Closing, Sending, Idling, Taking, Ended;
  }

  /** A station that is disconnected or breaking in does not answer a ConAck. */
  lemma DeafToConAck(r: Station, t: byte, now: int, rx: Rx)
    requires IsConAck(t) && (r.protocol == DISC || r.protocol == IRStoISS)
    ensures ProcessFrame(r, now, t, [], rx.intact, rx) == Quiet(r)
  {
  }

  lemma FirstConfirmation(s: Station, r: Station, t: byte, now: int, rx: Rx)
    requires Lead(s, r, None, None) && s.protocol == ISS && s.substate == ISSConAck && IsConAck(t)
    requires r.protocol == IRS && r.substate == IRSConAck
    ensures var o := ReceiveIRSConAck(r, now, t, rx.intact, rx); Lead(s, o.s, None, o.tx)
  {
    hide Join, TablesOk, Bandwidth, Initialised, HistoryOk, Calling, Closing, Sending, Idling, Taking, Ended;
    HistoryIgnoresCounters(r.gear);
    ConfirmedIsReady(r.gear.(naks := 0), r.cfg.gears, t);
  }

  lemma ConfirmedAgain(s: Station, r: Station, t: byte, now: int, rx: Rx)
    requires Lead(s, r, None, None) && s.protocol == ISS && s.substate == ISSConAck && IsConAck(t) && Receiving(r)
    ensures var o := ReceiveIRSData(r, now, t, [], rx.intact, rx); Lead(s, o.s, None, o.tx)
  {
    hide Join, TablesOk, Bandwidth, HistoryOk, ReceiveGoodData, Calling, Closing, Sending, Idling, Taking, Ended;
  }

  lemma NewTypeKeepsConfirming(s: Station, r: Station, t: byte)
    requires Lead(s, r, None, None) && s.protocol == ISS && s.substate == ISSConAck && IsConAck(t)
    ensures Lead(s, AfterLongControl(r, t), None, None)
  {
    hide Join, TablesOk, HistoryOk, Calling, Closing, Sending, Idling, Taking, Ended;
  }

  lemma FollowerStates(s: Station, r: Station)
    requires Lead(s, r, None, None) && s.protocol == ISS && s.substate == ISSConAck
    ensures r.protocol == DISC || r.protocol == IRStoISS || (r.protocol == IRS && (r.substate == IRSConAck || Receiving(r)))
  {
    hide Join, TablesOk, HistoryOk, Calling, Closing, Sending, Idling, Taking, Ended;
  }

  lemma FollowerIsConfirmed(s: Station, r: Station, f: Frame, now: int, rx: Rx)
    requires Lead(s, r, Some(f), None) && s.protocol == ISS && s.substate == ISSConAck && IsConAck(f.ftype)
    ensures var o := Hear(r, now, f, rx); Paired(s, o.s, None, o.tx)
  {
    hide Hear, Lead, Collected, AskForLink, BreaksIn, IsConAck, ReceiveISS, ReceiveIDLE, ReceiveIRSData, ReceiveIRSConAck, ReceiveDISC, Ready;
    HearsLongControl(r, f, now, rx);
    if BreaksIn(r, f.ftype) {
      FollowerConfirmedBreaksIn(s, r, f);
      return;
    }
    FrameConsumed(s, r, Some(f), None);
    NewTypeKeepsConfirming(s, r, f.ftype);
    var r1 := AfterLongControl(r, f.ftype);
    NothingCollected(r1.inn);
    FollowerStates(s, r1);
    if r.protocol == DISC || r.protocol == IRStoISS {
      DeafToConAck(r1, f.ftype, now, rx);
    } else if r.substate == IRSConAck {
      FirstConfirmation(s, r1, f.ftype, now, rx);
    } else {
      ConfirmedAgain(s, r1, f.ftype, now, rx);
    }
  }

  lemma HistoryIgnoresCounters(g: Gears)
    requires HistoryOk(g)
    ensures HistoryOk(g.(naks := 0))
  {
  }

  lemma FollowerHearsIdle(s: Station, r: Station, f: Frame, now: int, rx: Rx)
    requires Lead(s, r, Some(f), None) && s.protocol == IDLE && f.ftype == IDLEFRAME
    ensures var o := Hear(r, now, f, rx); Paired(s, o.s, None, o.tx)
  {
    hide Join, TablesOk, Even, IsOdd, Shape, HearLong, ReceiveISS, ReceiveIDLE, SendData, ReceiveIRSConAck, ReceiveGoodData,
         Calling, Confirming, Closing, Sending, Taking, Ended;
  }

  lemma FollowerHearsBreak(s: Station, r: Station, f: Frame, now: int, rx: Rx)
    requires Lead(s, r, Some(f), None) && s.protocol == IRStoISS && f.ftype == BREAK
    ensures var o := Hear(r, now, f, rx); Paired(s, o.s, None, o.tx)
  {
    hide Join, TablesOk, Even, IsOdd, Shape, HearLong, ReceiveISS, ReceiveIDLE, SendData, ReceiveIRSConAck, ReceiveGoodData,
         Calling, Confirming, Closing, Sending, Idling, Ended;
  }

  lemma FollowerHears(s: Station, r: Station, f: Frame, now: int, rx: Rx)
    requires Lead(s, r, Some(f), None)
    ensures var o := Hear(r, now, f, rx); Paired(s, o.s, None, o.tx)
  {
    hide Join, TablesOk, Even, BlockCount, IsOdd, Hear, Paired, HasFrame, Collecting;
    if f == Control(DISCFRAME) || f == Control(END) || f == Control(CONREJBW) { FollowerHearsEnding(s, r, f, now, rx); }
    else if s.protocol == IDLE { FollowerHearsIdle(s, r, f, now, rx); }
    else if s.protocol == IRStoISS { FollowerHearsBreak(s, r, f, now, rx); }
    else if s.substate == ISSConReq { FollowerIsCalled(s, r, f, now, rx); }
    else if s.substate == ISSConAck { FollowerIsConfirmed(s, r, f, now, rx); }
    else { FollowerHearsDuringSending(s, r, f, now, rx); }
  }

  // ---------- polling ----------

  /** A poll without effect on the session: flags and timers, and the DISC frame to repeat. */
  predicate FlagsOnly(s: Station, s': Station)
  {
    && s' == s.(repeat := s'.repeat, repeatCount := s'.repeatCount, disconnect := s'.disconnect, abort := s'.abort,
                breakCmd := s'.breakCmd, timeoutTriggered := s'.timeoutTriggered, sendTimeout := s'.sendTimeout,
                pendingTimeout := s'.pendingTimeout, encoded := s'.encoded)
    && (s'.repeat ==> s.repeat)
    && (s'.encoded == s.encoded || (s.discRepeating && s'.encoded == Control(DISCFRAME)))
  }

  /** The session is over: nothing is passed on or acknowledged, at most the queue is cleared. */
  predicate HungUp(s: Station, s': Station)
  {
    s'.protocol == DISC && SameHistory(s, s') && Sound(s') && OnlyCleared(s.out, s'.out)
  }

  predicate OnlyCleared(o: Sender, o': Sender) { o' == o || o' == o.(queue := []) }

  predicate Repeats(s: Station, s': Station)
  {
    && FlagsOnly(s, s') && (s.protocol != DISC || s.discRepeating)
    && if s.discRepeating then s'.encoded == Control(DISCFRAME)
       else s'.encoded == s.encoded && (s.repeat || s.protocol == ISS)
  }

  lemma DiscKeepsHistory(s: Station)
    ensures var s' := SetState(s, DISC); s'.protocol == DISC && SameHistory(s, s') && s'.inn == s.inn && s'.gear == s.gear && OnlyCleared(s.out, s'.out)
  {
  }

  lemma InitKeepsHistory(s: Station)
    ensures var s' := InitConnection(s);
            && s'.protocol == s.protocol && SameHistory(s, s') && s'.inn.frameData == s.inn.frameData && s'.out == s.out
            && (HistoryOk(s.gear) ==> HistoryOk(s'.gear))
  {
  }

  lemma NextFrameKinds(s: Station, now: int)
    requires Sound(s)
    ensures var n := GetNextARQFrame(s, now);
            || (HungUp(s, n.s) && n.tx.None? && !n.again)
            || (n.s == StartDisconnect(s).s && n.tx == StartDisconnect(s).tx && !n.again
                && (s.protocol == ISS || s.protocol == IDLE) && !s.discRepeating)
            || (FlagsOnly(s, n.s) && n.tx.None? && (n.again ==> Repeats(s, n.s)))
  {
    hide HistoryOk, SetState, InitConnection, StartDisconnect;
    if s.abort {
      DiscKeepsHistory(ClearQueue(s));
      InitKeepsHistory(SetState(ClearQueue(s), DISC));
      return;
    } else if s.discRepeating {
      var s1 := s.(repeatCount := s.repeatCount + 1, repeat := false);
      var s2 := ClearQueue(s1.(discRepeating := false));
      DiscKeepsHistory(s2);
      InitKeepsHistory(SetState(s2, DISC).(repeatCount := 0));
      return;
    } else if (s.protocol == ISS || s.protocol == IDLE) && s.disconnect {
      return;
    } else if s.protocol == ISS && s.substate == ISSConReq {
      DiscKeepsHistory(ClearQueue(s));
      InitKeepsHistory(SetState(ClearQueue(s), DISC).(repeatCount := 0));
      return;
    } else if s.protocol == ISS && s.substate == IRSConAck {
      DiscKeepsHistory(s);
      InitKeepsHistory(SetState(s, DISC).(substate := DISCArqEnd, repeatCount := 0));
      return;
    }
  }

  lemma FlagsKeepLeader(s: Station, s': Station, r: Station, toR: Option<Frame>, toS: Option<Frame>)
    requires Lead(s, r, toR, toS) && FlagsOnly(s, s')
    ensures Lead(s', r, toR, toS)
  {
    hide Join, TablesOk, IsOdd, Even, BlockCount, Collecting, NothingPassed;
  }

  lemma FlagsKeepFollower(s: Station, r: Station, r': Station, toR: Option<Frame>, toS: Option<Frame>)
    requires Lead(s, r, toR, toS) && FlagsOnly(r, r')
    ensures Lead(s, r', toR, toS)
  {
    hide Join, TablesOk, IsOdd, Even, BlockCount, HasFrame, Collecting;
  }

  lemma LeaderRepeats(s: Station, r: Station)
    requires Lead(s, r, None, None)
    requires if s.discRepeating then s.encoded == Control(DISCFRAME) else s.protocol != DISC
    ensures Lead(s, r, Some(s.encoded), None)
  {
    hide Join, TablesOk, IsOdd, Even, BlockCount, Collecting;
  }

  lemma FollowerRepeats(s: Station, r: Station)
    requires Lead(s, r, None, None)
    requires if r.discRepeating then r.encoded == Control(DISCFRAME) else r.protocol == IRStoISS
    ensures Lead(s, r, None, Some(r.encoded))
  {
    hide Join, TablesOk, IsOdd, Even, BlockCount, Collecting, HasFrame;
  }

  /** Only a station that enabled repeats, or is disconnecting, repeats a frame. */
  lemma RepeatFacts(s: Station, s': Station)
    requires Sound(s) && Repeats(s, s')
    ensures FlagsOnly(s, s') && s'.protocol == s.protocol && s'.discRepeating == s.discRepeating
    ensures if s.discRepeating then s'.encoded == Control(DISCFRAME) else s.protocol != DISC && s.protocol != IRS
  {
  }

  datatype PollKind = RepeatTimer | SendTimer | PendingTimer | MainLoop | Abort

  function Poll(s: Station, p: PollKind, now: int): Outcome
  {
    match p
    case RepeatTimer => RepeatPoll(s, now)
    case SendTimer => SendTimeoutPoll(s, now)
    case PendingTimer => PendingPoll(s, now)
    case MainLoop => MainPoll(s, now)
    case Abort => HostAbort(s, now)
  }

  /** What a poll can do to a station. */
  predicate PollOutcome(s: Station, o: Outcome)
  {
    || (HungUp(s, o.s) && Ending(o.tx))
    || (o == StartDisconnect(s).(s := o.s) && FlagsOnly(StartDisconnect(s).s, o.s)
        && (s.protocol == ISS || s.protocol == IDLE) && !s.discRepeating)
    || (FlagsOnly(s, o.s) && o.tx.None?)
    || (Repeats(s, o.s) && o.tx == Some(o.s.encoded))
  }

  lemma PollKinds(s: Station, p: PollKind, now: int)
    requires Sound(s)
    ensures PollOutcome(s, Poll(s, p, now))
  {
    hide HistoryOk, SetState, InitConnection, GetNextARQFrame;
    match p
    case RepeatTimer => NextFrameKinds(s, now);
    case MainLoop => NextFrameKinds(s, now);
    case Abort =>
      AbortKinds(s, now);
    case SendTimer =>
      SendTimerKinds(s, now);
    case PendingTimer =>
      InitKeepsHistory(s.(pendingTimeout := 0, repeat := false, protocol := DISC));
  }

  lemma AbortKinds(s: Station, now: int)
    requires Sound(s)
    ensures PollOutcome(s, HostAbort(s, now))
  {
    hide HistoryOk, SetState, InitConnection;
    var s1 := s.(abort := true);
    DiscKeepsHistory(ClearQueue(s1));
    InitKeepsHistory(SetState(ClearQueue(s1), DISC));
  }

  lemma SendTimerKinds(s: Station, now: int)
    requires Sound(s)
    ensures PollOutcome(s, SendTimeoutPoll(s, now))
  {
    hide HistoryOk, SetState, InitConnection;
    var s1 := ClearQueue(s.(sendTimeout := 0, repeat := false)).(encoded := Control(DISCFRAME));
    DiscKeepsHistory(s1);
    InitKeepsHistory(SetState(s1, DISC));
  }

  lemma LeaderDisconnects(s: Station, r: Station)
    requires Lead(s, r, None, None) && (s.protocol == ISS || s.protocol == IDLE) && !s.discRepeating
    ensures var o := StartDisconnect(s); Lead(o.s, r, o.tx, None)
  {
    hide Join, TablesOk, IsOdd, Even, BlockCount, Collecting, NothingPassed;
  }

  lemma LeaderPolls(s: Station, r: Station, p: PollKind, now: int)
    requires Lead(s, r, None, None)
    ensures var o := Poll(s, p, now); Paired(o.s, r, o.tx, None)
  {
    hide Poll, Sound, StartDisconnect, FlagsOnly, Repeats, HungUp, Ending, WithinOne,
         Calling, Confirming, Sending, Closing, Idling, Taking, Ended;
    PollKinds(s, p, now);
    var o := Poll(s, p, now);
    if HungUp(s, o.s) && Ending(o.tx) {
      LeaderHangsUp(s, r, o.s, o.tx, None);
    } else if Repeats(s, o.s) && o.tx == Some(o.s.encoded) {
      RepeatFacts(s, o.s);
      FlagsKeepLeader(s, o.s, r, None, None);
      LeaderRepeats(o.s, r);
    } else if FlagsOnly(s, o.s) && o.tx.None? {
      FlagsKeepLeader(s, o.s, r, None, None);
    } else {
      LeaderDisconnects(s, r);
      var d := StartDisconnect(s);
      FlagsKeepLeader(d.s, o.s, r, d.tx, None);
    }
  }

  /** Also with a reply of r on the air. */
  lemma LeaderHangsUp(s: Station, r: Station, s': Station, tx: Option<Frame>, toS: Option<Frame>)
    requires Lead(s, r, None, toS) && HungUp(s, s') && Ending(tx)
    ensures Lead(s', r, tx, toS)
  {
    hide Calling, Confirming, Sending, Closing, Idling, Taking, Ended, Sound, Reply;
    LeaderHearsReplies(s, r, toS);
    FrameConsumed(s, r, None, toS);
    HangUpLeads(s, s', r, tx);
    ReplyToEnded(s', r, tx, toS);
  }

  lemma LeaderHearsReplies(s: Station, r: Station, toS: Option<Frame>)
    requires Lead(s, r, None, toS)
    ensures Reply(toS)
  {
    hide Join, TablesOk, IsOdd, Even, BlockCount, HasFrame, Collecting, NothingPassed, TypesAcked;
  }

  lemma ReplyToEnded(s: Station, r: Station, tx: Option<Frame>, toS: Option<Frame>)
    requires Lead(s, r, tx, None) && s.protocol == DISC && Reply(toS)
    ensures Lead(s, r, tx, toS)
  {
    hide Calling, Confirming, Sending, Closing, Idling, Taking, Sound, WithinOne;
  }

  lemma FollowerHangsUp(s: Station, r: Station, r': Station, toR: Option<Frame>, tx: Option<Frame>)
    requires Lead(s, r, toR, None) && HungUp(r, r') && Ending(tx)
    ensures Paired(s, r', toR, tx)
  {
    FollowerEnds(s, r, r', toR, tx);
  }

  lemma FollowerPolls(s: Station, r: Station, p: PollKind, now: int)
    requires Lead(s, r, None, None)
    ensures var o := Poll(r, p, now); Paired(s, o.s, None, o.tx)
  {
    hide Poll, Sound, StartDisconnect, FlagsOnly, Repeats, HungUp, Ending, WithinOne,
         Calling, Confirming, Sending, Closing, Idling, Taking, Ended;
    PollKinds(r, p, now);
    var o := Poll(r, p, now);
    if HungUp(r, o.s) && Ending(o.tx) {
      FollowerHangsUp(s, r, o.s, None, o.tx);
    } else if Repeats(r, o.s) && o.tx == Some(o.s.encoded) {
      RepeatFacts(r, o.s);
      FlagsKeepFollower(s, r, o.s, None, None);
      FollowerRepeats(s, o.s);
    } else {
      FlagsKeepFollower(s, r, o.s, None, None);
    }
  }

  /** A poll that transmits nothing, while a frame is on its way to the station that is polled. */
  lemma LeaderPollsQuietly(s: Station, r: Station, p: PollKind, now: int, toS: Option<Frame>)
    requires Lead(s, r, None, toS) && Poll(s, p, now).tx.None?
    ensures Lead(Poll(s, p, now).s, r, None, toS)
  {
    hide Poll, Sound, StartDisconnect, FlagsOnly, Repeats, HungUp, Ending, WithinOne,
         Calling, Confirming, Sending, Closing, Idling, Taking, Ended;
    PollKinds(s, p, now);
    QuietPoll(s, Poll(s, p, now));
    var s' := Poll(s, p, now).s;
    if HungUp(s, s') {
      LeaderHangsUp(s, r, s', None, toS);
    } else {
      FlagsKeepLeader(s, s', r, None, toS);
    }
  }

  lemma FollowerPollsQuietly(s: Station, r: Station, p: PollKind, now: int, toR: Option<Frame>)
    requires Lead(s, r, toR, None) && Poll(r, p, now).tx.None?
    ensures Paired(s, Poll(r, p, now).s, toR, None)
  {
    hide Poll, Sound, StartDisconnect, FlagsOnly, Repeats, HungUp, Ending, WithinOne,
         Calling, Confirming, Sending, Closing, Idling, Taking, Ended;
    PollKinds(r, p, now);
    QuietPoll(r, Poll(r, p, now));
    var r' := Poll(r, p, now).s;
    if HungUp(r, r') {
      FollowerHangsUp(s, r, r', toR, None);
    } else {
      FlagsKeepFollower(s, r, r', toR, None);
    }
  }

  lemma QuietPoll(s: Station, o: Outcome)
    requires PollOutcome(s, o) && o.tx.None?
    ensures (HungUp(s, o.s) || FlagsOnly(s, o.s)) && Ending(None)
  {
    hide HungUp, FlagsOnly, Repeats;
  }

  // ---------- host commands ----------

  datatype HostCommand = SendBytes(data: seq<byte>) | AskDisconnect | AskBreak

  function Command(s: Station, c: HostCommand): Station
  {
    match c
    case SendBytes(data) => QueueData(s, data)
    case AskDisconnect => HostDisconnect(s)
    case AskBreak => HostBreak(s)
  }

  /** A command changes flags, or adds to the end of the queue. */
  predicate Commanded(s: Station, s': Station)
  {
    && s' == s.(out := s.out.(queue := s'.out.queue), disconnect := s'.disconnect, breakCmd := s'.breakCmd)
    && |s.out.queue| <= |s'.out.queue| && s'.out.queue[..|s.out.queue|] == s.out.queue
  }

  lemma QueueingKinds(s: Station, data: seq<byte>)
    ensures Commanded(s, QueueData(s, data))
  {
  }

  lemma CommandKinds(s: Station, c: HostCommand)
    ensures Commanded(s, Command(s, c))
  {
    hide QueueData;
    match c
    case SendBytes(data) => QueueingKinds(s, data);
    case AskDisconnect =>
    case AskBreak =>
  }

  lemma LeaderCommanded(s: Station, s': Station, r: Station, toR: Option<Frame>, toS: Option<Frame>)
    requires Lead(s, r, toR, toS) && Commanded(s, s')
    ensures Lead(s', r, toR, toS)
  {
    hide Join, TablesOk, IsOdd, Even, BlockCount, Collecting, NothingPassed;
    if s.protocol == ISS && s.substate == ISSData && !s.discRepeating {
      assert s'.out.queue[..s.out.inProcess] == s'.out.queue[..|s.out.queue|][..s.out.inProcess];
    }
  }

  lemma FollowerCommanded(s: Station, r: Station, r': Station, toR: Option<Frame>, toS: Option<Frame>)
    requires Lead(s, r, toR, toS) && Commanded(r, r')
    ensures Lead(s, r', toR, toS)
  {
    hide Join, TablesOk, IsOdd, Even, BlockCount, Collecting, HasFrame;
  }

  // ---------- the link ----------

  datatype Air = Clear | ToA(frame: Frame) | ToB(frame: Frame)

  datatype Link = Link(a: Station, b: Station, air: Air)

  /** What can happen next. A poll has no effect on a station that is transmitting. */
  datatype Event =
    | Lost
    | Heard(at: int, rx: Rx)
    | Polled(byA: bool, kind: PollKind, when: int)
    | Commands(toA: bool, command: HostCommand)

  function FromA(tx: Option<Frame>): Air { if tx.Some? then ToB(tx.value) else Clear }
  function FromB(tx: Option<Frame>): Air { if tx.Some? then ToA(tx.value) else Clear }

  predicate Transmits(l: Link, a: bool) { if a then l.air.ToB? else l.air.ToA? }

  /** A station that begins to transmit does not hear what is on its way to it. */
  function Replaced(air: Air, tx: Air): Air { if tx == Clear then air else tx }

  function Step(l: Link, e: Event): Link
  {
    match e
    case Lost => l.(air := Clear)
    case Heard(now, rx) =>
      (match l.air
       case Clear => l
       case ToA(f) => var o := Hear(l.a, now, f, rx); Link(o.s, l.b, FromA(o.tx))
       case ToB(f) => var o := Hear(l.b, now, f, rx); Link(l.a, o.s, FromB(o.tx)))
    case Polled(byA, kind, now) =>
      if Transmits(l, byA) then l
      else if byA then var o := Poll(l.a, kind, now); Link(o.s, l.b, Replaced(l.air, FromA(o.tx)))
      else var o := Poll(l.b, kind, now); Link(l.a, o.s, Replaced(l.air, FromB(o.tx)))
    case Commands(toA, c) =>
      if toA then l.(a := Command(l.a, c)) else l.(b := Command(l.b, c))
  }

  function Run(l: Link, events: seq<Event>): Link
  {
    if events == [] then l else Step(Run(l, events[..|events| - 1]), events[|events| - 1])
  }

  lemma RunOfFour(l: Link, e: Event, f: Event, g: Event, h: Event)
    ensures Run(l, [e, f, g, h]) == Step(Step(Step(Step(l, e), f), g), h)
  {
    hide Step;
    assert [e, f, g, h][..3] == [e, f, g] && [e, f, g][..2] == [e, f] && [e, f][..1] == [e];
    assert Run(l, [e]) == Step(Run(l, []), e);
    assert Run(l, [e, f]) == Step(Run(l, [e]), f);
    assert Run(l, [e, f, g]) == Step(Run(l, [e, f]), g);
  }

  function ToAFrame(l: Link): Option<Frame> { if l.air.ToA? then Some(l.air.frame) else None }
  function ToBFrame(l: Link): Option<Frame> { if l.air.ToB? then Some(l.air.frame) else None }

  predicate Invariant(l: Link) { Paired(l.a, l.b, ToBFrame(l), ToAFrame(l)) }

  /** A disconnected station with no ARQ traffic on record. Everything else in it is arbitrary. */
  predicate Unused(s: Station)
  {
    && s.protocol == DISC && HistoryOk(s.gear) && |s.inn.frameData| == CARRIERS
    && s.out.removed == [] && s.inn.delivered == []
  }

  /** Station a calls station b. */
  function Started(a: Station, b: Station, now: int, request: byte): Link
    requires IsConReq(request)
  {
    var o := Call(a, now, request);
    Link(o.s, b, FromA(o.tx))
  }

  lemma StartedIsInvariant(a: Station, b: Station, now: int, request: byte)
    requires Unused(a) && Unused(b) && IsConReq(request)
    ensures Invariant(Started(a, b, now, request))
  {
    hide Join, Confirming, Sending, Closing, Idling, Taking, Ended;
  }

  /** Polling a station that is not transmitting, whichever of the two leads. */
  lemma ListenerPolls(s: Station, r: Station, p: PollKind, now: int, toS: Option<Frame>, toR: Option<Frame>)
    requires Paired(s, r, toR, toS)
    ensures toR.None? ==> var o := Poll(s, p, now); Paired(o.s, r, o.tx, if o.tx.Some? then None else toS)
  {
    hide Lead, Poll;
    if toR.Some? {
      return;
    }
    var o := Poll(s, p, now);
    if Lead(s, r, None, toS) {
      if o.tx.Some? {
        FrameConsumed(s, r, None, toS);
        LeaderPolls(s, r, p, now);
      } else {
        LeaderPollsQuietly(s, r, p, now, toS);
      }
    } else {
      if o.tx.Some? {
        FrameConsumed(r, s, toS, None);
        FollowerPolls(r, s, p, now);
      } else {
        FollowerPollsQuietly(r, s, p, now, toS);
      }
    }
  }

  lemma StepKeepsInvariant(l: Link, e: Event)
    requires Invariant(l)
    ensures Invariant(Step(l, e))
  {
    hide Lead, Hear, Poll, Command, Commanded;
    var toA, toB := ToAFrame(l), ToBFrame(l);
    match e
    case Lost =>
      if Lead(l.a, l.b, toB, toA) { FrameConsumed(l.a, l.b, toB, toA); } else { FrameConsumed(l.b, l.a, toA, toB); }
    case Heard(now, rx) =>
      match l.air {
       case Clear =>
       case ToA(f) =>
         if Lead(l.a, l.b, None, Some(f)) { LeaderHears(l.a, l.b, f, now, rx); } else { FollowerHears(l.b, l.a, f, now, rx); }
       case ToB(f) =>
         if Lead(l.b, l.a, None, Some(f)) { LeaderHears(l.b, l.a, f, now, rx); } else { FollowerHears(l.a, l.b, f, now, rx); }
      }
    case Polled(byA, kind, now) =>
      if byA { ListenerPolls(l.a, l.b, kind, now, toA, toB); } else { ListenerPolls(l.b, l.a, kind, now, toB, toA); }
    case Commands(forA, c) =>
      CommandKinds(l.a, c);
      CommandKinds(l.b, c);
      if Lead(l.a, l.b, toB, toA) {
        if forA { LeaderCommanded(l.a, Command(l.a, c), l.b, toB, toA); }
        else { FollowerCommanded(l.a, l.b, Command(l.b, c), toB, toA); }
      } else {
        if forA { FollowerCommanded(l.b, l.a, Command(l.a, c), toA, toB); }
        else { LeaderCommanded(l.b, Command(l.b, c), l.a, toA, toB); }
      }
  }

  /** Every run from a call keeps the invariant, under any losses and corruption. */
  lemma {:induction false} RunKeepsInvariant(l: Link, events: seq<Event>)
    requires Invariant(l)
    ensures Invariant(Run(l, events))
  {
    hide Invariant;
    if events == [] {
    } else {
      RunKeepsInvariant(l, events[..|events| - 1]);
      StepKeepsInvariant(Run(l, events[..|events| - 1]), events[|events| - 1]);
    }
  }
}
