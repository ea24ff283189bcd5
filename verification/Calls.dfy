/** How sessions begin and end over a link that loses frames: a call gets through if it is heard within its
    repeats, a called station waits ten seconds to be confirmed, and a disconnect ends within its own repeats
    (ext/ardop1/ARQ.c, ProcessRcvdARQFrame and GetNextARQFrame). */
module Calls {
  import opened Frames
  import opened Options
  import opened Gear
  import opened ArqStation
  import opened ArqLink
  import opened Delivery
  import opened Progress
  import opened Resume

  // ---------- calling ----------

  /** Frame and reply come through, and are decoded where they are long. */
  predicate Understood(t: Attempt)
  {
    t.frame.Reach? && t.frame.rx.intact && t.reply.Reach? && t.reply.rx.intact
  }

  /** A call that is heard is not rejected. */
  predicate Accepting(t: Attempt) { t.frame.Reach? ==> t.frame.rx.reply != CONREJBW }

  predicate Caller(s: Station)
  {
    && s.protocol == ISS && s.repeat && Free(s) && !s.abort && s.out.queue != []
    && s.encoded == Control(s.encoded.ftype)
  }

  /** The request is on the air; the other station has not heard it, or its answer was lost. */
  predicate Ringing(l: ArqLink.Link, byA: bool)
  {
    var s, r := Snd(l, byA), Rcv(l, byA);
    && Invariant(l) && l.air == Towards(!byA, s.encoded)
    && Caller(s) && s.substate == ISSConReq && IsConReq(s.encoded.ftype)
    && Free(r) && (r.protocol == DISC || (r.protocol == IRS && r.substate == IRSConAck))
  }

  /** The caller confirms the answer; the other station has not heard that, or its ACK was lost. */
  predicate Agreeing(l: ArqLink.Link, byA: bool)
  {
    var s, r := Snd(l, byA), Rcv(l, byA);
    && Invariant(l) && l.air == Towards(!byA, s.encoded)
    && Caller(s) && s.substate == ISSConAck && IsConAck(s.encoded.ftype) && SetFor(s, s.encoded.ftype)
    && Free(r) && r.protocol == IRS && (r.substate == IRSConAck || (r.substate == IRSData && SetFor(r, s.encoded.ftype)))
  }

  /** A called station answers every copy of a request that it can decode. */
  lemma RequestIsAnswered(r: Station, t: byte, now: int, rx: Rx)
    requires IsConReq(t) && Free(r) && (r.protocol == DISC || (r.protocol == IRS && r.substate == IRSConAck))
    requires rx.reply != CONREJBW
    ensures var o := Hear(r, now, Control(t), rx);
            && Free(o.s)
            && if rx.intact then o.tx == Some(Control(rx.reply)) && o.s.protocol == IRS && o.s.substate == IRSConAck
               else o.tx == None && o.s.protocol == r.protocol && o.s.substate == r.substate
  {
    hide Join, Demodulated, Collected, InitConnection;
    HearsLongControl(r, Control(t), now, rx);
    InitKeepsFree(AfterLongControl(r, t));
  }

  /** The caller confirms every answer that it can decode. */
  lemma AnswerIsTaken(s: Station, t: byte, now: int, rx: Rx)
    requires Caller(s) && s.substate == ISSConReq && IsConAck(t)
    ensures var o := Hear(s, now, Control(t), rx);
            && Caller(o.s) && o.s.out == s.out
            && if rx.intact then o.tx == Some(Control(t)) && o.s.substate == ISSConAck && o.s.encoded == Control(t) && SetFor(o.s, t)
               else o.tx == None && o.s == s.(inn := o.s.inn)
  {
    hide Join, Demodulated, Collected, Bandwidth, DataModes, Thresholds;
    HearsLongControl(s, Control(t), now, rx);
  }

  /** The request timer sends the request again, unchanged, and counts. */
  lemma RequestRepeats(s: Station, now: int)
    requires Caller(s) && s.substate == ISSConReq && s.repeatCount < s.cfg.conReqRepeats
    ensures Poll(s, RepeatTimer, now) == Outcome(s.(repeatCount := s.repeatCount + 1), Some(s.encoded))
  {
  }

  /** What an attempt that does not get through leaves of the caller. */
  predicate SameCaller(s: Station, s': Station)
  {
    s'.out == s.out && s'.cfg == s.cfg && s'.repeatCount == s.repeatCount && s'.timeoutTrip == s.timeoutTrip
  }

  lemma RingInTheAir(l: ArqLink.Link, t: Attempt, byA: bool)
    requires Ringing(l, byA) && Accepting(t)
    ensures var m := AirTime(l, t);
            var s, s', r' := Snd(l, byA), Snd(m, byA), Rcv(m, byA);
            && Caller(s') && s'.out == s.out && Free(r')
            && if Understood(t) then
                 && s'.substate == ISSConAck && IsConAck(s'.encoded.ftype) && SetFor(s', s'.encoded.ftype)
                 && m.air == Towards(!byA, s'.encoded) && r'.protocol == IRS && r'.substate == IRSConAck
               else
                 && s'.substate == ISSConReq && s'.encoded == s.encoded && SameCaller(s, s') && m.air == Clear
                 && (r'.protocol == DISC || (r'.protocol == IRS && r'.substate == IRSConAck))
  {
    hide Hear, Invariant, IsConReq, IsConAck, SetFor, Free;
    var s, r := Snd(l, byA), Rcv(l, byA);
    if t.frame.Lose? {
      return;
    }
    RequestIsAnswered(r, s.encoded.ftype, t.frame.at, t.frame.rx);
    if t.reply.Lose? || !t.frame.rx.intact {
      return;
    }
    AnswerIsTaken(s, t.frame.rx.reply, t.reply.at, t.reply.rx);
  }

  /** A request that is not answered in time is sent again, one repeat less being left; once the call and its
      answer are both decoded the caller confirms. */
  lemma RingTried(l: ArqLink.Link, t: Attempt, byA: bool)
    requires Ringing(l, byA) && Accepting(t)
    requires Understood(t) || Snd(l, byA).repeatCount < Snd(l, byA).cfg.conReqRepeats
    ensures var l' := Try(l, t, byA);
            var s, s' := Snd(l, byA), Snd(l', byA);
            && s'.out == s.out
            && if Understood(t) then Agreeing(l', byA)
               else Ringing(l', byA) && s'.repeatCount == s.repeatCount + 1 && s'.cfg == s.cfg
  {
    hide Invariant, AirTime, IsConReq, IsConAck, SetFor;
    TryKeepsInvariant(l, t, byA);
    RingInTheAir(l, t, byA);
    if !Understood(t) {
      RequestRepeats(Snd(AirTime(l, t), byA), t.tick);
    }
  }

  // ---------- agreeing on the bandwidth ----------

  /** The confirmation is acknowledged as soon as it is decoded, and every copy after that is. */
  lemma ConfirmationIsAnswered(r: Station, t: byte, now: int, rx: Rx)
    requires IsConAck(t) && Free(r) && r.protocol == IRS
    requires r.substate == IRSConAck || (r.substate == IRSData && SetFor(r, t))
    ensures var o := Hear(r, now, Control(t), rx);
            && Free(o.s) && o.s.protocol == IRS
            && if r.substate == IRSData || rx.intact
               then IsAckFrame(o.tx) && o.s.substate == IRSData && SetFor(o.s, t)
               else o.tx == None && o.s.substate == IRSConAck
  {
    hide Join, Demodulated, Collected, Bandwidth, DataModes, Thresholds;
    HearsLongControl(r, Control(t), now, rx);
  }

  lemma ConfirmationRepeats(s: Station, now: int)
    requires Caller(s) && s.substate == ISSConAck && InTime(s, now)
    ensures Poll(s, RepeatTimer, now) == Outcome(s, Some(s.encoded))
  {
  }

  /** Confirmation and ACK come through, the confirmation decoded now or before. */
  predicate Agreed(l: ArqLink.Link, t: Attempt, byA: bool)
  {
    BothReach(t) && (t.frame.rx.intact || Rcv(l, byA).substate == IRSData)
  }

  lemma AgreementInTheAir(l: ArqLink.Link, t: Attempt, byA: bool)
    requires Agreeing(l, byA)
    ensures var m := AirTime(l, t);
            var s, s', r' := Snd(l, byA), Snd(m, byA), Rcv(m, byA);
            && Free(r') && r'.protocol == IRS
            && if Agreed(l, t, byA) then
                 && InSendingPhase(s') && Willing(s', r') && m.air == Towards(!byA, s'.out.record) && CutToMode(s')
                 && SetFor(s', s.encoded.ftype) && SetFor(r', s.encoded.ftype)
                 && Stream(s') == Stream(s) && s'.out.queue == s.out.queue
               else
                 && s' == s && m.air == Clear
                 && (r'.substate == IRSConAck || (r'.substate == IRSData && SetFor(r', s.encoded.ftype)))
  {
    hide Hear, Invariant, IsConAck, Stream, CutToMode, SetFor;
    var s, r := Snd(l, byA), Rcv(l, byA);
    if t.frame.Lose? {
      return;
    }
    ConfirmationIsAnswered(r, s.encoded.ftype, t.frame.at, t.frame.rx);
    var m := Step(l, AsEvent(t.frame));
    if t.reply.Lose? || m.air == Clear {
      return;
    }
    AckStartsData(s, m.air.frame, t.reply.at, t.reply.rx);
    KeepsSet(s, Hear(s, t.reply.at, m.air.frame, t.reply.rx).s, s.encoded.ftype);
  }

  lemma KeepsSet(s: Station, s': Station, t: byte)
    requires SetFor(s, t) && s'.bw == s.bw && s'.cfg == s.cfg
    requires s'.gear.modes == s.gear.modes && s'.gear.thresholds == s.gear.thresholds
    ensures SetFor(s', t)
  {
  }

  lemma AckStartsData(s: Station, f: Frame, now: int, rx: Rx)
    requires Caller(s) && s.substate == ISSConAck && IsAck(f.ftype)
    ensures var o := Hear(s, now, f, rx);
            && InSendingPhase(o.s) && o.tx == Some(o.s.out.record) && CutToMode(o.s) && o.s.repeat && SameFlags(s, o.s)
            && Stream(o.s) == Stream(s) && o.s.out.queue == s.out.queue && o.s.bw == s.bw && o.s.cfg == s.cfg
            && o.s.gear.modes == s.gear.modes && o.s.gear.thresholds == s.gear.thresholds
  {
    hide SendData, CutToMode;
    SendDataGoesOn(FirstAcked(s), now);
    SendDataBreaks(FirstAcked(s), now);
  }

  /** Losing the confirmation or its ACK changes nothing for the caller; once both come through its first data frame is
      on the air and both stations are set for the bandwidth agreed on. */
  lemma AgreementTried(l: ArqLink.Link, t: Attempt, byA: bool)
    requires Agreeing(l, byA) && Timely(l, t, byA)
    ensures var l' := Try(l, t, byA);
            var s, s' := Snd(l, byA), Snd(l', byA);
            && Stream(s') == Stream(s) && s'.out.queue == s.out.queue
            && if Agreed(l, t, byA)
               then Steady(l', byA) && CutToMode(s') && SetFor(s', s.encoded.ftype) && SetFor(Rcv(l', byA), s.encoded.ftype)
               else Agreeing(l', byA) && s' == s
  {
    hide Invariant, AirTime, Poll, IsConAck, SetFor, Free, Steady, CutToMode, Stream;
    TryKeepsInvariant(l, t, byA);
    AgreementInTheAir(l, t, byA);
    var m := AirTime(l, t);
    if Agreed(l, t, byA) {
      SendingIsSteady(m, byA);
      assert Try(l, t, byA) == m;
    } else {
      ConfirmationRepeats(Snd(m, byA), t.tick);
    }
  }

  // ---------- from a call to the end of its transfer ----------

  /** A clean attempt decodes what it carries, whatever that is. */
  predicate Legible(t: Attempt) { Clean(t) ==> Understood(t) }

  predicate Promising(t: Attempt) { Legible(t) && Accepting(t) }

  /** From the confirmation on, no attempt takes the caller past ARQTimeout. */
  predicate AllHeardInTime(l: ArqLink.Link, ts: seq<Attempt>, byA: bool)
    decreases |ts|
  {
    ts == [] || !(Ringing(l, byA) || Agreeing(l, byA) || Steady(l, byA))
    || ((Ringing(l, byA) || Timely(l, ts[0], byA)) && AllHeardInTime(Try(l, ts[0], byA), ts[1..], byA))
  }

  lemma {:induction false} HeardIsTimely(l: ArqLink.Link, ts: seq<Attempt>, byA: bool)
    requires AllHeardInTime(l, ts, byA)
    ensures AllTimely(l, ts, byA)
    decreases |ts|
  {
    hide Ringing, Agreeing, Steady, Timely, Try;
    if ts == [] || !Steady(l, byA) {
    } else {
      SteadyIsNotRinging(l, byA);
      HeardIsTimely(Try(l, ts[0], byA), ts[1..], byA);
    }
  }

  lemma SteadyIsNotRinging(l: ArqLink.Link, byA: bool)
    requires Steady(l, byA)
    ensures !Ringing(l, byA) && !Agreeing(l, byA)
  {
  }

  lemma CleanIsAgreed(l: ArqLink.Link, t: Attempt, byA: bool)
    requires Clean(t) && Legible(t)
    ensures Agreed(l, t, byA)
  {
  }

  /** Once the caller has the answer, one clean attempt and then as many as its queue fills smallest frames bring the queue
      across, whatever is lost in between. */
  lemma {:induction false} AgreementArrives(l: ArqLink.Link, ts: seq<Attempt>, byA: bool) returns (made: seq<Attempt>)
    requires Agreeing(l, byA) && AllHeardInTime(l, ts, byA) && forall t :: t in ts ==> Legible(t)
    requires LEAST_FRAME * (CleanCount(ts) - 1) >= |Snd(l, byA).out.queue|
    ensures made <= ts && Finished(Tries(l, made, byA), byA)
    ensures Rcv(Tries(l, made, byA), byA).inn.delivered == Stream(Snd(l, byA))
    decreases |ts|
  {
    hide Step, AirTime, Steady, Finished, Ringing, Agreeing, Agreed, Try, Clean, Timely, Stream, Snd, Rcv, Tries, Legible, AllTimely, CutToMode, SetFor;
    var t := ts[0];
    var l' := Try(l, t, byA);
    AgreeingIsNotRinging(l, byA);
    AgreementTried(l, t, byA);
    if Clean(t) { CleanIsAgreed(l, t, byA); }
    var rest;
    if Agreed(l, t, byA) {
      SteadyOwes(l', byA);
      HeardIsTimely(l', ts[1..], byA);
      rest := QueueArrives(l', ts[1..], byA);
    } else {
      rest := AgreementArrives(l', ts[1..], byA);
    }
    FirstTry(l, t, rest, byA);
    made := [t] + rest;
  }

  lemma AgreeingIsNotRinging(l: ArqLink.Link, byA: bool)
    requires Agreeing(l, byA)
    ensures !Ringing(l, byA)
  {
  }

  /** A call is answered if one of its repeats, k attempts from here, comes through clean: then it takes two clean attempts and
      as many more as the queue fills smallest frames to bring the queue across, whatever is lost in between. */
  lemma {:induction false} CallArrives(l: ArqLink.Link, ts: seq<Attempt>, k: nat, byA: bool) returns (made: seq<Attempt>)
    requires Ringing(l, byA) && AllHeardInTime(l, ts, byA) && forall t :: t in ts ==> Promising(t)
    requires k < |ts| && Clean(ts[k]) && Snd(l, byA).repeatCount + k <= Snd(l, byA).cfg.conReqRepeats
    requires LEAST_FRAME * (CleanCount(ts) - 2) >= |Snd(l, byA).out.queue|
    ensures made <= ts && Finished(Tries(l, made, byA), byA)
    ensures Rcv(Tries(l, made, byA), byA).inn.delivered == Stream(Snd(l, byA))
    decreases k
  {
    hide Step, AirTime, Steady, Finished, Ringing, Agreeing, Try, Clean, Timely, Stream, Snd, Rcv, Tries, Understood;
    hide AllTimely, Accepting;
    var t := ts[0];
    var l' := Try(l, t, byA);
    assert t in ts && forall x :: x in ts[1..] ==> x in ts;
    RingTried(l, t, byA);
    SameStream(Snd(l, byA), Snd(l', byA));
    var rest;
    if Understood(t) {
      rest := AgreementArrives(l', ts[1..], byA);
    } else {
      rest := CallArrives(l', ts[1..], k - 1, byA);
    }
    FirstTry(l, t, rest, byA);
    made := [t] + rest;
  }

  /** Two stations as the program starts them, one of which calls. */
  lemma CallRings(a: Station, b: Station, now: int, request: byte)
    requires Unused(a) && Unused(b) && Free(a) && Free(b) && a.out.queue != [] && IsConReq(request)
    ensures var l := Started(a, b, now, request);
            && Ringing(l, true) && Stream(l.a) == a.out.queue == l.a.out.queue
            && l.a.repeatCount == 1 && l.a.cfg == a.cfg && l.a.timeoutTrip == now
  {
    hide Invariant, IsConReq;
    StartedIsInvariant(a, b, now, request);
    StreamOfUnused(a);
  }

  /** A whole session over a bad link: if one of the first ARQConReqRepeats requests comes through clean, the other host is given
      exactly the caller's queue, however many frames and replies are lost or damaged in between. */
  lemma CallTransfersDespiteLosses(a: Station, b: Station, now: int, request: byte, ts: seq<Attempt>, k: nat)
    returns (made: seq<Attempt>)
    requires Unused(a) && Unused(b) && Free(a) && Free(b) && a.out.queue != [] && IsConReq(request)
    requires AllHeardInTime(Started(a, b, now, request), ts, true) && forall t :: t in ts ==> Promising(t)
    requires k < |ts| && Clean(ts[k]) && k < a.cfg.conReqRepeats
    requires LEAST_FRAME * (CleanCount(ts) - 2) >= |a.out.queue|
    ensures var l := Tries(Started(a, b, now, request), made, true);
            made <= ts && Finished(l, true) && l.b.inn.delivered == a.out.queue
  {
    hide Started, Stream, Free, Tries, AllHeardInTime, CleanCount, Finished, Ringing, Clean, Promising;
    CallRings(a, b, now, request);
    made := CallArrives(Started(a, b, now, request), ts, k, true);
  }

  /** A call that is rejected ends at the next timer, with the caller's queue cleared and the called station as it was. */
  lemma RejectionEnds(l: ArqLink.Link, t: Attempt, byA: bool)
    requires Ringing(l, byA) && Understood(t) && t.frame.rx.reply == CONREJBW
    ensures var l' := Try(l, t, byA);
            && HungUpEmpty(Snd(l', byA)) && l'.air == Clear
            && Free(Rcv(l', byA)) && Rcv(l', byA).protocol == Rcv(l, byA).protocol && Rcv(l', byA).substate == Rcv(l, byA).substate
  {
    hide Hear, Poll, Invariant, IsConReq;
    var s, r := Snd(l, byA), Rcv(l, byA);
    CallIsRejected(r, s.encoded.ftype, t.frame.at, t.frame.rx);
    RejectionIsHeard(s, CONREJBW, t.reply.at, t.reply.rx, t.tick);
  }

  /** Nothing else that a calling station hears makes a difference to it. */
  lemma CallerIgnores(s: Station, f: Frame, now: int, rx: Rx)
    requires Caller(s) && s.substate == ISSConReq && (IsShortControl(f.ftype) || IsConReq(f.ftype))
    requires f.ftype != CONREJBUSY && f.ftype != CONREJBW
    ensures var o := Hear(s, now, f, rx); o.tx == None && o.s == s.(inn := o.s.inn)
  {
    hide Join, Demodulated, Collected, Bandwidth, Initialised;
    if IsShortControl(f.ftype) {
      HearsShort(s, f, now, rx);
    } else {
      HearsLongControl(s, f, now, rx);
    }
  }

  lemma CallIsRejected(r: Station, t: byte, now: int, rx: Rx)
    requires IsConReq(t) && Free(r) && (r.protocol == DISC || (r.protocol == IRS && r.substate == IRSConAck))
    requires rx.intact && rx.reply == CONREJBW
    ensures var o := Hear(r, now, Control(t), rx);
            o.tx == Some(Control(CONREJBW)) && Free(o.s) && o.s.protocol == r.protocol && o.s.substate == r.substate
  {
    hide Join, Demodulated, Collected;
    HearsLongControl(r, Control(t), now, rx);
  }

  /** A rejection, also one as busy, ends the call at the next timer at the latest, with the queue cleared. */
  lemma RejectionIsHeard(s: Station, t: byte, now: int, rx: Rx, tick: int)
    requires Caller(s) && (s.substate == ISSConReq || s.substate == ISSConAck) && (t == CONREJBUSY || t == CONREJBW)
    ensures var o := Hear(s, now, Control(t), rx); o.tx == None
    ensures var o := Poll(Hear(s, now, Control(t), rx).s, RepeatTimer, tick); o.tx == None && HungUpEmpty(o.s)
  {
    hide SendData;
  }

  // ---------- waiting for the confirmation ----------

  /** The ten seconds run only while a call is unconfirmed, or after the station has been disconnected meanwhile. */
  predicate WaitsOnlyForCaller(s: Station)
  {
    s.pendingTimeout != 0 ==> s.protocol == DISC || (s.protocol == IRS && s.substate == IRSConAck)
  }

  predicate SameWait(s: Station, s': Station) { s'.pendingTimeout == s.pendingTimeout }

  lemma SendingWaits(s: Station, now: int)
    ensures SameWait(s, SendData(s, now).s)
  {
    hide NextDataFrame, Applied, BlockCount, BlockLen;
  }

  lemma ClosingWaits(s: Station)
    ensures SameWait(s, CloseSession(s)) && SameWait(s, EndIdling(s))
  {
    hide Forgotten;
  }

  lemma IdleFrameWaits(s: Station, now: int)
    ensures SameWait(s, HearIdleFrame(s, now).s)
  {
    hide AckFrame;
  }

  lemma GoodDataWaits(s: Station, now: int, t: byte, data: seq<byte>, rx: Rx)
    ensures SameWait(s, ReceiveGoodData(s, now, t, data, rx).s)
  {
    hide AckFrame;
  }

  lemma YieldingWaits(s: Station, now: int, lastType: int)
    ensures SameWait(s, YieldLink(s, now, lastType).s) && SameWait(s, YieldLink(ClearQueue(s), now, lastType).s)
  {
    hide AckFrame, FreshReceiver;
  }

  lemma ReceivingWaits(s: Station, now: int, t: byte, data: seq<byte>, ok: bool, rx: Rx)
    ensures SameWait(s, ReceiveIRSData(s, now, t, data, ok, rx).s)
  {
    hide Bandwidth, AckFrame, NakFrame, IsData, CloseSession, HearIdleFrame, ReceiveGoodData;
    ClosingWaits(s);
    if IsConAck(t) {
      return;
    } else if ok && (t == DISCFRAME || t == END || t == BREAK) {
      return;
    } else if ok && t == IDLEFRAME {
      IdleFrameWaits(s, now);
      return;
    } else if ok && IsData(t) {
      GoodDataWaits(s, now, t, data, rx);
      return;
    } else if !ok && t == s.inn.lastACKed {
      return;
    } else if !ok && IsData(t) {
      return;
    }
  }

  lemma IdlerWaits(s: Station, now: int, t: byte, ok: bool)
    ensures SameWait(s, ReceiveIDLE(s, now, t, ok).s)
  {
    hide SendData, CloseSession, EndIdling, YieldLink;
    ClosingWaits(s);
    YieldingWaits(s, now, -1);
    if !ok {
      return;
    } else if IsAck(t) && |s.out.queue| > 0 {
      SendingWaits(SetState(s, ISS).(substate := ISSData), now);
      return;
    } else if t == BREAK {
      return;
    }
  }

  lemma AckerWaits(s: Station, now: int, t: byte)
    ensures var s1 := if s.out.sentData then Acknowledged(s, t as int - 0xE0) else s;
            SameWait(s, SendData(s1.(timeoutTrip := now, gear := s1.gear.(naks := 0), repeat := false), now).s)
  {
    hide SendData, Reported;
    var s1 := if s.out.sentData then Acknowledged(s, t as int - 0xE0) else s;
    SendingWaits(s1.(timeoutTrip := now, gear := s1.gear.(naks := 0), repeat := false), now);
  }

  lemma NakerWaits(s: Station, now: int, g: Gears)
    ensures SameWait(s, SendData(s.(gear := g.(naks := 0), timeoutTrip := now), now).s)
  {
    hide SendData;
    SendingWaits(s.(gear := g.(naks := 0), timeoutTrip := now), now);
  }

  lemma SenderWaits(s: Station, now: int, t: byte, ok: bool)
    ensures SameWait(s, ReceiveISSData(s, now, t, ok).s)
  {
    hide SendData, Acknowledged, Reported, CloseSession, YieldLink, ClearQueue;
    if s.disconnect || !ok {
      return;
    } else if IsAck(t) {
      AckerWaits(s, now, t);
      return;
    } else if t == BREAK {
      YieldingWaits(s.(gear := s.gear.(naks := 0)), now, t);
      return;
    } else if IsNak(t) {
      NakerWaits(s, now, Reported(s.gear.(naks := s.gear.naks + 1), t, |s.out.queue|));
      return;
    }
    ClosingWaits(s);
  }

  lemma RequestWaits(s: Station, t: byte, ok: bool)
    ensures SameWait(s, ReceiveISSConReq(s, t, ok).s)
  {
    hide Bandwidth, Initialised;
  }

  lemma ConfirmerWaits(s: Station, now: int, t: byte, ok: bool)
    ensures SameWait(s, ReceiveISSConAck(s, now, t, ok).s)
  {
    hide SendData, YieldLink, Forgotten;
    var s1 := FirstAcked(s);
    if (ok && IsAck(t)) || t == BREAK {
      YieldingWaits(s1, now, t);
      SendingWaits(s1, now);
      return;
    }
  }

  lemma CallerWaits(s: Station, now: int, t: byte, ok: bool)
    ensures SameWait(s, ReceiveISS(s, now, t, ok).s)
  {
    hide SendData, ReceiveISSData, ReceiveISSConReq, ReceiveISSConAck;
    match s.substate {
      case ISSConReq => RequestWaits(s, t, ok); return;
      case ISSConAck => ConfirmerWaits(s, now, t, ok); return;
      case ISSData => SenderWaits(s, now, t, ok); return;
      case _ => return;
    }
  }

  lemma CalledWaits(s: Station, now: int, t: byte, ok: bool, rx: Rx)
    requires s.protocol == DISC
    ensures WaitsOnlyForCaller(ReceiveDISC(s, now, t, ok, rx).s)
  {
    hide InitConnection, FreshReceiver, AcceptCall;
    if ok && t == DISCFRAME {
      return;
    } else if !ok || !IsConReq(t) {
      return;
    } else if rx.reply != CONREJBW {
      AcceptedWaits(s, now, rx.reply);
      return;
    }
  }

  lemma AcceptedWaits(s: Station, now: int, reply: Negotiation)
    ensures var s' := AcceptCall(s, now, reply).s; s'.protocol == IRS && s'.substate == IRSConAck
  {
    hide InitConnection, FreshReceiver;
    InitKeepsFree(s);
  }

  lemma ConfirmedWaits(s: Station, now: int, t: byte, ok: bool, rx: Rx)
    requires s.protocol == IRS && s.substate == IRSConAck
    ensures WaitsOnlyForCaller(ReceiveIRSConAck(s, now, t, ok, rx).s)
  {
    hide AcceptCall, Connected;
    if !ok {
      return;
    } else if IsConReq(t) {
      if rx.reply != CONREJBW { AcceptedWaits(s, now, rx.reply); }
      return;
    } else if IsConAck(t) {
      ConnectedWaits(s, now, t, rx.quality);
      return;
    }
  }

  lemma ConnectedWaits(s: Station, now: int, t: byte, q: Quality)
    ensures Connected(s, now, t, q).s.pendingTimeout == 0
  {
    hide Initialised, Bandwidth, AckFrame;
  }

  lemma ProcessingWaits(s: Station, now: int, t: byte, data: seq<byte>, ok: bool, rx: Rx)
    requires WaitsOnlyForCaller(s)
    ensures WaitsOnlyForCaller(ProcessFrame(s, now, t, data, ok, rx).s)
  {
    hide ReceiveDISC, ReceiveIRSConAck, ReceiveIRSData, ReceiveIDLE, ReceiveISS;
    match s.protocol {
      case DISC => CalledWaits(s, now, t, ok, rx); return;
      case IRS =>
        if s.substate == IRSConAck {
          ConfirmedWaits(s, now, t, ok, rx);
          return;
        }
        ReceivingWaits(s, now, t, data, ok, rx);
        CallerWaits(s, now, t, ok);
        return;
      case IRStoISS => return;
      case IDLE => IdlerWaits(s, now, t, ok); return;
      case ISS => CallerWaits(s, now, t, ok); return;
    }
  }

  lemma TakingWaits(s: Station, now: int)
    ensures SameWait(s, TakeLink(s, now).s)
  {
    hide SendData, Initialised;
    SendingWaits(SetState(ReadyToTake(s), ISS).(substate := ISSData), now);
  }

  lemma BreakerIsConfirmed(s: Station, t: byte)
    requires BreaksIn(s, t)
    ensures s.protocol == IRS && s.substate == IRSData
  {
  }

  lemma AnsweringWaits(s: Station, breaksIn: bool, now: int, f: Frame, rx: Rx)
    requires WaitsOnlyForCaller(s) && (breaksIn ==> s.protocol == IRS && s.substate == IRSData)
    ensures WaitsOnlyForCaller(AnswerLong(s, breaksIn, now, f, rx).s)
  {
    hide ProcessFrame, Collected, AllHeld, IsData, BlockCount;
    if breaksIn {
      return;
    }
    var n := BlockCount(f.ftype);
    ProcessingWaits(s, now, f.ftype, Collected(s.inn, n), if IsData(f.ftype) then AllHeld(s.inn, n) else rx.intact, rx);
  }

  lemma HearingWaits(s: Station, f: Frame, now: int, rx: Rx)
    requires WaitsOnlyForCaller(s)
    ensures WaitsOnlyForCaller(Hear(s, now, f, rx).s)
  {
    hide ProcessFrame, TakeLink, Demodulated, NewCollection, AnswerLong, BreaksIn, IsData, IsFsk, SkipsDecode;
    if IsShortControl(f.ftype) {
      ProcessingWaits(s, now, f.ftype, [], true, rx);
      TakingWaits(s, now);
      return;
    }
    var r := NewCollection(s.inn, f.ftype);
    var s1 := s.(inn := if IsData(f.ftype) && !(IsFsk(f.ftype) && SkipsDecode(s, f.ftype)) then Demodulated(r, f, rx) else r);
    if BreaksIn(s, f.ftype) { BreakerIsConfirmed(s, f.ftype); }
    AnsweringWaits(s1, BreaksIn(s, f.ftype), now, f, rx);
  }

  lemma NextFrameWaits(s: Station, now: int)
    requires WaitsOnlyForCaller(s)
    ensures WaitsOnlyForCaller(GetNextARQFrame(s, now).s)
  {
    hide Forgotten;
  }

  lemma RepeatWaits(s: Station, now: int)
    requires WaitsOnlyForCaller(s)
    ensures WaitsOnlyForCaller(RepeatPoll(s, now).s) && WaitsOnlyForCaller(MainPoll(s, now).s)
  {
    hide GetNextARQFrame;
    NextFrameWaits(s, now);
  }

  lemma TimeoutsWait(s: Station, now: int)
    requires WaitsOnlyForCaller(s)
    ensures WaitsOnlyForCaller(SendTimeoutPoll(s, now).s) && WaitsOnlyForCaller(PendingPoll(s, now).s)
  {
    hide Forgotten;
  }

  lemma AbortWaits(s: Station, now: int)
    requires WaitsOnlyForCaller(s)
    ensures WaitsOnlyForCaller(HostAbort(s, now).s)
  {
    hide GetNextARQFrame;
    NextFrameWaits(s.(abort := true), now);
  }

  lemma PollingWaits(s: Station, p: PollKind, now: int)
    requires WaitsOnlyForCaller(s)
    ensures WaitsOnlyForCaller(Poll(s, p, now).s)
  {
    hide RepeatPoll, MainPoll, SendTimeoutPoll, PendingPoll, HostAbort;
    match p {
      case RepeatTimer => RepeatWaits(s, now); return;
      case MainLoop => RepeatWaits(s, now); return;
      case SendTimer => TimeoutsWait(s, now); return;
      case PendingTimer => TimeoutsWait(s, now); return;
      case Abort => AbortWaits(s, now); return;
    }
  }

  lemma CommandWaits(s: Station, c: HostCommand)
    requires WaitsOnlyForCaller(s)
    ensures WaitsOnlyForCaller(Command(s, c))
  {
  }

  lemma PendingEndsUnconfirmed(s: Station, now: int)
    requires WaitsOnlyForCaller(s)
    ensures s.protocol != DISC && PendingPoll(s, now).s.protocol == DISC ==> s.protocol == IRS && s.substate == IRSConAck
  {
    hide InitConnection;
  }

  lemma StepWaits(l: ArqLink.Link, e: Event)
    requires WaitsOnlyForCaller(l.a) && WaitsOnlyForCaller(l.b)
    ensures WaitsOnlyForCaller(Step(l, e).a) && WaitsOnlyForCaller(Step(l, e).b)
  {
    hide Hear, Poll, Command, WaitsOnlyForCaller;
    match e {
      case Lost => return;
      case Heard(now, rx) =>
        if l.air.ToA? { HearingWaits(l.a, l.air.frame, now, rx); }
        if l.air.ToB? { HearingWaits(l.b, l.air.frame, now, rx); }
        return;
      case Polled(byA, kind, now) =>
        PollingWaits(l.a, kind, now);
        PollingWaits(l.b, kind, now);
        return;
      case Commands(toA, c) =>
        CommandWaits(l.a, c);
        CommandWaits(l.b, c);
        return;
    }
  }

  /** In every run the wait for a confirmation ends no session but one that was never confirmed. */
  lemma {:induction false} OnlyUnconfirmedEnds(l: ArqLink.Link, events: seq<Event>, now: int)
    requires WaitsOnlyForCaller(l.a) && WaitsOnlyForCaller(l.b)
    ensures var m := Run(l, events);
            && WaitsOnlyForCaller(m.a) && WaitsOnlyForCaller(m.b)
            && (m.a.protocol != DISC && PendingPoll(m.a, now).s.protocol == DISC ==> m.a.protocol == IRS && m.a.substate == IRSConAck)
            && (m.b.protocol != DISC && PendingPoll(m.b, now).s.protocol == DISC ==> m.b.protocol == IRS && m.b.substate == IRSConAck)
  {
    hide Step, WaitsOnlyForCaller, PendingPoll;
    if events == [] {
    } else {
      OnlyUnconfirmedEnds(l, events[..|events| - 1], now);
      StepWaits(Run(l, events[..|events| - 1]), events[|events| - 1]);
    }
    PendingEndsUnconfirmed(Run(l, events).a, now);
    PendingEndsUnconfirmed(Run(l, events).b, now);
  }

  /** A wait that is left running when the station is disconnected meanwhile ends the next call that it makes, ten seconds
      after it was called; with no such wait a call is not ended by it. */
  lemma WaitEndsNextCall(s: Station, now: int, request: byte, tick: int)
    requires s.protocol == DISC && IsConReq(request)
    ensures PendingPoll(Call(s, now, request).s, tick).s.protocol == DISC <==> s.pendingTimeout != 0 && tick > s.pendingTimeout
  {
    hide Forgotten;
  }

  /** A station that accepts a call waits for it: no timer and no main-loop poll ends the session for ten seconds, unless
      ARQTimeout is shorter. */
  lemma AcceptedIsKept(s: Station, now: int, request: byte, rx: Rx, p: PollKind, tick: int)
    requires s.protocol == DISC && Free(s) && !s.abort && s.sendTimeout == 0
    requires IsConReq(request) && rx.intact && rx.reply != CONREJBW
    requires p != Abort && tick <= now + 10000 && InTime(s.(timeoutTrip := now), tick)
    ensures var s' := Hear(s, now, Control(request), rx).s; Poll(s', p, tick) == Quiet(s') && s'.protocol == IRS
  {
    hide Join, Demodulated, Collected, InitConnection;
    HearsLongControl(s, Control(request), now, rx);
    InitKeepsFree(AfterLongControl(s, request));
    InitKeepsRest(AfterLongControl(s, request));
  }

  lemma InitKeepsRest(s: Station)
    ensures var s' := InitConnection(s); s'.abort == s.abort && s'.sendTimeout == s.sendTimeout && s'.cfg == s.cfg
  {
  }

  /** Once the call is confirmed only ARQTimeout ends the session. */
  lemma ConfirmedIsKept(s: Station, now: int, t: byte, rx: Rx, p: PollKind, tick: int)
    requires s.protocol == IRS && s.substate == IRSConAck && Free(s) && !s.abort && s.sendTimeout == 0
    requires IsConAck(t) && rx.intact && p != Abort && InTime(s.(timeoutTrip := now), tick)
    ensures var s' := Hear(s, now, Control(t), rx).s; Poll(s', p, tick) == Quiet(s') && s'.protocol == IRS && s'.gear.naks == 0
  {
    hide Join, Demodulated, Collected, Bandwidth, DataModes, Thresholds;
    HearsLongControl(s, Control(t), now, rx);
  }

  // ---------- what a connection begins with ----------

  /** No mode has been used or tried. */
  predicate RemembersNothing(g: Gears)
  {
    && |g.worked| == |g.tried| == MODE_SLOTS
    && forall i :: 0 <= i < MODE_SLOTS ==> g.worked[i] == 0 && !g.tried[i]
  }

  lemma ForgottenIsNothing(g: Gears)
    ensures RemembersNothing(Forgotten(g))
  {
  }

  /** Whatever happened before, a station that calls or accepts a call has forgotten which modes worked. */
  lemma ConnectionBeginsAnew(s: Station, now: int, request: byte, rx: Rx)
    requires s.protocol == DISC && Free(s) && IsConReq(request) && rx.intact && rx.reply != CONREJBW
    ensures RemembersNothing(Call(s, now, request).s.gear)
    ensures RemembersNothing(Hear(s, now, Control(request), rx).s.gear) && Hear(s, now, Control(request), rx).s.gear.avg == 0
  {
    hide Join, Demodulated, Collected, RemembersNothing, Forgotten;
    HearsLongControl(s, Control(request), now, rx);
    ForgottenIsNothing(s.gear);
    AverageDoesNotMatter(Forgotten(s.gear));
  }

  /** The data phase begins with no average and no count of NAKs on the calling side. */
  lemma DataPhaseBeginsAnew(s: Station, f: Frame, now: int, rx: Rx)
    requires Caller(s) && s.substate == ISSConAck && IsAck(f.ftype) && s.gear.shift == 0
    ensures var g := Hear(s, now, f, rx).s.gear; g.avg == 0 && g.naks == 0 && g.ptr == s.gear.ptr && g.current == s.gear.current
  {
    hide NextDataFrame, BlockCount, BlockLen, TablesOk;
  }

  lemma AverageDoesNotMatter(g: Gears)
    requires RemembersNothing(g)
    ensures RemembersNothing(g.(avg := 0))
  {
  }

  // ---------- hanging up ----------

  /** A station that has sent DISC and waits for END. */
  predicate Leaving(s: Station)
  {
    && (s.protocol == IDLE || (s.protocol == ISS && s.substate == ISSData)
        || (s.protocol == IRS && (s.substate == IRSData || s.substate == IRSfromISS)))
    && s.discRepeating && !s.repeat && !s.disconnect && !s.abort && !s.timeoutTriggered
  }

  /** A station that lets the other side go. */
  predicate LetsGo(r: Station)
  {
    && (HungUpEmpty(r) || r.protocol == IDLE || (r.protocol == ISS && r.substate == ISSData && !r.disconnect)
        || (r.protocol == IRS && (r.substate == IRSData || r.substate == IRSfromISS)))
    && !r.timeoutTriggered
  }

  /** DISC is on the air. */
  predicate HangingUp(l: ArqLink.Link, byA: bool)
  {
    l.air == Towards(!byA, Control(DISCFRAME)) && Leaving(Snd(l, byA)) && LetsGo(Rcv(l, byA))
  }

  /** ABORT ends a session without a frame: at once, or for a sending or calling station at its next timer or poll. */
  lemma AbortEnds(s: Station, now: int, p: PollKind, tick: int)
    requires s.protocol != DISC && (p == RepeatTimer || p == MainLoop) && (p == RepeatTimer <==> s.repeat || s.discRepeating)
    ensures var o := HostAbort(s, now);
            && o.tx == None && o.s.inn.delivered == s.inn.delivered
            && if s.protocol == ISS then
                 var e := Poll(o.s, p, tick);
                 e.tx == None && HungUpEmpty(e.s) && !e.s.abort && !e.s.disconnect && e.s.inn.delivered == s.inn.delivered
               else HungUpEmpty(o.s) && !o.s.abort && !o.s.disconnect
  {
    hide Forgotten;
  }

  /** A station that gives up says so with one DISC, and has nothing left of the session. */
  lemma GivingUpSendsDisc(s: Station, now: int)
    requires s.protocol != DISC && s.sendTimeout != 0 && now > s.sendTimeout && !s.discRepeating
    ensures var o := Poll(s, SendTimer, now);
            o.tx == Some(Control(DISCFRAME)) && HungUpEmpty(o.s) && o.s.sendTimeout == 0 && !o.s.timeoutTriggered && !o.s.disconnect
  {
    hide Forgotten;
  }

  /** Once disconnected, the main loop forgets a request to disconnect that came too late, and the count of repeats. */
  lemma DisconnectedForgets(s: Station, now: int)
    requires s.protocol == DISC && !s.repeat && !s.discRepeating && !s.abort
    ensures var o := Poll(s, MainLoop, now); o.tx == None && o.s == s.(disconnect := false, repeatCount := 0)
  {
  }

  /** A disconnected station has nothing to disconnect from, and only a receiving one can break in. */
  lemma CommandsOutOfPlace(s: Station)
    ensures s.protocol == DISC ==> Command(s, AskDisconnect) == s
    ensures s.protocol != IRS ==> Command(s, AskBreak) == s
  {
  }

  /** While a frame is being repeated the main loop leaves the station alone. */
  lemma MainLoopWaits(s: Station, now: int)
    requires s.repeat || s.discRepeating
    ensures Poll(s, MainLoop, now) == Quiet(s)
  {
  }

  /** A sending or idling station whose host asks to disconnect sends the first DISC at its next timer. */
  lemma DisconnectStarts(s: Station, now: int)
    requires (s.protocol == IDLE || InSendingPhase(s)) && s.repeat && !s.timeoutTriggered && !s.abort && !s.discRepeating
    ensures var o := Poll(HostDisconnect(s), RepeatTimer, now);
            o.tx == Some(Control(DISCFRAME)) && Leaving(o.s) && o.s.repeatCount == 1
  {
  }

  /** A receiving one does so when the sender has nothing more to send. */
  lemma ReceiverDisconnects(r: Station, now: int, rx: Rx)
    requires r.protocol == IRS && (r.substate == IRSData || r.substate == IRSfromISS) && !r.timeoutTriggered && !r.abort
    ensures var o := Hear(HostDisconnect(r), now, Control(IDLEFRAME), rx);
            o.tx == Some(Control(DISCFRAME)) && Leaving(o.s) && o.s.repeatCount == 1 && o.s.out == r.out
  {
    hide AskForLink;
  }

  /** On the link, in the middle of a transfer or after one: the host asks, the frame on the air is lost, the timer runs out. */
  lemma DisconnectGoesOut(l: ArqLink.Link, byA: bool, now: int)
    requires Steady(l, byA) || Finished(l, byA)
    requires Rcv(l, byA).substate == IRSData || Rcv(l, byA).substate == IRSfromISS
    ensures var l' := Step(Step(Step(l, Commands(byA, AskDisconnect)), Lost), Polled(byA, RepeatTimer, now));
            HangingUp(l', byA) && Snd(l', byA).repeatCount == 1 && Rcv(l', byA) == Rcv(l, byA)
  {
    hide Poll, Lead, Leaving;
    DisconnectStarts(Snd(l, byA), now);
  }

  /** Every DISC is answered with END, also by a station that has hung up before. */
  lemma DiscIsAnswered(r: Station, now: int, rx: Rx)
    requires LetsGo(r)
    ensures var o := Hear(r, now, Control(DISCFRAME), rx);
            o.tx == Some(Control(END)) && HungUpEmpty(o.s) && LetsGo(o.s) && o.s.inn.delivered == r.inn.delivered
  {
    hide Hear, SendData, Acknowledged, Reported, CloseSession, EndIdling;
    HearsShort(r, Control(DISCFRAME), now, rx);
    if r.protocol == DISC {
      return;
    }
    ClosedIsEmpty(r);
    ClosedKeepsData(r);
  }

  lemma ClosedKeepsData(r: Station)
    ensures CloseSession(r).inn.delivered == r.inn.delivered && CloseSession(r).timeoutTriggered == r.timeoutTriggered
    ensures EndIdling(r).inn.delivered == r.inn.delivered && EndIdling(r).timeoutTriggered == r.timeoutTriggered
  {
  }

  lemma EndEnds(s: Station, now: int, rx: Rx)
    requires Leaving(s)
    ensures var o := Hear(s, now, Control(END), rx); o.tx == None && HungUpEmpty(o.s)
  {
    hide SendData, Acknowledged, Reported;
  }

  /** The DISC is repeated while fewer than five have been sent; then the station leaves without an answer. */
  lemma LeaverPolls(s: Station, now: int)
    requires Leaving(s)
    ensures var o := Poll(s, RepeatTimer, now);
            if s.repeatCount < DISC_TRIES then
              o.tx == Some(Control(DISCFRAME)) && Leaving(o.s) && o.s.repeatCount == s.repeatCount + 1
            else o.tx == None && HungUpEmpty(o.s)
  {
  }

  lemma HangUpInTheAir(l: ArqLink.Link, t: Attempt, byA: bool)
    requires HangingUp(l, byA)
    ensures var m := AirTime(l, t);
            && m.air == Clear && Rcv(m, byA).inn.delivered == Rcv(l, byA).inn.delivered
            && (if BothReach(t) then HungUpEmpty(Snd(m, byA)) else Snd(m, byA) == Snd(l, byA))
            && (if t.frame.Reach? then HungUpEmpty(Rcv(m, byA)) && LetsGo(Rcv(m, byA)) else Rcv(m, byA) == Rcv(l, byA))
  {
    hide Hear, Leaving, LetsGo, HungUpEmpty;
    if t.frame.Lose? {
      return;
    }
    DiscIsAnswered(Rcv(l, byA), t.frame.at, t.frame.rx);
    if t.reply.Lose? {
      return;
    }
    EndEnds(Snd(l, byA), t.reply.at, t.reply.rx);
  }

  lemma HungUpStays(s: Station, now: int)
    requires HungUpEmpty(s)
    ensures Poll(s, RepeatTimer, now) == Quiet(s)
  {
  }

  lemma HangUpTried(l: ArqLink.Link, t: Attempt, byA: bool)
    requires HangingUp(l, byA)
    ensures var l' := Try(l, t, byA);
            && Rcv(l', byA).inn.delivered == Rcv(l, byA).inn.delivered
            && (HungUpEmpty(Rcv(l, byA)) || t.frame.Reach? ==> HungUpEmpty(Rcv(l', byA)))
            && if BothReach(t) || Snd(l, byA).repeatCount >= DISC_TRIES
               then HungUpEmpty(Snd(l', byA)) && l'.air == Clear
               else HangingUp(l', byA) && Snd(l', byA).repeatCount == Snd(l, byA).repeatCount + 1
  {
    hide AirTime, Leaving, LetsGo, HungUpEmpty, Poll;
    HangUpInTheAir(l, t, byA);
    var m := AirTime(l, t);
    if BothReach(t) {
      HungUpStays(Snd(m, byA), t.tick);
    } else {
      LeaverPolls(Snd(m, byA), t.tick);
    }
  }

  /** Some frame of these attempts reaches the other station. */
  predicate OneReaches(ts: seq<Attempt>)
    decreases |ts|
  {
    ts != [] && (ts[0].frame.Reach? || OneReaches(ts[1..]))
  }

  lemma FirstReaches(t: Attempt, rest: seq<Attempt>)
    ensures OneReaches([t] + rest) == (t.frame.Reach? || OneReaches(rest))
    ensures !OneReaches([])
  {
    assert ([t] + rest)[1..] == rest;
  }

  /** A station that hangs up is disconnected, with an empty queue and nothing on the air, after at most five attempts, whatever
      is lost; so is the other one as soon as a single DISC reaches it. */
  lemma {:induction false} HangUpEnds(l: ArqLink.Link, ts: seq<Attempt>, byA: bool) returns (made: seq<Attempt>)
    requires HangingUp(l, byA) && |ts| > 0 && Snd(l, byA).repeatCount + |ts| > DISC_TRIES
    ensures var l' := Tries(l, made, byA);
            && made <= ts && HungUpEmpty(Snd(l', byA)) && l'.air == Clear
            && Rcv(l', byA).inn.delivered == Rcv(l, byA).inn.delivered
            && (HungUpEmpty(Rcv(l, byA)) || OneReaches(made) ==> HungUpEmpty(Rcv(l', byA)))
    decreases |ts|
  {
    hide Try, HangingUp, HungUpEmpty, Snd, Rcv, Tries;
    var t := ts[0];
    HangUpTried(l, t, byA);
    var rest := [];
    if BothReach(t) || Snd(l, byA).repeatCount >= DISC_TRIES {
      FirstTry(Try(l, t, byA), t, rest, byA);
    } else {
      rest := HangUpEnds(Try(l, t, byA), ts[1..], byA);
    }
    FirstTry(l, t, rest, byA);
    FirstReaches(t, rest);
    made := [t] + rest;
  }
}
