/** What happens after the first transfer: an idling sender goes on when its host queues more, and a
    link that is turned round comes round, however many frames are lost on the way
    (ext/ardop1/ARQ.c, ProcessRcvdARQFrame). */
module Resume {
  import opened Frames
  import opened Options
  import opened Gear
  import opened ArqStation
  import opened ArqLink
  import opened Delivery
  import opened Progress

  // ---------- an idling sender is acknowledged ----------

  /** A receiver with no reason to hang up or to ask for the link. */
  predicate Attentive(r: Station)
  {
    && Receiving(r) && !r.timeoutTriggered && !r.disconnect && !r.breakCmd
    && !(r.cfg.autoBreak && r.out.queue != [])
  }

  /** Such a receiver acknowledges every IDLE frame, and nothing else changes in it. */
  lemma IdleIsAcknowledged(r: Station, now: int, rx: Rx)
    requires Attentive(r)
    ensures var o := Hear(r, now, Control(IDLEFRAME), rx);
            IsAckFrame(o.tx) && Attentive(o.s) && o.s.inn == r.inn && o.s.out == r.out && o.s.abort == r.abort
  {
    hide TablesOk;
  }

  /** The acknowledgement goes on the air. */
  lemma IdleIsAnswered(l: ArqLink.Link, byA: bool, e: Event)
    requires l.air == Towards(!byA, Control(IDLEFRAME)) && Attentive(Rcv(l, byA)) && e.Heard?
    ensures var l' := Step(l, e);
            && l'.air != Clear && IsAck(l'.air.frame.ftype) && l'.air == Towards(byA, l'.air.frame)
            && Snd(l', byA) == Snd(l, byA)
            && Attentive(Rcv(l', byA)) && Rcv(l', byA).inn == Rcv(l, byA).inn && Rcv(l', byA).out == Rcv(l, byA).out
  {
    hide Hear, Attentive;
    IdleIsAcknowledged(Rcv(l, byA), e.at, e.rx);
  }

  // ---------- the sender goes on ----------

  /** The sender idles, and has said so. */
  predicate Offering(l: ArqLink.Link, byA: bool)
  {
    var s, r := Snd(l, byA), Rcv(l, byA);
    && Invariant(l) && l.air == Towards(!byA, Control(IDLEFRAME))
    && s.protocol == IDLE && Willing(s, r) && Attentive(r)
  }

  lemma IdlerRepeats(s: Station, r: Station, now: int)
    requires Lead(s, r, None, None) && s.protocol == IDLE && Willing(s, r) && InTime(s, now)
    ensures Poll(s, RepeatTimer, now) == Outcome(s, Some(Control(IDLEFRAME)))
  {
    hide Join, TablesOk, IsOdd, OfParity;
  }

  /** An ACK takes an idling sender back to sending exactly when it has something to send. */
  lemma AckResumes(s: Station, f: Frame, now: int, rx: Rx)
    requires s.protocol == IDLE && IsAck(f.ftype) && !s.timeoutTriggered && !s.disconnect && !s.discRepeating
    ensures var o := Hear(s, now, f, rx);
            if s.out.queue == [] then o == Quiet(s)
            else
              && InSendingPhase(o.s) && o.tx == Some(o.s.out.record) && CutToMode(o.s) && o.s.repeat && SameFlags(s, o.s)
              && o.s.out.queue == s.out.queue && o.s.out.removed == s.out.removed
  {
    hide SendData, CutToMode;
    SendDataGoesOn(SetState(s, ISS).(substate := ISSData), now);
  }

  predicate BothReach(t: Attempt) { t.frame.Reach? && t.reply.Reach? }

  /** What the other side of an idling sender keeps. */
  predicate SameSides(l: ArqLink.Link, l': ArqLink.Link, byA: bool)
  {
    && Snd(l', byA) == Snd(l, byA)
    && Rcv(l', byA).inn == Rcv(l, byA).inn && Rcv(l', byA).out == Rcv(l, byA).out
  }

  lemma TryKeepsInvariant(l: ArqLink.Link, t: Attempt, byA: bool)
    requires Invariant(l)
    ensures Invariant(AirTime(l, t)) && Invariant(Try(l, t, byA))
  {
    hide Invariant, Step;
    StepKeepsInvariant(l, AsEvent(t.frame));
    StepKeepsInvariant(Step(l, AsEvent(t.frame)), AsEvent(t.reply));
    StepKeepsInvariant(AirTime(l, t), Polled(byA, RepeatTimer, t.tick));
  }

  /** The IDLE frame and its reply, before the repeat timer. */
  lemma OfferInTheAir(l: ArqLink.Link, t: Attempt, byA: bool)
    requires Offering(l, byA)
    ensures var m := AirTime(l, t);
            var s, s' := Snd(l, byA), Snd(m, byA);
            && Attentive(Rcv(m, byA)) && Rcv(m, byA).inn == Rcv(l, byA).inn && Rcv(m, byA).out == Rcv(l, byA).out
            && Willing(s', Rcv(m, byA)) && Stream(s') == Stream(s) && s'.out.queue == s.out.queue
            && if BothReach(t) && s.out.queue != []
               then InSendingPhase(s') && CutToMode(s') && m.air == Towards(!byA, s'.out.record)
               else s' == s && m.air == Clear
  {
    hide Hear, Invariant, Attentive, CutToMode;
    if t.frame.Lose? {
      AttentiveIsWilling(Snd(l, byA), Rcv(l, byA));
      return;
    }
    IdleIsAnswered(l, byA, AsEvent(t.frame));
    var m := Step(l, AsEvent(t.frame));
    AttentiveIsWilling(Snd(m, byA), Rcv(m, byA));
    if t.reply.Lose? {
      return;
    }
    AckResumes(Snd(l, byA), m.air.frame, t.reply.at, t.reply.rx);
  }

  lemma AttentiveIsWilling(s: Station, r: Station)
    requires Attentive(r)
    ensures r.protocol == IRS && !r.timeoutTriggered && !r.breakCmd
  {
  }

  /** Losing the IDLE frame or its ACK changes nothing but the time: IDLE is sent again. When both come through, a sender
      with data in its queue is sending again. */
  lemma OfferTried(l: ArqLink.Link, t: Attempt, byA: bool)
    requires Offering(l, byA) && Timely(l, t, byA)
    ensures var l' := Try(l, t, byA);
            if BothReach(t) && Snd(l, byA).out.queue != [] then
              && Steady(l', byA) && CutToMode(Snd(l', byA))
              && Stream(Snd(l', byA)) == Stream(Snd(l, byA)) && Snd(l', byA).out.queue == Snd(l, byA).out.queue
            else Offering(l', byA) && SameSides(l, l', byA)
  {
    hide Invariant, Hear, AirTime, Attentive, Poll, CutToMode, Steady;
    TryKeepsInvariant(l, t, byA);
    OfferInTheAir(l, t, byA);
    var m := AirTime(l, t);
    if BothReach(t) && Snd(l, byA).out.queue != [] {
      SendingIsSteady(m, byA);
      assert Try(l, t, byA) == m;
    } else {
      ClearLeads(m, byA);
      IdlerRepeats(Snd(m, byA), Rcv(m, byA), t.tick);
    }
  }

  lemma ClearLeads(l: ArqLink.Link, byA: bool)
    requires Invariant(l) && l.air == Clear && Rcv(l, byA).protocol == IRS
    ensures Lead(Snd(l, byA), Rcv(l, byA), None, None)
  {
    hide Lead;
    if !byA { PairedTurns(l.a, l.b, None, None); }
    LeaderLeads(Snd(l, byA), Rcv(l, byA), None, None);
  }

  /** After a transfer the sender offers the link, and goes on offering it with new data in its queue. */
  lemma QueuedWhileIdling(l: ArqLink.Link, byA: bool, d: seq<byte>)
    requires Finished(l, byA) && Attentive(Rcv(l, byA)) && d != [] && |d| < QUEUE_LIMIT
    ensures var l' := Step(l, Commands(byA, SendBytes(d)));
            && Offering(l', byA) && Snd(l', byA).out.queue == d && Stream(Snd(l', byA)) == Stream(Snd(l, byA)) + d
            && Rcv(l', byA) == Rcv(l, byA)
  {
    hide Invariant, Lead, Attentive;
    FinishedIsInvariant(l, byA);
    StepKeepsInvariant(l, Commands(byA, SendBytes(d)));
    var o := Snd(l, byA).out;
    assert [] + d == d && (o.removed + []) + d == o.removed + d && o.removed + [] == o.removed;
  }

  lemma FinishedIsInvariant(l: ArqLink.Link, byA: bool)
    requires Finished(l, byA)
    ensures Invariant(l)
  {
    hide Lead;
    if !byA { PairedTurns(Snd(l, byA), Rcv(l, byA), Some(Control(IDLEFRAME)), None); }
  }

  /** The IDLE frame and its ACK come through: the bytes queued meanwhile are on their way. */
  lemma SenderResumes(l: ArqLink.Link, byA: bool, d: seq<byte>, e: Event, f: Event)
    requires Finished(l, byA) && Attentive(Rcv(l, byA)) && d != [] && |d| < QUEUE_LIMIT && e.Heard? && f.Heard?
    ensures var l' := Step(Step(Step(l, Commands(byA, SendBytes(d))), e), f);
            Steady(l', byA) && Stream(Snd(l', byA)) == Stream(Snd(l, byA)) + d && Snd(l', byA).out.queue == d
  {
    hide Invariant, Finished, Offering, Attentive, Stream, CutToMode, AirTime, BothReach, Step, Steady;
    var l1 := Step(l, Commands(byA, SendBytes(d)));
    QueuedWhileIdling(l, byA, d);
    ResumesAtOnce(l1, byA, Attempt(Reach(e.at, e.rx), Reach(f.at, f.rx), 0));
  }

  lemma ResumesAtOnce(l: ArqLink.Link, byA: bool, t: Attempt)
    requires Offering(l, byA) && t.frame.Reach? && t.reply.Reach? && Snd(l, byA).out.queue != []
    ensures var l' := Step(Step(l, Heard(t.frame.at, t.frame.rx)), Heard(t.reply.at, t.reply.rx));
            && Steady(l', byA) && Stream(Snd(l', byA)) == Stream(Snd(l, byA))
            && Snd(l', byA).out.queue == Snd(l, byA).out.queue
  {
    hide Invariant, Step, Attentive, CutToMode, Steady;
    TryKeepsInvariant(l, t, byA);
    OfferInTheAir(l, t, byA);
    SendingIsSteady(AirTime(l, t), byA);
  }

  // ---------- whole transfers after the first ----------

  /** As long as the sender offers or sends, no attempt takes it past ARQTimeout. */
  predicate AllInTime(l: ArqLink.Link, ts: seq<Attempt>, byA: bool)
    decreases |ts|
  {
    ts == [] || !(Offering(l, byA) || Steady(l, byA))
    || (Timely(l, ts[0], byA) && AllInTime(Try(l, ts[0], byA), ts[1..], byA))
  }

  lemma {:induction false} InTimeIsTimely(l: ArqLink.Link, ts: seq<Attempt>, byA: bool)
    requires AllInTime(l, ts, byA)
    ensures AllTimely(l, ts, byA)
    decreases |ts|
  {
    hide Offering, Steady, Timely, Try;
    if ts == [] || !Steady(l, byA) {
    } else {
      InTimeIsTimely(Try(l, ts[0], byA), ts[1..], byA);
    }
  }

  lemma CleanReaches(t: Attempt)
    requires Clean(t)
    ensures BothReach(t)
  {
  }

  /** Bytes that the host queues while its station idles are delivered: however many frames are lost, one clean attempt and
      then as many as the bytes fill smallest frames are enough. */
  lemma {:induction false} OfferArrives(l: ArqLink.Link, ts: seq<Attempt>, byA: bool) returns (made: seq<Attempt>)
    requires Offering(l, byA) && AllInTime(l, ts, byA) && Snd(l, byA).out.queue != []
    requires LEAST_FRAME * (CleanCount(ts) - 1) >= |Snd(l, byA).out.queue|
    ensures made <= ts && Finished(Tries(l, made, byA), byA)
    ensures Rcv(Tries(l, made, byA), byA).inn.delivered == Stream(Snd(l, byA))
    decreases |ts|
  {
    hide Step, AirTime, Steady, Finished, Offering, Try, Clean, Timely, Stream, Snd, Rcv, Tries, BothReach, AllTimely, CutToMode;
    var t := ts[0];
    var l' := Try(l, t, byA);
    OfferTried(l, t, byA);
    var rest;
    if Clean(t) { CleanReaches(t); }
    if BothReach(t) {
      SteadyOwes(l', byA);
      InTimeIsTimely(l', ts[1..], byA);
      rest := QueueArrives(l', ts[1..], byA);
    } else {
      rest := OfferArrives(l', ts[1..], byA);
    }
    FirstTry(l, t, rest, byA);
    made := [t] + rest;
  }

  lemma SteadyOwes(l: ArqLink.Link, byA: bool)
    requires Steady(l, byA) && CutToMode(Snd(l, byA))
    ensures Needed(Snd(l, byA)) == (|Snd(l, byA).out.queue| + LEAST_FRAME - 1) / LEAST_FRAME
  {
    hide Transfer, CutToMode;
    CutIsFilled(Snd(l, byA), Rcv(l, byA), Some(Snd(l, byA).out.record));
  }

  /** One transfer after another: from the end of one, what is queued next has been added to what the other host has been
      given when the next one ends. */
  lemma NextTransfer(l: ArqLink.Link, byA: bool, d: seq<byte>, ts: seq<Attempt>) returns (made: seq<Attempt>)
    requires Finished(l, byA) && Attentive(Rcv(l, byA)) && d != [] && |d| < QUEUE_LIMIT
    requires AllInTime(Step(l, Commands(byA, SendBytes(d))), ts, byA) && LEAST_FRAME * (CleanCount(ts) - 1) >= |d|
    ensures var l' := Tries(Step(l, Commands(byA, SendBytes(d))), made, byA);
            made <= ts && Finished(l', byA) && Rcv(l', byA).inn.delivered == Rcv(l, byA).inn.delivered + d
  {
    hide Step, AirTime, Steady, Finished, Offering, Stream, Snd, Rcv, Tries, AllInTime, CleanCount, Attentive;
    QueuedWhileIdling(l, byA, d);
    FinishedIsLevel(l, byA);
    made := OfferArrives(Step(l, Commands(byA, SendBytes(d))), ts, byA);
  }

  // ---------- turning the link round, with losses ----------

  /** A station that has data and repeats BREAK until it is given the link. */
  predicate Breaking(s: Station)
  {
    && s.protocol == IRStoISS && s.repeat && s.out.queue != []
    && !s.timeoutTriggered && !s.disconnect && !s.abort && !s.discRepeating
  }

  /** The station that is asked: it was idling or sending, or has yielded already. */
  predicate GivesWay(r: Station)
  {
    && (r.protocol == IDLE || InSendingPhase(r) || (r.protocol == IRS && r.substate == IRSfromISS))
    && !r.timeoutTriggered && !r.disconnect && !r.breakCmd && !r.discRepeating
  }

  predicate Turning(l: ArqLink.Link, byA: bool)
  {
    && Invariant(l) && l.air == Towards(!byA, Control(BREAK))
    && Breaking(Snd(l, byA)) && GivesWay(Rcv(l, byA))
  }

  /** Whoever is asked for the link yields it with an ACK, and does so again for every further BREAK. */
  lemma BreakIsAcknowledged(r: Station, now: int, rx: Rx)
    requires GivesWay(r)
    ensures var o := Hear(r, now, Control(BREAK), rx);
            && IsAckFrame(o.tx) && GivesWay(o.s) && o.s.protocol == IRS
            && o.s.inn.delivered == r.inn.delivered && o.s.out.removed == r.out.removed
            && (r.protocol == IRS ==> o.s.out == r.out && o.s.inn == r.inn)
  {
    hide SendData, Acknowledged, Reported;
  }

  lemma BreakRepeats(s: Station, now: int)
    requires Breaking(s) && s.encoded == Control(BREAK) && InTime(s, now)
    ensures Poll(s, RepeatTimer, now) == Outcome(s, Some(Control(BREAK)))
  {
  }

  lemma BreakingSaysSo(l: ArqLink.Link, byA: bool)
    requires Invariant(l) && Breaking(Snd(l, byA))
    ensures Snd(l, byA).encoded == Control(BREAK)
  {
    hide Lead;
    PairedIsSound(l.a, l.b, ToBFrame(l), ToAFrame(l));
  }

  /** The ACK for a BREAK makes its sender the sender of its queue. */
  lemma AckGivesLink(s: Station, f: Frame, now: int, rx: Rx)
    requires Breaking(s) && IsAck(f.ftype)
    ensures var o := Hear(s, now, f, rx);
            && InSendingPhase(o.s) && o.tx == Some(o.s.out.record) && CutToMode(o.s) && o.s.repeat && SameFlags(s, o.s)
            && o.s.out.queue == s.out.queue && o.s.out.removed == s.out.removed
  {
    hide SendData, Initialised, CutToMode;
    SendDataGoesOn(SetState(ReadyToTake(s), ISS).(substate := ISSData), now);
  }

  lemma BreakInTheAir(l: ArqLink.Link, t: Attempt, byA: bool)
    requires Turning(l, byA)
    ensures var m := AirTime(l, t);
            var s, s' := Snd(l, byA), Snd(m, byA);
            && GivesWay(Rcv(m, byA)) && Rcv(m, byA).inn.delivered == Rcv(l, byA).inn.delivered
            && Stream(s') == Stream(s) && s'.out.queue == s.out.queue
            && if BothReach(t)
               then Willing(s', Rcv(m, byA)) && InSendingPhase(s') && CutToMode(s') && m.air == Towards(!byA, s'.out.record)
               else s' == s && m.air == Clear
  {
    hide Hear, Invariant, GivesWay, CutToMode;
    if t.frame.Lose? {
      return;
    }
    var r := Rcv(l, byA);
    BreakIsAcknowledged(r, t.frame.at, t.frame.rx);
    var m := Step(l, AsEvent(t.frame));
    YieldedIsWilling(Rcv(m, byA));
    if t.reply.Lose? {
      return;
    }
    AckGivesLink(Snd(l, byA), m.air.frame, t.reply.at, t.reply.rx);
  }

  lemma YieldedIsWilling(r: Station)
    requires GivesWay(r)
    ensures !r.timeoutTriggered && !r.breakCmd
  {
  }

  /** Losing the BREAK or its ACK changes nothing for the station that asks; when both come through it is sending. */
  lemma BreakTried(l: ArqLink.Link, t: Attempt, byA: bool)
    requires Turning(l, byA) && Timely(l, t, byA)
    ensures var l' := Try(l, t, byA);
            && Stream(Snd(l', byA)) == Stream(Snd(l, byA)) && Snd(l', byA).out.queue == Snd(l, byA).out.queue
            && Rcv(l', byA).inn.delivered == Rcv(l, byA).inn.delivered
            && if BothReach(t) then Steady(l', byA) && CutToMode(Snd(l', byA)) else Turning(l', byA)
  {
    hide Invariant, Hear, AirTime, GivesWay, Poll, CutToMode, Steady;
    TryKeepsInvariant(l, t, byA);
    BreakInTheAir(l, t, byA);
    var m := AirTime(l, t);
    if BothReach(t) {
      SendingIsSteady(m, byA);
      assert Try(l, t, byA) == m;
    } else {
      BreakingSaysSo(m, byA);
      BreakRepeats(Snd(m, byA), t.tick);
    }
  }

  predicate AllTurnsTimely(l: ArqLink.Link, ts: seq<Attempt>, byA: bool)
    decreases |ts|
  {
    ts == [] || !(Turning(l, byA) || Steady(l, byA))
    || (Timely(l, ts[0], byA) && AllTurnsTimely(Try(l, ts[0], byA), ts[1..], byA))
  }

  lemma {:induction false} TurnsAreTimely(l: ArqLink.Link, ts: seq<Attempt>, byA: bool)
    requires AllTurnsTimely(l, ts, byA)
    ensures AllTimely(l, ts, byA)
    decreases |ts|
  {
    hide Turning, Steady, Timely, Try;
    if ts == [] || !Steady(l, byA) {
    } else {
      TurnsAreTimely(Try(l, ts[0], byA), ts[1..], byA);
    }
  }

  /** A station that has asked for the link gets it, and its queue across, however many frames are lost: one clean attempt and
      then as many as the queue fills smallest frames are enough. */
  lemma {:induction false} TurnArrives(l: ArqLink.Link, ts: seq<Attempt>, byA: bool) returns (made: seq<Attempt>)
    requires Turning(l, byA) && AllTurnsTimely(l, ts, byA)
    requires LEAST_FRAME * (CleanCount(ts) - 1) >= |Snd(l, byA).out.queue|
    ensures made <= ts && Finished(Tries(l, made, byA), byA)
    ensures Rcv(Tries(l, made, byA), byA).inn.delivered == Stream(Snd(l, byA))
    decreases |ts|
  {
    hide Step, AirTime, Steady, Finished, Turning, Try, Clean, Timely, Stream, Snd, Rcv, Tries, BothReach, AllTimely, CutToMode;
    var t := ts[0];
    var l' := Try(l, t, byA);
    BreakTried(l, t, byA);
    var rest;
    if Clean(t) { CleanReaches(t); }
    if BothReach(t) {
      SteadyOwes(l', byA);
      TurnsAreTimely(l', ts[1..], byA);
      rest := QueueArrives(l', ts[1..], byA);
    } else {
      rest := TurnArrives(l', ts[1..], byA);
    }
    FirstTry(l, t, rest, byA);
    made := [t] + rest;
  }

  /** A receiver that wants the link asks for it when it hears IDLE. */
  lemma IdleIsBrokenIntoOnLink(l: ArqLink.Link, byA: bool, e: Event)
    requires Invariant(l) && l.air == Towards(!byA, Control(IDLEFRAME)) && e.Heard?
    requires Snd(l, byA).protocol == IDLE && Free(Snd(l, byA)) && WantsLink(Rcv(l, byA))
    ensures var l' := Step(l, e); Turning(l', !byA) && Stream(Snd(l', !byA)) == Stream(Rcv(l, byA))
  {
    hide Hear, Invariant;
    StepKeepsInvariant(l, e);
    IdleIsBrokenInto(Rcv(l, byA), e.at, e.rx);
    AskingRepeats(Rcv(l, byA), e.at, e.rx);
  }

  lemma AskingRepeats(r: Station, now: int, rx: Rx)
    requires WantsLink(r)
    ensures Hear(r, now, Control(IDLEFRAME), rx).s.repeat
  {
  }

  // ---------- breaking in ----------

  /** After an answer to a new data frame, good or bad, a receiver is ready to break in. */
  lemma DataMakesReady(r: Station, f: Frame, now: int, rx: Rx)
    requires IsData(f.ftype) && Receiving(r) && !r.timeoutTriggered && !r.breakCmd && f.ftype != r.inn.lastACKed
    ensures var o := Hear(r, now, f, rx); o.s.protocol == IRS && o.s.substate == IRSData && Answers(o.tx)
  {
    hide Demodulated, Collected, ReceiveIRSData, TablesOk;
    var r1 := r.(inn := Demodulated(NewCollection(r.inn, f.ftype), f, rx));
    StoreKeepsAcked(NewCollection(r.inn, f.ftype), f, rx);
    var n := BlockCount(f.ftype);
    NewDataMakesReady(r1, now, f.ftype, Collected(r1.inn, n), AllHeld(r1.inn, n), rx);
  }

  lemma StoreKeepsAcked(r: Receiver, f: Frame, rx: Rx)
    ensures Demodulated(r, f, rx).lastACKed == r.lastACKed
  {
  }

  lemma NewDataMakesReady(r: Station, now: int, t: byte, data: seq<byte>, ok: bool, rx: Rx)
    requires IsData(t) && Receiving(r) && !r.breakCmd && t != r.inn.lastACKed
    ensures var o := ReceiveIRSData(r, now, t, data, ok, rx); o.s.protocol == IRS && o.s.substate == IRSData && Answers(o.tx)
  {
    hide TablesOk;
  }

  /** Told to break in, a receiver that is ready answers the next new data frame with BREAK, passes nothing of it on, and asks
      for the link until it is given it. */
  lemma BreakCommandAsks(r: Station, f: Frame, now: int, rx: Rx)
    requires IsData(f.ftype) && r.protocol == IRS && r.substate == IRSData && f.ftype != r.inn.lastACKed
    requires r.out.queue != [] && !r.timeoutTriggered && !r.disconnect && !r.abort && !r.discRepeating
    ensures var o := Hear(HostBreak(r), now, f, rx);
            o.tx == Some(Control(BREAK)) && Breaking(o.s) && o.s.out == r.out && o.s.inn.delivered == r.inn.delivered
  {
    hide IsData, BlockAt;
    DataIsLong(f.ftype);
  }

  /** While it asks for the link a station answers every data frame with another BREAK, and passes nothing on. */
  lemma DataIsAnsweredWithBreak(s: Station, f: Frame, now: int, rx: Rx)
    requires Breaking(s) && IsData(f.ftype)
    ensures var o := Hear(s, now, f, rx);
            o.tx == Some(Control(BREAK)) && Breaking(o.s) && o.s.out == s.out && o.s.inn.delivered == s.inn.delivered
  {
    hide IsData, BlockAt;
    DataIsLong(f.ftype);
  }

  lemma DataIsLong(t: byte)
    requires IsData(t)
    ensures !IsShortControl(t)
  {
  }

  /** On the link: the BREAK goes on the air in answer to the frame in process, and the link turns round. */
  lemma BreakInTurns(l: ArqLink.Link, byA: bool, e: Event)
    requires Steady(l, byA) && e.Heard?
    requires var r := Rcv(l, byA);
             && r.substate == IRSData && Snd(l, byA).out.record.ftype != r.inn.lastACKed
             && r.out.queue != [] && !r.disconnect && !r.abort && !r.discRepeating && !Snd(l, byA).breakCmd
    ensures var l' := Step(Step(l, Commands(!byA, AskBreak)), e);
            Turning(l', !byA) && Stream(Snd(l', !byA)) == Stream(Rcv(l, byA))
  {
    hide Hear, Invariant, Lead, IsData;
    var s, r := Snd(l, byA), Rcv(l, byA);
    SteadyIsInvariant(l, byA);
    var l1 := Step(l, Commands(!byA, AskBreak));
    StepKeepsInvariant(l, Commands(!byA, AskBreak));
    StepKeepsInvariant(l1, e);
    SendingFacts(s, r);
    BreakCommandAsks(r, s.out.record, e.at, e.rx);
  }

  lemma SteadyIsInvariant(l: ArqLink.Link, byA: bool)
    requires Steady(l, byA)
    ensures Invariant(l)
  {
    hide Lead;
    if !byA { PairedTurns(Snd(l, byA), Rcv(l, byA), Some(Snd(l, byA).out.record), None); }
  }

  // ---------- what keeps a session alive ----------

  /** An ACK or BREAK for the sending side; IDLE, BREAK or a good new data frame for the receiving side. */
  predicate KeepsAlive(s: Station, f: Frame, rx: Rx)
  {
    && !s.timeoutTriggered && !s.discRepeating && !s.disconnect
    && if IsData(f.ftype) then
         && Receiving(s) && !s.breakCmd && f.ftype != s.inn.lastToHost
         && forall c :: 0 <= c < CARRIERS ==> GoodAt(rx, c)
       else if IsAck(f.ftype) then InSendingPhase(s) || s.protocol == IRStoISS || (s.protocol == IDLE && s.out.queue != [])
       else if f.ftype == BREAK then InSendingPhase(s) || s.protocol == IDLE || Receiving(s)
       else f.ftype == IDLEFRAME && Attentive(s)
  }

  /** ARQTimeout counts from the last such frame: no timer or main-loop poll gives the session up before that. */
  lemma AliveUntilTimeout(s: Station, f: Frame, now: int, rx: Rx, p: PollKind, tick: int)
    requires KeepsAlive(s, f, rx) && InTime(s.(timeoutTrip := now), tick)
    ensures var s' := Hear(s, now, f, rx).s; !s'.timeoutTriggered && !Poll(s', p, tick).s.timeoutTriggered
  {
    hide Hear, Poll, InTime, KeepsAlive;
    HearingRearms(s, f, now, rx);
    var s' := Hear(s, now, f, rx).s;
    SameTime(s.(timeoutTrip := now), s', tick);
    NoTimeoutYet(s', p, tick);
  }

  lemma SameTime(s: Station, s': Station, tick: int)
    requires s'.timeoutTrip == s.timeoutTrip && s'.cfg == s.cfg
    ensures InTime(s, tick) <==> InTime(s', tick)
  {
  }

  lemma NextKeepsTime(s: Station, now: int)
    requires !s.timeoutTriggered && InTime(s, now)
    ensures !GetNextARQFrame(s, now).s.timeoutTriggered
  {
    hide Forgotten;
  }

  lemma NoTimeoutYet(s: Station, p: PollKind, tick: int)
    requires !s.timeoutTriggered && InTime(s, tick)
    ensures !Poll(s, p, tick).s.timeoutTriggered
  {
    hide GetNextARQFrame, Forgotten;
    NextKeepsTime(s, tick);
    NextKeepsTime(s.(abort := true), tick);
    match p {
      case RepeatTimer => return;
      case MainLoop => return;
      case SendTimer => return;
      case PendingTimer => return;
      case Abort => return;
    }
  }

  lemma SendingRearms(s: Station, now: int)
    requires s.protocol == ISS && !s.discRepeating && !s.disconnect
    ensures var s' := SendData(s, now).s; s'.timeoutTrip == now && s'.timeoutTriggered == s.timeoutTriggered && s'.cfg == s.cfg
  {
    hide NextDataFrame, Applied, BlockCount, BlockLen;
  }

  lemma IdleFrameRearms(s: Station, f: Frame, now: int, rx: Rx)
    requires Attentive(s) && f.ftype == IDLEFRAME
    ensures var s' := Hear(s, now, f, rx).s; s'.timeoutTrip == now && !s'.timeoutTriggered && s'.cfg == s.cfg
  {
    hide TablesOk;
  }

  lemma BreakRearms(s: Station, f: Frame, now: int, rx: Rx)
    requires f.ftype == BREAK && KeepsAlive(s, f, rx)
    ensures var s' := Hear(s, now, f, rx).s; s'.timeoutTrip == now && !s'.timeoutTriggered && s'.cfg == s.cfg
  {
    hide SendData, Acknowledged, Reported, Hear, TablesOk, Attentive;
    HearsShort(s, f, now, rx);
  }

  lemma HearingRearms(s: Station, f: Frame, now: int, rx: Rx)
    requires KeepsAlive(s, f, rx)
    ensures var s' := Hear(s, now, f, rx).s; s'.timeoutTrip == now && !s'.timeoutTriggered && s'.cfg == s.cfg
  {
    hide Hear, IsData;
    if IsData(f.ftype) {
      DataRearms(s, f, now, rx);
    } else if f.ftype == IDLEFRAME {
      IdleFrameRearms(s, f, now, rx);
    } else if f.ftype == BREAK {
      BreakRearms(s, f, now, rx);
    } else {
      AckRearms(s, f, now, rx);
    }
  }

  lemma AckRearms(s: Station, f: Frame, now: int, rx: Rx)
    requires IsAck(f.ftype) && KeepsAlive(s, f, rx)
    ensures var s' := Hear(s, now, f, rx).s; s'.timeoutTrip == now && !s'.timeoutTriggered && s'.cfg == s.cfg
  {
    hide SendData, Initialised, IsData, Hear, ProcessFrame, TablesOk;
    AckIsShort(f.ftype);
    if InSendingPhase(s) {
      HearsReply(s, f, now, rx);
      AckedRearms(s, f.ftype, now);
    } else if s.protocol == IDLE {
      HearsShort(s, f, now, rx);
      IdleRearms(s, f.ftype, now, rx);
    } else {
      TakeRearms(s, f, now, rx);
    }
  }

  lemma AckIsShort(t: byte)
    requires IsAck(t)
    ensures IsShortControl(t) && !IsData(t)
  {
  }

  lemma AckedRearms(s: Station, t: byte, now: int)
    requires InSendingPhase(s) && IsAck(t) && !s.timeoutTriggered && !s.disconnect
    ensures var s' := ReceiveISSData(s, now, t, true).s; s'.timeoutTrip == now && !s'.timeoutTriggered && s'.cfg == s.cfg
  {
    hide SendData, Reported, YieldLink, CloseSession, StartDisconnect;
    var s1 := if s.out.sentData then Acknowledged(s, t - 0xE0) else s;
    SendingRearms(s1.(timeoutTrip := now, gear := s1.gear.(naks := 0), repeat := false), now);
  }

  lemma IdleRearms(s: Station, t: byte, now: int, rx: Rx)
    requires s.protocol == IDLE && IsAck(t) && s.out.queue != [] && !s.timeoutTriggered && !s.disconnect && !s.discRepeating
    ensures var s' := ProcessFrame(s, now, t, [], true, rx).s; s'.timeoutTrip == now && !s'.timeoutTriggered && s'.cfg == s.cfg
  {
    hide SendData, ReceiveISS, ReceiveDISC, ReceiveIRSConAck, ReceiveIRSData;
    SendingRearms(SetState(s, ISS).(substate := ISSData), now);
  }

  lemma TakeRearms(s: Station, f: Frame, now: int, rx: Rx)
    requires s.protocol == IRStoISS && IsAck(f.ftype) && !s.timeoutTriggered && !s.disconnect && !s.discRepeating
    ensures var s' := Hear(s, now, f, rx).s; s'.timeoutTrip == now && !s'.timeoutTriggered && s'.cfg == s.cfg
  {
    hide SendData, Initialised, ProcessFrame, HearLong;
    SendingRearms(SetState(ReadyToTake(s), ISS).(substate := ISSData), now);
  }

  lemma DataRearms(s: Station, f: Frame, now: int, rx: Rx)
    requires IsData(f.ftype) && KeepsAlive(s, f, rx)
    ensures var s' := Hear(s, now, f, rx).s; s'.timeoutTrip == now && !s'.timeoutTriggered && s'.cfg == s.cfg
  {
    hide Demodulated, Collected, ReceiveIRSData, TablesOk;
    var r1 := s.(inn := Demodulated(NewCollection(s.inn, f.ftype), f, rx));
    var n := BlockCount(f.ftype);
    GoodBlocksHeld(NewCollection(s.inn, f.ftype), f, rx);
    StoreKeepsLast(NewCollection(s.inn, f.ftype), f, rx);
    NewDataRearms(r1, now, f.ftype, Collected(r1.inn, n), rx);
  }

  lemma StoreKeepsLast(r: Receiver, f: Frame, rx: Rx)
    ensures Demodulated(r, f, rx).lastToHost == r.lastToHost
  {
  }

  lemma NewDataRearms(r: Station, now: int, t: byte, data: seq<byte>, rx: Rx)
    requires IsData(t) && !r.breakCmd && !r.timeoutTriggered && t != r.inn.lastToHost
    ensures var s' := ReceiveIRSData(r, now, t, data, true, rx).s;
            s'.timeoutTrip == now && !s'.timeoutTriggered && s'.cfg == r.cfg
  {
  }
}
