/** Progress of the link: what was offered does arrive. Delivery.dfy shows that nothing wrong
    reaches a host; here losses and bad blocks may interrupt a transfer any number of times,
    and every attempt that comes through whole moves it on. */
module Progress {
  import opened Frames
  import opened Options
  import opened Gear
  import opened ArqStation
  import opened ArqLink
  import opened Delivery

  // ---------- one attempt ----------

  /** One frame of the sender, what becomes of it and of the reply, and the repeat timer. */
  datatype Attempt = Attempt(frame: Fate, reply: Fate, tick: int)

  datatype Fate = Lose | Reach(at: int, rx: Rx)

  function AsEvent(f: Fate): Event { if f.Lose? then Lost else Heard(f.at, f.rx) }

  /** Both the frame, with every block good, and the reply come through. */
  predicate Clean(t: Attempt)
  {
    t.frame.Reach? && t.reply.Reach? && forall c :: 0 <= c < CARRIERS ==> GoodAt(t.frame.rx, c)
  }

  function Snd(l: ArqLink.Link, byA: bool): Station { if byA then l.a else l.b }
  function Rcv(l: ArqLink.Link, byA: bool): Station { if byA then l.b else l.a }
  function Towards(toA: bool, f: Frame): Air { if toA then ToA(f) else ToB(f) }

  function AirTime(l: ArqLink.Link, t: Attempt): ArqLink.Link
  {
    Step(Step(l, AsEvent(t.frame)), AsEvent(t.reply))
  }

  /** The poll has no effect while the sender is transmitting. */
  function Try(l: ArqLink.Link, t: Attempt, byA: bool): ArqLink.Link
  {
    Step(AirTime(l, t), Polled(byA, RepeatTimer, t.tick))
  }

  predicate InTime(s: Station, now: int) { (now - s.timeoutTrip) / 1000 <= s.cfg.arqTimeout }

  /** The repeat timer runs before ARQTimeout has passed without an ACK. */
  predicate Timely(l: ArqLink.Link, t: Attempt, byA: bool) { InTime(Snd(AirTime(l, t), byA), t.tick) }

  // ---------- a transfer under way ----------

  /** Nobody has asked to end, to break in, or given up. */
  predicate Willing(s: Station, r: Station)
  {
    && !s.timeoutTriggered && !s.disconnect && !s.abort && !s.discRepeating && s.repeat
    && r.protocol == IRS && !r.timeoutTriggered && !r.breakCmd
  }

  predicate Transfer(s: Station, r: Station, toR: Option<Frame>, toS: Option<Frame>)
  {
    Lead(s, r, toR, toS) && InSendingPhase(s) && Willing(s, r)
  }

  /** The frame in process is on its way to the receiver. */
  predicate Steady(l: ArqLink.Link, byA: bool)
  {
    var s := Snd(l, byA);
    Transfer(s, Rcv(l, byA), Some(s.out.record), None) && l.air == Towards(!byA, s.out.record)
  }

  /** Everything is acknowledged and the sender has said so. */
  predicate Finished(l: ArqLink.Link, byA: bool)
  {
    var s, r := Snd(l, byA), Rcv(l, byA);
    && Lead(s, r, Some(Control(IDLEFRAME)), None) && l.air == Towards(!byA, Control(IDLEFRAME))
    && s.protocol == IDLE && Willing(s, r)
    && s.out.queue == [] && r.inn.delivered == s.out.removed
  }

  // ---------- the receiver answers ----------

  predicate Answers(x: Option<Frame>) { IsAckFrame(x) || IsNakFrame(x) }

  /** A data frame is always answered, and with an ACK when every block is good. */
  lemma DataAnswered(s: Station, r: Station, now: int, rx: Rx)
    requires Transfer(s, r, Some(s.out.record), None)
    ensures var o := Hear(r, now, s.out.record, rx);
            && Transfer(s, o.s, None, o.tx) && Answers(o.tx)
            && ((forall c :: 0 <= c < CARRIERS ==> GoodAt(rx, c)) ==> IsAckFrame(o.tx))
  {
    hide Hear, Lead, Paired, IsData;
    var f := s.out.record;
    SendingFacts(s, r);
    FrameAnswered(r, f, now, rx);
    FollowerHearsDuringSending(s, r, f, now, rx);
    LeaderLeads(s, Hear(r, now, f, rx).s, None, Hear(r, now, f, rx).tx);
  }

  lemma SendingFacts(s: Station, r: Station)
    requires Transfer(s, r, Some(s.out.record), None)
    ensures IsData(s.out.record.ftype) && (r.substate == IRSData || r.substate == IRSfromISS)
  {
    hide IsData, Join, TablesOk, Collecting, Passed, NotPassed, BlockCount;
  }

  lemma LeaderLeads(s: Station, r: Station, toR: Option<Frame>, toS: Option<Frame>)
    requires Paired(s, r, toR, toS) && r.protocol == IRS
    ensures Lead(s, r, toR, toS)
  {
    hide Sound, WithinOne, Calling, Confirming, Sending, Closing, Idling, Taking, Ended;
  }

  lemma FrameAnswered(r: Station, f: Frame, now: int, rx: Rx)
    requires IsData(f.ftype) && r.protocol == IRS && (r.substate == IRSData || r.substate == IRSfromISS)
    requires !r.timeoutTriggered && !r.breakCmd
    ensures var o := Hear(r, now, f, rx);
            && Answers(o.tx) && o.s.protocol == IRS && !o.s.timeoutTriggered && !o.s.breakCmd
            && ((forall c :: 0 <= c < CARRIERS ==> GoodAt(rx, c)) ==> IsAckFrame(o.tx))
  {
    hide Join, Collected, Demodulated, ReceiveIRSData;
    var r1 := r.(inn := Demodulated(NewCollection(r.inn, f.ftype), f, rx));
    var n := BlockCount(f.ftype);
    if forall c :: 0 <= c < CARRIERS ==> GoodAt(rx, c) { GoodBlocksHeld(NewCollection(r.inn, f.ftype), f, rx); }
    BlocksAnswered(r1, now, f.ftype, Collected(r1.inn, n), AllHeld(r1.inn, n), rx);
  }

  lemma GoodBlocksHeld(r: Receiver, f: Frame, rx: Rx)
    requires IsData(f.ftype) && forall c :: 0 <= c < CARRIERS ==> GoodAt(rx, c)
    ensures AllHeld(Demodulated(r, f, rx), BlockCount(f.ftype))
  {
    hide IsData, Shape;
    ModeOfData(f.ftype);
    CapacitiesAgree(Even(f.ftype));
  }

  lemma BlocksAnswered(r: Station, now: int, t: byte, data: seq<byte>, ok: bool, rx: Rx)
    requires IsData(t) && !r.breakCmd && r.protocol == IRS
    ensures var o := ReceiveIRSData(r, now, t, data, ok, rx);
            && Answers(o.tx) && (ok ==> IsAckFrame(o.tx))
            && o.s.protocol == IRS && o.s.timeoutTriggered == r.timeoutTriggered && !o.s.breakCmd
  {
  }

  // ---------- the sender goes on ----------

  /** The frame in process came off the queue, or is still on it. */
  predicate Advanced(s: Station, s': Station)
  {
    Stream(s') == Stream(s) && |s'.out.queue| < |s.out.queue|
  }

  predicate Waiting(s: Station, s': Station) { s'.out.queue == s.out.queue && s'.out.removed == s.out.removed }

  const LEAST_FRAME := 16  // the bytes that a data frame of the smallest mode carries

  /** The frame in process carries as many bytes as the smallest mode allows, or all that is queued. */
  predicate Filled(s: Station) { s.out.inProcess >= Min(LEAST_FRAME, |s.out.queue|) }

  /** How many clean attempts are enough: one for each smallest frame that the queue fills, and one more
      while a shorter frame is in process, built before the host queued more. */
  function Needed(s: Station): nat
  {
    (|s.out.queue| + LEAST_FRAME - 1) / LEAST_FRAME + if Filled(s) then 0 else 1
  }

  /** In sending, the frame in process was cut to the current mode. */
  predicate CutToMode(s: Station)
  {
    s.out.inProcess == Min(BlockCount(s.gear.current) * BlockLen(s.gear.current), |s.out.queue|)
  }

  lemma CutIsFilled(s: Station, r: Station, toR: Option<Frame>)
    requires Transfer(s, r, toR, None) && CutToMode(s)
    ensures Filled(s)
  {
    hide IsData, Join, TablesOk, Collecting, Passed, NotPassed, BlockCount, BlockLen;
    ModeOfData(s.out.lastSent);
    SmallestMode(s.gear.current);
  }

  lemma SmallestMode(m: byte)
    requires IsMode(m)
    ensures BlockCount(m) * BlockLen(m) >= LEAST_FRAME
  {
    assert Even(m) == m;
    CapacitiesAgree(m);
  }

  lemma AckPays(s: Station, s': Station)
    requires 0 < s.out.inProcess <= |s.out.queue| && |s'.out.queue| == |s.out.queue| - s.out.inProcess && Filled(s')
    ensures Needed(s') + 1 <= Needed(s)
  {
  }

  lemma WaitPays(s: Station, s': Station)
    requires Waiting(s, s') && (Filled(s') || s'.out.inProcess == s.out.inProcess)
    ensures Needed(s') <= Needed(s)
  {
  }

  predicate SameFlags(s: Station, s': Station)
  {
    && s'.timeoutTriggered == s.timeoutTriggered && s'.disconnect == s.disconnect && s'.abort == s.abort
    && s'.discRepeating == s.discRepeating
  }

  lemma SendDataGoesOn(s: Station, now: int)
    requires s.protocol == ISS && !s.discRepeating && !s.disconnect
    ensures var o := SendData(s, now);
            && o.s.repeat && SameFlags(s, o.s) && o.s.out.removed == s.out.removed && o.s.out.queue == s.out.queue
            && if s.out.queue == [] then o.s.protocol == IDLE && o.tx == Some(Control(IDLEFRAME))
               else InSendingPhase(o.s) && o.tx == Some(o.s.out.record) && CutToMode(o.s)
  {
    hide NextDataFrame, Applied, BlockCount, BlockLen;
  }

  lemma AckTakes(s: Station, level: int)
    requires s.out.inProcess > 0 && s.out.inProcess <= |s.out.queue|
    ensures var s1 := Acknowledged(s, level);
            && Advanced(s, s1) && SameFlags(s, s1) && s1.protocol == s.protocol
            && |s1.out.queue| == |s.out.queue| - s.out.inProcess
  {
    hide Reported;
    var k := s.out.inProcess;
    assert s.out.queue == s.out.queue[..k] + s.out.queue[k..];
  }

  lemma HearsReply(s: Station, f: Frame, now: int, rx: Rx)
    requires InSendingPhase(s) && !s.timeoutTriggered && IsShortControl(f.ftype)
    ensures Hear(s, now, f, rx) == ReceiveISSData(s, now, f.ftype, true)
  {
    hide ReceiveISSData;
  }

  /** What the sender goes on with: the next frame, a repeat, or IDLE. */
  predicate GoesOn(s: Station, r: Station, tx: Option<Frame>)
  {
    || (Transfer(s, r, tx, None) && tx == Some(s.out.record))
    || (Transfer(s, r, None, None) && tx == None)
    || (Lead(s, r, tx, None) && tx == Some(Control(IDLEFRAME)) && s.protocol == IDLE && Willing(s, r) && s.out.queue == [])
  }

  lemma AckMovesOn(s: Station, r: Station, f: Frame, now: int, rx: Rx)
    requires Transfer(s, r, None, Some(f)) && IsAck(f.ftype)
    ensures var o := Hear(s, now, f, rx);
            GoesOn(o.s, r, o.tx) && o.tx.Some? && Advanced(s, o.s) && Needed(o.s) + 1 <= Needed(s)
  {
    hide Hear, Lead, SendData, Acknowledged, Reported, Needed, CutToMode, Filled;
    LeaderAcked(s, r, f, now);
    HearsReply(s, f, now, rx);
    InProcessFits(s, r, f);
    AckTakes(s, f.ftype - 0xE0);
    AckedKeeps(s, f.ftype - 0xE0);
    var s1 := Acknowledged(s, f.ftype - 0xE0);
    SendDataGoesOn(s1.(timeoutTrip := now, gear := s1.gear.(naks := 0), repeat := false), now);
    var o := Hear(s, now, f, rx);
    if o.s.out.queue == [] { NothingIsFilled(o.s); } else { CutIsFilled(o.s, r, o.tx); }
    AckPays(s, o.s);
  }

  lemma NothingIsFilled(s: Station)
    requires s.out.queue == []
    ensures Filled(s)
  {
  }

  lemma InProcessFits(s: Station, r: Station, f: Frame)
    requires Transfer(s, r, None, Some(f))
    ensures s.out.sentData && 0 < s.out.inProcess <= |s.out.queue| && s.encoded == s.out.record
  {
    hide IsData, Join, TablesOk, Collecting, Passed, NotPassed, BlockCount;
  }

  lemma NakStays(s: Station, r: Station, f: Frame, now: int, rx: Rx)
    requires Transfer(s, r, None, Some(f)) && IsNak(f.ftype)
    ensures var o := Hear(s, now, f, rx);
            && GoesOn(o.s, r, o.tx) && Waiting(s, o.s) && InSendingPhase(o.s) && Needed(o.s) <= Needed(s)
  {
    hide Hear, Lead, SendData, Reported, Needed, CutToMode, Filled;
    LeaderNaked(s, r, f, now);
    HearsReply(s, f, now, rx);
    InProcessFits(s, r, f);
    var g := Reported(s.gear.(naks := s.gear.naks + 1), f.ftype, |s.out.queue|);
    SendDataGoesOn(s.(gear := g.(naks := 0), timeoutTrip := now), now);
    var o := Hear(s, now, f, rx);
    if g.shift != 0 {
      SameCut(SendData(s.(gear := g.(naks := 0), timeoutTrip := now), now).s, o.s);
      CutIsFilled(o.s, r, o.tx);
    }
    WaitPays(s, o.s);
  }

  lemma SameCut(s: Station, s': Station)
    requires CutToMode(s) && s'.out == s.out && s'.gear.current == s.gear.current
    ensures CutToMode(s')
  {
  }

  /** The repeat timer puts the frame in process back on the air. */
  lemma RepeatGoes(s: Station, r: Station, now: int)
    requires Transfer(s, r, None, None) && InTime(s, now)
    ensures Poll(s, RepeatTimer, now) == Outcome(s, Some(s.out.record))
    ensures Transfer(s, r, Some(s.out.record), None)
  {
    LeaderRepeats(s, r);
    EncodedIsRecord(s, r);
  }

  lemma EncodedIsRecord(s: Station, r: Station)
    requires Transfer(s, r, None, None)
    ensures s.encoded == s.out.record
  {
    hide IsData, Join, TablesOk, Collecting, Passed, NotPassed, BlockCount;
  }

  // ---------- attempts on the link ----------

  /** The sender's frame and its reply, before the repeat timer. */
  lemma AirTimeGoesOn(l: ArqLink.Link, t: Attempt, byA: bool)
    requires Steady(l, byA)
    ensures var m := AirTime(l, t);
            var s, s' := Snd(l, byA), Snd(m, byA);
            && m.air == (if byA then FromA else FromB)(Sent(m, byA))
            && GoesOn(s', Rcv(m, byA), Sent(m, byA))
            && (Advanced(s, s') || (Waiting(s, s') && !Clean(t) && InSendingPhase(s')))
            && Needed(s') + (if Clean(t) then 1 else 0) <= Needed(s)
  {
    hide Hear, Transfer, GoesOn, Advanced, Waiting, Needed;
    var s, r := Snd(l, byA), Rcv(l, byA);
    if t.frame.Lose? {
      NothingHeard(s, r, Some(s.out.record), None);
      return;
    }
    var o := Hear(r, t.frame.at, s.out.record, t.frame.rx);
    DataAnswered(s, r, t.frame.at, t.frame.rx);
    if t.reply.Lose? {
      NothingHeard(s, o.s, None, o.tx);
      return;
    }
    if IsAckFrame(o.tx) {
      AckMovesOn(s, o.s, o.tx.value, t.reply.at, t.reply.rx);
    } else {
      NakStays(s, o.s, o.tx.value, t.reply.at, t.reply.rx);
    }
  }

  /** The frame the sender has on the air, if any. */
  function Sent(l: ArqLink.Link, byA: bool): Option<Frame> { if byA then ToBFrame(l) else ToAFrame(l) }

  lemma NothingHeard(s: Station, r: Station, toR: Option<Frame>, toS: Option<Frame>)
    requires Transfer(s, r, toR, toS)
    ensures GoesOn(s, r, None) && Waiting(s, s) && InSendingPhase(s)
  {
    FrameConsumed(s, r, toR, toS);
  }

  /** Every attempt leaves the transfer under way or finished and loses nothing of the stream; a clean
      one takes the bytes of a smallest frame off the queue, or what there is. */
  lemma AttemptProgresses(l: ArqLink.Link, t: Attempt, byA: bool)
    requires Steady(l, byA) && Timely(l, t, byA)
    ensures var l' := Try(l, t, byA);
            var s, s' := Snd(l, byA), Snd(l', byA);
            && (Finished(l', byA) || Steady(l', byA))
            && (Advanced(s, s') || (Waiting(s, s') && !Clean(t)))
            && Needed(s') + (if Clean(t) then 1 else 0) <= Needed(s)
  {
    hide Hear, Lead, Willing, Advanced, Waiting, Steady, Finished, AirTime, Clean, Poll, Needed;
    AirTimeGoesOn(l, t, byA);
    var m := AirTime(l, t);
    var s, r := Snd(m, byA), Rcv(m, byA);
    if Sent(m, byA) == None {
      RepeatGoes(s, r, t.tick);
      OnItsWay(Try(l, t, byA), byA);
    } else if InSendingPhase(s) {
      OnItsWay(m, byA);
    } else {
      SaidSo(m, byA);
    }
  }

  lemma OnItsWay(l: ArqLink.Link, byA: bool)
    requires var s := Snd(l, byA);
             Transfer(s, Rcv(l, byA), Some(s.out.record), None) && l.air == Towards(!byA, s.out.record)
    ensures Steady(l, byA)
  {
  }

  lemma SaidSo(l: ArqLink.Link, byA: bool)
    requires GoesOn(Snd(l, byA), Rcv(l, byA), Sent(l, byA)) && l.air != Clear && !InSendingPhase(Snd(l, byA))
    requires l.air == (if byA then FromA else FromB)(Sent(l, byA))
    ensures Finished(l, byA)
  {
    hide Join, TablesOk, IsOdd, OfParity;
  }

  // ---------- whole transfers ----------

  function Tries(l: ArqLink.Link, ts: seq<Attempt>, byA: bool): ArqLink.Link
    decreases |ts|
  {
    if ts == [] then l else Tries(Try(l, ts[0], byA), ts[1..], byA)
  }

  function CleanCount(ts: seq<Attempt>): nat
    decreases |ts|
  {
    if ts == [] then 0 else (if Clean(ts[0]) then 1 else 0) + CleanCount(ts[1..])
  }

  /** As long as the transfer is under way, no attempt takes it past ARQTimeout. */
  predicate AllTimely(l: ArqLink.Link, ts: seq<Attempt>, byA: bool)
    decreases |ts|
  {
    ts == [] || !Steady(l, byA) || (Timely(l, ts[0], byA) && AllTimely(Try(l, ts[0], byA), ts[1..], byA))
  }

  lemma FirstTry(l: ArqLink.Link, t: Attempt, rest: seq<Attempt>, byA: bool)
    ensures Tries(l, [t] + rest, byA) == Tries(Try(l, t, byA), rest, byA)
    ensures Tries(l, [], byA) == l
  {
    hide Try;
    assert ([t] + rest)[1..] == rest;
  }

  /** What a clean attempt is worth. */
  lemma AttemptPays(l: ArqLink.Link, t: Attempt, byA: bool)
    requires Steady(l, byA) && Timely(l, t, byA)
    ensures var l' := Try(l, t, byA);
            && (Finished(l', byA) || Steady(l', byA))
            && Stream(Snd(l', byA)) == Stream(Snd(l, byA))
            && Needed(Snd(l', byA)) + (if Clean(t) then 1 else 0) <= Needed(Snd(l, byA))
  {
    hide Steady, Finished, Try, Clean, Timely, Needed;
    AttemptProgresses(l, t, byA);
  }

  /** However many frames and replies are lost or damaged in between, once as many attempts have
      come through as the queue fills smallest frames, the whole queue has been given to the other host. */
  lemma {:induction false} QueueArrives(l: ArqLink.Link, ts: seq<Attempt>, byA: bool) returns (made: seq<Attempt>)
    requires Steady(l, byA) && AllTimely(l, ts, byA) && CleanCount(ts) >= Needed(Snd(l, byA))
    ensures made <= ts && Finished(Tries(l, made, byA), byA)
    ensures Rcv(Tries(l, made, byA), byA).inn.delivered == Stream(Snd(l, byA))
    decreases |ts|
  {
    hide Step, AirTime, Steady, Finished, Try, Clean, Timely, Stream, Snd, Rcv, Tries, Needed;
    SomethingNeeded(l, byA);
    var l' := Try(l, ts[0], byA);
    AttemptPays(l, ts[0], byA);
    var rest := [];
    if Finished(l', byA) {
      FinishedIsLevel(l', byA);
      FirstTry(l', ts[0], rest, byA);
    } else {
      rest := QueueArrives(l', ts[1..], byA);
    }
    FirstTry(l, ts[0], rest, byA);
    made := [ts[0]] + rest;
  }

  lemma SomethingNeeded(l: ArqLink.Link, byA: bool)
    requires Steady(l, byA)
    ensures Needed(Snd(l, byA)) > 0
  {
    hide IsData, Join, TablesOk, Collecting, Passed, NotPassed, BlockCount;
  }

  lemma FinishedIsLevel(l: ArqLink.Link, byA: bool)
    requires Finished(l, byA)
    ensures Rcv(l, byA).inn.delivered == Stream(Snd(l, byA))
  {
    var o := Snd(l, byA).out;
    assert o.removed + o.queue == o.removed;
  }

  // ---------- from a call to the first data frame ----------

  /** Neither side of a call is ending, timed out or about to break in. */
  predicate Free(s: Station)
  {
    !s.timeoutTriggered && !s.disconnect && !s.discRepeating && !s.breakCmd
  }

  /** The station is set for the bandwidth that the ConAck names, and has the gears for it. */
  predicate SetFor(s: Station, reply: byte)
  {
    && s.bw == Bandwidth(reply)
    && s.gear.modes == DataModes(s.cfg.gears, s.bw) && s.gear.thresholds == Thresholds(s.cfg.gears, s.bw)
  }

  /** The four ConAck frames name the four bandwidths, the wider the higher the type. */
  lemma ConAcksNameBandwidths(t: byte, u: byte)
    requires IsConAck(t) && IsConAck(u)
    ensures IsBandwidth(Bandwidth(t)) && (t < u ==> Bandwidth(t) < Bandwidth(u))
  {
  }

  lemma CallIsSent(a: Station, now: int, request: byte)
    requires a.protocol == DISC && Free(a) && IsConReq(request)
    ensures var o := Call(a, now, request);
            && o.tx == Some(Control(request)) && o.s.protocol == ISS && o.s.substate == ISSConReq
            && Free(o.s) && !o.s.abort && Stream(o.s) == Stream(a) && o.s.out.queue == a.out.queue
  {
  }

  lemma CallIsAnswered(b: Station, now: int, request: byte, rx: Rx)
    requires b.protocol == DISC && Free(b) && IsConReq(request) && rx.intact && rx.reply != CONREJBW
    ensures var o := Hear(b, now, Control(request), rx);
            o.tx == Some(Control(rx.reply)) && o.s.protocol == IRS && o.s.substate == IRSConAck && Free(o.s)
  {
    hide Join, Demodulated, Collected, InitConnection;
    HearsLongControl(b, Control(request), now, rx);
    InitKeepsFree(AfterLongControl(b, request));
  }

  lemma InitKeepsFree(s: Station)
    ensures Free(InitConnection(s)) == Free(s) && InitConnection(s).protocol == s.protocol
    ensures InitConnection(s).timeoutTriggered == s.timeoutTriggered
  {
  }

  lemma AnswerIsConfirmed(a: Station, now: int, reply: byte, rx: Rx)
    requires a.protocol == ISS && a.substate == ISSConReq && Free(a) && IsConAck(reply) && rx.intact
    ensures var o := Hear(a, now, Control(reply), rx);
            && o.tx == Some(Control(reply)) && o.s.protocol == ISS && o.s.substate == ISSConAck && Free(o.s)
            && o.s.abort == a.abort && o.s.out == a.out && SetFor(o.s, reply)
  {
    hide Join, Demodulated, Collected, Bandwidth, DataModes, Thresholds;
    HearsLongControl(a, Control(reply), now, rx);
  }

  lemma ConfirmationIsAcked(b: Station, now: int, reply: byte, rx: Rx)
    requires b.protocol == IRS && b.substate == IRSConAck && Free(b) && IsConAck(reply) && rx.intact
    ensures var o := Hear(b, now, Control(reply), rx);
            && o.tx == Some(AckFrame(rx.quality)) && o.s.protocol == IRS && o.s.substate == IRSData && Free(o.s)
            && SetFor(o.s, reply)
  {
    hide Join, Demodulated, Collected, Bandwidth, DataModes, Thresholds;
    HearsLongControl(b, Control(reply), now, rx);
  }

  lemma DataFollowsAck(a: Station, now: int, quality: Quality, rx: Rx)
    requires a.protocol == ISS && a.substate == ISSConAck && Free(a) && a.out.queue != []
    ensures var o := Hear(a, now, AckFrame(quality), rx);
            && InSendingPhase(o.s) && o.tx == Some(o.s.out.record) && Free(o.s) && o.s.repeat
            && o.s.abort == a.abort && Stream(o.s) == Stream(a) && o.s.out.queue == a.out.queue && CutToMode(o.s)
            && o.s.bw == a.bw && o.s.cfg == a.cfg
            && o.s.gear.modes == a.gear.modes && o.s.gear.thresholds == a.gear.thresholds
  {
    hide SendData, CutToMode;
    var s1 := a.(gear := a.gear.(avg := 0, naks := 0), repeat := false, out := a.out.(lastAcked := 1), substate := ISSData);
    SendDataGoesOn(s1, now);
    SendDataBreaks(s1, now);
  }

  lemma SendDataBreaks(s: Station, now: int)
    ensures var s' := SendData(s, now).s;
            && s'.breakCmd == s.breakCmd && s'.bw == s.bw && s'.cfg == s.cfg
            && s'.gear.modes == s.gear.modes && s'.gear.thresholds == s.gear.thresholds
  {
    if |s.out.queue| > 0 { AppliedKeepsTables(s.gear); }
    hide NextDataFrame, Applied, BlockCount, BlockLen;
  }

  lemma AppliedKeepsTables(g: Gears)
    ensures Applied(g).modes == g.modes && Applied(g).thresholds == g.thresholds
  {
  }

  /** The four frames of a call that all come through. */
  function Connecting(t: seq<int>, x: seq<Rx>): seq<Event>
    requires |t| == |x| == 4
  {
    [Heard(t[0], x[0]), Heard(t[1], x[1]), Heard(t[2], x[2]), Heard(t[3], x[3])]
  }

  lemma StreamOfUnused(a: Station)
    requires Unused(a)
    ensures Stream(a) == a.out.queue
  {
  }

  /** The request and the answer have come through; the confirmation is on the air. */
  lemma CallIsConfirmed(a: Station, b: Station, now: int, request: byte, e: Event, f: Event)
    requires a.protocol == b.protocol == DISC && Free(a) && Free(b) && IsConReq(request)
    requires e.Heard? && f.Heard? && e.rx.intact && f.rx.intact && e.rx.reply != CONREJBW
    ensures var l := Step(Step(Started(a, b, now, request), e), f);
            && l.a.protocol == ISS && l.a.substate == ISSConAck && Free(l.a) && !l.a.abort
            && l.b.protocol == IRS && l.b.substate == IRSConAck && Free(l.b)
            && l.air == ToB(Control(e.rx.reply)) && SetFor(l.a, e.rx.reply)
            && Stream(l.a) == Stream(a) && l.a.out.queue == a.out.queue
  {
    hide Hear, Call, Free, IsConReq, Stream, SetFor;
    var o := Call(a, now, request);
    CallIsSent(a, now, request);
    CallIsAnswered(b, e.at, request, e.rx);
    AnswerIsConfirmed(o.s, f.at, e.rx.reply, f.rx);
    SameStream(o.s, Hear(o.s, f.at, Control(e.rx.reply), f.rx).s);
  }

  lemma SameStream(s: Station, s': Station)
    requires s'.out == s.out
    ensures Stream(s') == Stream(s)
  {
  }

  /** The confirmation and its ACK come through; the first data frame is on the air. */
  lemma DataFollowsConfirmation(l: ArqLink.Link, reply: byte, g: Event, h: Event)
    requires l.a.protocol == ISS && l.a.substate == ISSConAck && Free(l.a) && !l.a.abort && l.a.out.queue != []
    requires SetFor(l.a, reply)
    requires l.b.protocol == IRS && l.b.substate == IRSConAck && Free(l.b)
    requires l.air == ToB(Control(reply)) && IsConAck(reply) && g.Heard? && h.Heard? && g.rx.intact
    ensures var l' := Step(Step(l, g), h);
            && InSendingPhase(l'.a) && Willing(l'.a, l'.b) && l'.air == ToB(l'.a.out.record)
            && Stream(l'.a) == Stream(l.a) && l'.a.out.queue == l.a.out.queue && CutToMode(l'.a)
            && SetFor(l'.a, reply) && SetFor(l'.b, reply)
  {
    hide Hear, IsConAck, Stream, CutToMode;
    ConfirmationIsAcked(l.b, g.at, reply, g.rx);
    DataFollowsAck(l.a, h.at, g.rx.quality, h.rx);
  }

  /** A call that is accepted and whose frames come through puts the caller's first data frame
      on the air, with the caller's whole queue still to be sent. Both sides are set for the bandwidth
      that was answered. */
  lemma CallConnects(a: Station, b: Station, now: int, request: byte, t: seq<int>, x: seq<Rx>)
    requires Unused(a) && Unused(b) && Free(a) && Free(b) && a.out.queue != [] && IsConReq(request)
    requires |t| == |x| == 4 && x[0].intact && x[1].intact && x[2].intact && x[0].reply != CONREJBW
    ensures var l := Run(Started(a, b, now, request), Connecting(t, x));
            && Steady(l, true) && Stream(l.a) == a.out.queue == l.a.out.queue && Filled(l.a)
            && SetFor(l.a, x[0].reply) && SetFor(l.b, x[0].reply)
  {
    hide SetFor, Started, Stream, Free, Step, Invariant, InSendingPhase, Willing, CutToMode, Filled;
    var l0 := Started(a, b, now, request);
    var e := Connecting(t, x);
    StartedIsInvariant(a, b, now, request);
    RunKeepsInvariant(l0, e);
    RunOfFour(l0, e[0], e[1], e[2], e[3]);
    StreamOfUnused(a);
    CallIsConfirmed(a, b, now, request, e[0], e[1]);
    DataFollowsConfirmation(Step(Step(l0, e[0]), e[1]), x[0].reply, e[2], e[3]);
    SendingIsSteady(Run(l0, e), true);
    SteadyIsFilled(Run(l0, e));
  }

  lemma SteadyIsFilled(l: ArqLink.Link)
    requires Steady(l, true) && CutToMode(l.a)
    ensures Filled(l.a)
  {
    hide Transfer, CutToMode;
    CutIsFilled(l.a, l.b, Some(l.a.out.record));
  }

  lemma SendingIsSteady(l: ArqLink.Link, byA: bool)
    requires var s, r := Snd(l, byA), Rcv(l, byA);
             InSendingPhase(s) && Willing(s, r) && l.air == Towards(!byA, s.out.record)
    requires Invariant(l)
    ensures Steady(l, byA)
  {
    hide Lead;
    var s, r := Snd(l, byA), Rcv(l, byA);
    if !byA { PairedTurns(r, s, None, Some(s.out.record)); }
    LeaderLeads(s, r, Some(s.out.record), None);
  }

  /** Call, transfer, end of data: the caller's queue is what the other host is given, however
      many frames and replies are lost or damaged between the clean attempts, of which as many
      are enough as the queue fills smallest frames. */
  lemma CallTransfersQueue(a: Station, b: Station, now: int, request: byte, t: seq<int>, x: seq<Rx>, ts: seq<Attempt>)
    returns (made: seq<Attempt>)
    requires Unused(a) && Unused(b) && Free(a) && Free(b) && a.out.queue != [] && IsConReq(request)
    requires |t| == |x| == 4 && x[0].intact && x[1].intact && x[2].intact && x[0].reply != CONREJBW
    requires AllTimely(Run(Started(a, b, now, request), Connecting(t, x)), ts, true)
    requires LEAST_FRAME * CleanCount(ts) >= |a.out.queue|
    ensures var l := Run(Started(a, b, now, request), Connecting(t, x));
            made <= ts && Finished(Tries(l, made, true), true) && Tries(l, made, true).b.inn.delivered == a.out.queue
  {
    hide Started, Stream, Free, Run, Tries, AllTimely, CleanCount, Finished, Steady;
    CallConnects(a, b, now, request, t, x);
    assert Needed(Run(Started(a, b, now, request), Connecting(t, x)).a) == (|a.out.queue| + LEAST_FRAME - 1) / LEAST_FRAME;
    made := QueueArrives(Run(Started(a, b, now, request), Connecting(t, x)), ts, true);
  }

  // ---------- turning the link round ----------

  /** The receiver wants the link: told to break in, or with data of its own and AutoBreak on. */
  predicate WantsLink(r: Station)
  {
    r.protocol == IRS && (r.substate == IRSData || r.substate == IRSfromISS)
    && (r.cfg.autoBreak || r.breakCmd) && r.out.queue != []
    && !r.timeoutTriggered && !r.disconnect && !r.discRepeating && !r.abort
  }

  lemma IdleIsBrokenInto(r: Station, now: int, rx: Rx)
    requires WantsLink(r)
    ensures var o := Hear(r, now, Control(IDLEFRAME), rx);
            && o.tx == Some(Control(BREAK)) && o.s.protocol == IRStoISS && o.s.out == r.out
            && !o.s.timeoutTriggered && !o.s.disconnect && !o.s.discRepeating && !o.s.abort
  {
  }

  lemma IdleYields(s: Station, now: int, rx: Rx)
    requires s.protocol == IDLE && Free(s)
    ensures var o := Hear(s, now, Control(BREAK), rx);
            o.tx == Some(AckFrame(100)) && o.s.protocol == IRS && Free(o.s) && o.s.out == s.out
  {
    hide SendData;
  }

  lemma TakerSends(r: Station, now: int, rx: Rx)
    requires r.protocol == IRStoISS && !r.timeoutTriggered && !r.disconnect && !r.discRepeating && !r.abort
    requires r.out.queue != []
    ensures var o := Hear(r, now, AckFrame(100), rx);
            && InSendingPhase(o.s) && o.tx == Some(o.s.out.record) && o.s.repeat
            && SameFlags(r, o.s) && o.s.out.queue == r.out.queue && o.s.out.removed == r.out.removed
  {
    hide SendData, Initialised;
    var s1 := r.(repeat := false, inn := r.inn.(lastToHost := -1));
    var s2 := if s1.gear.current == 0 then s1.(gear := Initialised(s1.gear, s1.cfg.gears, s1.bw)) else s1;
    SendDataGoesOn(SetState(s2, ISS).(substate := ISSData), now);
  }

  /** IDLE, BREAK and ACK: the station that was receiving sends its own queue. */
  lemma LinkTurns(l: ArqLink.Link, byA: bool, e: Event, f: Event, g: Event)
    requires Invariant(l) && l.air == Towards(!byA, Control(IDLEFRAME)) && e.Heard? && f.Heard? && g.Heard?
    requires Snd(l, byA).protocol == IDLE && Free(Snd(l, byA)) && WantsLink(Rcv(l, byA))
    ensures var l' := Step(Step(Step(l, e), f), g);
            && Steady(l', !byA)
            && Stream(Snd(l', !byA)) == Stream(Rcv(l, byA)) && Snd(l', !byA).out.queue == Rcv(l, byA).out.queue
            && Rcv(l', !byA).out == Snd(l, byA).out
  {
    hide Hear, Invariant, WantsLink;
    StepKeepsInvariant(l, e);
    StepKeepsInvariant(Step(l, e), f);
    StepKeepsInvariant(Step(Step(l, e), f), g);
    var s, r := Snd(l, byA), Rcv(l, byA);
    var o := Hear(r, e.at, Control(IDLEFRAME), e.rx);
    IdleIsBrokenInto(r, e.at, e.rx);
    IdleYields(s, f.at, f.rx);
    QueueWanted(r);
    TakerSends(o.s, g.at, g.rx);
    SendingIsSteady(Step(Step(Step(l, e), f), g), !byA);
  }

  lemma QueueWanted(r: Station)
    requires WantsLink(r)
    ensures r.out.queue != []
  {
  }

  // ---------- hanging up ----------

  predicate HungUpEmpty(s: Station) { s.protocol == DISC && !s.discRepeating && !s.repeat && s.out.queue == [] }

  lemma ClosedIsEmpty(s: Station)
    requires s.protocol != DISC
    ensures HungUpEmpty(CloseSession(s)) && HungUpEmpty(EndIdling(s))
    ensures !s.repeat ==> HungUpEmpty(CloseSession(s).(repeat := s.repeat))
  {
  }

  lemma ReceiverEnds(r: Station, now: int, rx: Rx)
    requires r.protocol == IRS && (r.substate == IRSData || r.substate == IRSfromISS) && !r.timeoutTriggered
    ensures var o := Hear(r, now, Control(DISCFRAME), rx); o.tx == Some(Control(END)) && HungUpEmpty(o.s)
  {
    hide Hear, CloseSession;
    HearsShort(r, Control(DISCFRAME), now, rx);
    ClosedIsEmpty(r);
  }

  lemma DisconnecterEnds(s: Station, now: int, rx: Rx)
    requires (s.protocol == ISS && s.substate == ISSData) || s.protocol == IDLE
    requires !s.timeoutTriggered && !s.disconnect && !s.repeat
    ensures var o := Hear(s, now, Control(END), rx); o.tx == None && HungUpEmpty(o.s)
  {
    hide Hear, CloseSession, EndIdling, SendData;
    HearsShort(s, Control(END), now, rx);
    ClosedIsEmpty(s);
  }

  /** DISC and END: when both come through, both stations are disconnected with empty queues. */
  lemma DisconnectEnds(l: ArqLink.Link, byA: bool, e: Event, f: Event)
    requires e.Heard? && f.Heard?
    requires var s, r := Snd(l, byA), Rcv(l, byA);
             && (s.protocol == ISS || s.protocol == IDLE) && (s.protocol == ISS ==> s.substate == ISSData)
             && !s.timeoutTriggered && !s.disconnect && !s.repeat
             && r.protocol == IRS && (r.substate == IRSData || r.substate == IRSfromISS) && !r.timeoutTriggered
             && l.air == Towards(!byA, Control(DISCFRAME))
    ensures var l' := Step(Step(l, e), f); HungUpEmpty(l'.a) && HungUpEmpty(l'.b) && l'.air == Clear
  {
    hide Hear;
    ReceiverEnds(Rcv(l, byA), e.at, e.rx);
    DisconnecterEnds(Snd(l, byA), f.at, f.rx);
  }
}
