/** One ARQ station as a value, and what each event does to it (ext/ardop1/ARQ.c,
    ext/ardop1/ARDOPC.c, ext/ardop1/SoundInput.c). Every operation yields the new station
    and the frame it transmits, if any. The class in ArqClass.dfy performs these steps
    in place. */
module ArqStation {
  import opened Frames
  import opened Options
  import opened Gear

  datatype Protocol = DISC | ISS | IRS | IDLE | IRStoISS

  datatype Substate =
    | NoSubstate | ISSConReq | ISSConAck | ISSData
    | IRSConAck | IRSData | IRSfromISS | DISCArqEnd

  /** Sending side. `record` and `removed` are history: the last data frame built from the
      queue, and all bytes taken off the queue because of an ACK. */
  datatype Sender = Sender(
    queue: seq<byte>, inProcess: nat, sentData: bool,
    lastSent: byte, lastAcked: byte,
    record: Frame, removed: seq<byte>)

  /** Receiving side with the memory ARQ store. `delivered` is everything passed to the host
      under the ARQ tag. */
  datatype Receiver = Receiver(
    lastToHost: int, lastACKed: byte,
    lastType: int, carrierOk: seq<bool>, frameData: seq<seq<byte>>,
    delivered: seq<byte>)

  datatype Settings = Settings(gears: GearConfig, autoBreak: bool, conReqRepeats: int, arqTimeout: int)

  datatype Station = Station(
    cfg: Settings,
    protocol: Protocol, substate: Substate,
    out: Sender, inn: Receiver, gear: Gears, bw: int,
    encoded: Frame,                         // last frame encoded, resent by a repeat
    repeat: bool, discRepeating: bool, repeatCount: int,
    disconnect: bool, breakCmd: bool, abort: bool,
    timeoutTrip: int, timeoutTriggered: bool,
    sendTimeout: int, pendingTimeout: int)  // 0 when not running

  datatype Outcome = Outcome(s: Station, tx: Option<Frame>)

  type Quality = q: int | 0 <= q <= 100

  type Negotiation = t: byte | IsConAck(t) || t == CONREJBW witness CONREJBW

  /** What reception makes of a frame: which blocks pass their CRC and what is read for the
      others, whether a long control frame decodes, the measured quality, and (for a connect
      request) the answer of bandwidth negotiation. */
  datatype Rx = Rx(good: seq<bool>, noise: seq<seq<byte>>, intact: bool, quality: Quality, reply: Negotiation)

  const CARRIERS := 8
  const QUEUE_LIMIT := 4096
  const DISC_TRIES := 5

  function NoCarriers(): seq<bool> { seq(CARRIERS, _ => false) }

  function Control(t: byte): Frame { Frame(t, []) }

  function ScaledQuality(q: Quality): byte { if q / 2 < 19 then 0 else q / 2 - 19 }

  function AckFrame(q: Quality): Frame { Control(0xE0 + ScaledQuality(q)) }

  function NakFrame(q: Quality): Frame { Control(ScaledQuality(q)) }

  function Bandwidth(conAck: byte): int
  {
    if conAck == 0x39 then 200 else if conAck == 0x3A then 500 else if conAck == 0x3B then 1000 else 2000
  }

  function Quiet(s: Station): Outcome { Outcome(s, None) }

  function Transmit(s: Station, f: Frame): Outcome { Outcome(s.(encoded := f), Some(f)) }

  // ---------- shared pieces ----------

  function ClearQueue(s: Station): Station { s.(out := s.out.(queue := [])) }

  function SetState(s: Station, p: Protocol): Station
  {
    if s.protocol == p then s
    else
      var s1 := s.(protocol := p);
      match p
      case DISC => ClearQueue(s1.(disconnect := false))
      case ISS => s1.(repeat := false)
      case IDLE => s1.(repeat := false)
      case IRS => s1.(inn := s1.inn.(lastACKed := 0))
      case IRStoISS => s1.(inn := s1.inn.(lastACKed := 0))
  }

  function InitConnection(s: Station): Station
  {
    s.(inn := s.inn.(lastACKed := 0), gear := Forgotten(s.gear), bw := 0)
  }

  /** Preconditions for receiving as a new IRS: no frame passed yet, memory ARQ forgotten. */
  function FreshReceiver(r: Receiver, lastType: int): Receiver
  {
    r.(lastToHost := -1, carrierOk := NoCarriers(), lastType := lastType)
  }

  function TakenOff(o: Sender, len: nat): Sender
  {
    var k := Min(len, |o.queue|);
    o.(queue := o.queue[k..], removed := o.removed + o.queue[..k])
  }

  function StartDisconnect(s: Station): Outcome
  {
    Transmit(s.(repeatCount := 1, disconnect := false, discRepeating := true, repeat := false), Control(DISCFRAME))
  }

  /** Slices the next data frame off the head of the queue without removing it. */
  function NextDataFrame(queue: seq<byte>, current: byte, lastAcked: byte): Frame
  {
    var t := NextType(current, lastAcked);
    var len := Min(BlockCount(current) * BlockLen(current), |queue|);
    Frame(t, Split(queue[..len], BlockCount(current), BlockLen(current)))
  }

  /** Nothing left to send: offer the link. */
  function StartIdling(s: Station, now: int): Outcome
  {
    var s1 := ClearQueue(SetState(s, IDLE));
    Transmit(s1.(repeat := true, timeoutTrip := now, out := s1.out.(sentData := false)), Control(IDLEFRAME))
  }

  function SendData(s: Station, now: int): Outcome
  {
    if s.discRepeating || s.protocol != ISS then Quiet(s)
    else if s.disconnect then StartDisconnect(s)
    else if |s.out.queue| > 0 then
      var g := Applied(s.gear);
      var f := NextDataFrame(s.out.queue, g.current, s.out.lastAcked);
      var len := Min(BlockCount(g.current) * BlockLen(g.current), |s.out.queue|);
      var o := s.out.(inProcess := len, sentData := true, lastSent := f.ftype, record := f);
      Transmit(s.(gear := g, out := o, substate := ISSData, timeoutTrip := now, repeat := true), f)
    else StartIdling(s, now)
  }

  function ListenAgain(s: Station, lastType: int): Outcome
  {
    Transmit(s.(substate := IRSfromISS, inn := FreshReceiver(s.inn, lastType)), AckFrame(100))
  }

  /** The sending station gives the link up: it answers a BREAK with an ACK and listens. */
  function YieldLink(s: Station, now: int, lastType: int): Outcome
  {
    ListenAgain(SetState(s.(repeat := false, timeoutTrip := now), IRS), lastType)
  }

  /** The receiving station starts asking for the link. */
  function AskForLink(s: Station): Outcome
  {
    Transmit(SetState(s, IRStoISS).(repeat := true), Control(BREAK))
  }

  function CloseSession(s: Station): Station
  {
    InitConnection(SetState(ClearQueue(s.(discRepeating := false)), DISC)).(repeat := false)
  }

  // ---------- ProcessRcvdARQFrame, one function per protocol state ----------

  /** Answers a call and waits ten seconds for it to be confirmed. */
  function Answering(s: Station, now: int, reply: Negotiation): Outcome
  {
    Transmit(s.(substate := IRSConAck, pendingTimeout := now + 10000, timeoutTrip := now, repeat := false,
                inn := FreshReceiver(s.inn, -1), gear := s.gear.(avg := 0)), Control(reply))
  }

  function AcceptCall(s: Station, now: int, reply: Negotiation): Outcome
  {
    Answering(ClearQueue(SetState(InitConnection(s), IRS)), now, reply)
  }

  /** The ConAck came back: the connection stands, ready for data. */
  function Connected(s: Station, now: int, t: byte, q: Quality): Outcome
  {
    var g := Initialised(s.gear.(naks := 0), s.cfg.gears, Bandwidth(t));
    Transmit(s.(bw := Bandwidth(t), pendingTimeout := 0, timeoutTrip := now, substate := IRSData,
                inn := s.inn.(lastToHost := -1), gear := g, repeat := false), AckFrame(q))
  }

  function ReceiveDISC(s: Station, now: int, t: byte, ok: bool, rx: Rx): Outcome
  {
    if ok && t == DISCFRAME then Transmit(s.(repeat := false), Control(END))
    else if !ok || !IsConReq(t) then Quiet(s)
    else if rx.reply != CONREJBW then AcceptCall(s, now, rx.reply)
    else Transmit(s.(repeat := false), Control(CONREJBW))
  }

  function ReceiveIRSConAck(s: Station, now: int, t: byte, ok: bool, rx: Rx): Outcome
  {
    if !ok then Quiet(s)
    else if IsConReq(t) then
      // The caller missed the ConAck and asks again. The repeat flag is left as it is here.
      if rx.reply != CONREJBW then
        var o := AcceptCall(s, now, rx.reply);
        o.(s := o.s.(repeat := s.repeat))
      else Transmit(s, Control(CONREJBW))
    else if IsConAck(t) then Connected(s, now, t, rx.quality)
    else Quiet(s)
  }

  /** Passes the data to the host unless its frame type is that of the last frame passed. */
  function PassedOn(s: Station, now: int, t: byte, data: seq<byte>): Station
  {
    if t == s.inn.lastToHost then s
    else s.(inn := s.inn.(delivered := s.inn.delivered + data, lastToHost := t), timeoutTrip := now)
  }

  function AckData(s: Station, t: byte, q: Quality): Outcome
  {
    Transmit(s.(inn := s.inn.(lastACKed := t), substate := IRSData, repeat := false), AckFrame(q))
  }

  /** A data frame whose every block is good. */
  function ReceiveGoodData(s: Station, now: int, t: byte, data: seq<byte>, rx: Rx): Outcome
  {
    if s.substate == IRSData && s.breakCmd && t != s.inn.lastACKed then
      AskForLink(s.(timeoutTrip := now, breakCmd := false))
    else AckData(PassedOn(s, now, t, data), t, rx.quality)
  }

  /** The sender has nothing to send: take the link, hang up, or let it go on idling. */
  function HearIdleFrame(s: Station, now: int): Outcome
  {
    if s.disconnect then StartDisconnect(s.(repeat := false))
    else if (s.cfg.autoBreak && |s.out.queue| > 0) || s.breakCmd then AskForLink(s)
    else Transmit(s.(repeat := false, timeoutTrip := now), AckFrame(100))
  }

  function ReceiveIRSData(s: Station, now: int, t: byte, data: seq<byte>, ok: bool, rx: Rx): Outcome
  {
    if IsConAck(t) then
      Transmit(s.(bw := Bandwidth(t), timeoutTrip := now), AckFrame(rx.quality))
    else if ok && t == DISCFRAME then Transmit(CloseSession(s), Control(END))
    else if ok && t == END then Quiet(CloseSession(s))
    else if ok && t == BREAK then Transmit(s.(repeat := false, timeoutTrip := now), AckFrame(100))
    else if ok && t == IDLEFRAME then HearIdleFrame(s, now)
    else if ok && IsData(t) then ReceiveGoodData(s, now, t, data, rx)
    else if !ok && t == s.inn.lastACKed then
      // Passed to the host before, only the ACK was missed: never NAK it.
      Transmit(s.(repeat := false), AckFrame(rx.quality))
    else if !ok && IsData(t) then
      Transmit(s.(substate := IRSData, repeat := false), NakFrame(rx.quality))
    else Quiet(s)
  }

  /** The session ends while idle: the connection data is not forgotten here. */
  function EndIdling(s: Station): Station
  {
    SetState(ClearQueue(s.(discRepeating := false)), DISC).(repeat := false)
  }

  function ReceiveIDLE(s: Station, now: int, t: byte, ok: bool): Outcome
  {
    if !ok then Quiet(s)
    else if IsAck(t) && |s.out.queue| > 0 then SendData(SetState(s, ISS).(substate := ISSData), now)
    else if t == BREAK then YieldLink(s, now, -1)
    else if t == DISCFRAME then Transmit(EndIdling(s), Control(END))
    else if t == END then Quiet(EndIdling(s))
    else Quiet(s)
  }

  function ReceiveISSConReq(s: Station, t: byte, ok: bool): Outcome
  {
    if !ok then Quiet(s)
    else if IsConAck(t) then
      Transmit(s.(bw := Bandwidth(t), gear := Initialised(s.gear, s.cfg.gears, Bandwidth(t)),
                  repeat := true, substate := ISSConAck), Control(t))
    else if t == CONREJBUSY || t == CONREJBW then Quiet(s.(abort := true))
    else Quiet(s)
  }

  /** The connection stands on the calling side: data frames alternate from here. */
  function FirstAcked(s: Station): Station
  {
    s.(gear := s.gear.(avg := 0, naks := 0), repeat := false, out := s.out.(lastAcked := 1), substate := ISSData)
  }

  function ReceiveISSConAck(s: Station, now: int, t: byte, ok: bool): Outcome
  {
    if (ok && IsAck(t)) || t == BREAK then
      var s1 := FirstAcked(s);
      if t == BREAK && |s.out.queue| == 0 then YieldLink(ClearQueue(s1), now, t)
      else SendData(s1, now)
    else if ok && (t == CONREJBUSY || t == CONREJBW) then Quiet(InitConnection(SetState(s, DISC)))
    else Quiet(s)
  }

  /** The ACK for the frame in process: only now are its bytes taken off the queue. */
  function Acknowledged(s: Station, level: int): Station
  {
    var o := s.out.(lastAcked := s.out.lastSent);
    var o1 := if o.inProcess != 0 then TakenOff(o, o.inProcess).(inProcess := 0) else o;
    s.(out := o1, gear := Reported(s.gear.(acks := s.gear.acks + 1), level, |o1.queue|))
  }

  function ReceiveISSData(s: Station, now: int, t: byte, ok: bool): Outcome
  {
    if s.disconnect then StartDisconnect(s)
    else if !ok then Quiet(s)
    else if IsAck(t) then
      var s1 := if s.out.sentData then Acknowledged(s, t - 0xE0) else s;
      SendData(s1.(timeoutTrip := now, gear := s1.gear.(naks := 0), repeat := false), now)
    else if t == BREAK then
      YieldLink(ClearQueue(s.(gear := s.gear.(naks := 0))), now, t)
    else if IsNak(t) then
      if !s.out.sentData then Quiet(s)
      else
        var g := Reported(s.gear.(naks := s.gear.naks + 1), t, |s.out.queue|);
        if g.shift == 0 then Quiet(s.(gear := g.(acks := 0)))
        else
          var o := SendData(s.(gear := g.(naks := 0), timeoutTrip := now), now);
          o.(s := o.s.(gear := o.s.gear.(acks := 0)))
    else if t == DISCFRAME then Transmit(CloseSession(s), Control(END))
    else if t == END then Quiet(CloseSession(s).(repeat := s.repeat))
    else Quiet(s)
  }

  function ReceiveISS(s: Station, now: int, t: byte, ok: bool): Outcome
  {
    match s.substate
    case ISSConReq => ReceiveISSConReq(s, t, ok)
    case ISSConAck => ReceiveISSConAck(s, now, t, ok)
    case ISSData => ReceiveISSData(s, now, t, ok)
    case _ => Quiet(s)
  }

  function ProcessFrame(s: Station, now: int, t: byte, data: seq<byte>, ok: bool, rx: Rx): Outcome
  {
    match s.protocol
    case DISC => ReceiveDISC(s, now, t, ok, rx)
    case IRS =>
      if s.substate == IRSConAck then ReceiveIRSConAck(s, now, t, ok, rx)
      else if s.substate == IRSData || s.substate == IRSfromISS then ReceiveIRSData(s, now, t, data, ok, rx)
      else ReceiveISS(s, now, t, ok)  // the case label below is reached
    case IRStoISS => Quiet(s)
    case IDLE => ReceiveIDLE(s, now, t, ok)
    case ISS => ReceiveISS(s, now, t, ok)
  }

  // ---------- memory ARQ and the short cuts of ProcessNewSamples ----------

  function GoodAt(rx: Rx, c: int): bool { 0 <= c < |rx.good| && rx.good[c] }
  function BlockAt(blocks: seq<seq<byte>>, c: int): seq<byte> { if 0 <= c < |blocks| then blocks[c] else [] }
  function HeldAt(r: Receiver, c: int): bool { 0 <= c < |r.carrierOk| && r.carrierOk[c] }

  /** A type other than that of the last long frame starts a new collection of blocks. */
  function NewCollection(r: Receiver, t: byte): Receiver
  {
    if r.lastType != t then r.(carrierOk := NoCarriers(), lastType := t) else r
  }

  /** Blocks already held are kept; the others are read from the air. */
  function Demodulated(r: Receiver, f: Frame, rx: Rx): Receiver
  {
    r.(carrierOk := seq(CARRIERS, c requires 0 <= c < CARRIERS =>
                        HeldAt(r, c) || (c < BlockCount(f.ftype) && GoodAt(rx, c))),
       frameData := seq(CARRIERS, c requires 0 <= c < CARRIERS =>
                        if HeldAt(r, c) || c >= BlockCount(f.ftype) then BlockAt(r.frameData, c)
                        else if GoodAt(rx, c) then BlockAt(f.blocks, c)
                        else BlockAt(rx.noise, c)))
  }

  predicate AllHeld(r: Receiver, n: nat) { forall c :: 0 <= c < n ==> HeldAt(r, c) }

  function Collected(r: Receiver, n: nat): seq<byte>
  {
    Join(if n <= |r.frameData| then r.frameData[..n] else r.frameData)
  }

  /** The BREAKs stop, and gears that were never set are set. */
  function ReadyToTake(s: Station): Station
  {
    var s1 := s.(repeat := false, inn := s.inn.(lastToHost := -1));
    if s1.gear.current == 0 then s1.(gear := Initialised(s1.gear, s1.cfg.gears, s1.bw)) else s1
  }

  /** IRStoISS hears an ACK: the other side has yielded, become the sender. */
  function TakeLink(s: Station, now: int): Outcome
  {
    SendData(SetState(ReadyToTake(s), ISS).(substate := ISSData), now)
  }

  function HearControl(s: Station, now: int, t: byte, rx: Rx): Outcome
  {
    if s.protocol == IRStoISS && IsAck(t) then TakeLink(s, now)
    else if s.timeoutTriggered then Quiet(s)
    else ProcessFrame(s, now, t, [], true, rx)
  }

  /** True when a long frame is answered by its type alone, without decoding it. */
  predicate BreaksIn(s: Station, t: byte)
  {
    s.breakCmd && s.protocol == IRS && s.substate == IRSData && t != s.inn.lastACKed
  }

  predicate SkipsDecode(s: Station, t: byte)
  {
    BreaksIn(s, t) || (s.protocol == IRStoISS && IsData(t))
  }

  /** The long frame f has been read into the store; what is answered. */
  function AnswerLong(s: Station, breaksIn: bool, now: int, f: Frame, rx: Rx): Outcome
  {
    if breaksIn then AskForLink(s.(breakCmd := false))
    else if s.protocol == IRStoISS && IsData(f.ftype) then Transmit(s.(repeat := true), Control(BREAK))
    else if s.timeoutTriggered then Quiet(s)
    else
      var n := BlockCount(f.ftype);
      var ok := if IsData(f.ftype) then AllHeld(s.inn, n) else rx.intact;
      ProcessFrame(s, now, f.ftype, Collected(s.inn, n), ok, rx)
  }

  function HearLong(s: Station, now: int, f: Frame, rx: Rx): Outcome
  {
    var r := NewCollection(s.inn, f.ftype);
    var s1 := s.(inn := if IsData(f.ftype) && !(IsFsk(f.ftype) && SkipsDecode(s, f.ftype))
                        then Demodulated(r, f, rx) else r);
    AnswerLong(s1, BreaksIn(s, f.ftype), now, f, rx)
  }

  function Hear(s: Station, now: int, f: Frame, rx: Rx): Outcome
  {
    if IsShortControl(f.ftype) then HearControl(s, now, f.ftype, rx) else HearLong(s, now, f, rx)
  }

  // ---------- polling ----------

  datatype NextFrame = NextFrame(s: Station, again: bool, tx: Option<Frame>)

  predicate IsConnected(p: Protocol) { p != DISC }

  function GetNextARQFrame(s: Station, now: int): NextFrame
  {
    if s.abort then
      var s1 := InitConnection(SetState(ClearQueue(s), DISC));
      NextFrame(s1.(abort := false, repeat := false, discRepeating := false, repeatCount := 0), false, None)
    else if s.discRepeating then
      var s1 := s.(repeatCount := s.repeatCount + 1, repeat := false);
      if s1.repeatCount > DISC_TRIES then
        var s2 := SetState(ClearQueue(s1.(discRepeating := false)), DISC);
        NextFrame(InitConnection(s2.(repeatCount := 0)), false, None)
      else NextFrame(s1.(encoded := Control(DISCFRAME)), true, None)
    else if (s.protocol == ISS || s.protocol == IDLE) && s.disconnect then
      var o := StartDisconnect(s);
      NextFrame(o.s, false, o.tx)
    else if s.protocol == ISS && s.substate == ISSConReq then
      if s.repeatCount + 1 > s.cfg.conReqRepeats then
        NextFrame(InitConnection(SetState(ClearQueue(s), DISC).(repeatCount := 0)), false, None)
      else NextFrame(s.(repeatCount := s.repeatCount + 1), true, None)
    else if s.protocol == ISS && s.substate == IRSConAck then
      if s.repeatCount + 1 <= s.cfg.conReqRepeats then NextFrame(s.(repeatCount := s.repeatCount + 1), true, None)
      else NextFrame(InitConnection(SetState(s, DISC).(substate := DISCArqEnd, repeatCount := 0)), false, None)
    else if IsConnected(s.protocol) && (now - s.timeoutTrip) / 1000 > s.cfg.arqTimeout && !s.timeoutTriggered then
      NextFrame(s.(repeat := false, timeoutTriggered := true, sendTimeout := now + 1000), false, None)
    else if s.protocol == DISC then
      NextFrame(s.(disconnect := false, repeatCount := 0), false, None)
    else NextFrame(s, s.repeat, None)
  }

  /** CheckTimers: the time to the next repeat has passed. */
  function RepeatPoll(s: Station, now: int): Outcome
  {
    if !(s.repeat || s.discRepeating) then Quiet(s)
    else
      var n := GetNextARQFrame(s, now);
      if n.again then Outcome(n.s, Some(n.s.encoded)) else Outcome(n.s.(repeat := false), n.tx)
  }

  /** CheckTimers: the send timeout ends the session. */
  function SendTimeoutPoll(s: Station, now: int): Outcome
  {
    if s.sendTimeout == 0 || now <= s.sendTimeout then Quiet(s)
    else
      var o := Transmit(ClearQueue(s.(sendTimeout := 0, repeat := false)), Control(DISCFRAME));
      o.(s := InitConnection(SetState(o.s, DISC)).(timeoutTriggered := false))
  }

  /** CheckTimers: nothing followed the ConAck. The state variable is set directly here, so
      the outbound queue is kept. */
  function PendingPoll(s: Station, now: int): Outcome
  {
    if s.pendingTimeout == 0 || now <= s.pendingTimeout then Quiet(s)
    else Quiet(InitConnection(s.(pendingTimeout := 0, repeat := false, protocol := DISC)))
  }

  /** MainPoll: asks for a frame when no repeat is running, but sends nothing itself. */
  function MainPoll(s: Station, now: int): Outcome
  {
    if s.repeat || s.discRepeating then Quiet(s)
    else
      var n := GetNextARQFrame(s, now);
      Outcome(n.s, n.tx)
  }

  // ---------- host commands ----------

  function QueueData(s: Station, data: seq<byte>): Station
  {
    if data == [] || |s.out.queue| + |data| >= QUEUE_LIMIT then s
    else s.(out := s.out.(queue := s.out.queue + data))
  }

  function HostDisconnect(s: Station): Station
  {
    if IsConnected(s.protocol) then s.(disconnect := true) else s
  }

  function HostBreak(s: Station): Station
  {
    if s.protocol == IRS then s.(breakCmd := true) else s
  }

  function HostAbort(s: Station, now: int): Outcome
  {
    var s1 := s.(abort := true);
    if s.protocol == IDLE || s.protocol == IRS || s.protocol == IRStoISS then
      var n := GetNextARQFrame(s1, now);
      Outcome(n.s, n.tx)
    else Quiet(s1)
  }

  function SendRequest(s: Station, request: byte): Outcome
  {
    Transmit(s.(substate := ISSConReq, repeatCount := 1, repeat := true), Control(request))
  }

  /** SendARQConnectRequest: the request type carries the wanted bandwidth. */
  function Call(s: Station, now: int, request: byte): Outcome
    requires IsConReq(request)
  {
    SendRequest(SetState(InitConnection(s).(abort := false, timeoutTrip := now), ISS), request)
  }
}
