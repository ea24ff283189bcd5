/** The station as the program keeps it: variables updated in place, step by step
    (ext/ardop1/ARQ.c, ext/ardop1/ARDOPC.c, ext/ardop1/SoundInput.c). Every method is proved
    to perform, on the value of its object, the step that ArqStation and Gear define. */
module ArqClass {
  import opened Frames
  import opened Options
  import opened Gear
  import opened ArqStation

  /** The gear variables, with the mode history in two fixed buffers. */
  class GearBox {
    var modes: seq<byte>
    var thresholds: seq<byte>
    var ptr: int
    var current: byte
    var shift: int
    var avg: int
    var acks: int
    var naks: int
    const worked: array<int>
    const tried: array<bool>

    constructor ()
      ensures Valid() && fresh(Repr())
      ensures HistoryOk(Value()) && modes == [] && current == 0 && shift == 0
    {
      modes, thresholds, ptr, current, shift, avg, acks, naks := [], [], 0, 0, 0, 0, 0, 0;
      worked := new int[MODE_SLOTS](_ => 0);
      tried := new bool[MODE_SLOTS](_ => false);
    }

    ghost predicate Valid() { worked.Length == MODE_SLOTS && tried.Length == MODE_SLOTS }

    ghost function Repr(): set<object> { {this, worked, tried} }

    ghost function Value(): Gears
      reads this, worked, tried
    {
      Gears(modes, thresholds, ptr, current, shift, avg, acks, naks, worked[..], tried[..])
    }

    method ClearHistory()
      requires Valid()
      modifies worked, tried
      ensures Value() == Forgotten(old(Value()))
    {
      for i := 0 to MODE_SLOTS
        invariant forall k :: 0 <= k < i ==> worked[k] == 0 && !tried[k]
      {
        worked[i] := 0;
        tried[i] := false;
      }
      assert worked[..] == seq(MODE_SLOTS, _ => 0);
      assert tried[..] == seq(MODE_SLOTS, _ => false);
    }

    method InitializeModes(cfg: GearConfig, bw: int)
      requires Valid()
      modifies this
      ensures Value() == Initialised(old(Value()), cfg, bw)
    {
      modes := DataModes(cfg, bw);
      thresholds := Thresholds(cfg, bw);
      ptr := if cfg.fastStart then |modes| / 2 else 0;
      current := ByteAt(modes, ptr);
      shift := 0;
    }

    method ComputeQualityAvg(quality: int)
      requires Valid()
      modifies this
      ensures Value() == Averaged(old(Value()), quality)
    {
      if avg == 0 {
        avg := quality;
      } else {
        avg := (avg + quality + 1) / 2;
      }
    }

    method CountWorked()
      requires Valid()
      modifies worked
      ensures worked[..] == Bump(old(worked[..]), ptr)
    {
      if 0 <= ptr < MODE_SLOTS {
        worked[ptr] := (worked[ptr] + 1) % 0x1_0000;
      }
    }

    method MarkTried(i: int)
      requires Valid()
      modifies tried
      ensures tried[..] == Mark(old(tried[..]), i)
    {
      if 0 <= i < MODE_SLOTS {
        tried[i] := true;
      }
    }

    method Gearshift(remaining: nat)
      requires Valid()
      modifies this, worked, tried
      ensures Value() == Shifted(old(Value()), remaining)
    {
      hide Bump, Mark;
      var downNaks := 2;
      if !(0 <= ptr < MODE_SLOTS) || worked[ptr] == 0 {
        downNaks := 1;
      }
      if acks != 0 {
        CountWorked();
      }
      if ptr > 0 && naks >= downNaks {
        shift := -1;
        avg, naks, acks := 0, 0, 0;
      } else if avg > ByteAt(thresholds, ptr) && ptr < |modes| - 1 && acks >= 2 {
        if remaining <= FrameSize(ByteAt(modes, ptr)) {
          shift := 0;
          return;
        }
        if FlagAt(tried[..], ptr + 1) && CountAt(worked[..], ptr + 1) == 0 && acks < 5 {
          shift := 0;
          return;
        }
        shift := 1;
        MarkTried(ptr + shift);
        avg, naks, acks := 0, 0, 0;
      }
    }

    method ReportQuality(level: int, remaining: nat)
      requires Valid()
      modifies this, worked, tried
      ensures Value() == Reported(old(Value()), level, remaining)
    {
      ComputeQualityAvg(38 + 2 * level);
      Gearshift(remaining);
    }

    method ApplyShift()
      requires Valid()
      modifies this
      ensures Value() == Applied(old(Value()))
    {
      if shift < 0 {
        if ptr > 0 {
          ptr := if ptr + shift < 0 then 0 else ptr + shift;
          current := ByteAt(modes, ptr);
        }
        shift := 0;
      } else if shift > 0 {
        if ptr < |modes| {
          ptr := if ptr + shift > |modes| then |modes| else ptr + shift;
          current := ByteAt(modes, ptr);
        }
        shift := 0;
      }
    }
  }

  /** The outbound queue and what is known of the frame last sent from it. */
  class SenderBox {
    var queue: seq<byte>
    var inProcess: nat
    var sentData: bool
    var lastSent: byte
    var lastAcked: byte
    ghost var record: Frame
    ghost var removed: seq<byte>

    constructor ()
      ensures Value() == Sender([], 0, false, 0, 0, Control(0), [])
    {
      queue, inProcess, sentData, lastSent, lastAcked := [], 0, false, 0, 0;
      record, removed := Control(0), [];
    }

    ghost function Value(): Sender
      reads this
    {
      Sender(queue, inProcess, sentData, lastSent, lastAcked, record, removed)
    }

    method Clear()
      modifies this
      ensures Value() == old(Value()).(queue := [])
    {
      queue := [];
    }

    method Append(data: seq<byte>)
      modifies this
      ensures Value() ==
        (if data == [] || |old(queue)| + |data| >= QUEUE_LIMIT then old(Value())
         else old(Value()).(queue := old(queue) + data))
    {
      if data == [] {
        return;
      }
      if |queue| + |data| >= QUEUE_LIMIT {
        return;
      }
      queue := queue + data;
    }

    method RemoveDataFromQueue(len: nat)
      modifies this
      ensures Value() == TakenOff(old(Value()), len)
    {
      var n := len;
      if n > |queue| {
        n := |queue|;
      }
      removed := removed + queue[..n];
      queue := queue[n..];
    }

    /** Takes a frame of the given mode off the head of the queue without removing it. */
    method NextFrame(current: byte) returns (f: Frame)
      modifies this
      ensures f == NextDataFrame(old(queue), current, old(lastAcked))
      ensures Value() == old(Value()).(inProcess := Min(BlockCount(current) * BlockLen(current), |old(queue)|),
                                       sentData := true, lastSent := f.ftype, record := f)
    {
      var len := BlockCount(current) * BlockLen(current);
      if len >= |queue| {
        len := |queue|;
      }
      f := Frame(NextType(current, lastAcked), Split(queue[..len], BlockCount(current), BlockLen(current)));
      inProcess := len;
      sentData := true;
      lastSent := f.ftype;
      record := f;
    }
  }

  /** What has been passed to the host, and the memory ARQ store in two fixed buffers. */
  class ReceiverBox {
    var lastToHost: int
    var lastACKed: byte
    var lastType: int
    const carrierOk: array<bool>
    const frameData: array<seq<byte>>
    ghost var delivered: seq<byte>

    constructor ()
      ensures Valid() && fresh(Repr())
      ensures lastToHost == -1 && lastACKed == 0 && lastType == -1 && delivered == []
      ensures forall c :: 0 <= c < CARRIERS ==> !carrierOk[c]
    {
      lastToHost, lastACKed, lastType, delivered := -1, 0, -1, [];
      carrierOk := new bool[CARRIERS](_ => false);
      frameData := new seq<byte>[CARRIERS](_ => []);
    }

    ghost predicate Valid() { carrierOk.Length == CARRIERS && frameData.Length == CARRIERS }

    ghost function Repr(): set<object> { {this, carrierOk, frameData} }

    ghost function Value(): Receiver
      reads this, carrierOk, frameData
    {
      Receiver(lastToHost, lastACKed, lastType, carrierOk[..], frameData[..], delivered)
    }

    method ClearCarriers(newType: int)
      requires Valid()
      modifies this, carrierOk
      ensures Value() == old(Value()).(carrierOk := NoCarriers(), lastType := newType)
    {
      for i := 0 to CARRIERS
        invariant forall k :: 0 <= k < i ==> !carrierOk[k]
        modifies carrierOk
      {
        carrierOk[i] := false;
      }
      assert carrierOk[..] == NoCarriers();
      lastType := newType;
    }

    method StartAfresh(newType: int)
      requires Valid()
      modifies this, carrierOk
      ensures Value() == FreshReceiver(old(Value()), newType)
    {
      lastToHost := -1;
      ClearCarriers(newType);
    }

    method NewFrameType(t: byte)
      requires Valid()
      modifies this, carrierOk
      ensures Value() == NewCollection(old(Value()), t)
    {
      if lastType != t {
        ClearCarriers(t);
      }
    }

    /** Reads the blocks not yet held from the air, one carrier at a time. */
    method Demodulate(f: Frame, rx: Rx)
      requires Valid()
      modifies carrierOk, frameData
      ensures Value() == Demodulated(old(Value()), f, rx)
    {
      var n := BlockCount(f.ftype);
      for c := 0 to CARRIERS
        invariant forall k :: c <= k < CARRIERS ==> carrierOk[k] == old(carrierOk[k]) && frameData[k] == old(frameData[k])
        invariant forall k :: 0 <= k < c ==> carrierOk[k] == (old(carrierOk[k]) || (k < n && GoodAt(rx, k)))
        invariant forall k :: 0 <= k < c ==>
          frameData[k] == if old(carrierOk[k]) || k >= n then old(frameData[k])
                          else if GoodAt(rx, k) then BlockAt(f.blocks, k) else BlockAt(rx.noise, k)
      {
        if c < n && !carrierOk[c] {
          if GoodAt(rx, c) {
            frameData[c] := BlockAt(f.blocks, c);
            carrierOk[c] := true;
          } else {
            frameData[c] := BlockAt(rx.noise, c);
          }
        }
      }
      ghost var r := old(Value());
      assert carrierOk[..] == Demodulated(r, f, rx).carrierOk;
      assert frameData[..] == Demodulated(r, f, rx).frameData;
    }

    /** True when every one of the first n carriers has been decoded. */
    method CheckCarriers(n: nat) returns (ok: bool)
      requires Valid()
      ensures ok == AllHeld(Value(), n)
    {
      ok := true;
      var c := 0;
      while c < n
        invariant 0 <= c <= n
        invariant ok == AllHeld(Value(), c)
      {
        if c >= CARRIERS || !carrierOk[c] {
          assert !HeldAt(Value(), c);
          ok := false;
        } else {
          assert HeldAt(Value(), c);
        }
        c := c + 1;
      }
    }

    /** Moves the counted contents up, in carrier order. */
    method Collect(n: nat) returns (data: seq<byte>)
      requires Valid()
      ensures data == Collected(Value(), n)
    {
      data := [];
      var m := if n <= CARRIERS then n else CARRIERS;
      for c := 0 to m
        invariant data == Join(frameData[..c])
      {
        JoinLast(frameData[..c], frameData[c]);
        assert frameData[..c + 1] == frameData[..c] + [frameData[c]];
        data := data + frameData[c];
      }
      assert n > |frameData[..]| ==> frameData[..m] == frameData[..];
      assert n <= |frameData[..]| ==> frameData[..][..n] == frameData[..m];
    }

    ghost method Pass(data: seq<byte>)
      modifies this
      ensures Value() == old(Value()).(delivered := old(delivered) + data)
    {
      delivered := delivered + data;
    }
  }

  datatype Repeating = Repeating(repeat: bool, discRepeating: bool, repeatCount: int)
  datatype Commands = Commands(disconnect: bool, breakCmd: bool, abort: bool)
  datatype Timers = Timers(timeoutTrip: int, timeoutTriggered: bool, sendTimeout: int, pendingTimeout: int)

  lemma AskIgnoresRepeat(s: Station, b: bool)
    ensures AskForLink(s.(repeat := b)) == AskForLink(s)
  {
  }

  /** The station: its state variables, its timers, and the boxes above. */
  class Arq {
    const cfg: Settings
    var protocol: Protocol
    var substate: Substate
    const out: SenderBox
    const inn: ReceiverBox
    const gear: GearBox
    var bw: int
    var encoded: Frame
    var rep: Repeating
    var host: Commands
    var timer: Timers

    /** A disconnected station that has exchanged nothing yet. */
    constructor (cfg: Settings)
      ensures Valid() && fresh(Repr())
      ensures State().protocol == DISC && State().out.removed == [] && State().inn.delivered == []
      ensures HistoryOk(State().gear) && |State().inn.frameData| == CARRIERS
    {
      this.cfg := cfg;
      protocol, substate := DISC, NoSubstate;
      out := new SenderBox();
      inn := new ReceiverBox();
      gear := new GearBox();
      bw, encoded := 0, Control(0);
      rep, host, timer := Repeating(false, false, 0), Commands(false, false, false), Timers(0, false, 0, 0);
    }

    ghost predicate Valid() { inn.Valid() && gear.Valid() && inn.carrierOk != gear.tried }

    ghost function Repr(): set<object> { {this, out} + inn.Repr() + gear.Repr() }

    ghost function State(): Station
      reads this, out, inn, inn.carrierOk, inn.frameData, gear, gear.worked, gear.tried
    {
      Station(cfg, protocol, substate, out.Value(), inn.Value(), gear.Value(), bw,
              encoded, rep.repeat, rep.discRepeating, rep.repeatCount, host.disconnect, host.breakCmd, host.abort,
              timer.timeoutTrip, timer.timeoutTriggered, timer.sendTimeout, timer.pendingTimeout)
    }

    // ---------- shared pieces ----------

    method ClearDataToSend()
      requires Valid()
      modifies out
      ensures State() == ClearQueue(old(State()))
    {
      out.Clear();
    }

    method SetProtocolState(value: Protocol)
      requires Valid()
      modifies this, out, inn
      ensures State() == SetState(old(State()), value)
    {
      if protocol == value {
        return;
      }
      protocol := value;
      match value
      case DISC =>
        host := host.(disconnect := false);
        out.Clear();
      case ISS =>
        rep := rep.(repeat := false);
      case IDLE =>
        rep := rep.(repeat := false);
      case IRS =>
        inn.lastACKed := 0;
      case IRStoISS =>
        inn.lastACKed := 0;
    }

    method InitializeConnection()
      requires Valid()
      modifies this, inn, gear.worked, gear.tried
      ensures State() == InitConnection(old(State()))
    {
      inn.lastACKed := 0;
      bw := 0;
      gear.ClearHistory();
    }

    method Send(f: Frame) returns (tx: Option<Frame>)
      requires Valid()
      modifies this
      ensures Outcome(State(), tx) == Transmit(old(State()), f)
    {
      encoded := f;
      tx := Some(f);
    }

    method BeginDisconnect() returns (tx: Option<Frame>)
      requires Valid()
      modifies this
      ensures Outcome(State(), tx) == StartDisconnect(old(State()))
    {
      rep := rep.(repeatCount := 1);
      host := host.(disconnect := false);
      rep := rep.(discRepeating := true);
      rep := rep.(repeat := false);
      tx := Send(Control(DISCFRAME));
    }

    /** Nothing left to send: offer the link. */
    method SendIdle(now: int) returns (tx: Option<Frame>)
      requires Valid()
      modifies this, out, inn
      ensures Outcome(State(), tx) == StartIdling(old(State()), now)
    {
      hide SetState;
      SetProtocolState(IDLE);
      rep := rep.(repeat := true);
      timer := timer.(timeoutTrip := now);
      out.sentData := false;
      ClearDataToSend();
      tx := Send(Control(IDLEFRAME));
    }

    method SendData(now: int) returns (tx: Option<Frame>)
      requires Valid()
      modifies this, out, inn, inn.carrierOk, inn.frameData, gear, gear.worked, gear.tried
      ensures Outcome(State(), tx) == ArqStation.SendData(old(State()), now)
    {
      if rep.discRepeating || protocol != ISS {
        return None;
      }
      if host.disconnect {
        tx := BeginDisconnect();
        return;
      }
      if |out.queue| > 0 {
        gear.ApplyShift();
        var f := out.NextFrame(gear.current);
        timer := timer.(timeoutTrip := now);
        rep := rep.(repeat := true);
        substate := ISSData;
        tx := Send(f);
      } else {
        tx := SendIdle(now);
      }
    }

    method StopRepeating(now: int)
      requires Valid()
      modifies this
      ensures State() == old(State()).(repeat := false, timeoutTrip := now)
    {
      rep := rep.(repeat := false);
      timer := timer.(timeoutTrip := now);
    }

    method ListenAfresh(newType: int) returns (tx: Option<Frame>)
      requires Valid()
      modifies this, inn, inn.carrierOk
      ensures Outcome(State(), tx) == ListenAgain(old(State()), newType)
    {
      hide FreshReceiver, AckFrame;
      substate := IRSfromISS;
      inn.StartAfresh(newType);
      tx := Send(AckFrame(100));
    }

    method Yield(now: int, newType: int) returns (tx: Option<Frame>)
      requires Valid()
      modifies this, out, inn, inn.carrierOk
      ensures Outcome(State(), tx) == YieldLink(old(State()), now, newType)
    {
      hide State, SetState, FreshReceiver, AckFrame;
      StopRepeating(now);
      SetProtocolState(IRS);
      tx := ListenAfresh(newType);
    }

    method Ask() returns (tx: Option<Frame>)
      requires Valid()
      modifies this, out, inn
      ensures Outcome(State(), tx) == AskForLink(old(State()))
    {
      hide SetState;
      SetProtocolState(IRStoISS);
      rep := rep.(repeat := true);
      tx := Send(Control(BREAK));
    }

    method Close()
      requires Valid()
      modifies this, out, inn, gear.worked, gear.tried
      ensures State() == CloseSession(old(State()))
    {
      hide SetState, ClearQueue, InitConnection;
      rep := rep.(discRepeating := false);
      ClearDataToSend();
      SetProtocolState(DISC);
      InitializeConnection();
      rep := rep.(repeat := false);
    }

    /** The timers and flags of a station that has just accepted a call. */
    method AwaitCaller(now: int, reply: Negotiation) returns (tx: Option<Frame>)
      requires Valid()
      modifies this, inn, inn.carrierOk, gear
      ensures Outcome(State(), tx) == Answering(old(State()), now, reply)
    {
      hide FreshReceiver;
      substate := IRSConAck;
      timer := timer.(pendingTimeout := now + 10000, timeoutTrip := now);
      rep := rep.(repeat := false);
      inn.StartAfresh(-1);
      gear.avg := 0;
      tx := Send(Control(reply));
    }

    method Accept(now: int, reply: Negotiation) returns (tx: Option<Frame>)
      requires Valid()
      modifies this, out, inn, inn.carrierOk, inn.frameData, gear, gear.worked, gear.tried
      ensures Outcome(State(), tx) == AcceptCall(old(State()), now, reply)
    {
      hide State, SetState, ClearQueue, InitConnection, FreshReceiver;
      InitializeConnection();
      SetProtocolState(IRS);
      ClearDataToSend();
      tx := AwaitCaller(now, reply);
    }

    // ---------- received frames, by protocol state ----------

    method RcvDISC(now: int, t: byte, ok: bool, rx: Rx) returns (tx: Option<Frame>)
      requires Valid()
      modifies this, out, inn, inn.carrierOk, inn.frameData, gear, gear.worked, gear.tried
      ensures Outcome(State(), tx) == ReceiveDISC(old(State()), now, t, ok, rx)
    {
      if ok && t == DISCFRAME {
        rep := rep.(repeat := false);
        tx := Send(Control(END));
        return;
      }
      if !ok || !IsConReq(t) {
        return None;
      }
      if rx.reply != CONREJBW {
        tx := Accept(now, rx.reply);
        return;
      }
      rep := rep.(repeat := false);
      tx := Send(Control(CONREJBW));
    }

    /** The caller missed the ConAck and asks again. */
    method AcceptAgain(now: int, reply: Negotiation) returns (tx: Option<Frame>)
      requires Valid()
      modifies this, out, inn, inn.carrierOk, inn.frameData, gear, gear.worked, gear.tried
      ensures var o := AcceptCall(old(State()), now, reply);
              Outcome(State(), tx) == o.(s := o.s.(repeat := old(State()).repeat))
    {
      hide AcceptCall;
      var r := rep.repeat;
      tx := Accept(now, reply);
      rep := rep.(repeat := r);
    }

    /** The ConAck came back: the connection stands, ready for data. */
    method Connected(now: int, t: byte, quality: Quality) returns (tx: Option<Frame>)
      requires Valid()
      modifies this, inn, gear
      ensures Outcome(State(), tx) == ArqStation.Connected(old(State()), now, t, quality)
    {
      hide Initialised, Bandwidth, AckFrame;
      bw := Bandwidth(t);
      timer := timer.(pendingTimeout := 0, timeoutTrip := now);
      substate := IRSData;
      inn.lastToHost := -1;
      gear.naks := 0;
      rep := rep.(repeat := false);
      tx := Send(AckFrame(quality));
      gear.InitializeModes(cfg.gears, bw);
    }

    method RcvIRSConAck(now: int, t: byte, ok: bool, rx: Rx) returns (tx: Option<Frame>)
      requires Valid()
      modifies this, out, inn, inn.carrierOk, inn.frameData, gear, gear.worked, gear.tried
      ensures Outcome(State(), tx) == ReceiveIRSConAck(old(State()), now, t, ok, rx)
    {
      hide State, AcceptCall, Initialised, Bandwidth, AckFrame;
      if !ok {
        return None;
      }
      if IsConReq(t) {
        if rx.reply == CONREJBW {
          tx := Send(Control(CONREJBW));
        } else {
          tx := AcceptAgain(now, rx.reply);
        }
        return;
      }
      if IsConAck(t) {
        tx := Connected(now, t, rx.quality);
        return;
      }
      tx := None;
    }

    /** Passes the data on unless its frame type is that of the last frame passed. */
    method PassNew(now: int, t: byte, data: seq<byte>)
      requires Valid()
      modifies this, inn
      ensures State() == PassedOn(old(State()), now, t, data)
    {
      if t != inn.lastToHost {
        inn.Pass(data);
        inn.lastToHost := t;
        timer := timer.(timeoutTrip := now);
      }
    }

    method AckData(t: byte, quality: Quality) returns (tx: Option<Frame>)
      requires Valid()
      modifies this, inn
      ensures Outcome(State(), tx) == ArqStation.AckData(old(State()), t, quality)
    {
      hide AckFrame;
      substate := IRSData;
      rep := rep.(repeat := false);
      tx := Send(AckFrame(quality));
      inn.lastACKed := t;
    }

    method BreakIn(now: int) returns (tx: Option<Frame>)
      requires Valid()
      modifies this, out, inn
      ensures Outcome(State(), tx) == AskForLink(old(State()).(timeoutTrip := now, breakCmd := false))
    {
      hide AskForLink;
      timer := timer.(timeoutTrip := now);
      host := host.(breakCmd := false);
      tx := Ask();
    }

    method RcvGoodData(now: int, t: byte, data: seq<byte>, rx: Rx) returns (tx: Option<Frame>)
      requires Valid()
      modifies this, out, inn, inn.carrierOk, inn.frameData, gear, gear.worked, gear.tried
      ensures Outcome(State(), tx) == ReceiveGoodData(old(State()), now, t, data, rx)
    {
      hide AskForLink, AckFrame;
      if substate == IRSData && host.breakCmd && t != inn.lastACKed {
        tx := BreakIn(now);
        return;
      }
      hide State;
      PassNew(now, t, data);
      tx := AckData(t, rx.quality);
    }

    method RcvIdleFrame(now: int) returns (tx: Option<Frame>)
      requires Valid()
      modifies this, out, inn, inn.carrierOk, inn.frameData, gear, gear.worked, gear.tried
      ensures Outcome(State(), tx) == HearIdleFrame(old(State()), now)
    {
      hide AskForLink, StartDisconnect, AckFrame;
      rep := rep.(repeat := false);
      if host.disconnect {
        tx := BeginDisconnect();
        return;
      }
      if (cfg.autoBreak && |out.queue| > 0) || host.breakCmd {
        AskIgnoresRepeat(old(State()), false);
        tx := Ask();
        return;
      }
      timer := timer.(timeoutTrip := now);
      tx := Send(AckFrame(100));
    }

    /** DISC, END, BREAK or IDLE from the sending station. */
    method RcvFromSender(now: int, t: byte, ghost data: seq<byte>, rx: Rx) returns (tx: Option<Frame>)
      requires Valid() && (t == DISCFRAME || t == END || t == BREAK || t == IDLEFRAME)
      modifies this, out, inn, inn.carrierOk, inn.frameData, gear, gear.worked, gear.tried
      ensures Outcome(State(), tx) == ReceiveIRSData(old(State()), now, t, data, true, rx)
    {
      hide CloseSession, ReceiveGoodData, AskForLink, StartDisconnect, AckFrame;
      if t == IDLEFRAME {
        tx := RcvIdleFrame(now);
        return;
      }
      if t == BREAK {
        rep := rep.(repeat := false);
        tx := Send(AckFrame(100));
        timer := timer.(timeoutTrip := now);
        return;
      }
      Close();
      if t == END {
        return None;
      }
      tx := Send(Control(END));
    }

    method RcvIRSData(now: int, t: byte, data: seq<byte>, ok: bool, rx: Rx) returns (tx: Option<Frame>)
      requires Valid()
      modifies this, out, inn, inn.carrierOk, inn.frameData, gear, gear.worked, gear.tried
      ensures Outcome(State(), tx) == ReceiveIRSData(old(State()), now, t, data, ok, rx)
    {
      hide CloseSession, ReceiveGoodData, AckFrame, NakFrame, Bandwidth;
      if IsConAck(t) {
        bw := Bandwidth(t);
        timer := timer.(timeoutTrip := now);
        tx := Send(AckFrame(rx.quality));
        return;
      }
      if ok && (t == DISCFRAME || t == END || t == BREAK || t == IDLEFRAME) {
        tx := RcvFromSender(now, t, data, rx);
        return;
      }
      if ok && IsData(t) {
        tx := RcvGoodData(now, t, data, rx);
        return;
      }
      if !ok && t == inn.lastACKed {
        tx := Send(AckFrame(rx.quality));
        rep := rep.(repeat := false);
        return;
      }
      if !ok && IsData(t) {
        substate := IRSData;
        tx := Send(NakFrame(rx.quality));
        rep := rep.(repeat := false);
        return;
      }
      tx := None;
    }

    /** The session ends while idle: the connection data is not forgotten here. */
    method EndInIDLE()
      requires Valid()
      modifies this, out, inn
      ensures State() == EndIdling(old(State()))
    {
      hide SetState, ClearQueue;
      rep := rep.(discRepeating := false);
      ClearDataToSend();
      SetProtocolState(DISC);
      rep := rep.(repeat := false);
    }

    method RcvIDLE(now: int, t: byte, ok: bool) returns (tx: Option<Frame>)
      requires Valid()
      modifies this, out, inn, inn.carrierOk, inn.frameData, gear, gear.worked, gear.tried
      ensures Outcome(State(), tx) == ReceiveIDLE(old(State()), now, t, ok)
    {
      hide SetState, ClearQueue, YieldLink, ArqStation.SendData;
      if !ok {
        return None;
      }
      if IsAck(t) && |out.queue| > 0 {
        BecomeISS();
        tx := SendData(now);
        return;
      }
      if t == BREAK {
        tx := Yield(now, -1);
        return;
      }
      if t == DISCFRAME {
        EndInIDLE();
        tx := Send(Control(END));
        return;
      }
      if t == END {
        EndInIDLE();
        return None;
      }
      tx := None;
    }

    method RcvISSConReq(t: byte, ok: bool) returns (tx: Option<Frame>)
      requires Valid()
      modifies this, out, inn, inn.carrierOk, inn.frameData, gear, gear.worked, gear.tried
      ensures Outcome(State(), tx) == ReceiveISSConReq(old(State()), t, ok)
    {
      tx := None;
      if !ok {
        return;
      }
      if IsConAck(t) {
        bw := Bandwidth(t);
        gear.InitializeModes(cfg.gears, bw);
        rep := rep.(repeat := true);
        substate := ISSConAck;
        tx := Send(Control(t));
        return;
      }
      if t == CONREJBUSY || t == CONREJBW {
        host := host.(abort := true);
      }
    }

    /** The connection stands on the calling side: data frames alternate from here. */
    method FirstAck()
      requires Valid()
      modifies this, out, gear
      ensures State() == FirstAcked(old(State()))
    {
      gear.avg := 0;
      rep := rep.(repeat := false);
      out.lastAcked := 1;
      substate := ISSData;
      gear.naks := 0;
    }

    method RcvISSConAck(now: int, t: byte, ok: bool) returns (tx: Option<Frame>)
      requires Valid()
      modifies this, out, inn, inn.carrierOk, inn.frameData, gear, gear.worked, gear.tried
      ensures Outcome(State(), tx) == ReceiveISSConAck(old(State()), now, t, ok)
    {
      hide SetState, InitConnection, ClearQueue, YieldLink, ArqStation.SendData;
      if (ok && IsAck(t)) || t == BREAK {
        var empty := |out.queue| == 0;
        hide State;
        FirstAck();
        if t == BREAK && empty {
          ClearDataToSend();
          tx := Yield(now, t);
          return;
        }
        tx := SendData(now);
        return;
      }
      tx := None;
      if ok && (t == CONREJBUSY || t == CONREJBW) {
        SetProtocolState(DISC);
        InitializeConnection();
      }
    }

    /** An ACK for the frame in process. */
    method AckFrameInProcess(level: int)
      requires Valid()
      modifies this, out, inn, inn.carrierOk, inn.frameData, gear, gear.worked, gear.tried
      ensures State() == Acknowledged(old(State()), level)
    {
      hide TakenOff, Reported;
      gear.acks := gear.acks + 1;
      out.lastAcked := out.lastSent;
      if out.inProcess != 0 {
        out.RemoveDataFromQueue(out.inProcess);
        out.inProcess := 0;
      }
      gear.ReportQuality(level, |out.queue|);
    }

    method RcvAck(now: int, t: byte) returns (tx: Option<Frame>)
      requires Valid() && IsAck(t) && !host.disconnect
      modifies this, out, inn, inn.carrierOk, inn.frameData, gear, gear.worked, gear.tried
      ensures Outcome(State(), tx) == ReceiveISSData(old(State()), now, t, true)
    {
      hide TakenOff, Reported, ArqStation.SendData;
      timer := timer.(timeoutTrip := now);
      if out.sentData {
        AckFrameInProcess(t - 0xE0);
      }
      gear.naks := 0;
      rep := rep.(repeat := false);
      tx := SendData(now);
    }

    method CountNak(t: byte)
      requires Valid()
      modifies gear, gear.worked, gear.tried
      ensures var s := old(State());
              State() == s.(gear := Reported(s.gear.(naks := s.gear.naks + 1), t, |s.out.queue|))
    {
      hide Reported;
      gear.naks := gear.naks + 1;
      gear.ReportQuality(t, |out.queue|);
    }

    /** The mode has changed: the data is sliced anew and sent. */
    method SendShifted(now: int) returns (tx: Option<Frame>)
      requires Valid()
      modifies this, out, inn, inn.carrierOk, inn.frameData, gear, gear.worked, gear.tried
      ensures var s := old(State());
              var o := ArqStation.SendData(s.(gear := s.gear.(naks := 0), timeoutTrip := now), now);
              Outcome(State(), tx) == o.(s := o.s.(gear := o.s.gear.(acks := 0)))
    {
      hide ArqStation.SendData;
      timer := timer.(timeoutTrip := now);
      gear.naks := 0;
      tx := SendData(now);
      gear.acks := 0;
    }

    method RcvNak(now: int, t: byte) returns (tx: Option<Frame>)
      requires Valid() && IsNak(t) && !host.disconnect
      modifies this, out, inn, inn.carrierOk, inn.frameData, gear, gear.worked, gear.tried
      ensures Outcome(State(), tx) == ReceiveISSData(old(State()), now, t, true)
    {
      hide Reported, ArqStation.SendData;
      tx := None;
      if !out.sentData {
        return;
      }
      CountNak(t);
      if gear.shift != 0 {
        tx := SendShifted(now);
        return;
      }
      gear.acks := 0;
    }

    method RcvISSData(now: int, t: byte, ok: bool) returns (tx: Option<Frame>)
      requires Valid()
      modifies this, out, inn, inn.carrierOk, inn.frameData, gear, gear.worked, gear.tried
      ensures Outcome(State(), tx) == ReceiveISSData(old(State()), now, t, ok)
    {
      hide CloseSession, YieldLink, Acknowledged, Reported, ArqStation.SendData, StartDisconnect;
      if host.disconnect {
        tx := BeginDisconnect();
        return;
      }
      if !ok {
        return None;
      }
      if IsAck(t) {
        tx := RcvAck(now, t);
        return;
      }
      if t == BREAK {
        gear.naks := 0;
        ClearDataToSend();
        tx := Yield(now, t);
        return;
      }
      if IsNak(t) {
        tx := RcvNak(now, t);
        return;
      }
      if t == DISCFRAME {
        Close();
        tx := Send(Control(END));
        return;
      }
      tx := None;
      if t == END {
        var r := rep.repeat;
        Close();
        rep := rep.(repeat := r);
      }
    }

    method RcvISS(now: int, t: byte, ok: bool) returns (tx: Option<Frame>)
      requires Valid()
      modifies this, out, inn, inn.carrierOk, inn.frameData, gear, gear.worked, gear.tried
      ensures Outcome(State(), tx) == ReceiveISS(old(State()), now, t, ok)
    {
      if substate == ISSConReq {
        tx := RcvISSConReq(t, ok);
        return;
      }
      if substate == ISSConAck {
        tx := RcvISSConAck(now, t, ok);
        return;
      }
      if substate == ISSData {
        tx := RcvISSData(now, t, ok);
        return;
      }
      tx := None;
    }

    method ProcessRcvdARQFrame(now: int, t: byte, data: seq<byte>, ok: bool, rx: Rx) returns (tx: Option<Frame>)
      requires Valid()
      modifies this, out, inn, inn.carrierOk, inn.frameData, gear, gear.worked, gear.tried
      ensures Outcome(State(), tx) == ProcessFrame(old(State()), now, t, data, ok, rx)
    {
      match protocol
      case DISC =>
        tx := RcvDISC(now, t, ok, rx);
        return;
      case IRS =>
        if substate == IRSConAck {
          tx := RcvIRSConAck(now, t, ok, rx);
          return;
        }
        if substate == IRSData || substate == IRSfromISS {
          tx := RcvIRSData(now, t, data, ok, rx);
          return;
        }
        tx := RcvISS(now, t, ok);
        return;
      case IRStoISS =>
        return None;
      case IDLE =>
        tx := RcvIDLE(now, t, ok);
        return;
      case ISS =>
        tx := RcvISS(now, t, ok);
        return;
    }

    // ---------- frames from the demodulator ----------

    method PrepareToTake()
      requires Valid()
      modifies this, inn, gear
      ensures State() == ReadyToTake(old(State()))
    {
      hide Initialised;
      rep := rep.(repeat := false);
      inn.lastToHost := -1;
      if gear.current == 0 {
        gear.InitializeModes(cfg.gears, bw);
      }
    }

    /** Becomes the sender, with data to send next. */
    method BecomeISS()
      requires Valid()
      modifies this, out, inn
      ensures State() == SetState(old(State()), ISS).(substate := ISSData)
    {
      hide SetState;
      SetProtocolState(ISS);
      substate := ISSData;
    }

    /** The peer has yielded: become the sender. */
    method Take(now: int) returns (tx: Option<Frame>)
      requires Valid()
      modifies this, out, inn, inn.carrierOk, inn.frameData, gear, gear.worked, gear.tried
      ensures Outcome(State(), tx) == TakeLink(old(State()), now)
    {
      hide State, SetState, ArqStation.SendData, Initialised;
      PrepareToTake();
      BecomeISS();
      tx := SendData(now);
    }

    /** Whether a long frame of type t is answered by a BREAK, and whether it is left undecoded. */
    method AnsweredByType(t: byte) returns (breaksIn: bool, skips: bool)
      requires Valid()
      ensures breaksIn == BreaksIn(State(), t) && skips == SkipsDecode(State(), t)
    {
      breaksIn := host.breakCmd && protocol == IRS && substate == IRSData && t != inn.lastACKed;
      skips := breaksIn || (protocol == IRStoISS && IsData(t));
    }

    /** Keeps what can be read of a long frame; a data frame answered by its type alone is
        still demodulated, but an FSK one is not decoded. */
    method Store(f: Frame, rx: Rx, decode: bool)
      requires Valid()
      modifies inn, inn.carrierOk, inn.frameData
      ensures State() == old(State()).(inn :=
                if decode then Demodulated(NewCollection(old(State()).inn, f.ftype), f, rx)
                else NewCollection(old(State()).inn, f.ftype))
    {
      hide Demodulated, NewCollection;
      inn.NewFrameType(f.ftype);
      if decode {
        inn.Demodulate(f, rx);
      }
    }

    method DecodeAndProcess(now: int, f: Frame, rx: Rx) returns (tx: Option<Frame>)
      requires Valid()
      modifies this, out, inn, inn.carrierOk, inn.frameData, gear, gear.worked, gear.tried
      ensures var n := BlockCount(f.ftype);
              var ok := if IsData(f.ftype) then AllHeld(old(State()).inn, n) else rx.intact;
              Outcome(State(), tx) == ProcessFrame(old(State()), now, f.ftype, Collected(old(State()).inn, n), ok, rx)
    {
      hide ProcessFrame, AllHeld, Collected;
      var n := BlockCount(f.ftype);
      var ok := rx.intact;
      if IsData(f.ftype) {
        ok := inn.CheckCarriers(n);
      }
      var data := inn.Collect(n);
      tx := ProcessRcvdARQFrame(now, f.ftype, data, ok, rx);
    }

    method Answer(breaksIn: bool, now: int, f: Frame, rx: Rx) returns (tx: Option<Frame>)
      requires Valid()
      modifies this, out, inn, inn.carrierOk, inn.frameData, gear, gear.worked, gear.tried
      ensures Outcome(State(), tx) == AnswerLong(old(State()), breaksIn, now, f, rx)
    {
      hide ProcessFrame, AskForLink, AllHeld, Collected, IsData, BlockCount;
      if breaksIn {
        host := host.(breakCmd := false);
        tx := Ask();
        return;
      }
      if protocol == IRStoISS && IsData(f.ftype) {
        rep := rep.(repeat := true);
        tx := Send(Control(BREAK));
        return;
      }
      if timer.timeoutTriggered {
        return None;
      }
      tx := DecodeAndProcess(now, f, rx);
    }

    method RcvLong(now: int, f: Frame, rx: Rx) returns (tx: Option<Frame>)
      requires Valid()
      modifies this, out, inn, inn.carrierOk, inn.frameData, gear, gear.worked, gear.tried
      ensures Outcome(State(), tx) == HearLong(old(State()), now, f, rx)
    {
      hide State, Demodulated, NewCollection, AnswerLong, BreaksIn, SkipsDecode, IsData, IsFsk;
      var breaksIn, skips := AnsweredByType(f.ftype);
      Store(f, rx, IsData(f.ftype) && !(IsFsk(f.ftype) && skips));
      tx := Answer(breaksIn, now, f, rx);
    }

    method ProcessNewFrame(now: int, f: Frame, rx: Rx) returns (tx: Option<Frame>)
      requires Valid()
      modifies this, out, inn, inn.carrierOk, inn.frameData, gear, gear.worked, gear.tried
      ensures Outcome(State(), tx) == Hear(old(State()), now, f, rx)
    {
      hide HearLong, TakeLink, ProcessFrame;
      if !IsShortControl(f.ftype) {
        tx := RcvLong(now, f, rx);
        return;
      }
      if protocol == IRStoISS && IsAck(f.ftype) {
        tx := Take(now);
        return;
      }
      if timer.timeoutTriggered {
        return None;
      }
      tx := ProcessRcvdARQFrame(now, f.ftype, [], true, rx);
    }

    // ---------- polling ----------

    method EndByAbort()
      requires Valid()
      modifies this, out, inn, gear.worked, gear.tried
      ensures State() == InitConnection(SetState(ClearQueue(old(State())), DISC)).(abort := false, repeat := false, discRepeating := false, repeatCount := 0)
    {
      hide SetState, ClearQueue, InitConnection;
      ClearDataToSend();
      SetProtocolState(DISC);
      InitializeConnection();
      host := host.(abort := false);
      rep := rep.(repeat := false, discRepeating := false, repeatCount := 0);
    }

    /** The peer never answered: back to DISC with the repeat count cleared. */
    method GiveUp()
      requires Valid()
      modifies this, out, inn, gear.worked, gear.tried
      ensures State() == InitConnection(SetState(ClearQueue(old(State())), DISC).(repeatCount := 0))
    {
      hide SetState, ClearQueue, InitConnection;
      ClearDataToSend();
      SetProtocolState(DISC);
      rep := rep.(repeatCount := 0);
      InitializeConnection();
    }

    method RepeatDisc(now: int) returns (again: bool)
      requires Valid() && !host.abort && rep.discRepeating
      modifies this, out, inn, gear.worked, gear.tried
      ensures NextFrame(State(), again, None) == ArqStation.GetNextARQFrame(old(State()), now)
    {
      hide SetState, ClearQueue, InitConnection;
      rep := rep.(repeatCount := rep.repeatCount + 1);
      rep := rep.(repeat := false);
      if rep.repeatCount > DISC_TRIES {
        rep := rep.(discRepeating := false);
        GiveUp();
        return false;
      }
      encoded := Control(DISCFRAME);
      again := true;
    }

    method RepeatCall(now: int) returns (again: bool)
      requires Valid() && !host.abort && !rep.discRepeating && !host.disconnect
      requires protocol == ISS && (substate == ISSConReq || substate == IRSConAck)
      modifies this, out, inn, gear.worked, gear.tried
      ensures NextFrame(State(), again, None) == ArqStation.GetNextARQFrame(old(State()), now)
    {
      hide SetState, ClearQueue, InitConnection;
      if substate == ISSConReq {
        if rep.repeatCount + 1 > cfg.conReqRepeats {
          GiveUp();
          return false;
        }
        rep := rep.(repeatCount := rep.repeatCount + 1);
        return true;
      }
      if rep.repeatCount + 1 <= cfg.conReqRepeats {
        rep := rep.(repeatCount := rep.repeatCount + 1);
        return true;
      }
      SetProtocolState(DISC);
      substate := DISCArqEnd;
      rep := rep.(repeatCount := 0);
      InitializeConnection();
      again := false;
    }

    method GetNextARQFrame(now: int) returns (again: bool, tx: Option<Frame>)
      requires Valid()
      modifies this, out, inn, gear.worked, gear.tried
      ensures NextFrame(State(), again, tx) == ArqStation.GetNextARQFrame(old(State()), now)
    {
      hide SetState, ClearQueue, InitConnection, StartDisconnect;
      again, tx := false, None;
      if host.abort {
        EndByAbort();
        return;
      }
      if rep.discRepeating {
        again := RepeatDisc(now);
        return;
      }
      if (protocol == ISS || protocol == IDLE) && host.disconnect {
        tx := BeginDisconnect();
        return;
      }
      if protocol == ISS && (substate == ISSConReq || substate == IRSConAck) {
        again := RepeatCall(now);
        return;
      }
      if protocol != DISC && (now - timer.timeoutTrip) / 1000 > cfg.arqTimeout && !timer.timeoutTriggered {
        rep := rep.(repeat := false);
        timer := timer.(timeoutTriggered := true);
        timer := timer.(sendTimeout := now + 1000);
        return;
      }
      if protocol == DISC {
        host := host.(disconnect := false);
        rep := rep.(repeatCount := 0);
        return;
      }
      again := rep.repeat;
    }

    method CheckRepeatTimer(now: int) returns (tx: Option<Frame>)
      requires Valid()
      modifies this, out, inn, gear.worked, gear.tried
      ensures Outcome(State(), tx) == RepeatPoll(old(State()), now)
    {
      hide ArqStation.GetNextARQFrame;
      if !(rep.repeat || rep.discRepeating) {
        return None;
      }
      var again;
      again, tx := GetNextARQFrame(now);
      if again {
        tx := Some(encoded);
      } else {
        rep := rep.(repeat := false);
      }
    }

    method CheckSendTimeout(now: int) returns (tx: Option<Frame>)
      requires Valid()
      modifies this, out, inn, gear.worked, gear.tried
      ensures Outcome(State(), tx) == SendTimeoutPoll(old(State()), now)
    {
      hide SetState, ClearQueue, InitConnection;
      if timer.sendTimeout == 0 || now <= timer.sendTimeout {
        return None;
      }
      timer := timer.(sendTimeout := 0);
      rep := rep.(repeat := false);
      ClearDataToSend();
      tx := Send(Control(DISCFRAME));
      ghost var s1 := Transmit(ClearQueue(old(State()).(sendTimeout := 0, repeat := false)), Control(DISCFRAME)).s;
      assert State() == s1;
      SetProtocolState(DISC);
      InitializeConnection();
      assert State() == InitConnection(SetState(s1, DISC));
      timer := timer.(timeoutTriggered := false);
    }

    method CheckPendingTimeout(now: int) returns (tx: Option<Frame>)
      requires Valid()
      modifies this, out, inn, gear.worked, gear.tried
      ensures Outcome(State(), tx) == PendingPoll(old(State()), now)
    {
      hide InitConnection;
      tx := None;
      if timer.pendingTimeout == 0 || now <= timer.pendingTimeout {
        return;
      }
      timer := timer.(pendingTimeout := 0);
      rep := rep.(repeat := false);
      protocol := DISC;
      InitializeConnection();
    }

    method PollMain(now: int) returns (tx: Option<Frame>)
      requires Valid()
      modifies this, out, inn, gear.worked, gear.tried
      ensures Outcome(State(), tx) == MainPoll(old(State()), now)
    {
      hide ArqStation.GetNextARQFrame;
      if rep.repeat || rep.discRepeating {
        return None;
      }
      var again;
      again, tx := GetNextARQFrame(now);
    }

    // ---------- host commands ----------

    method AddDataToDataToSend(data: seq<byte>)
      requires Valid()
      modifies out
      ensures State() == QueueData(old(State()), data)
    {
      out.Append(data);
    }

    method DisconnectCommand()
      requires Valid()
      modifies this
      ensures State() == HostDisconnect(old(State()))
    {
      if protocol != DISC {
        host := host.(disconnect := true);
      }
    }

    method BreakCommand()
      requires Valid()
      modifies this
      ensures State() == HostBreak(old(State()))
    {
      if protocol == IRS {
        host := host.(breakCmd := true);
      }
    }

    method AbortCommand(now: int) returns (tx: Option<Frame>)
      requires Valid()
      modifies this, out, inn, gear.worked, gear.tried
      ensures Outcome(State(), tx) == HostAbort(old(State()), now)
    {
      hide ArqStation.GetNextARQFrame;
      host := host.(abort := true);
      tx := None;
      if protocol == IDLE || protocol == IRS || protocol == IRStoISS {
        var again;
        again, tx := GetNextARQFrame(now);
      }
    }

    method PrepareCall(now: int)
      requires Valid()
      modifies this, inn, gear.worked, gear.tried
      ensures State() == InitConnection(old(State())).(abort := false, timeoutTrip := now)
    {
      hide InitConnection;
      InitializeConnection();
      host := host.(abort := false);
      timer := timer.(timeoutTrip := now);
    }

    method StartCalling(request: byte) returns (tx: Option<Frame>)
      requires Valid()
      modifies this
      ensures Outcome(State(), tx) == SendRequest(old(State()), request)
    {
      substate := ISSConReq;
      rep := rep.(repeatCount := 1);
      rep := rep.(repeat := true);
      tx := Send(Control(request));
    }

    method SendARQConnectRequest(now: int, request: byte) returns (tx: Option<Frame>)
      requires Valid() && IsConReq(request)
      modifies this, out, inn, gear.worked, gear.tried
      ensures Outcome(State(), tx) == Call(old(State()), now, request)
    {
      hide State, SetState, InitConnection;
      PrepareCall(now);
      SetProtocolState(ISS);
      tx := StartCalling(request);
    }
  }
}
