/** Two station objects and the air between them: the theorems about runs of the link, stated of
    what the objects hold after any sequence of events. */
module ArqPair {
  import opened Frames
  import opened Options
  import opened ArqStation
  import opened ArqLink
  import opened Delivery
  import opened ArqClass

  method PollStation(s: Arq, kind: PollKind, now: int) returns (tx: Option<Frame>)
    requires s.Valid()
    modifies s.Repr()
    ensures Outcome(s.State(), tx) == Poll(old(s.State()), kind, now)
  {
    hide RepeatPoll, SendTimeoutPoll, PendingPoll, MainPoll, HostAbort;
    match kind
    case RepeatTimer => tx := s.CheckRepeatTimer(now);
    case SendTimer => tx := s.CheckSendTimeout(now);
    case PendingTimer => tx := s.CheckPendingTimeout(now);
    case MainLoop => tx := s.PollMain(now);
    case Abort => tx := s.AbortCommand(now);
  }

  method CommandStation(s: Arq, c: HostCommand)
    requires s.Valid()
    modifies s.Repr()
    ensures s.State() == Command(old(s.State()), c)
  {
    match c
    case SendBytes(data) => s.AddDataToDataToSend(data);
    case AskDisconnect => s.DisconnectCommand();
    case AskBreak => s.BreakCommand();
  }

  /** The two stations share no object. */
  ghost predicate Apart(a: Arq, b: Arq) { a.Valid() && b.Valid() && a.Repr() !! b.Repr() }

  /** Station s hears the frame that is on the air for it. */
  method HearFrame(s: Arq, f: Frame, now: int, rx: Rx) returns (tx: Option<Frame>)
    requires s.Valid()
    modifies s.Repr()
    ensures Outcome(s.State(), tx) == Hear(old(s.State()), now, f, rx)
  {
    tx := s.ProcessNewFrame(now, f, rx);
  }

  method PerformEvent(a: Arq, b: Arq, air: Air, e: Event) returns (next: Air)
    requires Apart(a, b)
    modifies a.Repr(), b.Repr()
    ensures Link(a.State(), b.State(), next) == Step(old(Link(a.State(), b.State(), air)), e)
  {
    hide Hear, Poll, Command, Arq.State;
    var tx;
    match e {
      case Lost =>
        return Clear;
      case Heard(now, rx) =>
        match air {
          case Clear =>
            return Clear;
          case ToA(f) =>
            tx := HearFrame(a, f, now, rx);
            return FromA(tx);
          case ToB(f) =>
            tx := HearFrame(b, f, now, rx);
            return FromB(tx);
        }
      case Polled(byA, kind, now) =>
        if byA {
          if air.ToB? {
            return air;
          }
          tx := PollStation(a, kind, now);
          return Replaced(air, FromA(tx));
        }
        if air.ToA? {
          return air;
        }
        tx := PollStation(b, kind, now);
        return Replaced(air, FromB(tx));
      case Commands(toA, c) =>
        if toA { CommandStation(a, c); } else { CommandStation(b, c); }
        return air;
    }
  }

  /** Station a calls station b, and then anything may happen. Whatever it was, the objects are in
      the state of that run of the link, and so: in each direction what was passed on is what was
      acknowledged or one frame more, and nothing left the queue before; at most one of the two is
      sending; and each host has been given a subsequence of what the other offered. */
  method RunCall(a: Arq, b: Arq, now: int, request: byte, events: seq<Event>) returns (air: Air)
    requires Apart(a, b) && Unused(a.State()) && Unused(b.State()) && IsConReq(request)
    modifies a.Repr(), b.Repr()
    ensures var l0 := Started(old(a.State()), old(b.State()), now, request);
            && Link(a.State(), b.State(), air) == Run(l0, events)
            && Subsequence(a.State().inn.delivered, Offered(l0, events, false))
            && Subsequence(b.State().inn.delivered, Offered(l0, events, true))
    ensures DirectionSafe(a.State(), b.State()) && DirectionSafe(b.State(), a.State())
    ensures !(Master(a.State()) && Master(b.State()))
  {
    ghost var s, r := a.State(), b.State();
    ghost var l0 := Started(s, r, now, request);
    air := PlaceCall(a, b, now, request);
    hide Arq.State, Started, Step, DirectionSafe, Master, Subsequence, Offered, Unused, Apart;
    assert events[..0] == [];
    for i := 0 to |events|
      invariant Link(a.State(), b.State(), air) == Run(l0, events[..i])
    {
      assert events[..i + 1][..i] == events[..i];
      air := PerformEvent(a, b, air, events[i]);
    }
    assert events[..|events|] == events;
    DeliveryIsSafe(s, r, now, request, events);
    SingleMaster(s, r, now, request, events);
    CallDeliversWhatWasOffered(s, r, now, request, events);
  }

  method PlaceCall(a: Arq, b: Arq, now: int, request: byte) returns (air: Air)
    requires Apart(a, b) && IsConReq(request)
    modifies a.Repr()
    ensures Link(a.State(), b.State(), air) == Started(old(a.State()), old(b.State()), now, request)
  {
    hide Call, Arq.State;
    var tx := a.SendARQConnectRequest(now, request);
    air := FromA(tx);
  }

  /** Two new stations, as the program starts them, can be given to RunCall. */
  method NewPair(cfgA: Settings, cfgB: Settings) returns (a: Arq, b: Arq)
    ensures Apart(a, b) && fresh(a.Repr()) && fresh(b.Repr())
    ensures Unused(a.State()) && Unused(b.State())
  {
    hide Arq.State;
    a := new Arq(cfgA);
    b := new Arq(cfgB);
  }
}
