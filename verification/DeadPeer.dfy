/** A station whose peer has fallen silent: it gets back to DISC, and on the way sends a
    bounded number of frames (ext/ardop1/ARDOPC.c, CheckTimers and MainPoll). */
module DeadPeer {
  import opened Frames
  import opened Options
  import opened Gear
  import opened ArqStation
  import opened ArqLink

  /** One turn of the main loop: CheckTimers, then MainPoll. A repeat transmitted at time t may
      take until time u; `due` says whether the repeat interval has passed. */
  datatype Turn = Turn(t: nat, u: nat, due: bool)

  function TakeTurn(s: Station, n: Turn): Station
  {
    var s1 := if n.due then RepeatPoll(s, n.t).s else s;
    var s2 := SendTimeoutPoll(s1, n.u).s;
    var s3 := PendingPoll(s2, n.u).s;
    MainPoll(s3, n.u).s
  }

  /** The timeout flag is up exactly while the send timeout is running; repeat counts start at 1. */
  predicate Timed(s: Station)
  {
    && (s.timeoutTriggered <==> s.sendTimeout != 0)
    && (s.discRepeating ==> 1 <= s.repeatCount <= DISC_TRIES)
  }

  predicate Over(s: Station) { s.protocol == DISC && !s.discRepeating }

  /** How many effective turns may still be needed. */
  function Rank(s: Station): nat
  {
    if Over(s) then 0
    else if s.abort then 1
    else if s.discRepeating then (if s.repeatCount <= DISC_TRIES then DISC_TRIES + 1 - s.repeatCount else 1)
    else if (s.protocol == ISS || s.protocol == IDLE) && s.disconnect then DISC_TRIES + 1
    else if s.protocol == ISS && (s.substate == ISSConReq || s.substate == IRSConAck) then
      (if s.repeatCount < s.cfg.conReqRepeats then s.cfg.conReqRepeats - s.repeatCount + 1 else 1)
    else if s.timeoutTriggered then 1
    else 2
  }

  /** The station is aborting, disconnecting or calling: what it counts down waits for no timeout. */
  predicate CountsDown(s: Station)
  {
    || s.abort || s.discRepeating
    || ((s.protocol == ISS || s.protocol == IDLE) && s.disconnect)
    || (s.protocol == ISS && (s.substate == ISSConReq || s.substate == IRSConAck))
  }

  predicate TimedOut(s: Station, now: int) { (now - s.timeoutTrip) / 1000 > s.cfg.arqTimeout }

  /** The turn repeats, and comes late enough for the timeouts the station is waiting for, if any. */
  predicate Effective(s: Station, n: Turn)
  {
    && n.due && n.t <= n.u && Rank(s) > 0
    && (CountsDown(s) || (TimedOut(s, n.t) && (s.sendTimeout != 0 ==> n.u > s.sendTimeout)))
  }

  // ---------- no poll sets the station back ----------

  /** Leaving for DISC and forgetting the connection touch no timer. */
  predicate SameTimers(s: Station, s': Station)
  {
    && s'.cfg == s.cfg && s'.timeoutTrip == s.timeoutTrip && s'.timeoutTriggered == s.timeoutTriggered
    && s'.sendTimeout == s.sendTimeout && s'.discRepeating == s.discRepeating && s'.repeatCount == s.repeatCount
    && s'.abort == s.abort && s'.repeat == s.repeat && s'.encoded == s.encoded
  }

  lemma DiscKeepsTimers(s: Station)
    ensures SameTimers(s, SetState(s, DISC)) && SetState(s, DISC).protocol == DISC
    ensures SetState(s, DISC).disconnect ==> s.disconnect
  {
  }

  lemma InitKeepsTimers(s: Station)
    ensures SameTimers(s, InitConnection(s)) && InitConnection(s).protocol == s.protocol
    ensures InitConnection(s).disconnect == s.disconnect
  {
  }

  lemma NextFrameRanks(s: Station, now: nat)
    requires Timed(s)
    ensures var s' := GetNextARQFrame(s, now).s; Timed(s') && Rank(s') <= Rank(s) && s'.timeoutTrip == s.timeoutTrip
  {
    hide SetState, InitConnection;
    if s.abort {
      DiscKeepsTimers(ClearQueue(s));
      InitKeepsTimers(SetState(ClearQueue(s), DISC));
      return;
    } else if s.discRepeating {
      var s2 := ClearQueue(s.(repeatCount := s.repeatCount + 1, repeat := false, discRepeating := false));
      DiscKeepsTimers(s2);
      InitKeepsTimers(SetState(s2, DISC).(repeatCount := 0));
      return;
    } else if (s.protocol == ISS || s.protocol == IDLE) && s.disconnect {
      return;
    } else if s.protocol == ISS && s.substate == ISSConReq {
      DiscKeepsTimers(ClearQueue(s));
      InitKeepsTimers(SetState(ClearQueue(s), DISC).(repeatCount := 0));
      return;
    } else if s.protocol == ISS && s.substate == IRSConAck {
      DiscKeepsTimers(s);
      InitKeepsTimers(SetState(s, DISC).(substate := DISCArqEnd, repeatCount := 0));
      return;
    }
  }

  lemma NextFrameArms(s: Station, now: nat)
    ensures var s' := GetNextARQFrame(s, now).s; s'.cfg == s.cfg && s'.sendTimeout in {s.sendTimeout, now + 1000}
  {
    hide SetState, InitConnection;
    if s.abort {
      DiscKeepsTimers(ClearQueue(s));
      InitKeepsTimers(SetState(ClearQueue(s), DISC));
      return;
    } else if s.discRepeating {
      var s2 := ClearQueue(s.(repeatCount := s.repeatCount + 1, repeat := false, discRepeating := false));
      DiscKeepsTimers(s2);
      InitKeepsTimers(SetState(s2, DISC).(repeatCount := 0));
      return;
    } else if (s.protocol == ISS || s.protocol == IDLE) && s.disconnect {
      return;
    } else if s.protocol == ISS && s.substate == ISSConReq {
      DiscKeepsTimers(ClearQueue(s));
      InitKeepsTimers(SetState(ClearQueue(s), DISC).(repeatCount := 0));
      return;
    } else if s.protocol == ISS && s.substate == IRSConAck {
      DiscKeepsTimers(s);
      InitKeepsTimers(SetState(s, DISC).(substate := DISCArqEnd, repeatCount := 0));
      return;
    }
  }

  lemma RepeatRanks(s: Station, now: nat)
    requires Timed(s)
    ensures var s' := RepeatPoll(s, now).s; s'.cfg == s.cfg && s'.sendTimeout in {s.sendTimeout, now + 1000}
    ensures var s' := RepeatPoll(s, now).s; Timed(s') && Rank(s') <= Rank(s) && s'.timeoutTrip == s.timeoutTrip
  {
    hide GetNextARQFrame;
    NextFrameRanks(s, now);
    NextFrameArms(s, now);
  }

  lemma SendTimeoutRanks(s: Station, now: nat)
    requires Timed(s)
    ensures var s' := SendTimeoutPoll(s, now).s; s'.cfg == s.cfg && s'.sendTimeout in {s.sendTimeout, 0}
    ensures var s' := SendTimeoutPoll(s, now).s; Timed(s') && Rank(s') <= Rank(s) && s'.timeoutTrip == s.timeoutTrip
    ensures s.sendTimeout != 0 && now > s.sendTimeout && !s.discRepeating ==> Over(SendTimeoutPoll(s, now).s)
  {
  }

  lemma PendingRanks(s: Station, now: nat)
    requires Timed(s)
    ensures var s' := PendingPoll(s, now).s; s'.cfg == s.cfg && s'.sendTimeout in {s.sendTimeout, 0}
    ensures var s' := PendingPoll(s, now).s; Timed(s') && Rank(s') <= Rank(s) && s'.timeoutTrip == s.timeoutTrip
  {
  }

  lemma MainRanks(s: Station, now: nat)
    requires Timed(s)
    ensures var s' := MainPoll(s, now).s; s'.cfg == s.cfg && s'.sendTimeout in {s.sendTimeout, now + 1000}
    ensures var s' := MainPoll(s, now).s; Timed(s') && Rank(s') <= Rank(s) && s'.timeoutTrip == s.timeoutTrip
  {
    hide GetNextARQFrame;
    NextFrameRanks(s, now);
    NextFrameArms(s, now);
  }

  lemma TurnRanks(s: Station, n: Turn)
    requires Timed(s)
    ensures var s' := TakeTurn(s, n); Timed(s') && Rank(s') <= Rank(s) && s'.timeoutTrip == s.timeoutTrip
  {
    hide RepeatPoll, SendTimeoutPoll, PendingPoll, MainPoll, Rank, Timed;
    RepeatRanks(s, n.t);
    var s1 := if n.due then RepeatPoll(s, n.t).s else s;
    SendTimeoutRanks(s1, n.u);
    var s2 := SendTimeoutPoll(s1, n.u).s;
    PendingRanks(s2, n.u);
    MainRanks(PendingPoll(s2, n.u).s, n.u);
  }

  // ---------- an effective turn makes progress ----------

  /** Asking for a frame makes progress unless only the send timeout is awaited. */
  lemma NextFrameProgresses(s: Station, now: nat)
    requires Timed(s) && Rank(s) > 0 && (CountsDown(s) || TimedOut(s, now))
    ensures var s' := GetNextARQFrame(s, now).s;
            Rank(s') < Rank(s) || (s' == s && s.timeoutTriggered && !CountsDown(s))
  {
    hide SetState, InitConnection;
    if s.abort {
      DiscKeepsTimers(ClearQueue(s));
      InitKeepsTimers(SetState(ClearQueue(s), DISC));
      return;
    } else if s.discRepeating {
      var s2 := ClearQueue(s.(repeatCount := s.repeatCount + 1, repeat := false, discRepeating := false));
      DiscKeepsTimers(s2);
      InitKeepsTimers(SetState(s2, DISC).(repeatCount := 0));
      return;
    } else if (s.protocol == ISS || s.protocol == IDLE) && s.disconnect {
      return;
    } else if s.protocol == ISS && s.substate == ISSConReq {
      DiscKeepsTimers(ClearQueue(s));
      InitKeepsTimers(SetState(ClearQueue(s), DISC).(repeatCount := 0));
      return;
    } else if s.protocol == ISS && s.substate == IRSConAck {
      DiscKeepsTimers(s);
      InitKeepsTimers(SetState(s, DISC).(substate := DISCArqEnd, repeatCount := 0));
      return;
    }
  }

  lemma RepeatProgresses(s: Station, now: nat)
    requires Timed(s) && Rank(s) > 0 && (CountsDown(s) || TimedOut(s, now)) && (s.repeat || s.discRepeating)
    ensures var s' := RepeatPoll(s, now).s;
            Rank(s') < Rank(s) || (s'.sendTimeout == s.sendTimeout != 0 && !s'.discRepeating && !CountsDown(s))
  {
    hide GetNextARQFrame;
    NextFrameProgresses(s, now);
  }

  lemma MainProgresses(s: Station, now: nat)
    requires Timed(s) && Rank(s) > 0 && !s.repeat && !s.discRepeating
    requires CountsDown(s) || (TimedOut(s, now) && s.sendTimeout == 0)
    ensures Rank(MainPoll(s, now).s) < Rank(s)
  {
    hide GetNextARQFrame;
    NextFrameProgresses(s, now);
  }

  lemma TimersEndOrWait(s: Station, now: nat)
    requires !s.discRepeating
    ensures var s' := SendTimeoutPoll(s, now).s; s' == s || Over(s')
    ensures var s' := PendingPoll(s, now).s; s' == s || Over(s')
  {
  }

  lemma OverHasRankZero(s: Station)
    ensures Over(s) <==> Rank(s) == 0
  {
  }

  lemma EffectiveTurnProgresses(s: Station, n: Turn)
    requires Timed(s) && Effective(s, n)
    ensures Rank(TakeTurn(s, n)) < Rank(s)
  {
    hide GetNextARQFrame, Rank, Timed, SendTimeoutPoll, PendingPoll, Over, MainPoll, CountsDown, TimedOut;
    var s1 := RepeatPoll(s, n.t).s;
    RepeatRanks(s, n.t);
    SendTimeoutRanks(s1, n.u);
    var s2 := SendTimeoutPoll(s1, n.u).s;
    OverHasRankZero(s2);
    PendingRanks(s2, n.u);
    var s3 := PendingPoll(s2, n.u).s;
    OverHasRankZero(s3);
    MainRanks(s3, n.u);
    if s.repeat || s.discRepeating {
      RepeatProgresses(s, n.t);
    } else {
      if TimedOut(s, n.t) { LateStaysLate(s, n.t, n.u); }
      TimersEndOrWait(s, n.u);
      if s3 == s && !Over(s2) { MainProgresses(s, n.u); }
    }
  }

  lemma LateStaysLate(s: Station, t: nat, u: nat)
    requires t <= u && TimedOut(s, t)
    ensures TimedOut(s, u)
  {
  }

  // ---------- whole silences ----------

  function Turns(s: Station, ns: seq<Turn>): Station
  {
    if ns == [] then s else TakeTurn(Turns(s, ns[..|ns| - 1]), ns[|ns| - 1])
  }

  /** The turns that are effective when they happen. */
  function EffectiveTurns(s: Station, ns: seq<Turn>): nat
  {
    if ns == [] then 0
    else
      var before := ns[..|ns| - 1];
      EffectiveTurns(s, before) + if Effective(Turns(s, before), ns[|ns| - 1]) then 1 else 0
  }

  lemma {:induction false} SilenceRanks(s: Station, ns: seq<Turn>)
    requires Timed(s)
    ensures Timed(Turns(s, ns)) && Turns(s, ns).timeoutTrip == s.timeoutTrip
    ensures Rank(Turns(s, ns)) + EffectiveTurns(s, ns) <= Rank(s)
  {
    if ns == [] {
    } else {
      hide Timed, Rank, Effective, TakeTurn;
      var before := ns[..|ns| - 1];
      SilenceRanks(s, before);
      TurnRanks(Turns(s, before), ns[|ns| - 1]);
      if Effective(Turns(s, before), ns[|ns| - 1]) { EffectiveTurnProgresses(Turns(s, before), ns[|ns| - 1]); }
    }
  }

  lemma RankBound(s: Station)
    ensures Rank(s) <= DISC_TRIES + 1 || (s.protocol == ISS && Rank(s) <= s.cfg.conReqRepeats + 1 - s.repeatCount)
    requires s.discRepeating ==> 1 <= s.repeatCount
  {
  }

  /** A connected station that is not calling or disconnecting needs two: one after ARQTimeout,
      and one more than a second later. */
  lemma TwoTurnsAfterTimeout(s: Station, first: Turn, second: Turn)
    requires Timed(s) && Rank(s) == 2 && !s.discRepeating && !s.abort && !s.disconnect
    requires s.protocol != DISC && !(s.protocol == ISS && (s.substate == ISSConReq || s.substate == IRSConAck))
    requires first.due && first.t <= first.u && first.t >= s.timeoutTrip + 1000 * (s.cfg.arqTimeout + 1)
    requires second.due && first.u + 1000 < second.t <= second.u
    ensures Over(TakeTurn(TakeTurn(s, first), second))
  {
    hide TakeTurn, Rank, Timed, Over;
    RankTwoIsLate(s, first);
    EffectiveTurnProgresses(s, first);
    TurnRanks(s, first);
    var s1 := TakeTurn(s, first);
    OverHasRankZero(s1);
    OverHasRankZero(TakeTurn(s1, second));
    TurnRanks(s1, second);
    if Rank(s1) == 1 {
      TurnArms(s, first);
      EffectiveTurnProgresses(s1, second);
    }
  }

  lemma RankTwoIsLate(s: Station, n: Turn)
    requires Timed(s) && Rank(s) == 2 && !s.discRepeating && !s.abort && !s.disconnect
    requires s.protocol != DISC && !(s.protocol == ISS && (s.substate == ISSConReq || s.substate == IRSConAck))
    requires n.due && n.t <= n.u && n.t >= s.timeoutTrip + 1000 * (s.cfg.arqTimeout + 1)
    ensures Effective(s, n) && s.sendTimeout == 0
  {
  }

  /** A turn sets the send timeout to at most one second after its end. */
  lemma TurnArms(s: Station, n: Turn)
    requires Timed(s) && n.t <= n.u
    ensures var s1 := TakeTurn(s, n);
            s1.cfg == s.cfg && (s1.sendTimeout == s.sendTimeout || s1.sendTimeout <= n.u + 1000)
  {
    hide RepeatPoll, SendTimeoutPoll, PendingPoll, MainPoll, Rank, Timed;
    RepeatRanks(s, n.t);
    var s1 := if n.due then RepeatPoll(s, n.t).s else s;
    SendTimeoutRanks(s1, n.u);
    var s2 := SendTimeoutPoll(s1, n.u).s;
    PendingRanks(s2, n.u);
    MainRanks(PendingPoll(s2, n.u).s, n.u);
  }

  // ---------- what is sent into the silence ----------

  datatype Tick = Tick(kind: PollKind, at: nat)

  /** Frames of type t transmitted over a sequence of polls, other than the DISC that announces
      the send timeout. */
  function FramesSent(s: Station, ticks: seq<Tick>, t: byte): nat
    decreases |ticks|
  {
    if ticks == [] then 0
    else
      var o := Poll(s, ticks[0].kind, ticks[0].at);
      (if ticks[0].kind != SendTimer && o.tx.Some? && o.tx.value.ftype == t then 1 else 0) + FramesSent(o.s, ticks[1..], t)
  }

  predicate Repeating(s: Station)
  {
    (s.protocol != DISC && s.repeat) || (s.protocol == ISS && (s.substate == ISSConReq || s.substate == IRSConAck))
  }

  /** What a station would repeat, if anything, is not a DISC unless it is disconnecting. */
  predicate RepeatsNoDisc(s: Station)
  {
    (s.discRepeating ==> 1 <= s.repeatCount) && (!s.discRepeating && Repeating(s) ==> s.encoded.ftype != DISCFRAME)
  }

  function DiscBudget(s: Station): nat
  {
    if s.discRepeating then (if s.repeatCount < DISC_TRIES then DISC_TRIES - s.repeatCount else 0)
    else if (s.protocol == ISS || s.protocol == IDLE) && s.disconnect then DISC_TRIES
    else 0
  }

  /** How many DISC frames a station may still send in whatever state it gets into, before it is
      asked again to disconnect. */
  function Promised(s: Station): nat
  {
    (if s.discRepeating && s.repeatCount < DISC_TRIES then DISC_TRIES - s.repeatCount else 0)
    + (if s.disconnect then DISC_TRIES else 0)
  }

  lemma NextFrameDiscs(s: Station, now: nat)
    requires RepeatsNoDisc(s)
    ensures var n := GetNextARQFrame(s, now);
            var sent := if (n.again && n.s.encoded.ftype == DISCFRAME) || n.tx.Some? then 1 else 0;
            && DiscBudget(n.s) + sent <= DiscBudget(s) && Promised(n.s) + sent <= Promised(s)
            && RepeatsNoDisc(n.s) && (n.again ==> Repeating(s) || s.discRepeating)
  {
    hide SetState, InitConnection;
    if s.abort {
      DiscKeepsTimers(ClearQueue(s));
      InitKeepsTimers(SetState(ClearQueue(s), DISC));
    } else if s.discRepeating {
      var s2 := ClearQueue(s.(repeatCount := s.repeatCount + 1, repeat := false, discRepeating := false));
      DiscKeepsTimers(s2);
      InitKeepsTimers(SetState(s2, DISC).(repeatCount := 0));
    } else if (s.protocol == ISS || s.protocol == IDLE) && s.disconnect {
    } else if s.protocol == ISS && s.substate == ISSConReq {
      DiscKeepsTimers(ClearQueue(s));
      InitKeepsTimers(SetState(ClearQueue(s), DISC).(repeatCount := 0));
    } else if s.protocol == ISS && s.substate == IRSConAck {
      DiscKeepsTimers(s);
      InitKeepsTimers(SetState(s, DISC).(substate := DISCArqEnd, repeatCount := 0));
    }
  }

  function Discs(tx: Option<Frame>): nat { if tx.Some? && tx.value.ftype == DISCFRAME then 1 else 0 }

  predicate DiscsAccounted(s: Station, o: Outcome, counted: bool)
  {
    && DiscBudget(o.s) + (if counted then Discs(o.tx) else 0) <= DiscBudget(s)
    && Promised(o.s) + (if counted then Discs(o.tx) else 0) <= Promised(s)
    && RepeatsNoDisc(o.s)
  }

  lemma RepeatDiscs(s: Station, now: nat)
    requires RepeatsNoDisc(s)
    ensures DiscsAccounted(s, RepeatPoll(s, now), true)
  {
    hide GetNextARQFrame;
    NextFrameDiscs(s, now);
  }

  lemma MainDiscs(s: Station, now: nat)
    requires RepeatsNoDisc(s)
    ensures DiscsAccounted(s, MainPoll(s, now), true) && DiscsAccounted(s, HostAbort(s, now), true)
  {
    hide GetNextARQFrame;
    NextFrameDiscs(s, now);
    NextFrameDiscs(s.(abort := true), now);
  }

  lemma TimeoutDiscs(s: Station, now: nat)
    requires RepeatsNoDisc(s)
    ensures DiscsAccounted(s, SendTimeoutPoll(s, now), false) && DiscsAccounted(s, PendingPoll(s, now), true)
  {
    hide SetState, InitConnection;
    var s1 := ClearQueue(s.(sendTimeout := 0, repeat := false)).(encoded := Control(DISCFRAME));
    DiscKeepsTimers(s1);
    InitKeepsTimers(SetState(s1, DISC));
    InitKeepsTimers(s.(pendingTimeout := 0, repeat := false, protocol := DISC));
  }

  lemma PollDiscs(s: Station, k: Tick)
    requires RepeatsNoDisc(s)
    ensures DiscsAccounted(s, Poll(s, k.kind, k.at), k.kind != SendTimer)
  {
    hide RepeatPoll, MainPoll, HostAbort, SendTimeoutPoll, PendingPoll, DiscsAccounted;
    RepeatDiscs(s, k.at);
    MainDiscs(s, k.at);
    TimeoutDiscs(s, k.at);
  }

  /** One disconnect request sends at most five DISC frames, however long the peer is silent. */
  lemma {:induction false} AtMostFiveDiscs(s: Station, ticks: seq<Tick>)
    requires RepeatsNoDisc(s)
    ensures FramesSent(s, ticks, DISCFRAME) <= DiscBudget(s) <= DISC_TRIES
    decreases |ticks|
  {
    BudgetIsSmall(s);
    if ticks == [] {
    } else {
      hide Poll, RepeatsNoDisc, DiscBudget;
      PollDiscs(s, ticks[0]);
      AtMostFiveDiscs(Poll(s, ticks[0].kind, ticks[0].at).s, ticks[1..]);
    }
  }

  lemma BudgetIsSmall(s: Station)
    requires RepeatsNoDisc(s)
    ensures DiscBudget(s) <= DISC_TRIES
  {
  }

  /** A calling station repeats its request; after the call no other state does. */
  predicate RepeatsRequestOnlyWhenCalling(s: Station, request: byte)
  {
    && IsConReq(request)
    && (IsConReq(s.encoded.ftype) ==> !s.repeat || (s.protocol == ISS && s.substate == ISSConReq) || s.protocol == DISC || s.discRepeating)
    && !(s.protocol == ISS && s.substate == IRSConAck)
  }

  function CallBudget(s: Station): nat
  {
    if s.protocol == ISS && s.substate == ISSConReq && s.repeatCount < s.cfg.conReqRepeats
    then s.cfg.conReqRepeats - s.repeatCount else 0
  }

  lemma NextFrameRequests(s: Station, now: nat, request: byte)
    requires RepeatsRequestOnlyWhenCalling(s, request) && !s.discRepeating && !s.disconnect
    ensures var n := GetNextARQFrame(s, now);
            && CallBudget(n.s) + (if n.again && n.s.encoded.ftype == request then 1 else 0) <= CallBudget(s)
            && RepeatsRequestOnlyWhenCalling(n.s, request) && n.tx.None? && !n.s.discRepeating && !n.s.disconnect
  {
    hide SetState, InitConnection;
    if s.abort {
      DiscKeepsTimers(ClearQueue(s));
      InitKeepsTimers(SetState(ClearQueue(s), DISC));
      DiscStaysConnectedless(ClearQueue(s));
    } else if s.protocol == ISS && s.substate == ISSConReq {
      DiscKeepsTimers(ClearQueue(s));
      InitKeepsTimers(SetState(ClearQueue(s), DISC).(repeatCount := 0));
      DiscStaysConnectedless(ClearQueue(s));
    }
  }

  lemma DiscStaysConnectedless(s: Station)
    requires !s.disconnect
    ensures !SetState(s, DISC).disconnect && !InitConnection(SetState(s, DISC)).disconnect
    ensures !InitConnection(SetState(s, DISC).(repeatCount := 0)).disconnect
  {
  }

  lemma PollRequests(s: Station, k: Tick, request: byte)
    requires RepeatsRequestOnlyWhenCalling(s, request) && !s.discRepeating && !s.disconnect
    ensures var o := Poll(s, k.kind, k.at);
            && CallBudget(o.s) + (if k.kind != SendTimer && o.tx.Some? && o.tx.value.ftype == request then 1 else 0) <= CallBudget(s)
            && RepeatsRequestOnlyWhenCalling(o.s, request) && !o.s.discRepeating && !o.s.disconnect
  {
    hide GetNextARQFrame, SetState, InitConnection;
    match k.kind
    case RepeatTimer => NextFrameRequests(s, k.at, request);
    case MainLoop => NextFrameRequests(s, k.at, request);
    case Abort => NextFrameRequests(s.(abort := true), k.at, request);
    case SendTimer =>
      var s1 := ClearQueue(s.(sendTimeout := 0, repeat := false)).(encoded := Control(DISCFRAME));
      DiscKeepsTimers(s1);
      InitKeepsTimers(SetState(s1, DISC));
      DiscStaysConnectedless(s1);
    case PendingTimer =>
      InitKeepsTimers(s.(pendingTimeout := 0, repeat := false, protocol := DISC));
      InitKeepsDisconnect(s.(pendingTimeout := 0, repeat := false, protocol := DISC));
  }

  lemma InitKeepsDisconnect(s: Station)
    ensures InitConnection(s).disconnect == s.disconnect
  {
  }

  lemma {:induction false} RequestsWithinBudget(s: Station, ticks: seq<Tick>, request: byte)
    requires RepeatsRequestOnlyWhenCalling(s, request) && !s.discRepeating && !s.disconnect
    ensures FramesSent(s, ticks, request) <= CallBudget(s)
    decreases |ticks|
  {
    if ticks == [] {
    } else {
      hide Poll, RepeatsRequestOnlyWhenCalling, CallBudget;
      PollRequests(s, ticks[0], request);
      RequestsWithinBudget(Poll(s, ticks[0].kind, ticks[0].at).s, ticks[1..], request);
    }
  }

  /** An unanswered call sends its request at most ARQConReqRepeats times, the first included. */
  lemma CallSendsAtMostItsRepeats(s: Station, now: int, request: byte, ticks: seq<Tick>)
    requires IsConReq(request) && s.protocol == DISC && !s.discRepeating && !s.disconnect && s.cfg.conReqRepeats >= 1
    ensures 1 + FramesSent(Call(s, now, request).s, ticks, request) <= s.cfg.conReqRepeats
  {
    RequestsWithinBudget(Call(s, now, request).s, ticks, request);
  }

  // ---------- the queue at the end of a session ----------

  /** However polling ends a session, the queue is empty afterwards, except when the wait for
      a confirmed call runs out: that path sets the state directly and keeps the queue. */
  lemma QueueAtTheEnd(s: Station, k: Tick)
    requires s.protocol != DISC && Poll(s, k.kind, k.at).s.protocol == DISC
    ensures Poll(s, k.kind, k.at).s.out.queue == [] <==> (k.kind != PendingTimer || s.out.queue == [])
  {
    hide GetNextARQFrame, InitConnection;
    NextFrameEmpties(s, k.at);
    NextFrameEmpties(s.(abort := true), k.at);
    match k.kind {
      case RepeatTimer => return;
      case MainLoop => return;
      case Abort => return;
      case SendTimer => SendTimerEmpties(s, k.at); return;
      case PendingTimer => InitKeepsQueue(s.(pendingTimeout := 0, repeat := false, protocol := DISC)); return;
    }
  }

  lemma SendTimerEmpties(s: Station, now: int)
    ensures var s' := SendTimeoutPoll(s, now).s; s.protocol != DISC && s'.protocol == DISC ==> s'.out.queue == []
  {
    hide InitConnection;
    if s.sendTimeout != 0 && now > s.sendTimeout {
      var o := Transmit(ClearQueue(s.(sendTimeout := 0, repeat := false)), Control(DISCFRAME));
      InitKeepsQueue(SetState(o.s, DISC));
    }
  }

  lemma NextFrameEmpties(s: Station, now: int)
    requires s.protocol != DISC
    ensures var s' := GetNextARQFrame(s, now).s; s'.protocol == DISC ==> s'.out.queue == []
  {
    hide InitConnection;
    if s.abort {
      InitKeepsQueue(SetState(ClearQueue(s), DISC));
      return;
    } else if s.discRepeating {
      var s1 := s.(repeatCount := s.repeatCount + 1, repeat := false);
      InitKeepsQueue(SetState(ClearQueue(s1.(discRepeating := false)), DISC).(repeatCount := 0));
      return;
    } else if (s.protocol == ISS || s.protocol == IDLE) && s.disconnect {
      return;
    } else if s.protocol == ISS && s.substate == ISSConReq {
      InitKeepsQueue(SetState(ClearQueue(s), DISC).(repeatCount := 0));
      return;
    } else if s.protocol == ISS && s.substate == IRSConAck {
      InitKeepsQueue(SetState(s, DISC).(substate := DISCArqEnd, repeatCount := 0));
      return;
    }
  }

  lemma InitKeepsQueue(s: Station)
    ensures InitConnection(s).out == s.out && InitConnection(s).protocol == s.protocol
  {
  }
}
