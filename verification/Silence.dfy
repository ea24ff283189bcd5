/** What is left in the queue of a station whose peer has fallen silent, over any number of turns
    of its timers (ext/ardop1/ARDOPC.c, CheckTimers and MainPoll). */
module Silence {
  import opened Frames
  import opened Options
  import opened Gear
  import opened ArqStation
  import opened ArqLink
  import opened DeadPeer

  function BeforePending(s: Station, n: Turn): Station
  {
    SendTimeoutPoll(if n.due then RepeatPoll(s, n.t).s else s, n.u).s
  }

  /** In this turn the pending timeout ends a session that has data queued and is neither being
      aborted nor repeating DISC. */
  predicate PendingKeeps(s: Station, n: Turn)
  {
    var x := BeforePending(s, n);
    && x.protocol != DISC && x.pendingTimeout != 0 && n.u > x.pendingTimeout
    && x.out.queue != [] && !x.abort && !x.discRepeating
  }

  predicate SendTimerFires(s: Station, n: Turn) { s.sendTimeout != 0 && n.u > s.sendTimeout }

  /** The pending timeout ended the session with data queued, and no send timeout fired after it. */
  predicate Kept(s: Station, ns: seq<Turn>)
  {
    ns != [] &&
    var before := ns[..|ns| - 1];
    var x, n := Turns(s, before), ns[|ns| - 1];
    PendingKeeps(x, n) || (Kept(s, before) && !SendTimerFires(x, n))
  }

  /** Disconnected, with DISC frames still to be repeated. */
  predicate Closing(s: Station) { s.protocol == DISC && s.discRepeating }

  /** How a poll that never keeps a queue moves a station between being connected, closing and over. */
  predicate Empties(s: Station, s': Station)
  {
    && (s.protocol != DISC && Over(s') ==> s'.out.queue == [])
    && (Closing(s) ==> s'.protocol == DISC && (Over(s') ==> s'.out.queue == []))
    && (Over(s) ==> Over(s') && (s.out.queue == [] || !s.abort ==> s'.out.queue == s.out.queue))
    && (s'.abort ==> s.abort)
  }

  lemma DiscClears(s: Station)
    ensures var s' := SetState(s, DISC);
            && s'.protocol == DISC && s'.out.queue == (if s.protocol == DISC then s.out.queue else [])
            && s'.discRepeating == s.discRepeating && s'.abort == s.abort
  {
  }

  lemma NextFrameQueue(s: Station, now: int)
    ensures Empties(s, GetNextARQFrame(s, now).s)
  {
    hide InitConnection, SetState;
    DiscClears(s);
    DiscClears(ClearQueue(s));
    DiscClears(ClearQueue(s.(repeatCount := s.repeatCount + 1, repeat := false, discRepeating := false)));
    if s.abort {
      InitKeepsQueue(SetState(ClearQueue(s), DISC));
      InitKeepsTimers(SetState(ClearQueue(s), DISC));
      return;
    } else if s.discRepeating {
      var s1 := ClearQueue(s.(repeatCount := s.repeatCount + 1, repeat := false, discRepeating := false));
      InitKeepsQueue(SetState(s1, DISC).(repeatCount := 0));
      InitKeepsTimers(SetState(s1, DISC).(repeatCount := 0));
      return;
    } else if (s.protocol == ISS || s.protocol == IDLE) && s.disconnect {
      return;
    } else if s.protocol == ISS && s.substate == ISSConReq {
      InitKeepsQueue(SetState(ClearQueue(s), DISC).(repeatCount := 0));
      InitKeepsTimers(SetState(ClearQueue(s), DISC).(repeatCount := 0));
      return;
    } else if s.protocol == ISS && s.substate == IRSConAck {
      InitKeepsQueue(SetState(s, DISC).(substate := DISCArqEnd, repeatCount := 0));
      InitKeepsTimers(SetState(s, DISC).(substate := DISCArqEnd, repeatCount := 0));
      return;
    }
  }

  lemma RepeatQueue(s: Station, now: int)
    ensures Empties(s, RepeatPoll(s, now).s)
  {
    hide GetNextARQFrame;
    NextFrameQueue(s, now);
  }

  lemma MainQueue(s: Station, now: int)
    ensures Empties(s, MainPoll(s, now).s)
  {
    hide GetNextARQFrame;
    NextFrameQueue(s, now);
  }

  lemma SendTimerQueue(s: Station, now: int)
    ensures var s' := SendTimeoutPoll(s, now).s;
            if s.sendTimeout != 0 && now > s.sendTimeout
            then s'.protocol == DISC && s'.out.queue == [] && s'.discRepeating == s.discRepeating && s'.abort == s.abort
            else s' == s
  {
    hide InitConnection;
    var o := Transmit(ClearQueue(s.(sendTimeout := 0, repeat := false)), Control(DISCFRAME));
    InitKeepsQueue(SetState(o.s, DISC));
    InitKeepsTimers(SetState(o.s, DISC));
  }

  lemma PendingQueue(s: Station, now: int)
    ensures var s' := PendingPoll(s, now).s;
            if s.pendingTimeout != 0 && now > s.pendingTimeout
            then s'.protocol == DISC && s'.out.queue == s.out.queue && s'.discRepeating == s.discRepeating
                 && s'.abort == s.abort && !s'.repeat
            else s' == s
  {
    hide InitConnection;
    InitKeepsQueue(s.(pendingTimeout := 0, repeat := false, protocol := DISC));
    InitKeepsTimers(s.(pendingTimeout := 0, repeat := false, protocol := DISC));
  }

  /** After an aborted session the next request for a frame clears the queue. */
  lemma MainClearsAborted(s: Station, now: int)
    requires s.abort && !s.repeat && !s.discRepeating
    ensures MainPoll(s, now).s.out.queue == [] && !MainPoll(s, now).s.abort
  {
    hide InitConnection;
    InitKeepsQueue(SetState(ClearQueue(s), DISC));
  }

  /** One turn of a connected station. */
  lemma ConnectedTurn(s: Station, n: Turn)
    requires s.protocol != DISC
    ensures var x := TakeTurn(s, n);
            && (Over(x) ==> (x.out.queue != [] <==> PendingKeeps(s, n)))
            && (PendingKeeps(s, n) ==> Over(x) && !x.abort)
  {
    hide RepeatPoll, SendTimeoutPoll, PendingPoll, MainPoll;
    var s1 := if n.due then RepeatPoll(s, n.t).s else s;
    RepeatQueue(s, n.t);
    SendTimerQueue(s1, n.u);
    var s2 := BeforePending(s, n);
    PendingQueue(s2, n.u);
    var s3 := PendingPoll(s2, n.u).s;
    MainQueue(s3, n.u);
    if s3.abort && !s3.repeat && !s3.discRepeating { MainClearsAborted(s3, n.u); }
  }

  /** One turn of a disconnected station. */
  lemma DisconnectedTurn(s: Station, n: Turn)
    requires s.protocol == DISC
    ensures var x := TakeTurn(s, n);
            && x.protocol == DISC && !PendingKeeps(s, n)
            && (Closing(s) ==> (Over(x) ==> x.out.queue == []))
            && (Over(s) && (s.out.queue == [] || !s.abort) ==>
                  Over(x) && (!s.abort ==> !x.abort) && x.out.queue == if SendTimerFires(s, n) then [] else s.out.queue)
  {
    hide RepeatPoll, SendTimeoutPoll, PendingPoll, MainPoll;
    var s1 := if n.due then RepeatPoll(s, n.t).s else s;
    RepeatQueue(s, n.t);
    QuietWhenOver(s, n.t);
    SendTimerQueue(s1, n.u);
    var s2 := BeforePending(s, n);
    PendingQueue(s2, n.u);
    MainQueue(PendingPoll(s2, n.u).s, n.u);
  }

  lemma QuietWhenOver(s: Station, now: int)
    requires s.protocol == DISC
    ensures RepeatPoll(s, now).s.sendTimeout == s.sendTimeout
  {
    hide InitConnection;
    InitKeepsTimers(SetState(ClearQueue(s), DISC));
    var s1 := ClearQueue(s.(repeatCount := s.repeatCount + 1, repeat := false, discRepeating := false));
    InitKeepsTimers(SetState(s1, DISC).(repeatCount := 0));
  }

  /** Over any silence the queue of a station that was connected is empty once the session is over,
      except if and only if the pending timeout ended it with data queued. */
  lemma {:induction false} QueueAfterSilence(s: Station, ns: seq<Turn>)
    requires s.protocol != DISC
    ensures var x := Turns(s, ns);
            && (Over(x) ==> (x.out.queue != [] <==> Kept(s, ns)))
            && (Kept(s, ns) ==> Over(x) && !x.abort)
  {
    if ns == [] {
    } else {
      hide TakeTurn, PendingKeeps, SendTimerFires;
      var before := ns[..|ns| - 1];
      var x, n := Turns(s, before), ns[|ns| - 1];
      QueueAfterSilence(s, before);
      if x.protocol == DISC { DisconnectedTurn(x, n); } else { ConnectedTurn(x, n); }
    }
  }

  /** From any state, if nothing more is received, as many effective turns as the rank says bring
      the station to DISC, however many other turns lie between them; and a station that was
      connected then has an empty queue, except if and only if the pending timeout ended the
      session with data queued. */
  lemma DeadPeerEnds(s: Station, ns: seq<Turn>)
    requires Timed(s) && EffectiveTurns(s, ns) >= Rank(s)
    ensures Over(Turns(s, ns))
    ensures s.protocol != DISC ==> (Turns(s, ns).out.queue == [] <==> !Kept(s, ns))
  {
    hide Rank, Timed, Kept, Over;
    SilenceRanks(s, ns);
    OverHasRankZero(Turns(s, ns));
    if s.protocol != DISC { QueueAfterSilence(s, ns); }
  }

  lemma PollsStartNoPending(s: Station, now: int)
    requires s.pendingTimeout == 0
    ensures RepeatPoll(s, now).s.pendingTimeout == 0 && MainPoll(s, now).s.pendingTimeout == 0
    ensures PendingPoll(s, now).s == s
  {
    hide GetNextARQFrame;
    NextFrameStartsNoPending(s, now);
  }

  lemma SendTimerStartsNoPending(s: Station, now: int)
    requires s.pendingTimeout == 0
    ensures SendTimeoutPoll(s, now).s.pendingTimeout == 0
  {
  }

  lemma TurnStartsNoPending(s: Station, n: Turn)
    requires s.pendingTimeout == 0
    ensures TakeTurn(s, n).pendingTimeout == 0 && !PendingKeeps(s, n)
  {
    hide RepeatPoll, SendTimeoutPoll, PendingPoll, MainPoll;
    PollsStartNoPending(s, n.t);
    SendTimerStartsNoPending(if n.due then RepeatPoll(s, n.t).s else s, n.u);
    PollsStartNoPending(BeforePending(s, n), n.u);
  }

  lemma NextFrameStartsNoPending(s: Station, now: int)
    ensures GetNextARQFrame(s, now).s.pendingTimeout == s.pendingTimeout
  {
  }

  lemma {:induction false} NothingKept(s: Station, ns: seq<Turn>)
    requires s.pendingTimeout == 0
    ensures Turns(s, ns).pendingTimeout == 0 && !Kept(s, ns)
  {
    if ns == [] {
    } else {
      hide TakeTurn, PendingKeeps;
      NothingKept(s, ns[..|ns| - 1]);
      TurnStartsNoPending(Turns(s, ns[..|ns| - 1]), ns[|ns| - 1]);
    }
  }

  /** A connected station that is not waiting for a call to be confirmed ends with an empty queue,
      at whatever turn the session ends. */
  lemma SilenceEmptiesQueue(s: Station, ns: seq<Turn>)
    requires s.protocol != DISC && s.pendingTimeout == 0 && Over(Turns(s, ns))
    ensures Turns(s, ns).out.queue == []
  {
    hide Kept, Over, Turns;
    NothingKept(s, ns);
    QueueAfterSilence(s, ns);
  }

  /** The exception is reached: a call is accepted, the answer is lost, the host queues a byte, and
      the caller is not heard again. */
  function KeptRun(at: int, rx: Rx): seq<Event>
  {
    [Heard(at, rx), Lost, Commands(false, SendBytes([1])), Polled(false, PendingTimer, at + 10001)]
  }

  lemma CalledWaits(b: Station, at: int, request: byte, rx: Rx)
    requires b.protocol == DISC && !b.timeoutTriggered && IsConReq(request) && rx.intact && rx.reply != CONREJBW
    ensures var s := Hear(b, at, Control(request), rx).s;
            s.protocol == IRS && s.pendingTimeout == at + 10000 && s.out.queue == [] && s.discRepeating == b.discRepeating
  {
    hide Demodulated, Collected;
    HearsLongControl(b, Control(request), at, rx);
  }

  lemma KeptQueueIsReachable(a: Station, b: Station, now: int, request: byte, at: nat, rx: Rx)
    requires a.protocol == b.protocol == DISC && !b.timeoutTriggered && !b.discRepeating && IsConReq(request)
    requires rx.intact && rx.reply != CONREJBW
    ensures var l := Run(Started(a, b, now, request), KeptRun(at, rx)); Over(l.b) && l.b.out.queue == [1]
  {
    hide Hear, Call;
    var l0, e := Started(a, b, now, request), KeptRun(at, rx);
    RunOfFour(l0, e[0], e[1], e[2], e[3]);
    CallTransmits(a, now, request);
    CalledWaits(b, at, request, rx);
    var s := Hear(b, at, Control(request), rx).s;
    var s1 := QueueData(s, [1]);
    assert s1.out.queue == [1];
    PendingQueue(s1, at + 10001);
  }

  lemma CallTransmits(a: Station, now: int, request: byte)
    requires IsConReq(request)
    ensures Call(a, now, request).tx == Some(Control(request))
  {
  }
}
