/** Any number of calls one after another, by either station, over the same link. Whatever the
    earlier sessions left in the stations, every later one is as safe as the first. */
module Sessions {
  import opened Frames
  import opened Options
  import opened Gear
  import opened ArqStation
  import opened ArqLink
  import opened Delivery

  /** Who calls when and how, and what happens from then on until the next call. */
  datatype Session = Session(byA: bool, at: int, request: byte, events: seq<Event>)

  /** The history of a station is that of one session. */
  function NewHistory(s: Station): Station
  {
    s.(out := s.out.(removed := []), inn := s.inn.(delivered := []))
  }

  predicate CanCall(l: ArqLink.Link) { l.a.protocol == DISC && l.b.protocol == DISC && l.air == Clear }

  function Swapped(l: ArqLink.Link): ArqLink.Link { Link(l.b, l.a, Mirror(l.air)) }

  /** The call has no effect unless both stations are disconnected and nothing is on the air. */
  function Begin(l: ArqLink.Link, c: Session): ArqLink.Link
  {
    if !CanCall(l) || !IsConReq(c.request) then l
    else if c.byA then Started(NewHistory(l.a), NewHistory(l.b), c.at, c.request)
    else Swapped(Started(NewHistory(l.b), NewHistory(l.a), c.at, c.request))
  }

  function AfterSessions(l: ArqLink.Link, cs: seq<Session>): ArqLink.Link
  {
    if cs == [] then l
    else
      var c := cs[|cs| - 1];
      Run(Begin(AfterSessions(l, cs[..|cs| - 1]), c), c.events)
  }

  lemma SwappedInvariant(l: ArqLink.Link)
    requires Invariant(l)
    ensures Invariant(Swapped(l))
  {
    hide Lead;
    PairedTurns(l.a, l.b, ToBFrame(l), ToAFrame(l));
  }

  lemma NewHistoryIsUnused(s: Station)
    requires s.protocol == DISC && Sound(s)
    ensures Unused(NewHistory(s))
  {
    hide QualityOk;
  }

  lemma BeginKeepsInvariant(l: ArqLink.Link, c: Session)
    requires Invariant(l)
    ensures Invariant(Begin(l, c))
    ensures CanCall(l) && IsConReq(c.request) ==> Begin(l, c).a.inn.delivered == Begin(l, c).b.inn.delivered == []
  {
    hide Started, Invariant, Unused, NewHistory;
    if CanCall(l) && IsConReq(c.request) {
      InvariantIsSound(l);
      NewHistoryIsUnused(l.a);
      NewHistoryIsUnused(l.b);
      if c.byA {
        StartedIsInvariant(NewHistory(l.a), NewHistory(l.b), c.at, c.request);
        NothingDelivered(NewHistory(l.a), NewHistory(l.b), c.at, c.request);
      } else {
        StartedIsInvariant(NewHistory(l.b), NewHistory(l.a), c.at, c.request);
        NothingDelivered(NewHistory(l.b), NewHistory(l.a), c.at, c.request);
        SwappedInvariant(Started(NewHistory(l.b), NewHistory(l.a), c.at, c.request));
      }
    }
  }

  lemma InvariantIsSound(l: ArqLink.Link)
    requires Invariant(l)
    ensures Sound(l.a) && Sound(l.b)
  {
    hide Sound, Lead;
    PairedIsSound(l.a, l.b, ToBFrame(l), ToAFrame(l));
  }

  lemma NothingDelivered(a: Station, b: Station, now: int, request: byte)
    requires Unused(a) && Unused(b) && IsConReq(request)
    ensures Started(a, b, now, request).a.inn.delivered == Started(a, b, now, request).b.inn.delivered == []
  {
    hide HistoryOk;
  }

  lemma IdleLinkIsInvariant(a: Station, b: Station)
    requires Unused(a) && Unused(b)
    ensures Invariant(Link(a, b, Clear))
  {
    hide Join, Calling, Confirming, Sending, Closing, Idling, Taking;
  }

  lemma {:induction false} SessionsKeepInvariant(l: ArqLink.Link, cs: seq<Session>)
    requires Invariant(l)
    ensures Invariant(AfterSessions(l, cs))
  {
    if cs == [] {
    } else {
      hide Invariant, Begin, Run;
      var c := cs[|cs| - 1];
      var before := AfterSessions(l, cs[..|cs| - 1]);
      SessionsKeepInvariant(l, cs[..|cs| - 1]);
      BeginKeepsInvariant(before, c);
      RunKeepsInvariant(Begin(before, c), c.events);
    }
  }

  lemma InvariantIsSafe(l: ArqLink.Link)
    requires Invariant(l)
    ensures DirectionSafe(l.a, l.b) && DirectionSafe(l.b, l.a) && !(Master(l.a) && Master(l.b))
    ensures MemorySound(l.a, l.b) && MemorySound(l.b, l.a)
  {
    hide Lead, DirectionSafe, MemorySound;
    PairedIsSafe(l.a, l.b, ToBFrame(l), ToAFrame(l));
    InvariantHasOneMaster(l);
    MemoryArqIsSound(l);
  }

  /** However many sessions there were, in every state of the last one delivery is safe in both
      directions, at most one station is sending, and blocks held are the sender's. */
  lemma EverySessionIsSafe(a: Station, b: Station, cs: seq<Session>)
    requires Unused(a) && Unused(b)
    ensures var l := AfterSessions(Link(a, b, Clear), cs);
            && DirectionSafe(l.a, l.b) && DirectionSafe(l.b, l.a) && !(Master(l.a) && Master(l.b))
            && MemorySound(l.a, l.b) && MemorySound(l.b, l.a)
  {
    hide Invariant, AfterSessions, DirectionSafe, MemorySound, Master;
    IdleLinkIsInvariant(a, b);
    SessionsKeepInvariant(Link(a, b, Clear), cs);
    InvariantIsSafe(AfterSessions(Link(a, b, Clear), cs));
  }

  /** ... and what a host has been given in the last session is a subsequence of what was queued for
      it when that began and has been offered since. */
  lemma EverySessionDeliversWhatWasOffered(a: Station, b: Station, cs: seq<Session>, c: Session)
    requires Unused(a) && Unused(b)
    requires CanCall(AfterSessions(Link(a, b, Clear), cs)) && IsConReq(c.request)
    ensures var l0 := Begin(AfterSessions(Link(a, b, Clear), cs), c);
            && Subsequence(Run(l0, c.events).a.inn.delivered, Offered(l0, c.events, false))
            && Subsequence(Run(l0, c.events).b.inn.delivered, Offered(l0, c.events, true))
  {
    hide Invariant, AfterSessions, Begin, Run, Offered, Subsequence;
    IdleLinkIsInvariant(a, b);
    SessionsKeepInvariant(Link(a, b, Clear), cs);
    var l := AfterSessions(Link(a, b, Clear), cs);
    BeginKeepsInvariant(l, c);
    HostsReceiveWhatWasOffered(Begin(l, c), c.events);
  }
}
