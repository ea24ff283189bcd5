/** When the gears shift, and that they get where the channel lets them: good ACKs bring the fastest
    mode, NAKs the most robust one (ext/ardop1/ARQ.c, Gearshift_9). */
module GearClimb {
  import opened Frames
  import opened Gear
  import opened ArqStation

  // ---------- why a mode is left ----------

  /** The bytes that a data frame of mode m carries. */
  function Carries(m: byte): nat { BlockCount(m) * BlockLen(m) }

  lemma CarriesIsSize(m: byte)
    requires IsMode(m)
    ensures Carries(m) == FrameSize(m)
  {
    assert Even(m) == m;
    CapacitiesAgree(m);
  }

  /** What is known of the gears when a report moves the pointer up: the average, with the report in it,
      exceeds the threshold of the mode left; at least two ACKs were counted; and more bytes remain than
      one frame of that mode carries. */
  lemma ShiftUpIsEarned(g: Gears, level: int, remaining: nat)
    requires Ready(g) && HistoryOk(g) && g.shift == 0 && 0 <= level <= 31
    requires Applied(Reported(g, level, remaining)).ptr > g.ptr
    ensures Applied(Reported(g, level, remaining)).ptr == g.ptr + 1
    ensures g.acks >= 2 && remaining > Carries(g.current)
    ensures g.avg == 0 ==> 38 + 2 * level > g.thresholds[g.ptr]
    ensures g.avg != 0 ==> g.avg + 39 + 2 * level >= 2 * (g.thresholds[g.ptr] as int + 1)
    ensures g.naks == 0 || g.ptr == 0 || (g.naks == 1 && g.worked[g.ptr] != 0) || g.naks < 0
  {
    CarriesIsSize(g.current);
  }

  /** A report moves the pointer down only after a NAK, by one; a second NAK is needed in a mode that has worked. */
  lemma ShiftDownIsForNaks(g: Gears, level: int, remaining: nat)
    requires Ready(g) && HistoryOk(g) && g.shift == 0 && 0 <= level <= 31
    requires Applied(Reported(g, level, remaining)).ptr < g.ptr
    ensures Applied(Reported(g, level, remaining)).ptr == g.ptr - 1
    ensures g.naks >= 1 && (g.worked[g.ptr] != 0 ==> g.naks >= 2)
  {
  }

  /** A mode to which a shift up failed at once is tried again only after five ACKs. */
  lemma FailedModeNeedsFiveAcks(g: Gears, level: int, remaining: nat)
    requires Ready(g) && HistoryOk(g) && g.shift == 0 && 0 <= level <= 31
    requires Applied(Reported(g, level, remaining)).ptr > g.ptr
    requires g.tried[g.ptr + 1] && g.worked[g.ptr + 1] == 0
    ensures g.acks >= 5
  {
  }

  /** The quality that one side measured comes back to the other with its ACK or NAK: rounded down to an even number, and
      38 for anything worse. */
  lemma QualityComesBack(q: Quality)
    ensures IsAck(AckFrame(q).ftype) && IsNak(NakFrame(q).ftype) && AckFrame(q).ftype - 0xE0 == NakFrame(q).ftype
    ensures var level := NakFrame(q).ftype;
            0 <= level <= TOP && if q >= 38 then q - 1 <= 38 + 2 * level <= q else level == 0
  {
  }

  /** Every frame type taken for an ACK or a NAK is that of some quality, and of those only. */
  lemma RepliesAreQualities(t: byte)
    ensures IsAck(t) <==> exists q: Quality :: AckFrame(q).ftype == t
    ensures IsNak(t) <==> exists q: Quality :: NakFrame(q).ftype == t
  {
    if IsAck(t) { assert AckFrame(38 + 2 * (t - 0xE0)).ftype == t; }
    if IsNak(t) { assert NakFrame(38 + 2 * t).ftype == t; }
    forall q: Quality ensures IsAck(AckFrame(q).ftype) && IsNak(NakFrame(q).ftype) {
      QualityComesBack(q);
    }
  }

  /** After a shift the counters and the average begin again. */
  lemma ShiftBeginsAgain(g: Gears, level: int, remaining: nat)
    requires Ready(g) && HistoryOk(g) && g.shift == 0 && 0 <= level <= 31
    requires Applied(Reported(g, level, remaining)).ptr != g.ptr
    ensures var h := Applied(Reported(g, level, remaining)); h.avg == 0 && h.acks == 0 && h.naks == 0
  {
  }

  // ---------- climbing ----------

  const TOP := 31           // the level of the best quality that is reported
  const LARGEST_FRAME := 1024
  const HIGHEST_TRIP := 85  // the highest threshold of any table

  /** The tables are those of some configuration and bandwidth. */
  ghost predicate Configured(g: Gears)
  {
    exists cfg: GearConfig, bw: int :: IsBandwidth(bw) && g.modes == DataModes(cfg, bw) && g.thresholds == Thresholds(cfg, bw)
  }

  predicate TripsOk(g: Gears) { forall i :: 0 <= i < |g.modes| - 1 ==> ByteAt(g.thresholds, i) <= HIGHEST_TRIP }

  lemma ConfiguredTrips(g: Gears)
    requires Configured(g)
    ensures TripsOk(g)
  {
  }

  lemma LargestFrame(m: byte)
    requires IsMode(m)
    ensures FrameSize(m) <= LARGEST_FRAME
  {
  }

  /** One frame acknowledged with the best quality: the report, the NAK count cleared, the next frame chosen. */
  function AckRound(remaining: nat): seq<GearEvent>
  {
    [AckReported(TOP, remaining), CountersCleared(false, true, false), FrameChosen]
  }

  function Acked(g: Gears, remaining: nat): Gears
  {
    Applied(GearStep(GearStep(g, AckReported(TOP, remaining)), CountersCleared(false, true, false)))
  }

  function AckRounds(remaining: seq<nat>): seq<GearEvent>
  {
    if remaining == [] then [] else AckRounds(remaining[..|remaining| - 1]) + AckRound(remaining[|remaining| - 1])
  }

  lemma {:induction false} RunAppends(g: Gears, a: seq<GearEvent>, b: seq<GearEvent>)
    ensures GearRun(g, a + b) == GearRun(GearRun(g, a), b)
  {
    if b == [] {
      assert a + b == a;
    } else {
      var n := |b| - 1;
      assert (a + b)[..|a + b| - 1] == a + b[..n];
      RunAppends(g, a, b[..n]);
    }
  }

  lemma RunOfThree(g: Gears, e: GearEvent, f: GearEvent, h: GearEvent)
    ensures GearRun(g, [e, f, h]) == GearStep(GearStep(GearStep(g, e), f), h)
  {
    hide GearStep;
    assert [e, f, h][..2] == [e, f] && [e, f][..1] == [e] && [e][..0] == [];
    assert GearRun(g, [e]) == GearStep(GearRun(g, []), e);
    assert GearRun(g, [e, f]) == GearStep(GearRun(g, [e]), f);
  }

  /** What an average needs before further reports of the best quality bring it above every threshold. */
  function AverageOwes(avg: int): nat { if avg == 0 || avg >= 71 then 1 else if avg >= 41 then 2 else 3 }

  /** How many more rounds are enough. */
  function Owed(g: Gears): nat
    requires 0 <= g.ptr < |g.modes|
  {
    if g.ptr == |g.modes| - 1 then 0
    else
      var acks := if g.acks < 5 then 5 - g.acks else 1;
      5 * (|g.modes| - 2 - g.ptr) + if acks > AverageOwes(g.avg) then acks else AverageOwes(g.avg)
  }

  predicate Climbing(g: Gears)
  {
    Ready(g) && HistoryOk(g) && TripsOk(g) && g.shift == 0 && g.naks == 0 && g.acks >= 0
  }

  lemma RoundClimbs(g: Gears, remaining: nat)
    requires Climbing(g) && remaining > LARGEST_FRAME
    ensures var h := Acked(g, remaining);
            Climbing(h) && h.modes == g.modes && (Owed(g) == 0 ==> Owed(h) == 0) && (Owed(g) > 0 ==> Owed(h) < Owed(g))
  {
    hide Acked, Ready, TripsOk;
    RoundIsReady(g, remaining);
    RoundCounts(g, remaining);
    RoundKeepsTrips(g, remaining);
    RoundMoves(g, remaining);
    OwedIsDefined(g);
    OwedIsDefined(Acked(g, remaining));
  }

  lemma OwedIsDefined(g: Gears)
    requires Ready(g)
    ensures 0 <= g.ptr < |g.modes|
  {
  }

  lemma RoundKeepsTrips(g: Gears, remaining: nat)
    requires TripsOk(g) && Ready(g) && HistoryOk(g)
    ensures TripsOk(Acked(g, remaining))
  {
    hide Acked, Ready, HistoryOk;
    RoundIsReady(g, remaining);
  }

  /** A round counts its ACK and brings the average nearer to 100, or begins again one mode higher; it does so at the
      latest with the fifth ACK and an average above the threshold. */
  lemma RoundMoves(g: Gears, remaining: nat)
    requires Climbing(g) && remaining > LARGEST_FRAME
    ensures var h := Acked(g, remaining);
            var avg := if g.avg == 0 then 100 else (g.avg + 101) / 2;
            if g.ptr == |g.modes| - 1 then h.ptr == g.ptr
            else
              || (h.ptr == g.ptr + 1 && h.acks == h.avg == 0)
              || (h.ptr == g.ptr && h.acks == g.acks + 1 && h.avg == avg && (avg <= HIGHEST_TRIP || g.acks < 4))
  {
    LargestFrame(g.modes[g.ptr]);
  }

  lemma RoundIsReady(g: Gears, remaining: nat)
    requires Ready(g) && HistoryOk(g)
    ensures var h := Acked(g, remaining); Ready(h) && HistoryOk(h) && h.shift == 0 && h.naks == 0
    ensures var h := Acked(g, remaining); h.modes == g.modes && h.thresholds == g.thresholds
  {
    hide Shifted, Averaged, Applied, Reported;
    var e := AckReported(TOP, remaining);
    GearStepIsReady(g, e);
    GearStepIsReady(GearStep(g, e), CountersCleared(false, true, false));
    var h := GearStep(GearStep(g, e), CountersCleared(false, true, false));
    AppliedIsReady(h);
    GearStepIsReady(h, FrameChosen);
    KeepsTables(g.(acks := g.acks + 1), TOP, remaining);
    AppliedKeeps(h);
  }

  lemma KeepsTables(g: Gears, level: int, remaining: nat)
    ensures var h := Reported(g, level, remaining); h.modes == g.modes && h.thresholds == g.thresholds
  {
  }

  lemma AppliedKeeps(g: Gears)
    ensures var h := Applied(g);
            h.modes == g.modes && h.thresholds == g.thresholds && h.naks == g.naks && h.acks == g.acks
  {
  }

  /** A round leaves any gears climbing; it may have moved them down for NAKs counted before. */
  lemma FirstRound(g: Gears, remaining: nat)
    requires Ready(g) && HistoryOk(g) && TripsOk(g) && g.acks >= 0
    ensures var h := Acked(g, remaining);
            Climbing(h) && h.modes == g.modes && Owed(h) <= 5 * (|g.modes| - 1)
  {
    hide Acked, Ready, HistoryOk, Owed;
    RoundIsReady(g, remaining);
    RoundCounts(g, remaining);
    OwedAtMost(Acked(g, remaining));
  }

  lemma RoundCounts(g: Gears, remaining: nat)
    requires g.acks >= 0
    ensures Acked(g, remaining).acks >= 0
  {
  }

  lemma OwedAtMost(g: Gears)
    requires Ready(g) && g.acks >= 0
    ensures Owed(g) <= 5 * (|g.modes| - 1)
  {
  }

  lemma {:induction false} RoundsClimb(g: Gears, remaining: seq<nat>)
    requires Ready(g) && HistoryOk(g) && TripsOk(g) && g.acks >= 0
    requires |remaining| > 0 && forall r :: r in remaining ==> r > LARGEST_FRAME
    ensures var h := GearRun(g, AckRounds(remaining));
            && Climbing(h) && h.modes == g.modes
            && (Owed(h) == 0 || Owed(h) + |remaining| - 1 <= 5 * (|g.modes| - 1))
  {
    hide Acked, Owed, Climbing, TripsOk, GearStep;
    var n := |remaining| - 1;
    var h := GearRun(g, AckRounds(remaining[..n]));
    RunAppends(g, AckRounds(remaining[..n]), AckRound(remaining[n]));
    RoundIsAcked(h, remaining[n]);
    assert remaining[n] in remaining;
    if n == 0 {
      assert AckRounds(remaining[..0]) == [];
      FirstRound(g, remaining[0]);
    } else {
      assert forall r :: r in remaining[..n] ==> r in remaining;
      RoundsClimb(g, remaining[..n]);
      RoundClimbs(h, remaining[n]);
    }
  }

  lemma RoundIsAcked(g: Gears, remaining: nat)
    ensures GearRun(g, AckRound(remaining)) == Acked(g, remaining)
  {
    hide GearStep;
    RunOfThree(g, AckReported(TOP, remaining), CountersCleared(false, true, false), FrameChosen);
    ChoosingApplies(GearStep(GearStep(g, AckReported(TOP, remaining)), CountersCleared(false, true, false)));
  }

  lemma ChoosingApplies(g: Gears)
    ensures GearStep(g, FrameChosen) == Applied(g)
  {
  }

  /** From any state of the gears, five frames per mode that are acknowledged with the best quality, with enough left
      to send, bring the fastest mode. */
  lemma AcksReachTheTop(g: Gears, remaining: seq<nat>)
    requires Ready(g) && HistoryOk(g) && Configured(g) && g.acks >= 0
    requires |remaining| >= 5 * |g.modes| && forall r :: r in remaining ==> r > LARGEST_FRAME
    ensures var h := GearRun(g, AckRounds(remaining)); h.modes == g.modes && h.ptr == |g.modes| - 1 && h.current == g.modes[h.ptr]
  {
    hide GearRun;
    ConfiguredTrips(g);
    RoundsClimb(g, remaining);
  }

  // ---------- falling back ----------

  /** One NAK: the report, the ACK count cleared, and a frame chosen if the gears shift. */
  function NakRound(level: int, remaining: nat): seq<GearEvent>
  {
    [NakReported(level, remaining), CountersCleared(true, false, false), FrameChosen]
  }

  function Naked(g: Gears, level: int, remaining: nat): Gears
  {
    Applied(GearStep(GearStep(g, NakReported(level, remaining)), CountersCleared(true, false, false)))
  }

  datatype Nak = Nak(level: int, remaining: nat)

  function NakRounds(naks: seq<Nak>): seq<GearEvent>
  {
    if naks == [] then [] else NakRounds(naks[..|naks| - 1]) + NakRound(naks[|naks| - 1].level, naks[|naks| - 1].remaining)
  }

  predicate Falling(g: Gears) { Ready(g) && HistoryOk(g) && g.shift == 0 && g.acks < 2 && g.naks >= 0 }

  /** How many more NAKs are enough: two per mode, less one counted already. */
  function Fall(g: Gears): nat
    requires g.ptr >= 0
  {
    if g.ptr == 0 then 0 else 2 * g.ptr - if g.naks >= 1 then 1 else 0
  }

  lemma NakFalls(g: Gears, level: int, remaining: nat)
    requires Falling(g) && 0 <= level <= 31
    ensures var h := Naked(g, level, remaining);
            Falling(h) && h.modes == g.modes && (Fall(g) == 0 ==> Fall(h) == 0) && (Fall(g) > 0 ==> Fall(h) < Fall(g))
  {
    NakIsReady(g, level, remaining);
  }

  lemma NakIsReady(g: Gears, level: int, remaining: nat)
    requires Ready(g) && HistoryOk(g) && 0 <= level <= 31
    ensures var h := Naked(g, level, remaining); Ready(h) && HistoryOk(h) && h.shift == 0 && h.acks == 0
    ensures var h := Naked(g, level, remaining); h.modes == g.modes && h.thresholds == g.thresholds
  {
    hide Shifted, Averaged, Applied, Reported;
    var e := NakReported(level, remaining);
    GearStepIsReady(g, e);
    GearStepIsReady(GearStep(g, e), CountersCleared(true, false, false));
    var h := GearStep(GearStep(g, e), CountersCleared(true, false, false));
    AppliedIsReady(h);
    GearStepIsReady(h, FrameChosen);
    KeepsTables(g.(naks := g.naks + 1), level, remaining);
    AppliedKeeps(h);
  }

  lemma NakRoundIsNaked(g: Gears, level: int, remaining: nat)
    ensures GearRun(g, NakRound(level, remaining)) == Naked(g, level, remaining)
  {
    hide GearStep;
    RunOfThree(g, NakReported(level, remaining), CountersCleared(true, false, false), FrameChosen);
    ChoosingApplies(GearStep(GearStep(g, NakReported(level, remaining)), CountersCleared(true, false, false)));
  }

  lemma {:induction false} NaksFall(g: Gears, naks: seq<Nak>)
    requires Falling(g) && forall k :: k in naks ==> 0 <= k.level <= 31
    ensures var h := GearRun(g, NakRounds(naks));
            Falling(h) && h.modes == g.modes && (Fall(h) == 0 || Fall(h) + |naks| <= Fall(g))
  {
    hide Naked, Fall, Falling, GearStep;
    if naks == [] {
      FallingIsInside(g);
    } else {
      var n := |naks| - 1;
      var h := GearRun(g, NakRounds(naks[..n]));
      NaksFall(g, naks[..n]);
      assert naks[n] in naks;
      RunAppends(g, NakRounds(naks[..n]), NakRound(naks[n].level, naks[n].remaining));
      NakRoundIsNaked(h, naks[n].level, naks[n].remaining);
      FallingIsInside(h);
      NakFalls(h, naks[n].level, naks[n].remaining);
    }
  }

  lemma FallingIsInside(g: Gears)
    requires Falling(g)
    ensures g.ptr >= 0
  {
  }

  /** Two NAKs per mode, whatever quality they report, bring the most robust mode, unless two ACKs have been counted
      since the last NAK or shift. */
  lemma NaksReachTheBottom(g: Gears, naks: seq<Nak>)
    requires Ready(g) && HistoryOk(g) && g.shift == 0 && g.acks < 2 && g.naks >= 0
    requires |naks| >= 2 * g.ptr && forall k :: k in naks ==> 0 <= k.level <= 31
    ensures var h := GearRun(g, NakRounds(naks)); h.modes == g.modes && h.ptr == 0 && h.current == g.modes[0]
  {
    hide GearRun;
    NaksFall(g, naks);
  }

  /** From any state three more are enough: the first may find a shift up due. */
  lemma NaksAlwaysReachTheBottom(g: Gears, naks: seq<Nak>)
    requires Ready(g) && HistoryOk(g) && g.shift == 0 && g.naks >= 0
    requires |naks| >= 2 * g.ptr + 3 && forall k :: k in naks ==> 0 <= k.level <= 31
    ensures var h := GearRun(g, NakRounds(naks)); h.modes == g.modes && h.ptr == 0 && h.current == g.modes[0]
  {
    hide GearRun, Naked;
    var first, rest := naks[0], naks[1..];
    var h := Naked(g, first.level, first.remaining);
    NakIsReady(g, first.level, first.remaining);
    NakMovesByOne(g, first.level, first.remaining);
    NaksReachTheBottom(h, rest);
    RoundsInTurn(g, first, rest);
    assert naks == [first] + rest;
  }

  lemma NakMovesByOne(g: Gears, level: int, remaining: nat)
    requires Ready(g) && HistoryOk(g) && g.shift == 0 && 0 <= level <= 31 && g.naks >= 0
    ensures var h := Naked(g, level, remaining); h.ptr <= g.ptr + 1 && h.naks >= 0
  {
  }

  lemma {:induction false} RoundsInTurn(g: Gears, first: Nak, rest: seq<Nak>)
    ensures GearRun(g, NakRounds([first] + rest)) == GearRun(Naked(g, first.level, first.remaining), NakRounds(rest))
    decreases |rest|
  {
    hide Naked, GearStep;
    var all := [first] + rest;
    if rest == [] {
      assert all[..0] == [] && NakRounds([]) == [];
      NakRoundIsNaked(g, first.level, first.remaining);
      assert NakRounds(all) == NakRound(first.level, first.remaining);
    } else {
      var n := |rest| - 1;
      assert all[..|all| - 1] == [first] + rest[..n];
      RoundsInTurn(g, first, rest[..n]);
      RunAppends(g, NakRounds([first] + rest[..n]), NakRound(rest[n].level, rest[n].remaining));
      RunAppends(Naked(g, first.level, first.remaining), NakRounds(rest[..n]), NakRound(rest[n].level, rest[n].remaining));
    }
  }

  /** A NAK can move the gears up: two ACKs of middling quality and a NAK that reports a good one. */
  lemma NakCanShiftUp(g: Gears, cfg: GearConfig, bw: int)
    requires HistoryOk(g) && g.acks == g.naks == g.avg == 0 && bw == 500 && !cfg.fskOnly && !cfg.fastStart
    requires !g.tried[1] || g.worked[1] != 0
    ensures var h := GearRun(Initialised(g, cfg, bw), [AckReported(20, 1000), AckReported(20, 1000), NakReported(31, 1000)]);
            h.ptr == 0 && Applied(h).ptr == 1
  {
    RunOfThree(Initialised(g, cfg, bw), AckReported(20, 1000), AckReported(20, 1000), NakReported(31, 1000));
  }

  // ---------- what is remembered of each mode ----------

  predicate IsReport(e: GearEvent) { e.AckReported? || e.NakReported? }

  /** The ACK count that a report finds, itself included. */
  function AcksAt(g: Gears, e: GearEvent): int { if e.AckReported? then g.acks + 1 else g.acks }

  /** How many reports have come with an ACK counted while mode i was in use, since the history was last forgotten. */
  function Reports(g: Gears, events: seq<GearEvent>, i: nat): nat
  {
    if events == [] then 0
    else
      var before, e := events[..|events| - 1], events[|events| - 1];
      var h := GearRun(g, before);
      if e == ConnectionForgotten then 0
      else Reports(g, before, i) + if IsReport(e) && AcksAt(h, e) != 0 && h.ptr == i then 1 else 0
  }

  /** Whether a shift up to mode i has been asked for since then. A report leaves no average only when it asks for a shift. */
  function AskedFor(g: Gears, events: seq<GearEvent>, i: nat): bool
  {
    if events == [] then false
    else
      var before, e := events[..|events| - 1], events[|events| - 1];
      var h := GearRun(g, events);
      if e == ConnectionForgotten then false
      else AskedFor(g, before, i) || (IsReport(e) && h.avg == 0 && h.shift == 1 && h.ptr + 1 == i)
  }

  predicate Remembered(g: Gears, i: nat, reports: nat, asked: bool)
    requires HistoryOk(g) && i < MODE_SLOTS
  {
    g.worked[i] == reports % 0x1_0000 && (g.tried[i] <==> asked)
  }

  lemma ReportRemembers(g: Gears, e: GearEvent, i: nat, reports: nat, asked: bool)
    requires Ready(g) && HistoryOk(g) && i < MODE_SLOTS && Remembered(g, i, reports, asked)
    requires GearEventOk(e) && IsReport(e) && HistoryOk(GearStep(g, e))
    ensures var h := GearStep(g, e);
            Remembered(h, i, reports + (if AcksAt(g, e) != 0 && g.ptr == i then 1 else 0),
                       asked || (h.avg == 0 && h.shift == 1 && h.ptr + 1 == i))
  {
    hide Shifted, Averaged;
    var g1 := if e.AckReported? then g.(acks := g.acks + 1) else g.(naks := g.naks + 1);
    AveragedIsOk(g1, 38 + 2 * e.level);
    WorkedCounts(Averaged(g1, 38 + 2 * e.level), e.remaining, i);
    TriedMarks(Averaged(g1, 38 + 2 * e.level), e.remaining, i);
    AveragedKeeps(g1, 38 + 2 * e.level);
    OneMoreReport(reports);
  }

  lemma AveragedKeeps(g: Gears, quality: int)
    ensures var h := Averaged(g, quality);
            h.worked == g.worked && h.tried == g.tried && h.ptr == g.ptr && h.acks == g.acks
  {
  }

  lemma OneMoreReport(n: nat)
    ensures (n % 0x1_0000 + 1) % 0x1_0000 == (n + 1) % 0x1_0000
  {
  }

  lemma WorkedCounts(g: Gears, remaining: nat, i: nat)
    requires Ready(g) && HistoryOk(g) && i < MODE_SLOTS
    ensures var h := Shifted(g, remaining);
            |h.worked| == MODE_SLOTS && h.worked[i] == if g.acks != 0 && g.ptr == i then (g.worked[i] + 1) % 0x1_0000 else g.worked[i]
  {
    hide FrameSize, TablesOk;
  }

  lemma TriedMarks(g: Gears, remaining: nat, i: nat)
    requires Ready(g) && HistoryOk(g) && i < MODE_SLOTS && g.avg != 0
    ensures var h := Shifted(g, remaining);
            |h.tried| == MODE_SLOTS && h.ptr == g.ptr
            && (h.tried[i] <==> g.tried[i] || (h.avg == 0 && h.shift == 1 && h.ptr + 1 == i))
  {
    hide FrameSize, Bump;
  }

  lemma OtherRemembers(g: Gears, e: GearEvent, i: nat, reports: nat, asked: bool)
    requires Ready(g) && HistoryOk(g) && i < MODE_SLOTS && Remembered(g, i, reports, asked)
    requires GearEventOk(e) && !IsReport(e) && HistoryOk(GearStep(g, e))
    ensures Remembered(GearStep(g, e), i, if e == ConnectionForgotten then 0 else reports, e != ConnectionForgotten && asked)
  {
  }

  /** In every run from a forgotten history, a mode counts as having worked as often as a report came with an ACK counted
      while it was in use, in 16 bits, and as tried exactly if a shift up to it was asked for. */
  lemma {:induction false} HistoryIsRight(g: Gears, events: seq<GearEvent>, i: nat)
    requires Ready(g) && HistoryOk(g) && Forgotten(g) == g && i < MODE_SLOTS
    requires forall e :: e in events ==> GearEventOk(e)
    ensures var h := GearRun(g, events);
            HistoryOk(h) && Remembered(h, i, Reports(g, events, i), AskedFor(g, events, i))
  {
    hide GearStep, Remembered, Ready;
    GearSafety(g, events);
    if events == [] {
      NothingRemembered(g, i);
    } else {
      var before, e := events[..|events| - 1], events[|events| - 1];
      assert e in events;
      assert forall d :: d in before ==> d in events;
      HistoryIsRight(g, before, i);
      GearSafety(g, before);
      if IsReport(e) {
        ReportRemembers(GearRun(g, before), e, i, Reports(g, before, i), AskedFor(g, before, i));
      } else {
        OtherRemembers(GearRun(g, before), e, i, Reports(g, before, i), AskedFor(g, before, i));
      }
    }
  }

  lemma NothingRemembered(g: Gears, i: nat)
    requires HistoryOk(g) && Forgotten(g) == g && i < MODE_SLOTS
    ensures Remembered(g, i, 0, false)
  {
    assert seq(MODE_SLOTS, _ => 0)[i] == 0 && !seq(MODE_SLOTS, _ => false)[i];
    assert Forgotten(g).worked == seq(MODE_SLOTS, _ => 0) && Forgotten(g).tried == seq(MODE_SLOTS, _ => false);
  }

  /** A mode that has never worked is left on the first NAK; it is remembered as tried, so that going back takes five ACKs
      (FailedModeNeedsFiveAcks). */
  lemma FailedModeIsLeft(g: Gears, level: int, remaining: nat)
    requires Ready(g) && HistoryOk(g) && g.shift == 0 && g.ptr > 0 && g.naks >= 0 && g.worked[g.ptr] == 0 && g.acks == 0
    requires 0 <= level <= 31
    ensures var h := Naked(g, level, remaining);
            h.ptr == g.ptr - 1 && HistoryOk(h) && h.tried[g.ptr] == g.tried[g.ptr] && h.worked[g.ptr] == 0 && h.acks == 0
  {
    NakIsReady(g, level, remaining);
  }

  /** A connection begins with the most robust mode, or half way up: then as many modes are below as above, or one more. */
  lemma StartsLowOrHalfWay(g: Gears, cfg: GearConfig, bw: int)
    requires IsBandwidth(bw)
    ensures var h := Initialised(g, cfg, bw);
            var above := |h.modes| - 1 - h.ptr;
            h.ptr == 0 || (cfg.fastStart && (h.ptr == above || h.ptr == above + 1))
    ensures var h := Initialised(g, cfg, bw); cfg.fastStart && |h.modes| > 1 ==> h.ptr > 0
  {
  }

  // ---------- modes and bandwidths ----------

  /** The width of a data mode in Hz, as its name has it. */
  function Width(m: byte): int
  {
    if m <= 0x48 then 200 else if m <= 0x54 then 500 else if m <= 0x64 then 1000 else 2000
  }

  /** The modes of a session fit its bandwidth, and unless only FSK is allowed the fastest one uses all of it. */
  lemma ModesFitBandwidth(cfg: GearConfig, bw: int)
    requires IsBandwidth(bw)
    ensures var modes := DataModes(cfg, bw);
            && (forall i :: 0 <= i < |modes| ==> Width(modes[i]) <= bw)
            && (!cfg.fskOnly ==> Width(modes[|modes| - 1]) == bw)
            && (!cfg.fskOnly && bw < 2000 ==> |modes| >= 5 && !IsFsk(modes[|modes| - 1]))
            && (cfg.fskOnly ==> forall i :: 0 <= i < |modes| ==> IsFsk(modes[i]))
  {
  }

  /** Every mode has its threshold, the last one 0; none is left over unless only FSK is allowed. */
  lemma ThresholdsMatchModes(cfg: GearConfig, bw: int)
    requires IsBandwidth(bw)
    ensures var n := |Thresholds(cfg, bw)|; Thresholds(cfg, bw)[n - 1] == 0 && forall i :: 0 <= i < n - 1 ==> Thresholds(cfg, bw)[i] > 0
    ensures |Thresholds(cfg, bw)| >= |DataModes(cfg, bw)| && (!cfg.fskOnly ==> |Thresholds(cfg, bw)| == |DataModes(cfg, bw)|)
  {
  }

  /** A mode further up never carries less in a frame. */
  lemma ModesGetFaster(cfg: GearConfig, bw: int, i: nat, j: nat)
    requires IsBandwidth(bw) && i <= j < |DataModes(cfg, bw)|
    ensures FrameSize(DataModes(cfg, bw)[i]) <= FrameSize(DataModes(cfg, bw)[j])
  {
  }
}
