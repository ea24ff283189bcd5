/** Gear shifting: which data mode the sending station uses next
    (ext/ardop1/ARQ.c, Gearshift_9, ComputeQualityAvg, GetNextFrameData). */
module Gear {
  import opened Frames

  /** Host settings that select the mode table. */
  datatype GearConfig = GearConfig(fskOnly: bool, tuned: bool, use600: bool, fastStart: bool)

  function DataModes(cfg: GearConfig, bw: int): seq<byte>
  {
    if bw == 200 then if cfg.fskOnly then [0x48] else [0x48, 0x42, 0x40, 0x44, 0x46]
    else if bw == 500 then if cfg.fskOnly then [0x48] else [0x48, 0x42, 0x40, 0x50, 0x52, 0x54]
    else if bw == 1000 then if cfg.fskOnly then [0x4C, 0x4A] else [0x4C, 0x4A, 0x50, 0x60, 0x62, 0x64]
    else if bw == 2000 then
      if cfg.tuned && !cfg.use600 then
        if cfg.fskOnly then [0x4C, 0x4A] else [0x4C, 0x4A, 0x50, 0x60, 0x70, 0x72, 0x74]
      else [0x4C, 0x4A, 0x7C, 0x7A]
    else []
  }

  function Thresholds(cfg: GearConfig, bw: int): seq<byte>
  {
    if bw == 200 then [82, 84, 84, 85, 0]
    else if bw == 500 then [80, 84, 84, 75, 79, 0]
    else if bw == 1000 then [80, 80, 80, 80, 75, 0]
    else if cfg.tuned && !cfg.use600 then [80, 80, 80, 76, 85, 75, 0]
    else [60, 85, 85, 0]
  }

  const MODE_SLOTS := 16

  datatype Gears = Gears(
    modes: seq<byte>, thresholds: seq<byte>,  // tables for the session bandwidth
    ptr: int, current: byte,                  // position in modes, and the mode read there
    shift: int,                               // shift requested but not yet applied
    avg: int, acks: int, naks: int,           // average reported quality, counters
    worked: seq<int>, tried: seq<bool>)       // per mode: times ACKed, ever shifted up to

  // A read outside a table has no defined value in the source; it is given the value 0 here
  // and GearSafety shows that no run performs one.
  function ByteAt(s: seq<byte>, i: int): byte { if 0 <= i < |s| then s[i] else 0 }
  function CountAt(s: seq<int>, i: int): int { if 0 <= i < |s| then s[i] else 0 }
  function FlagAt(s: seq<bool>, i: int): bool { if 0 <= i < |s| then s[i] else false }
  function Bump(s: seq<int>, i: int): seq<int> { if 0 <= i < |s| then s[i := (s[i] + 1) % 0x1_0000] else s }
  function Mark(s: seq<bool>, i: int): seq<bool> { if 0 <= i < |s| then s[i := true] else s }

  function Initialised(g: Gears, cfg: GearConfig, bw: int): Gears
  {
    var modes := DataModes(cfg, bw);
    var ptr := if cfg.fastStart then |modes| / 2 else 0;
    g.(modes := modes, thresholds := Thresholds(cfg, bw), ptr := ptr, current := ByteAt(modes, ptr), shift := 0)
  }

  /** The mode history is forgotten when a connection is initialised. */
  function Forgotten(g: Gears): Gears
  {
    g.(worked := seq(MODE_SLOTS, _ => 0), tried := seq(MODE_SLOTS, _ => false))
  }

  function Averaged(g: Gears, quality: int): Gears
  {
    g.(avg := if g.avg == 0 then quality else (g.avg + quality + 1) / 2)
  }

  function Shifted(g: Gears, remaining: nat): Gears
  {
    var downNaks := if CountAt(g.worked, g.ptr) == 0 then 1 else 2;
    var h := if g.acks != 0 then g.(worked := Bump(g.worked, g.ptr)) else g;
    if h.ptr > 0 && h.naks >= downNaks then
      h.(shift := -1, avg := 0, naks := 0, acks := 0)
    else if h.avg > ByteAt(h.thresholds, h.ptr) && h.ptr < |h.modes| - 1 && h.acks >= 2 then
      if remaining <= FrameSize(ByteAt(h.modes, h.ptr)) then h.(shift := 0)
      else if FlagAt(h.tried, h.ptr + 1) && CountAt(h.worked, h.ptr + 1) == 0 && h.acks < 5 then h.(shift := 0)
      else h.(shift := 1, tried := Mark(h.tried, h.ptr + 1), avg := 0, naks := 0, acks := 0)
    else h
  }

  /** An ACK or NAK reports the received quality in its low five bits. */
  function Reported(g: Gears, level: int, remaining: nat): Gears
  {
    Shifted(Averaged(g, 38 + 2 * level), remaining)
  }

  /** Applies a requested shift. The upper clamp is the table length, one past its last entry. */
  function Applied(g: Gears): Gears
  {
    if g.shift < 0 then
      if g.ptr > 0 then
        var p := if g.ptr + g.shift < 0 then 0 else g.ptr + g.shift;
        g.(ptr := p, current := ByteAt(g.modes, p), shift := 0)
      else g.(shift := 0)
    else if g.shift > 0 then
      if g.ptr < |g.modes| then
        var p := if g.ptr + g.shift > |g.modes| then |g.modes| else g.ptr + g.shift;
        g.(ptr := p, current := ByteAt(g.modes, p), shift := 0)
      else g.(shift := 0)
    else g
  }

  /** The type of the next data frame: the current mode with the low bit opposite to that of
      the last acknowledged frame. */
  function NextType(current: byte, lastAcked: byte): byte
  {
    if IsOdd(current) == IsOdd(lastAcked) then Toggle(current) else current
  }

  /** Consecutive new frames alternate between the two types of a pair, whatever the mode. */
  lemma NextTypeAlternates(current: byte, lastAcked: byte)
    requires IsMode(current)
    ensures IsData(NextType(current, lastAcked))
    ensures IsOdd(NextType(current, lastAcked)) != IsOdd(lastAcked)
    ensures Even(NextType(current, lastAcked)) == current
  {
    ModeOfData(current);
    ModeOfData(Toggle(current));
  }

  // ---------- safety of the gear pointer ----------

  predicate QualityOk(q: int) { q == 0 || 38 <= q <= 100 }

  predicate TablesOk(modes: seq<byte>, thresholds: seq<byte>)
  {
    && 0 < |modes| <= |thresholds|
    && |modes| <= MODE_SLOTS
    && (forall i :: 0 <= i < |modes| ==> IsMode(modes[i]))
    && (forall i :: 0 < i < |modes| ==> modes[i] != modes[i - 1])
  }

  /** The tables are in place and the pointer and any pending shift stay inside them. */
  predicate Ready(g: Gears)
  {
    && TablesOk(g.modes, g.thresholds)
    && 0 <= g.ptr < |g.modes|
    && g.current == g.modes[g.ptr]
    && (g.shift == 0 || (g.shift == -1 && g.ptr > 0) || (g.shift == 1 && g.ptr < |g.modes| - 1))
  }

  predicate HistoryOk(g: Gears)
  {
    |g.worked| == MODE_SLOTS && |g.tried| == MODE_SLOTS && QualityOk(g.avg)
  }

  predicate IsBandwidth(bw: int) { bw == 200 || bw == 500 || bw == 1000 || bw == 2000 }

  lemma InitialisedIsReady(g: Gears, cfg: GearConfig, bw: int)
    requires IsBandwidth(bw)
    ensures Ready(Initialised(g, cfg, bw))
  {
    var modes := DataModes(cfg, bw);
    assert TablesOk(modes, Thresholds(cfg, bw));
  }

  /** Gearshift_9 only ever requests a shift that stays inside the table. */
  lemma ShiftedIsReady(g: Gears, remaining: nat)
    requires Ready(g) && HistoryOk(g)
    ensures Ready(Shifted(g, remaining)) && HistoryOk(Shifted(g, remaining))
    ensures Shifted(g, remaining).ptr == g.ptr && Shifted(g, remaining).modes == g.modes
  {
  }

  /** Applying a pending shift moves to a different mode, and changes nothing when none is pending. */
  lemma AppliedIsReady(g: Gears)
    requires Ready(g)
    ensures Ready(Applied(g)) && Applied(g).shift == 0 && IsMode(Applied(g).current)
    ensures Applied(g).current == g.current <==> g.shift == 0
  {
  }

  lemma AveragedIsOk(g: Gears, quality: int)
    requires HistoryOk(g) && 38 <= quality <= 100
    ensures HistoryOk(Averaged(g, quality)) && Averaged(g, quality).avg != 0
    ensures Ready(g) ==> Ready(Averaged(g, quality))
  {
  }

  lemma ReportedIsReady(g: Gears, level: int, remaining: nat)
    requires Ready(g) && HistoryOk(g) && 0 <= level <= 31
    ensures Ready(Reported(g, level, remaining)) && HistoryOk(Reported(g, level, remaining))
    ensures Reported(g, level, remaining).ptr == g.ptr && Reported(g, level, remaining).modes == g.modes
    ensures Reported(g, level, remaining).current == g.current
  {
    AveragedIsOk(g, 38 + 2 * level);
    ShiftedIsReady(Averaged(g, 38 + 2 * level), remaining);
  }

  /** GetNextFrameData on its own keeps the pointer inside the table exactly when the request
      does not reach past the last entry: with pointer on the last entry a shift up escapes. */
  lemma ClampIsOneTooHigh(g: Gears)
    requires TablesOk(g.modes, g.thresholds) && 0 <= g.ptr < |g.modes|
    ensures Applied(g).ptr < |g.modes| <==> (g.shift <= 0 || g.ptr + g.shift < |g.modes|)
    ensures 0 <= Applied(g).ptr <= |g.modes|
  {
  }

  /** What can happen to the gears of a connected station, in any order. */
  datatype GearEvent =
    | AckReported(level: int, remaining: nat)
    | NakReported(level: int, remaining: nat)
    | FrameChosen
    | CountersCleared(clearAcks: bool, clearNaks: bool, clearAvg: bool)
    | ConnectionForgotten
    | Negotiated(cfg: GearConfig, bw: int)

  predicate GearEventOk(e: GearEvent)
  {
    match e
    case AckReported(level, _) => 0 <= level <= 31
    case NakReported(level, _) => 0 <= level <= 31
    case Negotiated(_, bw) => IsBandwidth(bw)
    case _ => true
  }

  function GearStep(g: Gears, e: GearEvent): Gears
  {
    match e
    case AckReported(level, remaining) => Reported(g.(acks := g.acks + 1), level, remaining)
    case NakReported(level, remaining) => Reported(g.(naks := g.naks + 1), level, remaining)
    case FrameChosen => Applied(g)
    case CountersCleared(a, n, v) =>
      g.(acks := if a then 0 else g.acks, naks := if n then 0 else g.naks, avg := if v then 0 else g.avg)
    case ConnectionForgotten => Forgotten(g)
    case Negotiated(cfg, bw) => Initialised(g, cfg, bw)
  }

  function GearRun(g: Gears, events: seq<GearEvent>): Gears
  {
    if events == [] then g else GearStep(GearRun(g, events[..|events| - 1]), events[|events| - 1])
  }

  /** In every run after initialisation, in any order of ACKs, NAKs, frames and turnovers, the
      pointer stays inside the mode table and the threshold table, the current mode is the one
      it points at, and the average is 0 or between 38 and 100. */
  lemma {:induction false} GearSafety(g: Gears, events: seq<GearEvent>)
    requires Ready(g) && HistoryOk(g)
    requires forall e :: e in events ==> GearEventOk(e)
    ensures Ready(GearRun(g, events)) && HistoryOk(GearRun(g, events))
    ensures 0 <= GearRun(g, events).ptr < |GearRun(g, events).modes| <= |GearRun(g, events).thresholds|
  {
    if events == [] {
    } else {
      var before := events[..|events| - 1];
      var e := events[|events| - 1];
      assert e in events;
      GearSafety(g, before);
      GearStepIsReady(GearRun(g, before), e);
    }
  }

  lemma GearStepIsReady(g: Gears, e: GearEvent)
    requires Ready(g) && HistoryOk(g) && GearEventOk(e)
    ensures Ready(GearStep(g, e)) && HistoryOk(GearStep(g, e))
  {
    hide Shifted, Averaged, Thresholds;
    match e
    case AckReported(level, remaining) =>
      var h := g.(acks := g.acks + 1);
      assert Ready(h) && HistoryOk(h);
      ReportedIsReady(h, level, remaining);
    case NakReported(level, remaining) =>
      var h := g.(naks := g.naks + 1);
      assert Ready(h) && HistoryOk(h);
      ReportedIsReady(h, level, remaining);
    case FrameChosen => AppliedIsReady(g);
    case CountersCleared(_, _, _) =>
    case ConnectionForgotten =>
    case Negotiated(cfg, bw) => InitialisedIsReady(g, cfg, bw);
  }
}
