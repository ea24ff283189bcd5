/** How the carrier decoder serves the ARQ station: what Carriers reads from the air is what the
    memory ARQ store of ArqStation takes in (ext/ardop1/SoundInput.c). */
module Reception {
  import opened Frames
  import opened ArqStation
  import C = Carriers

  predicate FitsRaw(slots: seq<C.Slot>)
  {
    |slots| == CARRIERS && forall c :: 0 <= c < |slots| ==> |slots[c].raw| == C.RAW_SIZE
  }

  /** The store has the flags of the slots, and the contents of the blocks that were good. */
  predicate SameStore(r: Receiver, slots: seq<C.Slot>)
    requires FitsRaw(slots)
  {
    forall c: nat :: c < CARRIERS ==>
      HeldAt(r, c) == slots[c].ok && (slots[c].ok ==> BlockAt(r.frameData, c) == C.Content(slots[c].raw))
  }

  ghost function ReadAt(slots: seq<C.Slot>, c: nat, len: nat, rs: nat, t: byte, fix: C.Repair): (C.Slot, seq<byte>)
    requires FitsRaw(slots) && c < CARRIERS && len + 3 + rs <= C.RAW_SIZE && C.RepairFits(fix)
  {
    C.Corrected(slots[c], len, rs, t, fix)
  }

  /** The channel: a block that passes its check when it is read is the block that was sent. */
  ghost predicate PassedAreSent(f: Frame, slots: seq<C.Slot>, len: nat, rs: nat, fix: C.Repair)
    requires FitsRaw(slots) && len + 3 + rs <= C.RAW_SIZE && C.RepairFits(fix)
  {
    forall c: nat :: c < BlockCount(f.ftype) && c < CARRIERS && !slots[c].ok && ReadAt(slots, c, len, rs, f.ftype, fix).0.ok ==>
      ReadAt(slots, c, len, rs, f.ftype, fix).1 == BlockAt(f.blocks, c)
  }

  /** What the decoder makes of the copy on the air, as the link model takes it. */
  ghost function Reading(slots: seq<C.Slot>, len: nat, rs: nat, t: byte, fix: C.Repair, intact: bool, q: Quality,
                         reply: Negotiation): Rx
    requires FitsRaw(slots) && len + 3 + rs <= C.RAW_SIZE && C.RepairFits(fix)
  {
    Rx(seq(CARRIERS, c requires 0 <= c < CARRIERS => ReadAt(slots, c, len, rs, t, fix).0.ok),
       seq(CARRIERS, c requires 0 <= c < CARRIERS => ReadAt(slots, c, len, rs, t, fix).1), intact, q, reply)
  }

  lemma HeldIsKept(s: C.Slot, len: nat, rs: nat, t: byte, fix: C.Repair)
    requires |s.raw| == C.RAW_SIZE && len + 3 + rs <= C.RAW_SIZE && C.RepairFits(fix) && s.ok
    ensures C.Corrected(s, len, rs, t, fix) == (s, C.Content(s.raw))
  {
  }

  /** Every carrier of the store is after the frame what the decoder left of it. */
  lemma StoreTakesReading(r: Receiver, f: Frame, slots: seq<C.Slot>, len: nat, rs: nat, fix: C.Repair, rx: Rx, c: nat)
    requires FitsRaw(slots) && len + 3 + rs <= C.RAW_SIZE && C.RepairFits(fix) && SameStore(r, slots)
    requires PassedAreSent(f, slots, len, rs, fix) && c < BlockCount(f.ftype) && c < CARRIERS
    requires rx == Reading(slots, len, rs, f.ftype, fix, rx.intact, rx.quality, rx.reply)
    ensures var r1 := Demodulated(r, f, rx);
            var read := ReadAt(slots, c, len, rs, f.ftype, fix);
            HeldAt(r1, c) == read.0.ok && BlockAt(r1.frameData, c) == read.1
  {
    hide C.Corrected, C.Content, BlockCount;
    if slots[c].ok { HeldIsKept(slots[c], len, rs, f.ftype, fix); }
  }

  /** So the frame is good, and its data is what is passed on, in the decoder exactly when in the link model. */
  lemma DecoderServesStation(r: Receiver, f: Frame, slots: seq<C.Slot>, len: nat, rs: nat, fix: C.Repair, rx: Rx)
    requires FitsRaw(slots) && len + 3 + rs <= C.RAW_SIZE && C.RepairFits(fix) && SameStore(r, slots)
    requires PassedAreSent(f, slots, len, rs, fix) && BlockCount(f.ftype) <= CARRIERS
    requires rx == Reading(slots, len, rs, f.ftype, fix, rx.intact, rx.quality, rx.reply)
    ensures var r1, n := Demodulated(r, f, rx), BlockCount(f.ftype);
            && (AllHeld(r1, n) <==> forall c: nat :: c < n ==> C.Corrected(slots[c], len, rs, f.ftype, fix).0.ok)
            && Collected(r1, n) == Join(C.Contents(n, slots, len, rs, f.ftype, fix))
  {
    var r1, n := Demodulated(r, f, rx), BlockCount(f.ftype);
    hide C.Corrected, C.Content, BlockCount, Demodulated, PassedAreSent, SameStore, Join, HeldAt;
    forall c: nat | c < n
      ensures HeldAt(r1, c) == C.Corrected(slots[c], len, rs, f.ftype, fix).0.ok
      ensures BlockAt(r1.frameData, c) == C.Corrected(slots[c], len, rs, f.ftype, fix).1
    {
      StoreTakesReading(r, f, slots, len, rs, fix, rx, c);
    }
    DemodulatedSize(r, f, rx);
    C.ContentsAre(n, slots, r1.frameData, len, rs, f.ftype, fix);
  }

  lemma DemodulatedSize(r: Receiver, f: Frame, rx: Rx)
    ensures |Demodulated(r, f, rx).frameData| == CARRIERS
  {
  }

  /** The carriers after the frame. */
  ghost function SlotsAfter(slots: seq<C.Slot>, n: nat, len: nat, rs: nat, t: byte, fix: C.Repair): seq<C.Slot>
    requires FitsRaw(slots) && len + 3 + rs <= C.RAW_SIZE && C.RepairFits(fix)
  {
    seq(CARRIERS, c requires 0 <= c < CARRIERS => if c < n then ReadAt(slots, c, len, rs, t, fix).0 else slots[c])
  }

  lemma GoodIsContent(s: C.Slot, len: nat, rs: nat, t: byte, fix: C.Repair)
    requires |s.raw| == C.RAW_SIZE && len + 3 + rs <= C.RAW_SIZE && C.RepairFits(fix)
    ensures var r := C.Corrected(s, len, rs, t, fix); r.0.ok ==> r.1 == C.Content(r.0.raw)
  {
  }

  /** The store and the carriers stay in step from copy to copy. */
  lemma StoreStaysInStep(r: Receiver, f: Frame, slots: seq<C.Slot>, len: nat, rs: nat, fix: C.Repair, rx: Rx)
    requires FitsRaw(slots) && len + 3 + rs <= C.RAW_SIZE && C.RepairFits(fix) && SameStore(r, slots)
    requires PassedAreSent(f, slots, len, rs, fix)
    requires rx == Reading(slots, len, rs, f.ftype, fix, rx.intact, rx.quality, rx.reply)
    ensures var after := SlotsAfter(slots, BlockCount(f.ftype), len, rs, f.ftype, fix);
            FitsRaw(after) && SameStore(Demodulated(r, f, rx), after)
  {
    hide C.Corrected, C.Content, BlockCount;
    forall c: nat | c < CARRIERS && c < BlockCount(f.ftype)
      ensures HeldAt(Demodulated(r, f, rx), c) == ReadAt(slots, c, len, rs, f.ftype, fix).0.ok
      ensures BlockAt(Demodulated(r, f, rx).frameData, c) == ReadAt(slots, c, len, rs, f.ftype, fix).1
    {
      StoreTakesReading(r, f, slots, len, rs, fix, rx, c);
    }
    forall c: nat | c < CARRIERS
      ensures var read := ReadAt(slots, c, len, rs, f.ftype, fix); read.0.ok ==> read.1 == C.Content(read.0.raw)
    {
      GoodIsContent(slots[c], len, rs, f.ftype, fix);
    }
  }
}
