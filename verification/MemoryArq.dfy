/** Memory ARQ: the blocks of a frame are gathered over as many copies of it as it takes
    (ext/ardop1/SoundInput.c, ext/ardop1/ARQ.c, ProcessRcvdARQFrame). */
module MemoryArq {
  import opened Frames
  import opened Options
  import opened Gear
  import opened ArqStation
  import opened ArqLink
  import opened Progress

  /** One copy of a frame that is heard. */
  datatype Copy = Copy(at: int, rx: Rx)

  /** The station after it has heard these copies of f one after the other, and its answer to the last. */
  function HearCopies(r: Station, f: Frame, copies: seq<Copy>): Outcome
  {
    if copies == [] then Quiet(r)
    else
      var x := copies[|copies| - 1];
      Hear(HearCopies(r, f, copies[..|copies| - 1]).s, x.at, f, x.rx)
  }

  predicate GoodInSome(copies: seq<Copy>, c: int)
  {
    if copies == [] then false else GoodAt(copies[|copies| - 1].rx, c) || GoodInSome(copies[..|copies| - 1], c)
  }

  /** Every block of the frame was good in at least one of the copies. */
  predicate Complete(f: Frame, copies: seq<Copy>)
  {
    forall c: nat :: c < BlockCount(f.ftype) ==> GoodInSome(copies, c)
  }

  // ---------- the store ----------

  /** The store holds exactly the blocks of f that were good in one of the copies. */
  predicate Gathered(r: Receiver, f: Frame, copies: seq<Copy>)
  {
    && r.lastType == f.ftype
    && forall c: nat :: c < CARRIERS ==>
         && (HeldAt(r, c) <==> c < BlockCount(f.ftype) && GoodInSome(copies, c))
         && (HeldAt(r, c) ==> BlockAt(r.frameData, c) == BlockAt(f.blocks, c))
  }

  lemma NothingGathered(r: Receiver, f: Frame)
    requires r.lastType != f.ftype
    ensures Gathered(NewCollection(r, f.ftype), f, [])
  {
  }

  lemma GatheredStays(r: Receiver, f: Frame, copies: seq<Copy>)
    requires Gathered(r, f, copies)
    ensures NewCollection(r, f.ftype) == r
  {
  }

  lemma OneCopyMore(r: Receiver, f: Frame, copies: seq<Copy>, x: Copy)
    requires Gathered(r, f, copies)
    ensures Gathered(Demodulated(r, f, x.rx), f, copies + [x])
  {
    hide BlockCount, GoodAt;
    var d := Demodulated(r, f, x.rx);
    assert (copies + [x])[..|copies|] == copies;
    forall c: nat | c < CARRIERS
      ensures HeldAt(d, c) <==> c < BlockCount(f.ftype) && GoodInSome(copies + [x], c)
      ensures HeldAt(d, c) ==> BlockAt(d.frameData, c) == BlockAt(f.blocks, c)
    {
      assert HeldAt(d, c) == (HeldAt(r, c) || (c < BlockCount(f.ftype) && GoodAt(x.rx, c)));
    }
  }

  lemma AllGathered(r: Receiver, f: Frame, copies: seq<Copy>)
    requires IsData(f.ftype) && Gathered(r, f, copies) && |f.blocks| == BlockCount(f.ftype) && |r.frameData| == CARRIERS
    ensures AllHeld(r, BlockCount(f.ftype)) <==> Complete(f, copies)
    ensures Complete(f, copies) ==> Collected(r, BlockCount(f.ftype)) == Join(f.blocks)
  {
    hide IsData, BlockCount, GoodInSome, Join;
    var n := BlockCount(f.ftype);
    FewBlocks(f.ftype);
    if AllHeld(r, n) {
      forall c: nat | c < n ensures GoodInSome(copies, c) {
        assert HeldAt(r, c);
      }
    }
    if Complete(f, copies) {
      forall c: nat | c < n ensures HeldAt(r, c) && r.frameData[c] == f.blocks[c] {
        assert GoodInSome(copies, c);
      }
      assert r.frameData[..n] == f.blocks;
    }
  }

  lemma FewBlocks(t: byte)
    requires IsData(t)
    ensures BlockCount(t) <= CARRIERS
  {
    hide IsData, Shape;
    ModeOfData(t);
    CapacitiesAgree(Even(t));
  }

  // ---------- the answers ----------

  /** A station that receives and has no reason to do anything else. */
  predicate Listens(r: Station)
  {
    && r.protocol == IRS && (r.substate == IRSData || r.substate == IRSfromISS)
    && !r.timeoutTriggered && !r.breakCmd
  }

  /** What the copies have come to: the store, and the frame passed on once it was complete. */
  predicate Taken(r: Station, s: Station, f: Frame, copies: seq<Copy>)
  {
    && Listens(s) && Gathered(s.inn, f, copies)
    && if Complete(f, copies) then
         s.inn.delivered == r.inn.delivered + Join(f.blocks) && s.inn.lastToHost == f.ftype && s.inn.lastACKed == f.ftype
       else
         s.inn.delivered == r.inn.delivered && s.inn.lastToHost == r.inn.lastToHost && s.inn.lastACKed == r.inn.lastACKed
  }

  lemma CopyIsDecoded(s: Station, f: Frame, x: Copy)
    requires Listens(s) && IsData(f.ftype)
    ensures var s1 := s.(inn := Demodulated(NewCollection(s.inn, f.ftype), f, x.rx));
            var n := BlockCount(f.ftype);
            Hear(s, x.at, f, x.rx) == ReceiveIRSData(s1, x.at, f.ftype, Collected(s1.inn, n), AllHeld(s1.inn, n), x.rx)
  {
    hide Demodulated, Collected, ReceiveIRSData, NewCollection;
  }

  lemma CopyIsAnswered(s: Station, now: int, t: byte, data: seq<byte>, ok: bool, rx: Rx)
    requires Listens(s) && IsData(t) && (!ok ==> t != s.inn.lastACKed)
    ensures var o := ReceiveIRSData(s, now, t, data, ok, rx);
            && Listens(o.s) && o.s.inn.lastType == s.inn.lastType
            && o.s.inn.carrierOk == s.inn.carrierOk && o.s.inn.frameData == s.inn.frameData
            && if ok then
                 && IsAckFrame(o.tx) && o.s.inn.lastToHost == t && o.s.inn.lastACKed == t
                 && o.s.inn.delivered == if t == s.inn.lastToHost then s.inn.delivered else s.inn.delivered + data
               else IsNakFrame(o.tx) && o.s.inn == s.inn
  {
  }

  lemma StoreKeepsRest(r: Receiver, f: Frame, rx: Rx)
    ensures var d := Demodulated(NewCollection(r, f.ftype), f, rx);
            && d.lastToHost == r.lastToHost && d.lastACKed == r.lastACKed && d.delivered == r.delivered
            && |d.frameData| == CARRIERS
  {
  }

  lemma SameStore(r: Receiver, d: Receiver, f: Frame, copies: seq<Copy>)
    requires Gathered(d, f, copies)
    requires r.lastType == d.lastType && r.carrierOk == d.carrierOk && r.frameData == d.frameData
    ensures Gathered(r, f, copies)
  {
    hide GoodInSome, BlockCount;
    forall c: nat | c < CARRIERS
      ensures HeldAt(r, c) == HeldAt(d, c) && BlockAt(r.frameData, c) == BlockAt(d.frameData, c)
    {
    }
  }

  /** One more copy, from a store that has gathered the copies before it. */
  lemma NextCopy(r: Station, s: Station, f: Frame, copies: seq<Copy>, x: Copy)
    requires IsData(f.ftype) && |f.blocks| == BlockCount(f.ftype) && f.ftype != r.inn.lastToHost && f.ftype != r.inn.lastACKed
    requires Listens(s) && Gathered(NewCollection(s.inn, f.ftype), f, copies)
    requires if Complete(f, copies) then
               s.inn.delivered == r.inn.delivered + Join(f.blocks) && s.inn.lastToHost == f.ftype && s.inn.lastACKed == f.ftype
             else
               s.inn.delivered == r.inn.delivered && s.inn.lastToHost == r.inn.lastToHost && s.inn.lastACKed == r.inn.lastACKed
    ensures var o := Hear(s, x.at, f, x.rx);
            Taken(r, o.s, f, copies + [x]) && if Complete(f, copies + [x]) then IsAckFrame(o.tx) else IsNakFrame(o.tx)
  {
    hide Hear, Gathered, Complete, Join, IsData, Demodulated, NewCollection, AllHeld, Collected, ReceiveIRSData, Listens, BlockCount;
    var d := Demodulated(NewCollection(s.inn, f.ftype), f, x.rx);
    var s1 := s.(inn := d);
    var n := BlockCount(f.ftype);
    CopyIsDecoded(s, f, x);
    OneCopyMore(NewCollection(s.inn, f.ftype), f, copies, x);
    StoreKeepsRest(s.inn, f, x.rx);
    AllGathered(d, f, copies + [x]);
    if Complete(f, copies) { MoreIsComplete(f, copies, x); }
    StillListens(s, s1);
    CopyIsAnswered(s1, x.at, f.ftype, Collected(d, n), AllHeld(d, n), x.rx);
    SameStore(Hear(s, x.at, f, x.rx).s.inn, d, f, copies + [x]);
  }

  lemma StillListens(s: Station, s1: Station)
    requires Listens(s) && s1 == s.(inn := s1.inn)
    ensures Listens(s1)
  {
  }

  lemma MoreIsComplete(f: Frame, copies: seq<Copy>, x: Copy)
    requires Complete(f, copies)
    ensures Complete(f, copies + [x])
  {
    hide GoodAt, BlockCount;
    assert (copies + [x])[..|copies|] == copies;
    forall c: nat | c < BlockCount(f.ftype) ensures GoodInSome(copies + [x], c) {
      assert GoodInSome(copies, c);
    }
  }

  /** Over any number of copies of a new frame, whatever is read for their bad blocks: as long as some block has been bad in all
      of them the answer is a NAK and nothing is passed on; from the copy on that completes the frame the answer is an ACK,
      and the host has been given the frame, once. */
  lemma {:induction false} CopiesComplete(r: Station, f: Frame, copies: seq<Copy>)
    requires Listens(r) && IsData(f.ftype) && |f.blocks| == BlockCount(f.ftype) && copies != []
    requires f.ftype != r.inn.lastType && f.ftype != r.inn.lastToHost && f.ftype != r.inn.lastACKed
    ensures var o := HearCopies(r, f, copies);
            Taken(r, o.s, f, copies) && if Complete(f, copies) then IsAckFrame(o.tx) else IsNakFrame(o.tx)
    decreases |copies|
  {
    hide Hear, Gathered, Complete, Join, IsData, NewCollection, Listens, BlockCount;
    var before, x := copies[..|copies| - 1], copies[|copies| - 1];
    assert copies == before + [x];
    if before == [] {
      NothingGathered(r.inn, f);
      NoneComplete(f);
      NextCopy(r, r, f, [], x);
    } else {
      CopiesComplete(r, f, before);
      var s := HearCopies(r, f, before).s;
      GatheredStays(s.inn, f, before);
      NextCopy(r, s, f, before, x);
    }
  }

  lemma NoneComplete(f: Frame)
    requires IsData(f.ftype)
    ensures !Complete(f, [])
  {
    hide IsData, Shape;
    ModeOfData(f.ftype);
    CapacitiesAgree(Even(f.ftype));
    assert BlockCount(f.ftype) > 0;
    assert !GoodInSome([], 0);
  }
}
