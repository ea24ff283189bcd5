/** Runs of the dictionary (src/dict.cpp) under the hash it uses: adding after a deletion can lose
    keys, fill the table, or never end. */
module DictionaryRuns {
  import opened Dictionary
  import opened Options
  import opened Probe

  // ---------- the hash ----------

  function Mix(h: bv32, c: bv32): bv32
  {
    var a := h + c;
    var b := a + (a << 10);
    b ^ (b >> 6)
  }

  function Finish(h: bv32): bv32
  {
    var a := h + (h << 3);
    var b := a ^ (a >> 11);
    b + (b << 15)
  }

  /** A byte, which counts as a signed number. */
  function CharWord(c: char): bv32
  {
    var code := c as int % 256;
    if code < 128 then code as bv32 else (WORD - 256 + code) as bv32
  }

  function MixAll(key: Key): bv32
  {
    if key == [] then 0 else Mix(MixAll(key[..|key| - 1]), CharWord(key[|key| - 1]))
  }

  /** The hash that the dictionary is compiled with. */
  function Dobbs(key: Key): Word
  {
    Finish(MixAll(key)) as Word
  }

  lemma DobbsOfLetter(c: char, code: bv32, h: bv32)
    requires c as int < 128 && c as int as bv32 == code && h == Finish(Mix(0, code))
    ensures Dobbs([c]) == h as Word
  {
    assert [c][..0] == [];
    assert MixAll([c]) == Mix(MixAll([]), CharWord(c));
  }

  lemma HashA() ensures Dobbs("a") == 3392050242 { DobbsOfLetter('a', 97, 3392050242); }

  lemma HashB() ensures Dobbs("b") == 14385563 { DobbsOfLetter('b', 98, 14385563); }

  lemma HashC() ensures Dobbs("c") == 4005191001 { DobbsOfLetter('c', 99, 4005191001); }

  lemma HashD() ensures Dobbs("d") == 592496261 { DobbsOfLetter('d', 100, 592496261); }

  lemma HashE() ensures Dobbs("e") == 286663184 { DobbsOfLetter('e', 101, 286663184); }

  lemma HashF() ensures Dobbs("f") == 1208324078 { DobbsOfLetter('f', 102, 1208324078); }

  lemma HashG() ensures Dobbs("g") == 898886411 { DobbsOfLetter('g', 103, 898886411); }

  lemma HashH() ensures Dobbs("h") == 1879302122 { DobbsOfLetter('h', 104, 1879302122); }

  lemma HashZ() ensures Dobbs("z") == 3059772574 { DobbsOfLetter('z', 122, 3059772574); }

  // ---------- runs ----------

  datatype Call = Put(key: Key, val: Key) | Remove(key: Key)

  /** What a sequence of calls makes of a dictionary, or None when one of them never returns. */
  ghost function Run(s: Fields, calls: seq<Call>): (r: Option<Fields>)
    requires |s.table| > 0
    ensures r.Some? ==> |r.value.table| > 0
  {
    if calls == [] then Some(s)
    else
      match Run(s, calls[..|calls| - 1])
      case None => None
      case Some(u) => Perform(u, calls[|calls| - 1])
  }

  ghost function Perform(s: Fields, call: Call): (r: Option<Fields>)
    requires |s.table| > 0
    ensures r.Some? ==> |r.value.table| > 0
  {
    match call
    case Put(key, val) => AddStep(s, Dobbs, key, Some(val))
    case Remove(key) => DeleteStep(s, Dobbs, key)
  }

  function New(): (s: Fields)
    ensures |s.table| == MIN_SIZE
  {
    Fields(EmptyTable(MIN_SIZE), 0, 0)
  }

  lemma RunOneMore(s: Fields, calls: seq<Call>, k: nat)
    requires |s.table| > 0 && k < |calls|
    ensures Run(s, calls[..k + 1]) == match Run(s, calls[..k]) case None => None case Some(u) => Perform(u, calls[k])
  {
    assert calls[..k + 1][..k] == calls[..k];
  }

  /** The last value added with each key. */
  function LastValues(calls: seq<Call>): map<Key, Option<Key>>
    requires forall c :: c in calls ==> c.Put?
  {
    if calls == [] then map[]
    else
      var last := calls[|calls| - 1];
      LastValues(calls[..|calls| - 1])[last.key := Some(last.val)]
  }

  /** Without deletions every run of the dictionary returns, and looking up finds for every key the
      value last added with it. */
  lemma {:induction false} AddsAreFound(calls: seq<Call>, key: Key)
    requires forall c :: c in calls ==> c.Put?
    ensures var r := Run(New(), calls);
            && r.Some? && Sound(r.value, Dobbs, LastValues(calls))
            && GetStep(r.value.table, Dobbs, key) == Some(Lookup(LastValues(calls), key))
  {
    hide TableOk, Represents, CountUsed, PowerOfTwo, FirstStop, ProbeAt, Dobbs;
    AddsAreSound(calls);
    var t := Run(New(), calls).value.table;
    SearchReturns(t, key, Dobbs(key));
    SearchDecides(t, Dobbs, LastValues(calls), key, Seek(t, key, Dobbs(key)).value);
  }

  lemma {:induction false} AddsAreSound(calls: seq<Call>)
    requires forall c :: c in calls ==> c.Put?
    ensures var r := Run(New(), calls); r.Some? && Sound(r.value, Dobbs, LastValues(calls))
  {
    if calls == [] {
      NothingInEmptyTable(MIN_SIZE);
    } else {
      hide Sound, Dobbs, AddStep;
      var front, last := calls[..|calls| - 1], calls[|calls| - 1];
      assert last in calls;
      AddsAreSound(front);
      AddKeeps(Run(New(), front).value, Dobbs, LastValues(front), last.key, Some(last.val));
    }
  }

  /** A search that meets its first empty slot after n steps over slots of other keys. */
  lemma StopsOnEmpty(t: seq<Slot>, key: Key, n: nat)
    requires |t| > 0 && t[ProbeAt(Dobbs(key), |t|, n)].Empty?
    requires forall m: nat :: m < n ==> var slot := t[ProbeAt(Dobbs(key), |t|, m)]; slot.Used? && slot.key != key
    ensures Seek(t, key, Dobbs(key)) == Some(n)
  {
    forall m: nat | m < n ensures !StopsAt(t, key, Dobbs(key), m) {
      assert t[ProbeAt(Dobbs(key), |t|, m)].Used?;
    }
    assert FirstStop(t, key, Dobbs(key), n);
    SeekIs(t, key, Dobbs(key), n);
  }

  function Kept(key: Key, val: Key): Slot
  {
    Used(key, Some(val), Dobbs(key))
  }

  /** An add that finds an empty slot in a table that is not due to grow, or that stays as it is. */
  lemma AddsAt(s: Fields, key: Key, val: Key, n: nat)
    requires |s.table| == MIN_SIZE && Seek(s.table, key, Dobbs(key)) == Some(n)
    requires s.table[ProbeAt(Dobbs(key), MIN_SIZE, n)].Empty?
    requires s.fill < 5 || s.used == 0
    ensures Perform(s, Put(key, val)) ==
            Some(Fields(s.table[ProbeAt(Dobbs(key), MIN_SIZE, n) := Kept(key, val)], s.fill + 1, s.used + 1))
  {
    hide ProbeAt, Dobbs, Seek;
    if s.used == 0 {
      StaysExactly(MIN_SIZE, 1);
    }
  }

  /** Deleting a key that is not there only counts. */
  lemma MissesAt(s: Fields, key: Key, n: nat)
    requires |s.table| == MIN_SIZE && Seek(s.table, key, Dobbs(key)) == Some(n)
    requires s.table[ProbeAt(Dobbs(key), MIN_SIZE, n)].Empty?
    ensures Perform(s, Remove(key)) == Some(s.(used := s.used - 1))
  {
    hide ProbeAt, Dobbs, Seek;
    var i := ProbeAt(Dobbs(key), MIN_SIZE, n);
    assert s.table[i := Empty] == s.table;
  }

  // ---------- five keys ----------

  /** The slots after adding a, b, c, d, e, with the rest as given. */
  function Five(v: Key, s4: Slot, s6: Slot, s7: Slot): (t: seq<Slot>)
    ensures |t| == MIN_SIZE
  {
    [Kept("e", v), Kept("c", v), Kept("a", v), Kept("b", v), s4, Kept("d", v), s6, s7]
  }

  lemma FirstSlots()
    ensures ProbeAt(Dobbs("a"), 8, 0) == 2 && ProbeAt(Dobbs("b"), 8, 0) == 3 && ProbeAt(Dobbs("c"), 8, 0) == 1
    ensures ProbeAt(Dobbs("d"), 8, 0) == 5 && ProbeAt(Dobbs("e"), 8, 0) == 0 && ProbeAt(Dobbs("f"), 8, 0) == 6
    ensures ProbeAt(Dobbs("h"), 8, 0) == 2 && ProbeAt(Dobbs("z"), 8, 0) == 6
  {
    hide Dobbs;
    HashA(); HashB(); HashC(); HashD(); HashE(); HashF(); HashH(); HashZ();
  }

  lemma AddFive(calls: seq<Call>, v: Key)
    requires |calls| >= 5
    requires calls[..5] == [Put("a", v), Put("b", v), Put("c", v), Put("d", v), Put("e", v)]
    ensures Run(New(), calls[..5]) == Some(Fields(Five(v, Empty, Empty, Empty), 5, 5))
  {
    hide ProbeAt, Dobbs, Seek, Perform;
    FirstSlots();
    var t: seq<Slot>, keys := New().table, ["a", "b", "c", "d", "e"];
    for k := 0 to 5
      invariant |t| == MIN_SIZE && Run(New(), calls[..k]) == Some(Fields(t, k, k))
      invariant forall j :: k <= j < 5 ==> t[ProbeAt(Dobbs(keys[j]), 8, 0)].Empty?
      invariant t == [if k > 4 then Kept("e", v) else Empty, if k > 2 then Kept("c", v) else Empty,
                      if k > 0 then Kept("a", v) else Empty, if k > 1 then Kept("b", v) else Empty, Empty,
                      if k > 3 then Kept("d", v) else Empty, Empty, Empty]
    {
      RunOneMore(New(), calls, k);
      assert calls[k] == calls[..5][k] == Put(keys[k], v);
      StopsOnEmpty(t, keys[k], 0);
      AddsAt(Fields(t, k, k), keys[k], v, 0);
      t := t[ProbeAt(Dobbs(keys[k]), 8, 0) := Kept(keys[k], v)];
    }
  }

  /** Deleting z while its first slot is free. */
  lemma {:induction false} MissesZ(s: Fields, calls: seq<Call>, k: nat, n: nat)
    requires |s.table| == MIN_SIZE && s.table[6].Empty? && k + n <= |calls|
    requires Run(New(), calls[..k]) == Some(s) && forall j :: k <= j < k + n ==> calls[j] == Remove("z")
    ensures Run(New(), calls[..k + n]) == Some(s.(used := s.used - n))
  {
    hide ProbeAt, Dobbs, Seek, Perform;
    if n == 0 {
    } else {
      MissesZ(s, calls, k, n - 1);
      RunOneMore(New(), calls, k + n - 1);
      FirstSlots();
      StopsOnEmpty(s.table, "z", 0);
      MissesAt(s.(used := s.used - (n - 1)), "z", 0);
    }
  }

  // ---------- a table that fills up ----------

  /** The rest of a path in a table of eight slots, given what is left of the hash. */
  predicate Leads(path: seq<nat>, k: nat, perturb: nat)
    decreases |path| - k
  {
    k + 1 >= |path| || (path[k + 1] == (5 * path[k] + perturb + 1) % 8 && Leads(path, k + 1, perturb / 32))
  }

  lemma {:induction false} LeadsAlongProbe(h: Word, path: seq<nat>, k: nat, j: nat)
    requires k <= j < |path| && path[k] == ProbeAt(h, 8, k) && Leads(path, k, Perturb(h, k))
    ensures path[j] == ProbeAt(h, 8, j)
    decreases j - k
  {
    if k < j {
      ProbeStep(h, 8, k);
      LeadsAlongProbe(h, path, k + 1, j);
    }
  }

  lemma PathOf(key: Key, h: Word, path: seq<nat>)
    requires Dobbs(key) == h && |path| > 0 && path[0] == h % 8 && Leads(path, 0, h)
    ensures forall m: nat :: m < |path| ==> ProbeAt(Dobbs(key), 8, m) == path[m]
  {
    hide Dobbs, Leads, ProbeAt, Perturb;
    ProbeStep(h, 8, 0);
    forall m: nat | m < |path| ensures ProbeAt(h, 8, m) == path[m] {
      LeadsAlongProbe(h, path, 0, m);
    }
  }

  function PathOfZ(): seq<nat> { [6, 5, 6, 2, 3, 6, 2, 5, 2, 3, 0, 1, 6, 7, 4] }

  function PathOfG(): seq<nat> { [3, 3, 0, 3, 7] }

  function PathOfH(): seq<nat> { [2, 5, 1, 5, 1, 6, 7, 5, 2, 3, 0, 1, 6, 7, 4] }

  lemma PathZ()
    ensures Leads(PathOfZ(), 0, 3059772574)
  {
    assert Leads(PathOfZ(), 11, 0);
    assert Leads(PathOfZ(), 7, 0);
    assert Leads(PathOfZ(), 4, 2918);
  }

  lemma PathG()
    ensures Leads(PathOfG(), 0, 898886411)
  {
    assert Leads(PathOfG(), 2, 877818);
  }

  lemma PathH()
    ensures Leads(PathOfH(), 0, 1879302122)
  {
    assert Leads(PathOfH(), 11, 0);
    assert Leads(PathOfH(), 7, 0);
    assert Leads(PathOfH(), 4, 1792);
  }

  /** Five adds, five deletions of a key that is not there, and three more adds with a deletion
      between each: every add after the fifth is due to grow the table, and none does. */
  function Filling(v: Key): (calls: seq<Call>)
    ensures |calls| == 15
  {
    [Put("a", v), Put("b", v), Put("c", v), Put("d", v), Put("e", v),
     Remove("z"), Remove("z"), Remove("z"), Remove("z"), Remove("z"),
     Put("f", v), Remove("z"), Put("g", v), Remove("z"), Put("h", v)]
  }

  lemma AfterFive(v: Key)
    ensures Run(New(), Filling(v)[..10]) == Some(Fields(Five(v, Empty, Empty, Empty), 5, 0))
  {
    hide Run, Dobbs;
    AddFive(Filling(v), v);
    MissesZ(Fields(Five(v, Empty, Empty, Empty), 5, 5), Filling(v), 5, 5);
  }

  lemma AfterF(v: Key)
    ensures Run(New(), Filling(v)[..12]) == Some(Fields(Five(v, Empty, Kept("f", v), Empty), 6, 0))
  {
    hide Run, Dobbs, Perform, Seek, ProbeAt, Leads;
    AfterFive(v);
    var t, u := Five(v, Empty, Empty, Empty), Five(v, Empty, Kept("f", v), Empty);
    FirstSlots();
    StopsOnEmpty(t, "f", 0);
    RunOneMore(New(), Filling(v), 10);
    AddsAt(Fields(t, 5, 0), "f", v, 0);
    assert t[6 := Kept("f", v)] == u;
    RunOneMore(New(), Filling(v), 11);
    HashZ(); PathZ(); PathOf("z", 3059772574, PathOfZ());
    StopsOnEmpty(u, "z", 13);
    MissesAt(Fields(u, 6, 1), "z", 13);
  }

  lemma AfterG(v: Key)
    ensures Run(New(), Filling(v)[..14]) == Some(Fields(Five(v, Empty, Kept("f", v), Kept("g", v)), 7, 0))
  {
    hide Run, Dobbs, Perform, Seek, ProbeAt, Leads;
    AfterF(v);
    var t, u := Five(v, Empty, Kept("f", v), Empty), Five(v, Empty, Kept("f", v), Kept("g", v));
    HashG(); PathG(); PathOf("g", 898886411, PathOfG());
    StopsOnEmpty(t, "g", 4);
    RunOneMore(New(), Filling(v), 12);
    AddsAt(Fields(t, 6, 0), "g", v, 4);
    assert t[7 := Kept("g", v)] == u;
    RunOneMore(New(), Filling(v), 13);
    HashZ(); PathZ(); PathOf("z", 3059772574, PathOfZ());
    StopsOnEmpty(u, "z", 14);
    MissesAt(Fields(u, 7, 1), "z", 14);
  }

  lemma AfterH(v: Key)
    ensures Run(New(), Filling(v)) == Some(Fields(Five(v, Kept("h", v), Kept("f", v), Kept("g", v)), 8, 1))
  {
    hide Run, Dobbs, Perform, Seek, ProbeAt, Leads;
    AfterG(v);
    var t := Five(v, Empty, Kept("f", v), Kept("g", v));
    HashH(); PathH(); PathOf("h", 1879302122, PathOfH());
    StopsOnEmpty(t, "h", 14);
    RunOneMore(New(), Filling(v), 14);
    AddsAt(Fields(t, 7, 0), "h", v, 14);
    assert t[4 := Kept("h", v)] == Five(v, Kept("h", v), Kept("f", v), Kept("g", v));
    assert Filling(v)[..15] == Filling(v);
  }

  /** Deletions can keep a table from growing until it is full. From then on looking up, adding or
      deleting any key that is not in it never returns. */
  lemma DeletionsCanFillTheTable(v: Key, key: Key)
    requires key !in ["a", "b", "c", "d", "e", "f", "g", "h"]
    ensures var r := Run(New(), Filling(v));
            && r.Some? && CountUsed(r.value.table) == |r.value.table| == MIN_SIZE
            && GetStep(r.value.table, Dobbs, key) == None
            && Perform(r.value, Put(key, v)) == None && Perform(r.value, Remove(key)) == None
  {
    hide Run, Dobbs, ProbeAt, CountUsed, Holds, Leads;
    AfterH(v);
    var t := Five(v, Kept("h", v), Kept("f", v), Kept("g", v));
    AllInUse(t);
    assert !Holds(t, key) by { KeysOfFull(v, key); }
    FullTableNeverEnds(t, key, Dobbs(key));
  }

  lemma KeysOfFull(v: Key, key: Key)
    requires key !in ["a", "b", "c", "d", "e", "f", "g", "h"]
    ensures !Holds(Five(v, Kept("h", v), Kept("f", v), Kept("g", v)), key)
  {
    hide Dobbs;
    var t := Five(v, Kept("h", v), Kept("f", v), Kept("g", v));
    forall i: nat | i < |t| ensures t[i].key != key {
      assert t[i].key in ["a", "b", "c", "d", "e", "f", "g", "h"];
    }
  }

  lemma {:induction false} AllInUse(t: seq<Slot>)
    requires forall i :: 0 <= i < |t| ==> t[i].Used?
    ensures CountUsed(t) == |t|
  {
    if t == [] {
    } else {
      AllInUse(t[..|t| - 1]);
    }
  }

  // ---------- a count that wraps, and a key that is lost ----------

  function Wrapping(v: Key): (calls: seq<Call>)
    ensures |calls| == 12
  {
    [Put("a", v), Put("b", v), Put("c", v), Put("d", v), Put("e", v),
     Remove("z"), Remove("z"), Remove("z"), Remove("z"), Remove("z"), Remove("z"), Remove("z")]
  }

  /** Two deletions more than adds, and the add that is due to grow the table never returns: the
      count has wrapped. */
  lemma DeletionsCanStopGrowth(v: Key)
    ensures var r := Run(New(), Wrapping(v));
            && r == Some(Fields(Five(v, Empty, Empty, Empty), 5, -2))
            && Perform(r.value, Put("f", v)) == None
  {
    hide Run, Dobbs, ProbeAt, Seek;
    AddFive(Wrapping(v), v);
    var s := Fields(Five(v, Empty, Empty, Empty), 5, 5);
    MissesZ(s, Wrapping(v), 5, 7);
    assert Wrapping(v)[..12] == Wrapping(v);
    FirstSlots();
    StopsOnEmpty(s.table, "f", 0);
  }

  function Hiding(v: Key): (calls: seq<Call>)
    ensures |calls| == 3
  {
    [Put("a", v), Put("h", v), Remove("a")]
  }

  /** A table with the slots that the searches for a and h begin with. */
  function Two(s2: Slot, s5: Slot): (t: seq<Slot>)
    ensures |t| == MIN_SIZE
  {
    [Empty, Empty, s2, Empty, Empty, s5, Empty, Empty]
  }

  lemma AfterTwo(v: Key)
    ensures Run(New(), Hiding(v)[..2]) == Some(Fields(Two(Kept("a", v), Kept("h", v)), 2, 2))
  {
    hide Run, Dobbs, ProbeAt, Seek, Perform, Leads;
    FirstSlots();
    assert New() == Fields(Two(Empty, Empty), 0, 0);
    StopsOnEmpty(Two(Empty, Empty), "a", 0);
    AddsAt(Fields(Two(Empty, Empty), 0, 0), "a", v, 0);
    RunNothing(New(), Hiding(v));
    RunOneMore(New(), Hiding(v), 0);
    var u := Two(Kept("a", v), Empty);
    assert Two(Empty, Empty)[2 := Kept("a", v)] == u;
    HashH(); PathH(); PathOf("h", 1879302122, PathOfH());
    StopsOnEmpty(u, "h", 1);
    AddsAt(Fields(u, 1, 1), "h", v, 1);
    RunOneMore(New(), Hiding(v), 1);
    assert u[5 := Kept("h", v)] == Two(Kept("a", v), Kept("h", v));
  }

  lemma RunNothing(s: Fields, calls: seq<Call>)
    requires |s.table| > 0
    ensures Run(s, calls[..0]) == Some(s)
  {
  }

  /** Deleting a key can hide another one: h is still stored and is no longer found. */
  lemma DeletionCanHideAKey(v: Key)
    ensures var r := Run(New(), Hiding(v));
            && r.Some? && Holds(r.value.table, "h")
            && GetStep(r.value.table, Dobbs, "h") == Some(None)
  {
    hide Run, Dobbs, ProbeAt, Seek, Perform;
    AfterTwo(v);
    FirstSlots();
    var t, u := Two(Kept("a", v), Kept("h", v)), Two(Empty, Kept("h", v));
    ClearsFirst(Fields(t, 2, 2), "a");
    assert t[2 := Empty] == u;
    RunOneMore(New(), Hiding(v), 2);
    assert Hiding(v)[..3] == Hiding(v);
    StopsOnEmpty(u, "h", 0);
    assert u[5].key == "h";
  }

  lemma ClearsFirst(s: Fields, key: Key)
    requires |s.table| > 0
    requires var slot := s.table[ProbeAt(Dobbs(key), |s.table|, 0)]; slot.Used? && slot.key == key
    ensures Perform(s, Remove(key)) ==
            Some(s.(table := s.table[ProbeAt(Dobbs(key), |s.table|, 0) := Empty], used := s.used - 1))
  {
    hide Dobbs, ProbeAt;
    assert FirstStop(s.table, key, Dobbs(key), 0);
    SeekIs(s.table, key, Dobbs(key), 0);
  }
}
