/** The open-addressing dictionary (src/dict.cpp): a table of slots searched along the probe
    sequence, growing as it fills, that behaves as a finite map. */
module Dictionary {
  import opened Options
  import opened Probe

  type Key = seq<char>
  type Hash = Key -> Word

  /** A value of None is the null pointer. */
  datatype Slot = Empty | Used(key: Key, val: Option<Key>, hash: Word)

  const MIN_SIZE := 8
  const BIG_SIZE := 64000

  // ---------- what a table means ----------

  predicate Stops(t: seq<Slot>, key: Key, i: nat)
    requires i < |t|
  {
    t[i].Empty? || t[i].key == key
  }

  predicate StopsAt(t: seq<Slot>, key: Key, h: Word, n: nat)
    requires |t| > 0
  {
    Stops(t, key, ProbeAt(h, |t|, n))
  }

  /** The search for key ends after n steps and not before. */
  predicate FirstStop(t: seq<Slot>, key: Key, h: Word, n: nat)
    requires |t| > 0
  {
    StopsAt(t, key, h, n) && forall m: nat :: m < n ==> !StopsAt(t, key, h, m)
  }

  /** Each key is stored with its own hash. */
  ghost predicate HashesOk(t: seq<Slot>, hash: Hash)
  {
    forall i: nat :: i < |t| && t[i].Used? ==> t[i].hash == hash(t[i].key)
  }

  ghost predicate Findable(t: seq<Slot>, key: Key, h: Word, i: nat)
    requires |t| > 0
  {
    exists n: nat :: FirstStop(t, key, h, n) && ProbeAt(h, |t|, n) == i
  }

  /** Every key in the table is where the search for it ends. */
  ghost predicate TableOk(t: seq<Slot>, hash: Hash)
  {
    && |t| > 0
    && forall i: nat :: i < |t| && t[i].Used? ==> t[i].hash == hash(t[i].key) && Findable(t, t[i].key, t[i].hash, i)
  }

  predicate Holds(t: seq<Slot>, key: Key)
  {
    exists i: nat :: i < |t| && t[i].Used? && t[i].key == key
  }

  ghost predicate Represents(t: seq<Slot>, m: map<Key, Option<Key>>)
  {
    && (forall i: nat :: i < |t| && t[i].Used? ==> t[i].key in m && m[t[i].key] == t[i].val)
    && (forall key :: key in m ==> Holds(t, key))
  }

  function CountUsed(t: seq<Slot>): (n: nat)
    ensures n <= |t|
  {
    if t == [] then 0 else CountUsed(t[..|t| - 1]) + if t[|t| - 1].Used? then 1 else 0
  }

  function Lookup(m: map<Key, Option<Key>>, key: Key): Option<Key>
  {
    if key in m then m[key] else None
  }

  /** An add without a value keeps the value that is there. */
  function Added(m: map<Key, Option<Key>>, key: Key, val: Option<Key>): map<Key, Option<Key>>
  {
    m[key := if val.Some? then val else Lookup(m, key)]
  }

  // ---------- lemmas about tables ----------

  lemma StopIsUnique(t: seq<Slot>, key: Key, h: Word, m: nat, n: nat)
    requires |t| > 0 && FirstStop(t, key, h, m) && FirstStop(t, key, h, n)
    ensures m == n
  {
    assert !(m < n) && !(n < m);
  }

  /** No key is in the table twice. */
  lemma KeysAreDistinct(t: seq<Slot>, hash: Hash, i: nat, j: nat)
    requires TableOk(t, hash) && i < |t| && j < |t| && t[i].Used? && t[j].Used? && t[i].key == t[j].key
    ensures i == j
  {
    var key, h := t[i].key, t[i].hash;
    var m: nat :| FirstStop(t, key, h, m) && ProbeAt(h, |t|, m) == i;
    var n: nat :| FirstStop(t, key, h, n) && ProbeAt(h, |t|, n) == j;
    StopIsUnique(t, key, h, m, n);
  }

  lemma MatchIsStop(t: seq<Slot>, hash: Hash, key: Key, i: nat)
    requires HashesOk(t, hash) && i < |t|
    ensures t[i].Empty? || (t[i].hash == hash(key) && t[i].key == key) <==> Stops(t, key, i)
  {
  }

  /** A key that is in the table is in the slot where the search for it ends, and nowhere else. */
  lemma StopIsOnlySlot(t: seq<Slot>, hash: Hash, key: Key, n: nat)
    requires TableOk(t, hash) && FirstStop(t, key, hash(key), n)
    ensures forall j: nat :: j < |t| && t[j].Used? && t[j].key == key ==> j == ProbeAt(hash(key), |t|, n)
  {
    forall j: nat | j < |t| && t[j].Used? && t[j].key == key ensures j == ProbeAt(hash(key), |t|, n) {
      var k: nat :| FirstStop(t, key, hash(key), k) && ProbeAt(hash(key), |t|, k) == j;
      StopIsUnique(t, key, hash(key), k, n);
    }
  }

  /** Where the search ends tells whether the key is there: it ends on an empty slot exactly
      when the key is in no slot. */
  lemma SearchDecides(t: seq<Slot>, hash: Hash, m: map<Key, Option<Key>>, key: Key, n: nat)
    requires TableOk(t, hash) && Represents(t, m) && FirstStop(t, key, hash(key), n)
    ensures var slot := t[ProbeAt(hash(key), |t|, n)];
            && (slot.Used? <==> key in m)
            && (slot.Used? ==> slot.val == m[key])
  {
    var i := ProbeAt(hash(key), |t|, n);
    if key in m {
      var j: nat :| j < |t| && t[j].Used? && t[j].key == key;
      var k: nat :| FirstStop(t, key, hash(key), k) && ProbeAt(hash(key), |t|, k) == j;
      StopIsUnique(t, key, hash(key), k, n);
    }
  }

  lemma {:induction false} SomeSlotIsEmpty(t: seq<Slot>) returns (i: nat)
    requires CountUsed(t) < |t|
    ensures i < |t| && t[i].Empty?
  {
    if t[|t| - 1].Empty? {
      i := |t| - 1;
    } else {
      i := SomeSlotIsEmpty(t[..|t| - 1]);
    }
  }

  /** A search of a table with an empty slot ends within seven steps more than its size. */
  lemma SearchEnds(t: seq<Slot>, key: Key, h: Word) returns (n: nat)
    requires PowerOfTwo(|t|) && CountUsed(t) < |t|
    ensures n < PERTURB_SHIFTS + |t| && StopsAt(t, key, h, n)
  {
    var i := SomeSlotIsEmpty(t);
    PerturbEnds(h, PERTURB_SHIFTS);
    n := ProbeCovers(h, |t|, PERTURB_SHIFTS, i);
  }

  /** A search that ends does so within seven steps more than the size. */
  lemma StopIsEarly(t: seq<Slot>, key: Key, h: Word, n: nat)
    requires PowerOfTwo(|t|) && |t| > 0 && FirstStop(t, key, h, n)
    ensures n < PERTURB_SHIFTS + |t|
  {
    PerturbEnds(h, PERTURB_SHIFTS);
    var m := ProbeCovers(h, |t|, PERTURB_SHIFTS, ProbeAt(h, |t|, n));
    assert StopsAt(t, key, h, m);
  }

  /** A search ends exactly when some slot is empty or holds the key, however the table came about. */
  lemma SearchEndsExactly(t: seq<Slot>, key: Key, h: Word)
    requires PowerOfTwo(|t|) && |t| > 0
    ensures (exists n: nat :: StopsAt(t, key, h, n)) <==> exists i: nat :: i < |t| && Stops(t, key, i)
  {
    if i: nat :| i < |t| && Stops(t, key, i) {
      PerturbEnds(h, PERTURB_SHIFTS);
      var n := ProbeCovers(h, |t|, PERTURB_SHIFTS, i);
      assert StopsAt(t, key, h, n);
    }
    if n: nat :| StopsAt(t, key, h, n) {
      assert Stops(t, key, ProbeAt(h, |t|, n));
    }
  }

  lemma {:induction false} FullHasNoEmptySlot(t: seq<Slot>, i: nat)
    requires CountUsed(t) == |t| && i < |t|
    ensures t[i].Used?
    decreases |t|
  {
    if i == |t| - 1 {
    } else {
      FullHasNoEmptySlot(t[..|t| - 1], i);
    }
  }

  /** In a full table the search for a key that is not there never ends. */
  lemma FullTableNeverEnds(t: seq<Slot>, key: Key, h: Word)
    requires PowerOfTwo(|t|) && |t| > 0
    ensures (forall n: nat :: !StopsAt(t, key, h, n)) <==> CountUsed(t) == |t| && !Holds(t, key)
  {
    SearchEndsExactly(t, key, h);
    if CountUsed(t) == |t| && !Holds(t, key) {
      forall i: nat | i < |t| ensures !Stops(t, key, i) {
        FullHasNoEmptySlot(t, i);
      }
    } else if CountUsed(t) < |t| {
      var i := SomeSlotIsEmpty(t);
      assert Stops(t, key, i);
    } else {
      var i: nat :| i < |t| && t[i].Used? && t[i].key == key;
      assert Stops(t, key, i);
    }
  }

  /** The size to grow to: doubled until it exceeds the bound. */
  function GrownSize(size: nat, bound: nat): (s: nat)
    requires size > 0
    ensures s >= size && s > bound
    decreases bound + 1 - size
  {
    if size <= bound then GrownSize(2 * size, bound) else size
  }

  function Factor(size: nat): nat { if size > BIG_SIZE then 2 else 4 }

  /** A table that is due to grow stays as it is exactly when deletions have brought its used count
      below a quarter of its size, or half of it for a large table. */
  lemma StaysExactly(size: nat, used: nat)
    requires size > 0
    ensures GrownSize(size, Factor(size) * used) == size <==> Factor(size) * used < size
  {
    if size <= Factor(size) * used {
      assert GrownSize(size, Factor(size) * used) == GrownSize(2 * size, Factor(size) * used) >= 2 * size;
    }
  }

  lemma {:induction false} CountAfterPut(t: seq<Slot>, i: nat, s: Slot)
    requires i < |t| && s.Used?
    ensures CountUsed(t[i := s]) == CountUsed(t) + if t[i].Used? then 0 else 1
  {
    var u, k := t[i := s], |t| - 1;
    if i == k {
      assert u[..k] == t[..k];
    } else {
      assert u[..k] == t[..k][i := s];
      CountAfterPut(t[..k], i, s);
    }
  }

  /** Filling the slot where the search for key ends keeps every other key findable. */
  lemma PutKeepsTable(t: seq<Slot>, hash: Hash, key: Key, val: Option<Key>, n: nat)
    requires TableOk(t, hash) && FirstStop(t, key, hash(key), n)
    ensures TableOk(t[ProbeAt(hash(key), |t|, n) := Used(key, val, hash(key))], hash)
  {
    var i := ProbeAt(hash(key), |t|, n);
    var u := t[i := Used(key, val, hash(key))];
    assert FirstStop(u, key, hash(key), n) by {
      forall m: nat | m < n ensures !StopsAt(u, key, hash(key), m) {
        assert !StopsAt(t, key, hash(key), m);
      }
    }
    assert Findable(u, key, hash(key), i);
    forall j: nat | j < |u| && u[j].Used?
      ensures u[j].hash == hash(u[j].key) && Findable(u, u[j].key, u[j].hash, j)
    {
      if j != i {
        OtherStaysFindable(t, u, hash, key, n, j);
      }
    }
  }

  lemma OtherStaysFindable(t: seq<Slot>, u: seq<Slot>, hash: Hash, key: Key, n: nat, j: nat)
    requires TableOk(t, hash) && FirstStop(t, key, hash(key), n)
    requires |u| == |t| && j < |t| && t[j].Used?
    requires j != ProbeAt(hash(key), |t|, n) && u[ProbeAt(hash(key), |t|, n)].Used?
    requires u[ProbeAt(hash(key), |t|, n)].key == key
    requires forall k :: 0 <= k < |t| && k != ProbeAt(hash(key), |t|, n) ==> u[k] == t[k]
    ensures Findable(u, t[j].key, t[j].hash, j)
  {
    var i, other, h := ProbeAt(hash(key), |t|, n), t[j].key, t[j].hash;
    var k: nat :| FirstStop(t, other, h, k) && ProbeAt(h, |t|, k) == j;
    if other == key {
      StopIsUnique(t, key, h, k, n);
    }
    forall m: nat | m < k ensures !StopsAt(u, other, h, m) {
      assert !StopsAt(t, other, h, m);
    }
    assert FirstStop(u, other, h, k);
  }

  lemma PutRepresents(t: seq<Slot>, hash: Hash, m: map<Key, Option<Key>>, key: Key, val: Option<Key>, n: nat)
    requires TableOk(t, hash) && Represents(t, m) && FirstStop(t, key, hash(key), n)
    ensures Represents(t[ProbeAt(hash(key), |t|, n) := Used(key, val, hash(key))], m[key := val])
  {
    var i := ProbeAt(hash(key), |t|, n);
    var u := t[i := Used(key, val, hash(key))];
    forall j: nat | j < |u| && u[j].Used?
      ensures u[j].key in m[key := val] && m[key := val][u[j].key] == u[j].val
    {
      if j != i && u[j].key == key {
        var k: nat :| FirstStop(t, key, hash(key), k) && ProbeAt(hash(key), |t|, k) == j;
        StopIsUnique(t, key, hash(key), k, n);
      }
    }
    forall k | k in m[key := val] ensures Holds(u, k) {
      if k == key {
        assert u[i].key == key;
      } else {
        assert Holds(t, k);
        var j: nat :| j < |t| && t[j].Used? && t[j].key == k;
        assert u[j].key == k;
      }
    }
  }

  // ---------- moving to a larger table ----------

  /** The slots of u are those of s, each where the search for its key ends. */
  ghost predicate Moved(u: seq<Slot>, s: seq<Slot>)
  {
    && (forall i: nat :: i < |u| && u[i].Used? ==> u[i] in s)
    && (forall i: nat :: i < |s| && s[i].Used? ==> s[i] in u)
  }

  /** What a copying put at the stop of the search makes of a table. */
  lemma PutAdds(t: seq<Slot>, hash: Hash, m: map<Key, Option<Key>>, key: Key, val: Option<Key>, n: nat)
    requires TableOk(t, hash) && Represents(t, m) && FirstStop(t, key, hash(key), n)
    ensures var i := ProbeAt(hash(key), |t|, n);
            var kept := if t[i].Used? then t[i].val else None;
            var u := t[i := Used(key, if val.None? then kept else val, hash(key))];
            TableOk(u, hash) && Represents(u, Added(m, key, val)) && CountUsed(u) <= CountUsed(t) + 1
  {
    hide TableOk, Represents, FirstStop, CountUsed, ProbeAt;
    var v := if val.Some? then val else Lookup(m, key);
    SearchDecides(t, hash, m, key, n);
    PutKeepsTable(t, hash, key, v, n);
    PutRepresents(t, hash, m, key, v, n);
    CountAfterPut(t, ProbeAt(hash(key), |t|, n), Used(key, v, hash(key)));
  }

  lemma MovedRepresents(u: seq<Slot>, s: seq<Slot>, m: map<Key, Option<Key>>)
    requires Moved(u, s) && Represents(s, m)
    ensures Represents(u, m)
  {
    forall key | key in m ensures Holds(u, key) {
      assert Holds(s, key);
      var i: nat :| i < |s| && s[i].Used? && s[i].key == key;
      var j: nat :| j < |u| && u[j] == s[i];
      assert u[j].key == key;
    }
  }

  /** The search in the new table for a key not yet moved ends on an empty slot. */
  lemma NewKeyMeetsEmpty(u: seq<Slot>, t: seq<Slot>, hash: Hash, k: nat, n: nat)
    requires TableOk(t, hash) && k < |t| && t[k].Used? && TableOk(u, hash)
    requires Moved(u, t[..k]) && FirstStop(u, t[k].key, t[k].hash, n)
    ensures u[ProbeAt(t[k].hash, |u|, n)].Empty?
  {
    var i := ProbeAt(t[k].hash, |u|, n);
    if u[i].Used? {
      EarlierKeysDiffer(t, hash, k, u[i]);
    }
  }

  lemma EarlierKeysDiffer(t: seq<Slot>, hash: Hash, k: nat, s: Slot)
    requires TableOk(t, hash) && k < |t| && t[k].Used? && s in t[..k] && s.Used?
    ensures s.key != t[k].key
  {
    var j: nat :| j < k && t[..k][j] == s;
    if s.key == t[k].key {
      KeysAreDistinct(t, hash, j, k);
    }
  }

  lemma MoveOneMore(u: seq<Slot>, t: seq<Slot>, k: nat, i: nat)
    requires k < |t| && t[k].Used? && i < |u| && u[i].Empty? && Moved(u, t[..k])
    ensures Moved(u[i := t[k]], t[..k + 1])
  {
    var v := u[i := t[k]];
    assert t[..k + 1] == t[..k] + [t[k]];
    forall j: nat | j < |v| && v[j].Used? ensures v[j] in t[..k + 1] {
      if j != i { assert u[j] in t[..k]; }
    }
    var w := t[..k + 1];
    forall j: nat | j < |w| && w[j].Used? ensures w[j] in v {
      if j < k {
        assert t[..k][j] in u;
        var l: nat :| l < |u| && u[l] == t[j];
        assert v[l] == t[j];
      } else {
        assert v[i] == t[k];
      }
    }
  }

  lemma MoveNothing(u: seq<Slot>, t: seq<Slot>, k: nat)
    requires k < |t| && t[k].Empty? && Moved(u, t[..k])
    ensures Moved(u, t[..k + 1])
  {
    assert t[..k + 1] == t[..k] + [t[k]];
    var w := t[..k + 1];
    forall j: nat | j < |w| && w[j].Used? ensures w[j] in u {
      assert t[..k][j] in u;
    }
  }

  lemma {:induction false} CountOfPrefix(t: seq<Slot>, k: nat)
    requires k <= |t|
    ensures CountUsed(t[..k]) <= CountUsed(t)
    decreases |t|
  {
    if k < |t| {
      assert t[..|t| - 1][..k] == t[..k];
      CountOfPrefix(t[..|t| - 1], k);
    } else {
      assert t[..k] == t;
    }
  }

  function EmptyTable(size: nat): (t: seq<Slot>)
    ensures |t| == size && forall i :: 0 <= i < size ==> t[i].Empty?
  {
    seq(size, _ => Empty)
  }

  lemma {:induction false} NothingInEmptyTable(size: nat)
    ensures CountUsed(EmptyTable(size)) == 0
  {
    if size == 0 {
    } else {
      assert EmptyTable(size)[..size - 1] == EmptyTable(size - 1);
      NothingInEmptyTable(size - 1);
    }
  }

  lemma {:induction false} CountOneMore(t: seq<Slot>, k: nat)
    requires k < |t|
    ensures CountUsed(t[..k + 1]) == CountUsed(t[..k]) + if t[k].Used? then 1 else 0
  {
    assert t[..k + 1][..k] == t[..k];
  }

  lemma SlotKeepsHash(t: seq<Slot>, hash: Hash, k: nat)
    requires TableOk(t, hash) && k < |t| && t[k].Used?
    ensures t[k].hash == hash(t[k].key)
  {
  }

  lemma StartMoving(u: seq<Slot>, t: seq<Slot>, size: nat, hash: Hash)
    requires |u| == size > 0 && forall i :: 0 <= i < size ==> u[i] == Empty
    ensures TableOk(u, hash) && Moved(u, t[..0]) && CountUsed(u) == 0 == CountUsed(t[..0])
  {
    assert u == EmptyTable(size);
    NothingInEmptyTable(size);
  }

  // ---------- adding and deleting, whatever the table ----------

  /** The fields of a dictionary. The program counts `used` as an unsigned number: a negative one
      here stands for the number it wraps to. */
  datatype Fields = Fields(table: seq<Slot>, fill: nat, used: int)

  function Unsigned(n: int): Word { n % WORD }

  function FirstFrom(t: seq<Slot>, key: Key, h: Word, m: nat, n: nat): (k: nat)
    requires |t| > 0 && m <= n && StopsAt(t, key, h, n)
    requires forall j: nat :: j < m ==> !StopsAt(t, key, h, j)
    ensures FirstStop(t, key, h, k)
    decreases n - m
  {
    if StopsAt(t, key, h, m) then m else FirstFrom(t, key, h, m + 1, n)
  }

  /** The steps after which the search for key ends, if it does. */
  ghost function Seek(t: seq<Slot>, key: Key, h: Word): (r: Option<nat>)
    requires |t| > 0
    ensures r.Some? ==> FirstStop(t, key, h, r.value)
    ensures r.None? ==> forall n: nat :: !StopsAt(t, key, h, n)
  {
    if exists n: nat :: StopsAt(t, key, h, n) then
      var n: nat :| StopsAt(t, key, h, n);
      Some(FirstFrom(t, key, h, 0, n))
    else None
  }

  lemma SeekIs(t: seq<Slot>, key: Key, h: Word, n: nat)
    requires |t| > 0 && FirstStop(t, key, h, n)
    ensures Seek(t, key, h) == Some(n)
  {
    assert StopsAt(t, key, h, n);
    StopIsUnique(t, key, h, n, Seek(t, key, h).value);
  }

  /** Writing a key where its search ends, or None when that never ends. */
  ghost function PutStep(s: Fields, hash: Hash, key: Key, val: Option<Key>, copy: bool): (r: Option<Fields>)
    requires |s.table| > 0
    ensures r.Some? ==> |r.value.table| == |s.table| && r.value.fill == s.fill + 1 && r.value.used == s.used + 1
  {
    match Seek(s.table, key, hash(key))
    case None => None
    case Some(n) =>
      var i := ProbeAt(hash(key), |s.table|, n);
      var kept := if s.table[i].Used? then s.table[i].val else None;
      var slot := Used(key, if copy && val.None? then kept else val, hash(key));
      Some(Fields(s.table[i := slot], s.fill + 1, s.used + 1))
  }

  /** The first k slots of t put into an empty table. */
  ghost function Reinserted(t: seq<Slot>, k: nat, size: nat, hash: Hash): (r: Option<Fields>)
    requires k <= |t| && size > 0
    ensures r.Some? ==> |r.value.table| == size
  {
    if k == 0 then Some(Fields(EmptyTable(size), 0, 0))
    else
      match Reinserted(t, k - 1, size, hash)
      case None => None
      case Some(s) => if t[k - 1].Used? then PutStep(s, hash, t[k - 1].key, t[k - 1].val, false) else Some(s)
  }

  /** Growing a table: never done when `used` has wrapped, nothing to do when it is small. */
  ghost function ResizeStep(s: Fields, hash: Hash): (r: Option<Fields>)
    requires |s.table| > 0
    ensures r.Some? ==> |r.value.table| >= |s.table|
  {
    if s.used < 0 then None
    else
      var size := GrownSize(|s.table|, Factor(|s.table|) * s.used);
      if size == |s.table| then Some(s) else Reinserted(s.table, |s.table|, size, hash)
  }

  lemma {:induction false} GrownIsTight(size: nat, bound: nat)
    requires size > 0
    ensures GrownSize(size, bound) == size || GrownSize(size, bound) <= 2 * bound
    decreases bound + 1 - size
  {
    if size <= bound {
      GrownIsTight(2 * size, bound);
    } else {
      assert GrownSize(size, bound) == size;
    }
  }

  /** What growing does to the size of a table: four times the used count, twice for a table of more than 64000 slots,
      has to fit, and no more than twice that is taken. A table in which it fits already stays. */
  lemma GrowsAsNeeded(s: Fields, hash: Hash)
    requires |s.table| > 0 && s.used >= 0
    ensures var r, wanted := ResizeStep(s, hash), (if |s.table| <= 64000 then 4 else 2) * s.used;
            && (wanted < |s.table| ==> r == Some(s))
            && (wanted >= |s.table| && r.Some? ==> wanted < |r.value.table| <= 2 * wanted)
  {
    GrownIsTight(|s.table|, Factor(|s.table|) * s.used);
  }

  ghost function AddStep(s: Fields, hash: Hash, key: Key, val: Option<Key>): (r: Option<Fields>)
    requires |s.table| > 0
    ensures r.Some? ==> |r.value.table| >= |s.table|
  {
    match PutStep(s, hash, key, val, true)
    case None => None
    case Some(u) => if 3 * u.fill >= 2 * |u.table| then ResizeStep(u, hash) else Some(u)
  }

  ghost function DeleteStep(s: Fields, hash: Hash, key: Key): (r: Option<Fields>)
    requires |s.table| > 0
    ensures r.Some? ==> |r.value.table| == |s.table|
  {
    match Seek(s.table, key, hash(key))
    case None => None
    case Some(n) => Some(s.(table := s.table[ProbeAt(hash(key), |s.table|, n) := Empty], used := s.used - 1))
  }

  lemma DeletesAt(s: Fields, hash: Hash, key: Key, n: nat)
    requires |s.table| > 0 && Seek(s.table, key, hash(key)) == Some(n)
    ensures DeleteStep(s, hash, key) ==
            Some(Fields(s.table[ProbeAt(hash(key), |s.table|, n) := Empty], s.fill, s.used - 1))
  {
  }

  ghost function GetStep(t: seq<Slot>, hash: Hash, key: Key): Option<Option<Key>>
    requires |t| > 0
  {
    match Seek(t, key, hash(key))
    case None => None
    case Some(n) => Some(match t[ProbeAt(hash(key), |t|, n)] case Empty => None case Used(_, v, _) => v)
  }

  /** A table as it is as long as nothing has been deleted. */
  ghost predicate Sound(s: Fields, hash: Hash, m: map<Key, Option<Key>>)
  {
    && PowerOfTwo(|s.table|) && |s.table| >= MIN_SIZE
    && TableOk(s.table, hash)
    && Represents(s.table, m)
    && CountUsed(s.table) <= s.fill == s.used
    && 3 * s.fill < 2 * |s.table|
  }

  lemma SearchReturns(t: seq<Slot>, key: Key, h: Word)
    requires PowerOfTwo(|t|) && |t| > 0 && CountUsed(t) < |t|
    ensures Seek(t, key, h).Some?
  {
    var n := SearchEnds(t, key, h);
  }

  lemma SoundReturns(s: Fields, hash: Hash, m: map<Key, Option<Key>>, key: Key)
    requires Sound(s, hash, m)
    ensures |s.table| > 0 && Seek(s.table, key, hash(key)).Some?
  {
    SearchReturns(s.table, key, hash(key));
  }

  lemma HashesAfterPut(t: seq<Slot>, hash: Hash, i: nat, key: Key, val: Option<Key>)
    requires HashesOk(t, hash) && i < |t|
    ensures HashesOk(t[i := Used(key, val, hash(key))], hash)
  {
  }

  lemma HashesAfterClear(t: seq<Slot>, hash: Hash, i: nat)
    requires HashesOk(t, hash) && i < |t|
    ensures HashesOk(t[i := Empty], hash)
  {
  }

  /** Putting fewer slots than the new table has always ends, with at most as many slots in use. */
  lemma {:induction false} ReinsertEnds(t: seq<Slot>, k: nat, size: nat, hash: Hash)
    requires k <= |t| < size && PowerOfTwo(size) && HashesOk(t, hash)
    ensures var r := Reinserted(t, k, size, hash);
            r.Some? && CountUsed(r.value.table) <= r.value.fill == r.value.used <= k && HashesOk(r.value.table, hash)
  {
    if k == 0 {
      NothingInEmptyTable(size);
    } else {
      hide FirstStop, CountUsed, PowerOfTwo;
      ReinsertEnds(t, k - 1, size, hash);
      if t[k - 1].Used? {
        var u, key, h := Reinserted(t, k - 1, size, hash).value.table, t[k - 1].key, t[k - 1].hash;
        SearchReturns(u, key, h);
        var i := ProbeAt(h, size, Seek(u, key, h).value);
        HashesAfterPut(u, hash, i, key, t[k - 1].val);
        CountAfterPut(u, i, t[k - 1]);
      }
    }
  }

  /** In a searchable table each slot moves to the place its search finds. */
  lemma {:induction false} ReinsertedIsMoved(t: seq<Slot>, k: nat, size: nat, hash: Hash)
    requires k <= |t| < size && PowerOfTwo(size) && TableOk(t, hash)
    ensures var r := Reinserted(t, k, size, hash);
            r.Some? && TableOk(r.value.table, hash) && Moved(r.value.table, t[..k])
            && CountUsed(r.value.table) == r.value.fill == r.value.used == CountUsed(t[..k])
  {
    hide TableOk, FirstStop, CountUsed, PowerOfTwo, Moved, ProbeAt;
    if k == 0 {
      StartMoving(EmptyTable(size), t, size, hash);
    } else {
      ReinsertedIsMoved(t, k - 1, size, hash);
      CountOneMore(t, k - 1);
      var s := Reinserted(t, k - 1, size, hash).value;
      if t[k - 1].Used? {
        MoveSlot(s.table, t, k - 1, hash);
      } else {
        MoveNothing(s.table, t, k - 1);
      }
    }
  }

  lemma MoveSlot(u: seq<Slot>, t: seq<Slot>, k: nat, hash: Hash)
    requires k < |t| < |u| && PowerOfTwo(|u|) && TableOk(t, hash) && t[k].Used?
    requires TableOk(u, hash) && Moved(u, t[..k]) && CountUsed(u) == CountUsed(t[..k])
    ensures t[k].hash == hash(t[k].key) && Seek(u, t[k].key, t[k].hash).Some?
    ensures var i := ProbeAt(t[k].hash, |u|, Seek(u, t[k].key, t[k].hash).value);
            TableOk(u[i := t[k]], hash) && Moved(u[i := t[k]], t[..k + 1]) && CountUsed(u[i := t[k]]) == CountUsed(u) + 1
  {
    hide TableOk, FirstStop, PowerOfTwo, Moved, ProbeAt, CountUsed;
    SlotKeepsHash(t, hash, k);
    CountOfPrefix(t, k);
    assert CountUsed(t) <= |t|;
    SearchReturns(u, t[k].key, t[k].hash);
    var n := Seek(u, t[k].key, t[k].hash).value;
    NewKeyMeetsEmpty(u, t, hash, k, n);
    PutKeepsTable(u, hash, t[k].key, t[k].val, n);
    MoveOneMore(u, t, k, ProbeAt(t[k].hash, |u|, n));
    CountAfterPut(u, ProbeAt(t[k].hash, |u|, n), t[k]);
  }

  lemma {:induction false} GrownIsPower(size: nat, bound: nat)
    requires PowerOfTwo(size) && size > 0
    ensures PowerOfTwo(GrownSize(size, bound))
    decreases bound + 1 - size
  {
    if size <= bound {
      GrownIsPower(2 * size, bound);
    }
  }

  /** A searchable table that is full enough grows at least twofold, represents the same map, and
      is searchable and not too full again. */
  lemma ResizeKeeps(s: Fields, hash: Hash, m: map<Key, Option<Key>>)
    requires PowerOfTwo(|s.table|) && |s.table| >= MIN_SIZE && TableOk(s.table, hash) && Represents(s.table, m)
    requires CountUsed(s.table) <= s.fill == s.used && 3 * s.fill >= 2 * |s.table|
    ensures var r := ResizeStep(s, hash);
            && r.Some? && Sound(r.value, hash, m)
            && |r.value.table| >= 2 * |s.table| && r.value.fill == CountUsed(s.table)
  {
    hide TableOk, Represents, CountUsed, PowerOfTwo, Moved, Reinserted;
    var t := s.table;
    var size := GrownSize(|t|, Factor(|t|) * s.used);
    GrownIsPower(|t|, Factor(|t|) * s.used);
    GrowsByDoubling(|t|, size);
    ReinsertedIsMoved(t, |t|, size, hash);
    assert t[..|t|] == t;
    MovedRepresents(Reinserted(t, |t|, size, hash).value.table, t, m);
    assert CountUsed(t) <= |t|;
  }

  /** As long as nothing has been deleted every add ends, and sets the key in the map. */
  lemma AddKeeps(s: Fields, hash: Hash, m: map<Key, Option<Key>>, key: Key, val: Option<Key>)
    requires Sound(s, hash, m)
    ensures var r := AddStep(s, hash, key, val);
            r.Some? && Sound(r.value, hash, Added(m, key, val))
  {
    hide TableOk, Represents, CountUsed, PowerOfTwo, FirstStop, ProbeAt, Added, Lookup;
    SearchReturns(s.table, key, hash(key));
    PutAdds(s.table, hash, m, key, val, Seek(s.table, key, hash(key)).value);
    var u := PutStep(s, hash, key, val, true).value;
    if 3 * u.fill >= 2 * |u.table| {
      ResizeKeeps(u, hash, Added(m, key, val));
    }
  }

  /** What deleting a key from a searchable table does: the key is no longer found, and when no other key's search
      crosses its slot the table stays searchable and represents the map without the key. */
  lemma DeleteRemoves(s: Fields, hash: Hash, m: map<Key, Option<Key>>, key: Key)
    requires Sound(s, hash, m)
    ensures var r := DeleteStep(s, hash, key);
            r.Some? && |r.value.table| == |s.table| && GetStep(r.value.table, hash, key) == Some(None)
    ensures var t := DeleteStep(s, hash, key).value.table;
            TableOk(t, hash) ==> Represents(t, m - {key})
  {
    hide PowerOfTwo, CountUsed, ProbeAt;
    SoundReturns(s, hash, m, key);
    var n := Seek(s.table, key, hash(key)).value;
    var i := ProbeAt(hash(key), |s.table|, n);
    var t := s.table[i := Empty];
    SearchDecides(s.table, hash, m, key, n);
    StopIsOnlySlot(s.table, hash, key, n);
    assert FirstStop(t, key, hash(key), n) by {
      forall k: nat | k < n ensures !StopsAt(t, key, hash(key), k) {
        assert !StopsAt(s.table, key, hash(key), k);
        DifferentStop(s.table, key, hash(key), k, n);
      }
    }
    SeekIs(t, key, hash(key), n);
    assert s.table[i].Used? ==> s.table[i].key == key;
    forall k | k in m - {key} ensures Holds(t, k) {
      assert Holds(s.table, k);
      var j: nat :| j < |s.table| && s.table[j].Used? && s.table[j].key == k;
      assert t[j].key == k;
    }
  }

  lemma DifferentStop(t: seq<Slot>, key: Key, h: Word, k: nat, n: nat)
    requires |t| > 0 && FirstStop(t, key, h, n) && k < n
    ensures ProbeAt(h, |t|, k) != ProbeAt(h, |t|, n)
  {
    hide ProbeAt;
    assert !StopsAt(t, key, h, k);
  }

  // ---------- the doubling loop in 32 bits ----------

  function Doubled(size: Word, n: nat): Word
  {
    if n == 0 then size else 2 * Doubled(size, n - 1) % WORD
  }

  lemma {:induction false} DoubledIsSmall(size: Word, n: nat)
    requires PowerOfTwo(size)
    ensures Doubled(size, n) == 0 || (PowerOfTwo(Doubled(size, n)) && Doubled(size, n) <= WORD / 2)
  {
    hide PowerOfTwo;
    if n == 0 {
      WordIsPower();
      GrowsByDoubling(size, WORD);
    } else {
      DoubledIsSmall(size, n - 1);
      DoublesOnce(Doubled(size, n - 1));
    }
  }

  lemma DoublesOnce(d: Word)
    requires d == 0 || (PowerOfTwo(d) && d <= WORD / 2)
    ensures 2 * d % WORD == if d == WORD / 2 then 0 else 2 * d
    ensures 0 < d < WORD / 2 ==> PowerOfTwo(2 * d) && 2 * d <= WORD / 2
  {
    hide PowerOfTwo;
    if 0 < d < WORD / 2 {
      TwiceIsPower(d);
      WordIsPower();
      GrowsByDoubling(2 * d, WORD);
    }
  }

  lemma TwiceIsPower(d: nat)
    requires PowerOfTwo(d) && d > 0
    ensures PowerOfTwo(2 * d)
  {
    assert 2 * d % 2 == 0 && 2 * d / 2 == d;
  }

  lemma {:induction false} DoubledReachesHalf(size: Word, n: nat) returns (m: nat)
    requires PowerOfTwo(size) && Doubled(size, n) > 0
    ensures Doubled(size, m) == WORD / 2
    decreases WORD - Doubled(size, n)
  {
    DoubledIsSmall(size, n);
    if Doubled(size, n) == WORD / 2 {
      m := n;
    } else {
      DoublesOnce(Doubled(size, n));
      m := DoubledReachesHalf(size, n + 1);
    }
  }

  /** In 32 bits the doubling ends exactly when the bound is below half the range. */
  lemma GrowthEndsExactly(size: Word, bound: Word)
    requires PowerOfTwo(size)
    ensures (exists n: nat :: Doubled(size, n) > bound) <==> bound < WORD / 2
  {
    if bound < WORD / 2 {
      assert Doubled(size, 0) > 0;
      var n := DoubledReachesHalf(size, 0);
      assert Doubled(size, n) > bound;
    }
    if n: nat :| Doubled(size, n) > bound {
      DoubledIsSmall(size, n);
    }
  }

  /** A `used` that has wrapped makes the bound so large that the doubling never ends. */
  lemma WrappedNeverGrows(size: Word, used: int)
    requires PowerOfTwo(size) && -(WORD / 8) <= used < 0
    ensures forall n: nat :: Doubled(size, n) <= Unsigned(Factor(size) * used)
  {
    var bound := Unsigned(Factor(size) * used);
    assert bound == Factor(size) * used + WORD >= WORD / 2;
    GrowthEndsExactly(size, bound);
  }

  lemma CountDown(used: int)
    ensures Unsigned(used - 1) == (Unsigned(used) + WORD - 1) % WORD
  {
  }

  // ---------- listing ----------

  function EntriesOf(t: seq<Slot>): seq<(Key, Option<Key>)>
  {
    if t == [] then []
    else
      EntriesOf(t[..|t| - 1]) + match t[|t| - 1] case Empty => [] case Used(k, v, _) => [(k, v)]
  }

  predicate NoKeyTwice(e: seq<(Key, Option<Key>)>)
  {
    forall i, j :: 0 <= i < j < |e| ==> e[i].0 != e[j].0
  }

  lemma {:induction false} EmptySlotsHaveNoEntries(t: seq<Slot>, i: nat, j: nat)
    requires i <= j <= |t| && forall k :: i <= k < j ==> t[k].Empty?
    ensures EntriesOf(t[..i]) == EntriesOf(t[..j])
  {
    if i < j {
      EmptySlotsHaveNoEntries(t, i, j - 1);
      assert t[..j][..j - 1] == t[..j - 1];
    }
  }

  predicate InSlot(t: seq<Slot>, k: Key, v: Option<Key>)
  {
    exists i: nat :: i < |t| && t[i].Used? && t[i].key == k && t[i].val == v
  }

  lemma InSlotOrLast(t: seq<Slot>, k: Key, v: Option<Key>)
    requires t != []
    ensures var last := t[|t| - 1];
            InSlot(t, k, v) <==> InSlot(t[..|t| - 1], k, v) || (last.Used? && last.key == k && last.val == v)
  {
    var s, n := t[..|t| - 1], |t| - 1;
    if i: nat :| i < |t| && t[i].Used? && t[i].key == k && t[i].val == v {
      assert i < n ==> s[i] == t[i];
    }
    if i: nat :| i < |s| && s[i].Used? && s[i].key == k && s[i].val == v {
      assert t[i] == s[i];
    }
  }

  lemma {:induction false} EntryIsSlot(t: seq<Slot>, k: Key, v: Option<Key>)
    ensures (k, v) in EntriesOf(t) <==> InSlot(t, k, v)
  {
    if t == [] {
    } else {
      hide InSlot;
      EntryIsSlot(t[..|t| - 1], k, v);
      InSlotOrLast(t, k, v);
    }
  }

  lemma {:induction false} EntriesDiffer(t: seq<Slot>, n: nat)
    requires n <= |t|
    requires forall i, j :: 0 <= i < j < |t| && t[i].Used? && t[j].Used? ==> t[i].key != t[j].key
    ensures NoKeyTwice(EntriesOf(t[..n]))
  {
    if n == 0 {
    } else {
      EntriesDiffer(t, n - 1);
      var s := t[..n];
      assert s[..n - 1] == t[..n - 1];
      var e := EntriesOf(t[..n - 1]);
      if t[n - 1].Used? {
        forall i | 0 <= i < |e| ensures e[i].0 != t[n - 1].key {
          EntryIsSlot(t[..n - 1], e[i].0, e[i].1);
          assert e[i] in e;
        }
        assert EntriesOf(s) == e + [(t[n - 1].key, t[n - 1].val)];
      }
    }
  }

  lemma EntriesAreContents(t: seq<Slot>, hash: Hash, m: map<Key, Option<Key>>)
    requires TableOk(t, hash) && Represents(t, m)
    ensures var e := EntriesOf(t);
            && (forall k, v :: (k, v) in e <==> k in m && m[k] == v)
            && NoKeyTwice(e)
  {
    forall k, v ensures (k, v) in EntriesOf(t) <==> k in m && m[k] == v {
      EntryIsSlot(t, k, v);
      if k in m {
        assert Holds(t, k);
      }
    }
    forall i: nat, j: nat | i < j < |t| && t[i].Used? && t[j].Used? ensures t[i].key != t[j].key {
      if t[i].key == t[j].key {
        KeysAreDistinct(t, hash, i, j);
      }
    }
    EntriesDiffer(t, |t|);
    assert t[..|t|] == t;
  }

  // ---------- clearing a slot ----------

  /** The search for the key in slot j looks at slot i before it ends. */
  ghost predicate Crosses(t: seq<Slot>, j: nat, i: nat)
    requires j < |t| && t[j].Used?
  {
    exists m: nat, n: nat :: m < n && FirstStop(t, t[j].key, t[j].hash, n) && ProbeAt(t[j].hash, |t|, m) == i
  }

  /** Clearing a slot leaves every other key findable exactly when the slot is on the search
      path of none of them. */
  lemma ClearingIsSafe(t: seq<Slot>, hash: Hash, i: nat)
    requires TableOk(t, hash) && i < |t|
    ensures TableOk(t[i := Empty], hash) <==>
            forall j: nat :: j < |t| && j != i && t[j].Used? ==> !Crosses(t, j, i)
  {
    var u := t[i := Empty];
    forall j: nat | j < |t| && j != i && t[j].Used?
      ensures Findable(u, t[j].key, t[j].hash, j) <==> !Crosses(t, j, i)
    {
      ClearingOne(t, hash, i, j);
    }
    if TableOk(u, hash) {
      forall j: nat | j < |t| && j != i && t[j].Used? ensures !Crosses(t, j, i) {
        assert u[j] == t[j];
      }
    }
  }

  lemma ClearingOne(t: seq<Slot>, hash: Hash, i: nat, j: nat)
    requires TableOk(t, hash) && i < |t| && j < |t| && j != i && t[j].Used?
    ensures Findable(t[i := Empty], t[j].key, t[j].hash, j) <==> !Crosses(t, j, i)
  {
    var u, key, h := t[i := Empty], t[j].key, t[j].hash;
    var n: nat :| FirstStop(t, key, h, n) && ProbeAt(h, |t|, n) == j;
    if Crosses(t, j, i) {
      var m: nat, n': nat :| m < n' && FirstStop(t, key, h, n') && ProbeAt(h, |t|, m) == i;
      StopIsUnique(t, key, h, n, n');
      assert StopsAt(u, key, h, m);
      forall k: nat | FirstStop(u, key, h, k) ensures ProbeAt(h, |t|, k) != j {
        EarlierStep(t, u, key, h, i, m, n, k);
      }
    } else {
      forall m: nat | m < n ensures !StopsAt(u, key, h, m) {
        assert !StopsAt(t, key, h, m);
        assert ProbeAt(h, |t|, m) != i;
      }
      assert FirstStop(u, key, h, n);
    }
  }

  lemma EarlierStep(t: seq<Slot>, u: seq<Slot>, key: Key, h: Word, i: nat, m: nat, n: nat, k: nat)
    requires |t| == |u| > 0 && FirstStop(t, key, h, n) && m < n
    requires StopsAt(u, key, h, m) && FirstStop(u, key, h, k)
    ensures ProbeAt(h, |t|, k) != ProbeAt(h, |t|, n)
  {
    assert k <= m;
    assert !StopsAt(t, key, h, k);
  }

  // ---------- the dictionary ----------

  class Dict {
    const hash: Hash
    var fill: nat
    var used: int
    var table: array<Slot>
    ghost var contents: map<Key, Option<Key>>

    ghost function State(): Fields
      reads this, table
    {
      Fields(table[..], fill, used)
    }

    /** What every call keeps. */
    ghost predicate Formed()
      reads this, table
    {
      PowerOfTwo(table.Length) && table.Length >= MIN_SIZE && HashesOk(table[..], hash)
    }

    /** `contents` maps every key added to the value last added with it. Calls keep this as long as
        nothing is deleted. */
    ghost predicate Valid()
      reads this, table
    {
      Sound(State(), hash, contents)
    }

    constructor (hash: Hash)
      ensures Formed() && Valid() && fresh(table) && contents == map[] && this.hash == hash
      ensures State() == Fields(EmptyTable(MIN_SIZE), 0, 0)
    {
      this.hash := hash;
      fill, used := 0, 0;
      table := new Slot[MIN_SIZE](_ => Empty);
      contents := map[];
      new;
      assert table[..] == EmptyTable(MIN_SIZE);
      NothingInEmptyTable(MIN_SIZE);
    }

    /** Returns the slot where the search for the key ends: in a searchable table the key's only
        slot, or an empty one. */
    method Search(key: Key, h: Word) returns (i: nat, ghost n: nat)
      requires Formed() && h == hash(key) && Seek(table[..], key, h).Some?
      ensures n < PERTURB_SHIFTS + table.Length
      ensures FirstStop(table[..], key, h, n) && i == ProbeAt(h, table.Length, n)
      ensures i < table.Length && (table[i].Used? ==> table[i].key == key)
      ensures TableOk(table[..], hash) ==>
        forall j :: 0 <= j < table.Length && table[j].Used? && table[j].key == key ==> j == i
    {
      i, n := Probe(key, h);
      StopIsEarly(table[..], key, h, n);
      if TableOk(table[..], hash) {
        StopIsOnlySlot(table[..], hash, key, n);
      }
    }

    /** The probe loop: after n steps the first slot that is empty or holds the key. */
    method Probe(key: Key, h: Word) returns (i: nat, ghost n: nat)
      requires Formed() && h == hash(key) && Seek(table[..], key, h).Some?
      ensures FirstStop(table[..], key, h, n) && i == ProbeAt(h, table.Length, n)
    {
      hide HashesOk, Stops, PowerOfTwo, ProbeAt, Perturb, Seek;
      ghost var t := table[..];
      ghost var last := Seek(t, key, h).value;
      i := h % table.Length;
      n := 0;
      ProbeStep(h, table.Length, 0);
      MatchIsStop(t, hash, key, i);
      if table[i].Empty? || (table[i].hash == h && table[i].key == key) {
        return;
      }
      var perturb := h;
      while true
        invariant n < last
        invariant i == ProbeAt(h, |t|, n) && perturb == Perturb(h, n)
        invariant forall m: nat :: m <= n ==> !StopsAt(t, key, h, m)
        decreases last - n
      {
        ProbeStep(h, table.Length, n);
        i := (4 * i + i + perturb + 1) % table.Length;
        n := n + 1;
        MatchIsStop(t, hash, key, i);
        if table[i].Empty? {
          return;
        }
        if table[i].hash == h && table[i].key == key {
          return;
        }
        perturb := perturb / 32;
      }
    }

    /** Writes the slot where the search ends. A copying add without a value leaves the value. */
    method Put(key: Key, val: Option<Key>, copy: bool) returns (ghost n: nat)
      requires Formed() && Seek(table[..], key, hash(key)).Some?
      modifies `fill, `used, table
      ensures Formed() && PutStep(old(State()), hash, key, val, copy) == Some(State())
      ensures fill == old(fill) + 1 && used == old(used) + 1
      ensures FirstStop(old(table[..]), key, hash(key), n)
      ensures var i := ProbeAt(hash(key), table.Length, n);
              var kept := if old(table[i]).Used? then old(table[i]).val else None;
              table[..] == old(table[..])[i := Used(key, if copy && val.None? then kept else val, hash(key))]
    {
      hide HashesOk, FirstStop, PowerOfTwo, Seek;
      ghost var t := table[..];
      var i;
      i, n := Search(key, hash(key));
      SeekIs(t, key, hash(key), n);
      var v := val;
      if copy && val.None? {
        v := if table[i].Used? then table[i].val else None;
      }
      HashesAfterPut(t, hash, i, key, v);
      table[i] := Used(key, v, hash(key));
      used := used + 1;
      fill := fill + 1;
      assert table[..] == t[i := Used(key, v, hash(key))];
    }

    /** The size to grow to: the table size doubled until it exceeds a multiple of `used`. */
    method NewSize() returns (newSize: nat)
      requires PowerOfTwo(table.Length) && table.Length > 0 && used >= 0
      ensures PowerOfTwo(newSize) && newSize >= table.Length
      ensures newSize == GrownSize(table.Length, Factor(table.Length) * used)
    {
      newSize := table.Length;
      var factor := if table.Length > BIG_SIZE then 2 else 4;
      var bound := factor * used;
      assert bound >= 0;
      while newSize <= bound
        invariant PowerOfTwo(newSize) && newSize >= table.Length
        invariant GrownSize(newSize, bound) == GrownSize(table.Length, bound)
        decreases bound - newSize
      {
        newSize := newSize * 2;
      }
    }

    /** Puts every slot into a larger table, unless the size found is the present one. No insertion
        on the way finds the new table too full. */
    method Resize()
      requires Formed() && ResizeStep(State(), hash).Some?
      modifies `fill, `used, `table
      ensures Formed() && (table == old(table) || fresh(table))
      ensures ResizeStep(old(State()), hash) == Some(State())
    {
      hide HashesOk, PowerOfTwo, CountUsed, PutStep, Seek, FirstStop, ProbeAt;
      var newSize := NewSize();
      if newSize == table.Length {
        return;
      }
      GrowsByDoubling(table.Length, newSize);
      var oldTable := table;
      ghost var t := oldTable[..];
      table := new Slot[newSize](_ => Empty);
      fill, used := 0, 0;
      assert table[..] == EmptyTable(newSize);
      ReinsertEnds(t, 0, newSize, hash);
      for k := 0 to oldTable.Length
        invariant fresh(table) && table.Length == newSize && oldTable[..] == t
        invariant Formed() && CountUsed(table[..]) <= fill <= k
        invariant Reinserted(t, k, newSize, hash) == Some(State())
        modifies `fill, `used, table
      {
        ReinsertEnds(t, k + 1, newSize, hash);
        if oldTable[k].Used? {
          SearchReturns(table[..], t[k].key, hash(t[k].key));
          ghost var n := Put(oldTable[k].key, oldTable[k].val, false);
          assert 3 * fill < 2 * table.Length;  // the size check after an insertion never resizes again
        }
      }
    }

    /** Adds or overwrites a key. Both counters grow even when the key was there. */
    method Add(key: Option<Key>, val: Option<Key>) returns (rc: int)
      requires Formed() && (Valid() || (key.Some? ==> AddStep(State(), hash, key.value, val).Some?))
      modifies this, table
      ensures Formed() && (table == old(table) || fresh(table))
      ensures key.None? ==> rc == -1 && State() == old(State()) && contents == old(contents)
      ensures key.Some? ==> rc == 0 && AddStep(old(State()), hash, key.value, val) == Some(State())
      ensures key.Some? ==> contents == Added(old(contents), key.value, val)
      ensures old(Valid()) ==> Valid()
    {
      if key.None? {
        return -1;
      }
      hide HashesOk, Sound, PowerOfTwo, Seek, ResizeStep, Added;
      if Valid() {
        AddKeeps(State(), hash, contents, key.value, val);
      }
      ghost var n := Put(key.value, val, true);
      contents := Added(contents, key.value, val);
      if 3 * fill >= 2 * table.Length {
        Resize();
      }
      rc := 0;
    }

    /** The stored value; nothing for a key never added, whatever the default. */
    method Get(key: Option<Key>, default: Option<Key>) returns (val: Option<Key>)
      requires Formed() && (Valid() || (key.Some? ==> GetStep(table[..], hash, key.value).Some?))
      ensures key.None? ==> val == default
      ensures key.Some? ==> GetStep(table[..], hash, key.value) == Some(val)
      ensures key.Some? && Valid() ==> val == Lookup(contents, key.value)
    {
      if key.None? {
        return default;
      }
      hide HashesOk, PowerOfTwo, FirstStop, CountUsed, ProbeAt, Seek;
      if Valid() {
        SearchReturns(table[..], key.value, hash(key.value));
      }
      ghost var n;
      var i;
      i, n := Search(key.value, hash(key.value));
      SeekIs(table[..], key.value, hash(key.value), n);
      if Valid() {
        SearchDecides(table[..], hash, contents, key.value, n);
      }
      val := match table[i] case Empty => None case Used(_, v, _) => v;
    }

    /** Clears the slot where the search ends, whether or not the key was there, and counts `used`
        down, as the unsigned number it is. */
    method Delete(key: Option<Key>) returns (rc: int, ghost n: nat)
      requires Formed() && (Valid() || (key.Some? ==> DeleteStep(State(), hash, key.value).Some?))
      modifies `used, table
      ensures Formed()
      ensures key.None? ==> rc == -1 && State() == old(State())
      ensures key.Some? ==>
        && rc == 0
        && DeleteStep(old(State()), hash, key.value) == Some(State())
        && FirstStop(old(table[..]), key.value, hash(key.value), n)
        && table[..] == old(table[..])[ProbeAt(hash(key.value), table.Length, n) := Empty]
        && Unsigned(used) == (Unsigned(old(used)) + WORD - 1) % WORD
    {
      if key.None? {
        return -1, 0;
      }
      hide HashesOk, PowerOfTwo, FirstStop, ProbeAt, Seek, Sound, Unsigned, DeleteStep;
      ghost var t := table[..];
      if Valid() {
        SoundReturns(State(), hash, contents, key.value);
      }
      var i;
      i, n := Search(key.value, hash(key.value));
      SeekIs(t, key.value, hash(key.value), n);
      HashesAfterClear(t, hash, i);
      DeletesAt(State(), hash, key.value, n);
      table[i] := Empty;
      used := used - 1;
      assert table[..] == t[i := Empty];
      CountDown(old(used));
      rc := 0;
    }

    /** The first slot in use from `rank` on, as the rank after it. The slot is looked at before the
        rank is compared with the size: `behind` tells that the place behind the table was read,
        which makes no difference to the result. */
    method Enumerate(rank: int) returns (next: int, entry: Option<(Key, Option<Key>)>, behind: bool)
      requires rank <= table.Length
      ensures next == -1 <==> entry.None?
      ensures behind <==> rank >= 0 && next == -1
      ensures next == -1 && rank >= 0 ==> forall i :: rank <= i < table.Length ==> table[i].Empty?
      ensures next != -1 ==>
        && 0 <= rank < next <= table.Length && table[next - 1].Used?
        && entry == Some((table[next - 1].key, table[next - 1].val))
        && forall i :: rank <= i < next - 1 ==> table[i].Empty?
    {
      if rank < 0 {
        return -1, None, false;
      }
      var r := rank;
      while r < table.Length
        invariant rank <= r <= table.Length
        invariant forall i :: rank <= i < r ==> table[i].Empty?
      {
        match table[r]
        case Used(k, v, _) => return r + 1, Some((k, v)), false;
        case Empty => r := r + 1;
      }
      return -1, None, true;
    }

    /** Lists every key with its value, each exactly once. */
    method Dump() returns (entries: seq<(Key, Option<Key>)>)
      requires Valid()
      ensures forall k, v :: (k, v) in entries <==> k in contents && contents[k] == v
      ensures NoKeyTwice(entries)
    {
      hide TableOk, Represents, PowerOfTwo, CountUsed;
      entries := [];
      var rank := 0;
      while true
        invariant 0 <= rank <= table.Length
        invariant entries == EntriesOf(table[..rank])
        decreases table.Length - rank
      {
        var next, entry, _ := Enumerate(rank);
        if next < 0 {
          EmptySlotsHaveNoEntries(table[..], rank, table.Length);
          break;
        }
        EmptySlotsHaveNoEntries(table[..], rank, next - 1);
        assert table[..next][..next - 1] == table[..next - 1] == table[..][..next - 1];
        entries := entries + [entry.value];
        rank := next;
      }
      assert table[..][..table.Length] == table[..];
      EntriesAreContents(table[..], hash, contents);
    }
  }
}
