/**
 The visited set: two blocks of slots, at most eight probes in each.  A key that finds neither itself nor
 a free slot in the first block goes to the second; if that fails too the table is rehashed into one twice
 as large.
 */
module VisitedHash {
  import opened Options

  const MAX_LOOP := 8
  const TWO_32 := 0x1_0000_0000

  /** The sizes of tables are ints. */
  const INT_MAX := 0x7FFF_FFFF

  /** Two blocks of twice the size. */
  function DoubledTable(n: nat): nat { 2 * (2 * n) }

  // ----- Probes

  function Rotl2(x: nat): nat
    requires x < TWO_32
  {
    x * 4 % TWO_32 + x / 0x4000_0000
  }

  /** Slots of a block of size n a key is looked for in: the first ... */
  function Hash(key: nat, n: nat): (r: nat)
    requires n > 0 && key < TWO_32
    ensures r < n
  {
    (key * 99991 % TWO_32 + Rotl2(key) + 101) % TWO_32 % n
  }

  function NextSlot(index: nat, n: nat, loop: nat): (r: nat)
    requires n > 0
    ensures r < n
  {
    (index + loop) % n
  }

  /** ... and the l-th. */
  function Probe(key: nat, n: nat, l: nat): (r: nat)
    requires n > 0 && key < TWO_32
    ensures r < n
  {
    if l == 0 then Hash(key, n) else NextSlot(Probe(key, n, l - 1), n, l - 1)
  }

  // ----- Where keys are

  /** The first l probes in the block at `base` find other keys. */
  ghost predicate Blocked(t: seq<nat>, base: nat, n: nat, key: nat, l: nat)
    requires n > 0 && key < TWO_32 && base + n <= |t|
  {
    forall j :: 0 <= j < l ==> t[base + Probe(key, n, j)] != 0 && t[base + Probe(key, n, j)] != key
  }

  /** A probe for the key in the block at `base` comes to slot i. */
  ghost predicate Found(t: seq<nat>, base: nat, n: nat, key: nat, i: nat, l: nat)
    requires n > 0 && key < TWO_32 && base + n <= |t|
  {
    l < MAX_LOOP && i == base + Probe(key, n, l) && Blocked(t, base, n, key, l)
  }

  /** The key in slot i is where a search for it comes. */
  ghost predicate InPlace(t: seq<nat>, n: nat, i: nat)
    requires n > 0 && |t| == 2 * n && i < |t| && t[i] < TWO_32
  {
    t[i] != 0 ==>
      || (exists l: nat :: Found(t, 0, n, t[i], i, l))
      || (Blocked(t, 0, n, t[i], MAX_LOOP) && exists l: nat :: Found(t, n, n, t[i], i, l))
  }

  ghost predicate Sound(t: seq<nat>, n: nat) {
    && n > 0 && |t| == 2 * n
    && forall i :: 0 <= i < |t| ==> t[i] < TWO_32 && InPlace(t, n, i)
  }

  ghost predicate SecondEmpty(t: seq<nat>, n: nat)
    requires |t| == 2 * n
  {
    forall i :: n <= i < 2 * n ==> t[i] == 0
  }

  ghost function Keys(t: seq<nat>): set<nat> { set i | 0 <= i < |t| && t[i] != 0 :: t[i] }

  lemma KeysPut(t: seq<nat>, i: nat, key: nat)
    requires i < |t| && t[i] == 0 && key != 0
    ensures Keys(t[i := key]) == Keys(t) + {key}
  {
    var t1 := t[i := key];
    assert t1[i] == key;
    forall k | k in Keys(t)
      ensures k in Keys(t1)
    {
      var j :| 0 <= j < |t| && t[j] != 0 && t[j] == k;
      assert t1[j] == k;
    }
  }

  /** Filling a free slot a search for the key comes to keeps every key in place. */
  lemma PutKeeps(t: seq<nat>, n: nat, key: nat, i: nat)
    requires Sound(t, n) && 0 < key < TWO_32 && i < |t| && t[i] == 0 && key !in Keys(t)
    requires
      || (exists l: nat :: Found(t, 0, n, key, i, l))
      || (Blocked(t, 0, n, key, MAX_LOOP) && exists l: nat :: Found(t, n, n, key, i, l))
    ensures Sound(t[i := key], n)
  {
    var t1 := t[i := key];
    forall j | 0 <= j < |t1|
      ensures t1[j] < TWO_32 && InPlace(t1, n, j)
    {
      if j != i && t[j] != 0 {
        assert t[j] in Keys(t);
        assert InPlace(t, n, j);
        OtherStays(t, n, key, i, j);
      } else if j == i {
        PutInPlace(t, n, key, i);
      }
    }
  }

  lemma StillBlocked(t: seq<nat>, base: nat, n: nat, other: nat, l: nat, i: nat, key: nat)
    requires n > 0 && other < TWO_32 && base + n <= |t| && i < |t| && t[i] == 0 && key != 0 && key != other
    requires Blocked(t, base, n, other, l)
    ensures Blocked(t[i := key], base, n, other, l)
  {
  }

  lemma OtherStays(t: seq<nat>, n: nat, key: nat, i: nat, j: nat)
    requires n > 0 && |t| == 2 * n && i < |t| && j < |t| && i != j && t[i] == 0 && 0 < t[j] < TWO_32 && key != 0
    requires t[j] != key && InPlace(t, n, j)
    ensures InPlace(t[i := key], n, j)
  {
    var other, t1 := t[j], t[i := key];
    if l: nat :| Found(t, 0, n, other, j, l) {
      StillBlocked(t, 0, n, other, l, i, key);
      assert Found(t1, 0, n, other, j, l);
    } else {
      var l: nat :| Found(t, n, n, other, j, l);
      StillBlocked(t, 0, n, other, MAX_LOOP, i, key);
      StillBlocked(t, n, n, other, l, i, key);
      assert Found(t1, n, n, other, j, l);
    }
  }

  /** Before the slot the probes meet other keys, so not the slot itself. */
  lemma BlockedBeside(t: seq<nat>, base: nat, n: nat, key: nat, l: nat, i: nat)
    requires n > 0 && key < TWO_32 && base + n <= |t| && i < |t| && t[i] == 0 && Blocked(t, base, n, key, l)
    ensures Blocked(t[i := key], base, n, key, l)
  {
  }

  lemma PutInPlace(t: seq<nat>, n: nat, key: nat, i: nat)
    requires n > 0 && |t| == 2 * n && i < |t| && t[i] == 0 && 0 < key < TWO_32
    requires
      || (exists l: nat :: Found(t, 0, n, key, i, l))
      || (Blocked(t, 0, n, key, MAX_LOOP) && exists l: nat :: Found(t, n, n, key, i, l))
    ensures InPlace(t[i := key], n, i)
  {
    var t1 := t[i := key];
    if l: nat :| Found(t, 0, n, key, i, l) {
      BlockedBeside(t, 0, n, key, l, i);
      assert Found(t1, 0, n, key, i, l);
    } else {
      var l: nat :| Found(t, n, n, key, i, l);
      BlockedBeside(t, 0, n, key, MAX_LOOP, i);
      BlockedBeside(t, n, n, key, l, i);
      assert Found(t1, n, n, key, i, l);
    }
  }

  // ----- Where a search ends

  /** A search for the key ends at slot i: a probe comes there, and it is free or the key's own. */
  ghost predicate EndsAt(t: seq<nat>, n: nat, key: nat, i: nat)
    requires n > 0 && key < TWO_32 && |t| == 2 * n
  {
    && i < |t| && (t[i] == 0 || t[i] == key)
    && ((exists l: nat :: Found(t, 0, n, key, i, l)) ||
        (Blocked(t, 0, n, key, MAX_LOOP) && exists l: nat :: Found(t, n, n, key, i, l)))
  }

  /** The slot a search for the key ends at. */
  ghost function SlotFor(t: seq<nat>, n: nat, key: nat): (r: Option<nat>)
    requires n > 0 && key < TWO_32 && |t| == 2 * n
    ensures r.Some? ==> EndsAt(t, n, key, r.value)
  {
    if i: nat :| EndsAt(t, n, key, i) then Some(i) else None
  }

  /** All probes in both blocks meet other keys. */
  ghost predicate Exhausted(t: seq<nat>, n: nat, key: nat)
    requires n > 0 && key < TWO_32 && |t| == 2 * n
  {
    Blocked(t, 0, n, key, MAX_LOOP) && Blocked(t, n, n, key, MAX_LOOP)
  }

  lemma SameBlockSameSlot(t: seq<nat>, base: nat, n: nat, key: nat, i: nat, l: nat, j: nat, m: nat)
    requires n > 0 && key < TWO_32 && base + n <= |t| && Found(t, base, n, key, i, l) && Found(t, base, n, key, j, m)
    requires (t[i] == 0 || t[i] == key) && (t[j] == 0 || t[j] == key)
    ensures i == j
  {
  }

  lemma NotBlocked(t: seq<nat>, base: nat, n: nat, key: nat, i: nat, l: nat)
    requires n > 0 && key < TWO_32 && base + n <= |t| && Found(t, base, n, key, i, l) && (t[i] == 0 || t[i] == key)
    ensures !Blocked(t, base, n, key, MAX_LOOP)
  {
  }

  /** A search ends at one slot only. */
  lemma OneEnd(t: seq<nat>, n: nat, key: nat, i: nat, j: nat)
    requires n > 0 && key < TWO_32 && |t| == 2 * n && EndsAt(t, n, key, i) && EndsAt(t, n, key, j)
    ensures i == j
  {
    if l: nat :| Found(t, 0, n, key, i, l) {
      NotBlocked(t, 0, n, key, i, l);
      var m: nat :| Found(t, 0, n, key, j, m);
      SameBlockSameSlot(t, 0, n, key, i, l, j, m);
    } else {
      var l: nat :| Found(t, n, n, key, i, l);
      if m: nat :| Found(t, 0, n, key, j, m) {
        NotBlocked(t, 0, n, key, j, m);
      } else {
        var m: nat :| Found(t, n, n, key, j, m);
        SameBlockSameSlot(t, n, n, key, i, l, j, m);
      }
    }
  }

  lemma SlotIs(t: seq<nat>, n: nat, key: nat, i: nat)
    requires n > 0 && key < TWO_32 && |t| == 2 * n && EndsAt(t, n, key, i)
    ensures SlotFor(t, n, key) == Some(i)
  {
    OneEnd(t, n, key, i, SlotFor(t, n, key).value);
  }

  /** A block whose probes do not all meet other keys has a first probe that does not. */
  lemma {:induction false} FirstOpen(t: seq<nat>, base: nat, n: nat, key: nat, l: nat) returns (i: nat, k: nat)
    requires n > 0 && key < TWO_32 && base + n <= |t| && l <= MAX_LOOP
    requires Blocked(t, base, n, key, l) && !Blocked(t, base, n, key, MAX_LOOP)
    ensures Found(t, base, n, key, i, k) && (t[i] == 0 || t[i] == key)
    decreases MAX_LOOP - l
  {
    i, k := base + Probe(key, n, l), l;
    if t[i] != 0 && t[i] != key {
      OneMoreBlocked(t, base, n, key, l);
      i, k := FirstOpen(t, base, n, key, l + 1);
    }
  }

  /** There is no slot exactly if both blocks are exhausted. */
  lemma NoSlot(t: seq<nat>, n: nat, key: nat)
    requires n > 0 && key < TWO_32 && |t| == 2 * n
    ensures SlotFor(t, n, key).None? <==> Exhausted(t, n, key)
  {
    if !Blocked(t, 0, n, key, MAX_LOOP) {
      var i, l := FirstOpen(t, 0, n, key, 0);
      assert EndsAt(t, n, key, i);
    } else if !Blocked(t, n, n, key, MAX_LOOP) {
      var i, l := FirstOpen(t, n, n, key, 0);
      assert EndsAt(t, n, key, i);
    } else if SlotFor(t, n, key).Some? {
      var i := SlotFor(t, n, key).value;
      if l: nat :| Found(t, 0, n, key, i, l) {
        NotBlocked(t, 0, n, key, i, l);
      } else {
        var l: nat :| Found(t, n, n, key, i, l);
        NotBlocked(t, n, n, key, i, l);
      }
    }
  }

  /** In a sound table a key is present exactly if the search for it ends at the key. */
  lemma SlotTells(t: seq<nat>, n: nat, key: nat)
    requires Sound(t, n) && 0 < key < TWO_32
    ensures key in Keys(t) <==> SlotFor(t, n, key).Some? && t[SlotFor(t, n, key).value] == key
  {
    if key in Keys(t) {
      var i :| 0 <= i < |t| && t[i] != 0 && t[i] == key;
      assert InPlace(t, n, i);
      SlotIs(t, n, key, i);
    }
  }

  // ----- Searching and inserting

  datatype Outcome = Inserted | Present | Full

  /** One slot: taken if free. */
  method TrySlot(table: array<nat>, i: nat, key: nat) returns (r: Outcome)
    requires i < table.Length
    modifies table
    ensures match r
            case Inserted => old(table[i]) == 0 && table[..] == old(table[..])[i := key]
            case Present => table[i] == key && table[i] != 0 && table[..] == old(table[..])
            case Full => table[i] != 0 && table[i] != key && table[..] == old(table[..])
  {
    if table[i] == 0 {
      table[i] := key;
      return Inserted;
    }
    return if table[i] == key then Present else Full;
  }

  lemma NextProbe(key: nat, n: nat, l: nat)
    requires n > 0 && key < TWO_32
    ensures Probe(key, n, l + 1) == NextSlot(Probe(key, n, l), n, l)
  {
  }

  lemma OneMoreBlocked(t: seq<nat>, base: nat, n: nat, key: nat, l: nat)
    requires n > 0 && key < TWO_32 && base + n <= |t| && Blocked(t, base, n, key, l)
    requires t[base + Probe(key, n, l)] != 0 && t[base + Probe(key, n, l)] != key
    ensures Blocked(t, base, n, key, l + 1)
  {
  }

  /** One probe, and the slot for the next. */
  method ProbeOnce(table: array<nat>, base: nat, n: nat, key: nat, index: nat, loop: nat) returns (r: Outcome, next: nat)
    requires n > 0 && 0 < key < TWO_32 && base + n <= table.Length && loop < MAX_LOOP
    requires index == Probe(key, n, loop) && Blocked(table[..], base, n, key, loop)
    modifies table
    ensures match r
            case Inserted =>
              old(table[base + index]) == 0 && table[..] == old(table[..])[base + index := key]
            case Present => table[..] == old(table[..]) && table[base + index] == key
            case Full =>
              table[..] == old(table[..]) && Blocked(table[..], base, n, key, loop + 1) && next == Probe(key, n, loop + 1)
  {
    r := TrySlot(table, base + index, key);
    next := NextSlot(index, n, loop);
    if r == Full {
      OneMoreBlocked(table[..], base, n, key, loop);
      NextProbe(key, n, loop);
    }
  }

  /** The probes in one block. */
  method ProbeBlock(table: array<nat>, base: nat, n: nat, key: nat) returns (r: Outcome, ghost i: nat, ghost l: nat)
    requires n > 0 && 0 < key < TWO_32 && base + n <= table.Length
    modifies table
    ensures match r
            case Inserted =>
              && i < table.Length && old(table[i]) == 0 && table[..] == old(table[..])[i := key]
              && Found(old(table[..]), base, n, key, i, l)
            case Present =>
              && i < table.Length && table[i] == key && table[..] == old(table[..])
              && Found(table[..], base, n, key, i, l)
            case Full => table[..] == old(table[..]) && Blocked(table[..], base, n, key, MAX_LOOP)
  {
    ghost var t := table[..];
    var index := Hash(key, n);
    for loop := 0 to MAX_LOOP
      invariant index == Probe(key, n, loop) && table[..] == t && Blocked(t, base, n, key, loop)
    {
      i, l := base + index, loop;
      r, index := ProbeOnce(table, base, n, key, index, loop);
      if r != Full {
        return;
      }
    }
    return Full, 0, MAX_LOOP;
  }

  ghost predicate SecondEmptyUnless(t: seq<nat>, n: nat, second: bool) { |t| == 2 * n && (!second ==> SecondEmpty(t, n)) }

  /** Both blocks; `spilt` says that the second one was used. */
  method ProbeBoth(table: array<nat>, n: nat, key: nat) returns (r: Outcome, spilt: bool)
    requires n > 0 && table.Length == 2 * n && 0 < key < TWO_32
    modifies table
    ensures match SlotFor(old(table[..]), n, key)
            case None => r == Full && table[..] == old(table[..])
            case Some(i) =>
              && r == (if old(table[..])[i] == 0 then Inserted else Present)
              && table[..] == old(table[..])[i := key]
    ensures spilt == Blocked(old(table[..]), 0, n, key, MAX_LOOP)
  {
    ghost var t, i, l := table[..], 0, 0;
    spilt := false;
    r, i, l := ProbeBlock(table, 0, n, key);
    if r == Full {
      spilt := true;
      r, i, l := ProbeBlock(table, n, n, key);
    }
    BothProbed(t, n, key, spilt, r, i, l);
  }

  /** What the probes say about the end of the search. */
  lemma BothProbed(t: seq<nat>, n: nat, key: nat, spilt: bool, r: Outcome, i: nat, l: nat)
    requires n > 0 && |t| == 2 * n && 0 < key < TWO_32
    requires spilt ==> Blocked(t, 0, n, key, MAX_LOOP)
    requires r == Full ==> spilt && Blocked(t, n, n, key, MAX_LOOP)
    requires r != Full ==> i < |t| && (t[i] == 0 || t[i] == key) && Found(t, if spilt then n else 0, n, key, i, l)
    ensures SlotFor(t, n, key) == if r == Full then None else Some(i)
    ensures spilt == Blocked(t, 0, n, key, MAX_LOOP)
  {
    if r == Full {
      NoSlot(t, n, key);
    } else {
      assert EndsAt(t, n, key, i);
      SlotIs(t, n, key, i);
      if !spilt {
        NotBlocked(t, 0, n, key, i, l);
      }
    }
  }

  /** Looks the key up and puts it in; `second` says that the second block may have been used. */
  method CheckAndSetIn(table: array<nat>, n: nat, key: nat, second0: bool) returns (r: Outcome, second: bool)
    requires Sound(table[..], n) && 0 < key < TWO_32 && SecondEmptyUnless(table[..], n, second0)
    modifies table
    ensures Sound(table[..], n) && SecondEmptyUnless(table[..], n, second)
    ensures (r == Present) == (key in old(Keys(table[..])))
    ensures Keys(table[..]) == old(Keys(table[..])) + (if r == Full then {} else {key})
    ensures r == Full <==> Exhausted(old(table[..]), n, key)
    ensures match SlotFor(old(table[..]), n, key)
            case None => table[..] == old(table[..])
            case Some(i) => table[..] == old(table[..])[i := key]
    ensures second == (second0 || Blocked(old(table[..]), 0, n, key, MAX_LOOP))
  {
    ghost var t := table[..];
    NoSlot(t, n, key);
    SlotTells(t, n, key);
    var spilt;
    r, spilt := ProbeBoth(table, n, key);
    second := second0 || spilt;
    PutIn(t, n, key, second0);
  }

  /** What putting the key into its slot does. */
  lemma PutIn(t: seq<nat>, n: nat, key: nat, second: bool)
    requires Sound(t, n) && 0 < key < TWO_32 && SecondEmptyUnless(t, n, second)
    ensures match SlotFor(t, n, key)
            case None => true
            case Some(i) =>
              && Sound(t[i := key], n) && Keys(t[i := key]) == Keys(t) + {key}
              && SecondEmptyUnless(t[i := key], n, second || Blocked(t, 0, n, key, MAX_LOOP))
  {
    match SlotFor(t, n, key)
    case None =>
    case Some(i) =>
      SlotTells(t, n, key);
      if t[i] == 0 {
        PutKeeps(t, n, key, i);
        KeysPut(t, i, key);
      } else {
        assert t[i := key] == t;
      }
  }

  // ----- The table

  ghost function KeysBelow(t: seq<nat>, m: nat): set<nat>
    requires m <= |t|
  {
    set i | 0 <= i < m && t[i] != 0 :: t[i]
  }

  lemma KeysOneMore(t: seq<nat>, m: nat)
    requires m < |t|
    ensures KeysBelow(t, m + 1) == KeysBelow(t, m) + if t[m] != 0 then {t[m]} else {}
  {
    forall k | k in KeysBelow(t, m)
      ensures k in KeysBelow(t, m + 1)
    {
      var i :| 0 <= i < m && t[i] != 0 && t[i] == k;
    }
    if t[m] != 0 {
      assert t[m] in KeysBelow(t, m + 1);
    }
  }

  lemma EmptyIsSound(t: seq<nat>, n: nat)
    requires n > 0 && |t| == 2 * n && forall i :: 0 <= i < |t| ==> t[i] == 0
    ensures Sound(t, n) && SecondEmpty(t, n) && Keys(t) == {}
  {
    forall i | 0 <= i < |t|
      ensures t[i] < TWO_32 && InPlace(t, n, i)
    {
    }
  }

  ghost predicate Bounded(t: seq<nat>) { forall i :: 0 <= i < |t| ==> t[i] < TWO_32 }

  /** The table of block size n that the keys in the first m slots of t fill, put in one after the other;
      None if one of them finds both blocks exhausted. */
  ghost function Refilled(t: seq<nat>, m: nat, n: nat): (r: Option<seq<nat>>)
    requires m <= |t| && n > 0 && Bounded(t)
    ensures r.Some? ==> |r.value| == 2 * n
  {
    if m == 0 then Some(seq(2 * n, _ => 0))
    else
      match Refilled(t, m - 1, n)
      case None => None
      case Some(u) =>
        if t[m - 1] == 0 then Some(u)
        else match SlotFor(u, n, t[m - 1]) case None => None case Some(i) => Some(u[i := t[m - 1]])
  }

  /** A key without a slot ends the rehash. */
  lemma {:induction false} RefillFails(t: seq<nat>, m: nat, k: nat, n: nat)
    requires m <= k <= |t| && n > 0 && Bounded(t) && Refilled(t, m, n).None?
    ensures Refilled(t, k, n).None?
    decreases k - m
  {
    if m < k {
      RefillFails(t, m, k - 1, n);
    }
  }

  /** The first m slots of t have been rehashed into u. */
  ghost predicate RehashedInto(u: seq<nat>, t: seq<nat>, m: nat, n: nat, second: bool)
    requires m <= |t| && n > 0 && Bounded(t)
  {
    && Sound(u, n) && SecondEmptyUnless(u, n, second)
    && Keys(u) == KeysBelow(t, m) && Refilled(t, m, n) == Some(u)
  }

  /** Rehashes one slot. */
  method RehashSlot(ghost t: seq<nat>, i: nat, table1: array<nat>, n: nat, key: nat, second0: bool)
    returns (ok: bool, second: bool)
    requires n > 0 && i < |t| && Bounded(t) && t[i] == key
    requires RehashedInto(table1[..], t, i, n, second0)
    modifies table1
    ensures if ok then RehashedInto(table1[..], t, i + 1, n, second) else Refilled(t, |t|, n).None?
    ensures Sound(table1[..], n) && SecondEmptyUnless(table1[..], n, second)
  {
    KeysOneMore(t, i);
    ok, second := true, second0;
    if key != 0 {
      NoSlot(table1[..], n, key);
      var r;
      r, second := CheckAndSetIn(table1, n, key, second0);
      ok := r != Full;
      if !ok {
        RefillFails(t, i + 1, |t|, n);
      }
    }
  }

  method NewTable(ghost t: seq<nat>, n: nat) returns (table1: array<nat>)
    requires n > 0 && Bounded(t)
    ensures fresh(table1) && RehashedInto(table1[..], t, 0, n, false)
  {
    table1 := new nat[2 * n](_ => 0);
    EmptyIsSound(table1[..], n);
    assert table1[..] == seq(2 * n, _ => 0);
  }

  lemma AllRehashed(u: seq<nat>, t: seq<nat>, n: nat, second: bool)
    requires n > 0 && Bounded(t) && RehashedInto(u, t, |t|, n, second)
    ensures Keys(u) == Keys(t) && Refilled(t, |t|, n) == Some(u)
  {
  }

  /** Rehashes all keys into a table of twice the block size.  `ok` is false if one of them finds no slot:
      there the code enters DoubleSize again on the old table, which comes to the same key again. */
  method Rehash(table: array<nat>, n: nat) returns (ok: bool, table1: array<nat>, second: bool)
    requires Sound(table[..], n)
    ensures fresh(table1) && Sound(table1[..], 2 * n) && SecondEmptyUnless(table1[..], 2 * n, second)
    ensures ok ==> Keys(table1[..]) == Keys(table[..])
    ensures Refilled(table[..], |table[..]|, 2 * n) == if ok then Some(table1[..]) else None
  {
    ghost var t := table[..];
    var n1 := 2 * n;
    assert Bounded(t);
    table1 := NewTable(t, n1);
    second := false;
    for i := 0 to table.Length
      invariant fresh(table1) && table1 != table && table[..] == t && RehashedInto(table1[..], t, i, n1, second)
    {
      ok, second := RehashSlot(t, i, table1, n1, table[i], second);
      if !ok {
        return;
      }
    }
    AllRehashed(table1[..], t, n1, second);
    ok := true;
  }

  /** The table after doubling until the key has a slot, with the key, and its block size; None if the size
      would overflow before or a rehash exhausts both blocks. */
  ghost function Grown(t: seq<nat>, n: nat, key: nat): (r: Option<(seq<nat>, nat)>)
    requires n > 0 && |t| == 2 * n && key < TWO_32 && Bounded(t)
    decreases INT_MAX - n
  {
    if DoubledTable(n) > INT_MAX then None
    else
      match Refilled(t, |t|, 2 * n)
      case None => None
      case Some(u) =>
        RefilledIsBounded(t, |t|, 2 * n);
        match SlotFor(u, 2 * n, key)
        case Some(i) => Some((u[i := key], 2 * n))
        case None => Grown(u, 2 * n, key)
  }

  /** The key has no slot, and none after doublings before the size overflows or a rehash runs out itself. */
  ghost predicate RunsOut(t: seq<nat>, n: nat, key: nat)
    requires n > 0 && |t| == 2 * n && key < TWO_32 && Bounded(t)
  {
    Exhausted(t, n, key) && Grown(t, n, key).None?
  }

  lemma {:induction false} RefilledIsBounded(t: seq<nat>, m: nat, n: nat)
    requires m <= |t| && n > 0 && Bounded(t) && Refilled(t, m, n).Some?
    ensures Bounded(Refilled(t, m, n).value)
  {
    if m > 0 {
      RefilledIsBounded(t, m - 1, n);
    }
  }

  datatype Answer = AlreadyPresent | Added | Failed

  class OptHashPosVector {
    var table: array<nat>
    var n: nat
    var secondHash: bool

    ghost predicate Valid()
      reads this, table
    {
      Sound(table[..], n) && SecondEmptyUnless(table[..], n, secondHash)
    }

    /** The id has been inserted since the last clear.  Slots hold ids plus one. */
    ghost predicate Has(idx: nat)
      reads this, table
    {
      idx + 1 in Keys(table[..])
    }

    constructor (size: nat)
      requires size > 0
      ensures Valid() && fresh(table) && n == size && forall j: nat :: !Has(j)
    {
      n, secondHash := size, false;
      table := new nat[2 * size](_ => 0);
      new;
      EmptyIsSound(table[..], n);
    }

    /** One attempt in both blocks. */
    method Attempt(key: nat) returns (o: Outcome)
      requires Valid() && 0 < key < TWO_32
      modifies `secondHash, table
      ensures Valid() && (o == Present) == (key in old(Keys(table[..])))
      ensures Keys(table[..]) == old(Keys(table[..])) + (if o == Full then {} else {key})
      ensures o == Full <==> Exhausted(old(table[..]), n, key)
      ensures match SlotFor(old(table[..]), n, key)
              case None => table[..] == old(table[..])
              case Some(i) => table[..] == old(table[..])[i := key]
    {
      var second;
      o, second := CheckAndSetIn(table, n, key, secondHash);
      secondHash := second;
    }

    /** DoubleSize; `ok` is false where the size would overflow or the rehash runs out of slots. */
    method DoubleSize() returns (ok: bool)
      requires Valid()
      modifies this
      ensures Valid() && Keys(table[..]) == old(Keys(table[..]))
      ensures ok <==> 4 * old(n) <= INT_MAX && Refilled(old(table[..]), old(table.Length), 2 * old(n)).Some?
      ensures
        if ok then
          fresh(table) && n == 2 * old(n) && Refilled(old(table[..]), old(table.Length), 2 * old(n)) == Some(table[..])
        else
          table == old(table) && n == old(n) && table[..] == old(table[..])
    {
      if DoubledTable(n) > INT_MAX {
        return false;
      }
      var table1, second;
      ok, table1, second := Rehash(table, n);
      if ok {
        table, n, secondHash := table1, 2 * n, second;
      }
    }

    method GrowAndInsert(key: nat) returns (o: Outcome)
      requires Valid() && 0 < key < TWO_32 && key !in Keys(table[..])
      modifies this
      ensures Valid() && (table == old(table) || fresh(table)) && o != Present
      ensures Keys(table[..]) == old(Keys(table[..])) + (if o == Full then {} else {key})
      ensures o == Full <==> Grown(old(table[..]), old(n), key).None?
      ensures o == Inserted ==> Grown(old(table[..]), old(n), key) == Some((table[..], n))
      decreases INT_MAX - n
    {
      var ok := DoubleSize();
      if !ok {
        return Full;
      }
      NoSlot(table[..], n, key);
      o := Attempt(key);
      if o == Full {
        o := GrowAndInsert(key);
      }
    }

    /** The call of _CheckAndSet: a try, and if there is no slot larger tables. */
    method InsertKey(key: nat) returns (o: Outcome)
      requires Valid() && 0 < key < TWO_32
      modifies this, table
      ensures Valid() && (table == old(table) || fresh(table))
      ensures (o == Present) == (key in old(Keys(table[..])))
      ensures Keys(table[..]) == old(Keys(table[..])) + (if o == Full then {} else {key})
      ensures o == Full <==> RunsOut(old(table[..]), old(n), key)
    {
      o := Attempt(key);
      if o == Full {
        o := GrowAndInsert(key);
      }
    }

    /** CheckAndSet: whether the id was there, and if not it is afterwards. */
    method CheckAndSet(idx: nat) returns (r: Answer)
      requires Valid() && idx < TWO_32 - 1
      modifies this, table
      ensures Valid() && (table == old(table) || fresh(table))
      ensures (r == AlreadyPresent) == old(Has(idx))
      ensures forall j: nat :: Has(j) <==> old(Has(j)) || (j == idx && r != Failed)
      ensures r == Failed <==> RunsOut(old(table[..]), old(n), idx + 1)
    {
      var o := InsertKey(idx + 1);
      r := match o case Present => AlreadyPresent case Inserted => Added case Full => Failed;
    }

    /** Forgets everything; the second block is cleared only if it may have been used. */
    method Clear()
      requires Valid()
      modifies this, table
      ensures Valid() && table == old(table) && n == old(n) && forall j: nat :: !Has(j)
    {
      ZeroUpTo(table, if secondHash then 2 * n else n);
      secondHash := false;
      EmptyIsSound(table[..], n);
    }
  }

  method ZeroUpTo(a: array<nat>, end: nat)
    requires end <= a.Length
    modifies a
    ensures forall j :: 0 <= j < end ==> a[j] == 0
    ensures forall j :: end <= j < a.Length ==> a[j] == old(a[..])[j]
  {
    for i := 0 to end
      invariant forall j :: 0 <= j < i ==> a[j] == 0
      invariant forall j :: i <= j < a.Length ==> a[j] == old(a[..])[j]
    {
      a[i] := 0;
    }
  }
}
