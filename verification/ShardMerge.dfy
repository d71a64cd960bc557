/**
 Merging replicated shards: every machine's shard lists ids in ascending order and, as one stream, their
 neighbour lists.  The merge walks the (id, shard) pairs of all shards in order and draws each pair's list
 from its shard's stream; lists of the same id are united, cut to the maximal degree and written.
 */
module ShardMerge {

  datatype Node = Node(id: nat, nghs: seq<nat>)

  type Shard = seq<Node>

  /** A vertex id and the shard it is in. */
  datatype Pair = Pair(id: nat, shard: nat)

  // ----- Streams

  /** Degree, neighbours, degree, neighbours, ... */
  function Encode(lists: seq<seq<nat>>): seq<nat> {
    if lists == [] then [] else Encode(lists[..|lists| - 1]) + [|lists[|lists| - 1]|] + lists[|lists| - 1]
  }

  function Lists(s: Shard): (r: seq<seq<nat>>)
    ensures |r| == |s| && forall k :: 0 <= k < |r| ==> r[k] == s[k].nghs
  {
    seq(|s|, k requires 0 <= k < |s| => s[k].nghs)
  }

  /** Where list k starts. */
  function Start(lists: seq<seq<nat>>, k: nat): nat
    requires k <= |lists|
  {
    if k == 0 then 0 else Start(lists, k - 1) + 1 + |lists[k - 1]|
  }

  /** List k is in the stream at its start. */
  ghost predicate ListAt(stream: seq<nat>, ofs: nat, list: seq<nat>) {
    ofs + 1 + |list| <= |stream| && stream[ofs] == |list| && stream[ofs + 1..ofs + 1 + |list|] == list
  }

  lemma {:induction false} EncodedSize(lists: seq<seq<nat>>)
    ensures |Encode(lists)| == Start(lists, |lists|)
    decreases |lists|
  {
    if lists != [] {
      EncodedSize(lists[..|lists| - 1]);
      StartOfFront(lists, |lists| - 1);
    }
  }

  lemma {:induction false} StartOfFront(lists: seq<seq<nat>>, k: nat)
    requires k < |lists|
    ensures Start(lists[..|lists| - 1], k) == Start(lists, k)
  {
    if k > 0 {
      StartOfFront(lists, k - 1);
    }
  }

  lemma {:induction false} EncodedListAt(lists: seq<seq<nat>>, k: nat)
    requires k < |lists|
    ensures ListAt(Encode(lists), Start(lists, k), lists[k])
    decreases |lists|
  {
    var front, last := lists[..|lists| - 1], lists[|lists| - 1];
    EncodedSize(front);
    StartOfFront(lists, k);
    if k < |front| {
      EncodedListAt(front, k);
      ListAtExtends(Encode(front), [|last|] + last, Start(lists, k), lists[k]);
      assert Encode(lists) == Encode(front) + ([|last|] + last);
    } else {
      assert Start(lists, k) == |Encode(front)|;
    }
  }

  lemma ListAtExtends(s: seq<nat>, more: seq<nat>, ofs: nat, list: seq<nat>)
    requires ListAt(s, ofs, list)
    ensures ListAt(s + more, ofs, list)
  {
    assert (s + more)[ofs + 1..ofs + 1 + |list|] == s[ofs + 1..ofs + 1 + |list|];
  }

  // ----- The pairs of all shards in order

  predicate Ascending(s: seq<nat>) { forall i, j :: 0 <= i < j < |s| ==> s[i] < s[j] }

  predicate ShardOk(s: Shard, maxVid: nat) {
    && (forall i, j :: 0 <= i < j < |s| ==> s[i].id < s[j].id)
    && forall k, i :: 0 <= k < |s| && 0 <= i < |s[k].nghs| ==> s[k].nghs[i] < maxVid
  }

  predicate Before(a: Pair, b: Pair) { a.id < b.id || (a.id == b.id && a.shard < b.shard) }

  ghost predicate IsIn(shards: seq<Shard>, p: Pair) {
    p.shard < |shards| && exists k :: 0 <= k < |shards[p.shard]| && shards[p.shard][k].id == p.id
  }

  /** node_shard after the sort: all pairs, in order. */
  ghost predicate Sorted(shards: seq<Shard>, pairs: seq<Pair>) {
    && (forall i, j :: 0 <= i < j < |pairs| ==> Before(pairs[i], pairs[j]))
    && forall p :: p in pairs <==> IsIn(shards, p)
  }

  /** The ids of shard m among the first n pairs. */
  function Filter(pairs: seq<Pair>, n: nat, m: nat): seq<nat>
    requires n <= |pairs|
  {
    if n == 0 then [] else Filter(pairs, n - 1, m) + if pairs[n - 1].shard == m then [pairs[n - 1].id] else []
  }

  function Rank(pairs: seq<Pair>, n: nat, m: nat): nat
    requires n <= |pairs|
  {
    |Filter(pairs, n, m)|
  }

  lemma {:induction false} FilterFacts(pairs: seq<Pair>, n: nat, m: nat)
    requires n <= |pairs| && forall i, j :: 0 <= i < j < |pairs| ==> Before(pairs[i], pairs[j])
    ensures Ascending(Filter(pairs, n, m))
    ensures forall v :: v in Filter(pairs, n, m) <==> exists j :: 0 <= j < n && pairs[j] == Pair(v, m)
  {
    if n > 0 {
      FilterFacts(pairs, n - 1, m);
      var front, p := Filter(pairs, n - 1, m), pairs[n - 1];
      forall v | v in front && p.shard == m
        ensures v < p.id
      {
        var j :| 0 <= j < n - 1 && pairs[j] == Pair(v, m);
        assert Before(pairs[j], p);
      }
      var r := Filter(pairs, n, m);
      forall i, j | 0 <= i < j < |r|
        ensures r[i] < r[j]
      {
        assert r[i] in front;
      }
    }
  }

  lemma {:induction false} FilterPrefix(pairs: seq<Pair>, j: nat, n: nat)
    requires j < n <= |pairs|
    ensures var m := pairs[j].shard;
            Rank(pairs, j, m) < Rank(pairs, n, m) && Filter(pairs, n, m)[Rank(pairs, j, m)] == pairs[j].id
    decreases n
  {
    if j < n - 1 {
      FilterPrefix(pairs, j, n - 1);
    }
  }

  /** Two ascending sequences with the same elements are the same. */
  lemma {:induction false} AscendingUnique(a: seq<nat>, b: seq<nat>)
    requires Ascending(a) && Ascending(b) && forall x :: x in a <==> x in b
    ensures a == b
    decreases |a|
  {
    assert b != [] ==> b[0] in b;
    if a != [] {
      LastIsLargest(a, b);
      LastIsLargest(b, a);
      var fa, fb := a[..|a| - 1], b[..|b| - 1];
      forall x
        ensures x in fa <==> x in fb
      {
        assert x in a <==> x in b;
      }
      AscendingUnique(fa, fb);
      assert a == a[..|a| - 1] + [a[|a| - 1]] && b == b[..|b| - 1] + [b[|b| - 1]];
    }
  }

  lemma LastIsLargest(a: seq<nat>, b: seq<nat>)
    requires a != [] && Ascending(a) && Ascending(b) && forall x :: x in a <==> x in b
    ensures b != [] && a[|a| - 1] <= b[|b| - 1]
    ensures forall x :: x in a[..|a| - 1] <==> x in a && x != a[|a| - 1]
  {
    var last := a[|a| - 1];
    assert last in b;
    forall x
      ensures x in a[..|a| - 1] <==> x in a && x != last
    {
    }
  }

  function IdsOf(s: Shard): (r: seq<nat>)
    ensures |r| == |s| && forall k :: 0 <= k < |r| ==> r[k] == s[k].id
  {
    seq(|s|, k requires 0 <= k < |s| => s[k].id)
  }

  /** The pairs of one shard name its ids in the shard's order. */
  lemma ShardInOrder(shards: seq<Shard>, pairs: seq<Pair>, m: nat, maxVid: nat)
    requires Sorted(shards, pairs) && m < |shards| && ShardOk(shards[m], maxVid)
    ensures Filter(pairs, |pairs|, m) == IdsOf(shards[m])
  {
    FilterFacts(pairs, |pairs|, m);
    var f, ids := Filter(pairs, |pairs|, m), IdsOf(shards[m]);
    forall v
      ensures v in f <==> v in ids
    {
      if v in f {
        assert Pair(v, m) in pairs && IsIn(shards, Pair(v, m));
      }
      if v in ids {
        assert IsIn(shards, Pair(v, m));
      }
    }
    AscendingUnique(f, ids);
  }

  /** The cursor of a pair's shard is at the pair's own list. */
  lemma Aligned(shards: seq<Shard>, pairs: seq<Pair>, j: nat, maxVid: nat)
    requires Sorted(shards, pairs) && j < |pairs| && forall m :: 0 <= m < |shards| ==> ShardOk(shards[m], maxVid)
    ensures pairs[j].shard < |shards|
    ensures var k := Rank(pairs, j, pairs[j].shard);
            k < |shards[pairs[j].shard]| && shards[pairs[j].shard][k].id == pairs[j].id
  {
    assert pairs[j] in pairs && IsIn(shards, pairs[j]);
    FilterPrefix(pairs, j, |pairs|);
    ShardInOrder(shards, pairs, pairs[j].shard, maxVid);
  }

  // ----- Unions

  function Elements(s: seq<nat>): set<nat> { set x | x in s }

  predicate NoDup(s: seq<nat>) { forall i, j :: 0 <= i < j < |s| ==> s[i] != s[j] }

  lemma {:induction false} NoDupSize(s: seq<nat>)
    requires NoDup(s)
    ensures |Elements(s)| == |s|
    decreases |s|
  {
    if s != [] {
      var front := s[..|s| - 1];
      NoDupSize(front);
      assert Elements(s) == Elements(front) + {s[|s| - 1]};
    }
  }

  /** All neighbours any shard lists for v. */
  ghost function UnionOf(shards: seq<Shard>, v: nat): set<nat> {
    set m, k, i | 0 <= m < |shards| && 0 <= k < |shards[m]| && shards[m][k].id == v && 0 <= i < |shards[m][k].nghs|
      :: shards[m][k].nghs[i]
  }

  ghost predicate Ok(shards: seq<Shard>, pairs: seq<Pair>, maxVid: nat) {
    Sorted(shards, pairs) && forall m :: 0 <= m < |shards| ==> ShardOk(shards[m], maxVid)
  }

  /** The list of pair j. */
  ghost function ListOf(shards: seq<Shard>, pairs: seq<Pair>, j: nat, maxVid: nat): seq<nat>
    requires Ok(shards, pairs, maxVid) && j < |pairs|
  {
    Aligned(shards, pairs, j, maxVid);
    shards[pairs[j].shard][Rank(pairs, j, pairs[j].shard)].nghs
  }

  /** The neighbours of v in the lists of the first n pairs. */
  ghost function UnionTo(shards: seq<Shard>, pairs: seq<Pair>, n: nat, v: nat, maxVid: nat): set<nat>
    requires Ok(shards, pairs, maxVid) && n <= |pairs|
  {
    if n == 0 then {}
    else
      UnionTo(shards, pairs, n - 1, v, maxVid)
      + if pairs[n - 1].id == v then Elements(ListOf(shards, pairs, n - 1, maxVid)) else {}
  }

  lemma {:induction false} UnionToWithin(shards: seq<Shard>, pairs: seq<Pair>, n: nat, v: nat, maxVid: nat)
    requires Ok(shards, pairs, maxVid) && n <= |pairs|
    ensures UnionTo(shards, pairs, n, v, maxVid) <= UnionOf(shards, v)
  {
    if n > 0 {
      UnionToWithin(shards, pairs, n - 1, v, maxVid);
      Aligned(shards, pairs, n - 1, maxVid);
    }
  }

  lemma {:induction false} UnionToHas(shards: seq<Shard>, pairs: seq<Pair>, n: nat, v: nat, maxVid: nat, j: nat)
    requires Ok(shards, pairs, maxVid) && j < n <= |pairs| && pairs[j].id == v
    ensures Elements(ListOf(shards, pairs, j, maxVid)) <= UnionTo(shards, pairs, n, v, maxVid)
    decreases n
  {
    if j < n - 1 {
      UnionToHas(shards, pairs, n - 1, v, maxVid, j);
    }
  }

  /** After the last pair of v its union is complete. */
  lemma UnionComplete(shards: seq<Shard>, pairs: seq<Pair>, n: nat, v: nat, maxVid: nat)
    requires Ok(shards, pairs, maxVid) && n <= |pairs| && forall j :: n <= j < |pairs| ==> v < pairs[j].id
    ensures UnionTo(shards, pairs, n, v, maxVid) == UnionOf(shards, v)
  {
    UnionToWithin(shards, pairs, n, v, maxVid);
    forall x | x in UnionOf(shards, v)
      ensures x in UnionTo(shards, pairs, n, v, maxVid)
    {
      var m, k, i :| 0 <= m < |shards| && 0 <= k < |shards[m]| && shards[m][k].id == v && 0 <= i < |shards[m][k].nghs|
                     && shards[m][k].nghs[i] == x;
      assert IsIn(shards, Pair(v, m));
      var j :| 0 <= j < |pairs| && pairs[j] == Pair(v, m);
      Aligned(shards, pairs, j, maxVid);
      assert k == Rank(pairs, j, m);
      UnionToHas(shards, pairs, n, v, maxVid, j);
    }
  }

  /** Nothing of a later id has been collected. */
  lemma {:induction false} UnionNotYet(shards: seq<Shard>, pairs: seq<Pair>, n: nat, v: nat, maxVid: nat)
    requires Ok(shards, pairs, maxVid) && n <= |pairs| && forall j :: 0 <= j < n ==> pairs[j].id != v
    ensures UnionTo(shards, pairs, n, v, maxVid) == {}
  {
    if n > 0 {
      UnionNotYet(shards, pairs, n - 1, v, maxVid);
    }
  }

  // ----- The merge

  predicate Marks(bits: array<bool>, s: seq<nat>)
    reads bits
  {
    forall x :: 0 <= x < bits.Length ==> bits[x] == (x in s)
  }

  /** Reads the list at the cursor; ids not yet marked are marked and added. */
  method ReadList(stream: seq<nat>, ofs0: nat, bits: array<bool>, final0: seq<nat>, ghost list: seq<nat>)
    returns (ok: bool, ofs: nat, final: seq<nat>)
    requires ListAt(stream, ofs0, list) && NoDup(final0) && Marks(bits, final0)
    requires forall i :: 0 <= i < |list| ==> list[i] < bits.Length
    modifies bits
    ensures ok == (list != []) && ofs == ofs0 + 1 + |list|
    ensures NoDup(final) && Marks(bits, final) && Elements(final) == Elements(final0) + Elements(list)
  {
    var deg := stream[ofs0];
    ofs, final := ofs0 + 1, final0;
    ok := deg > 0;
    for d := 0 to deg
      invariant NoDup(final) && Marks(bits, final) && Elements(final) == Elements(final0) + Elements(list[..d])
    {
      var ngh := stream[ofs + d];
      assert ngh == stream[ofs..ofs + |list|][d] == list[d];
      assert list[..d + 1] == list[..d] + [list[d]];
      assert Elements(list[..d + 1]) == Elements(list[..d]) + {ngh};
      if !bits[ngh] {
        bits[ngh] := true;
        assert Elements(final + [ngh]) == Elements(final) + {ngh};
        final := final + [ngh];
      } else {
        assert ngh in Elements(final);
      }
    }
    assert list[..deg] == list;
    ofs := ofs + deg;
  }

  ghost predicate Shuffles(shuffle: (nat, seq<nat>) -> seq<nat>) {
    forall j: nat, s: seq<nat> {:trigger shuffle(j, s)} :: multiset(shuffle(j, s)) == multiset(s)
  }

  /** A record for an id whose neighbours are `all`: a choice of as many of them as fit. */
  ghost predicate RecordFor(record: seq<nat>, all: set<nat>, maxDegree: nat) {
    && NoDup(record) && Elements(record) <= all
    && |record| == if |all| < maxDegree then |all| else maxDegree
  }

  lemma ShuffledPrefix(final: seq<nat>, shuffled: seq<nat>, n: nat)
    requires NoDup(final) && multiset(shuffled) == multiset(final) && n <= |shuffled|
    ensures NoDup(shuffled[..n]) && Elements(shuffled[..n]) <= Elements(final)
  {
    forall x | x in Elements(shuffled[..n])
      ensures x in Elements(final)
    {
      assert x in multiset(shuffled);
    }
    forall i, j | 0 <= i < j < n
      ensures shuffled[i] != shuffled[j]
    {
      if shuffled[i] == shuffled[j] {
        TwiceInMultiset(shuffled, i, j);
        OnceInMultiset(final, shuffled[i]);
        assert false;
      }
    }
  }

  lemma TwiceInMultiset(s: seq<nat>, i: nat, j: nat)
    requires i < j < |s| && s[i] == s[j]
    ensures multiset(s)[s[i]] >= 2
  {
    assert s == s[..j] + [s[j]] + s[j + 1..];
    assert s[..j][i] == s[i];
  }

  lemma {:induction false} OnceInMultiset(s: seq<nat>, x: nat)
    requires NoDup(s)
    ensures multiset(s)[x] <= 1
    decreases |s|
  {
    if s != [] {
      OnceInMultiset(s[..|s| - 1], x);
      assert s == s[..|s| - 1] + [s[|s| - 1]];
    }
  }

  /** The list of an id is complete: shuffle, cut, clear the bitmap. */
  method Flush(final: seq<nat>, bits: array<bool>, maxDegree: nat, shuffle: (nat, seq<nat>) -> seq<nat>, j: nat)
    returns (ok: bool, record: seq<nat>)
    requires NoDup(final) && Marks(bits, final) && Shuffles(shuffle)
    modifies bits
    ensures ok == (final != [] && maxDegree > 0)
    ensures RecordFor(record, Elements(final), maxDegree)
    ensures ok ==> Marks(bits, [])
  {
    var shuffled := shuffle(j, final);
    assert |shuffled| == |multiset(shuffled)| == |multiset(final)| == |final|;
    var deg := if |shuffled| < maxDegree then |shuffled| else maxDegree;
    record := shuffled[..deg];
    ShuffledPrefix(final, shuffled, deg);
    NoDupSize(final);
    ok := deg > 0;
    if ok {
      for i := 0 to |final|
        invariant forall x :: 0 <= x < bits.Length ==> bits[x] == (x in final[i..])
      {
        if final[i] < bits.Length {
          bits[final[i]] := false;
        }
      }
    }
  }

  /** The ids of the records written, and the records. */
  ghost predicate Recorded(shards: seq<Shard>, vids: seq<nat>, recs: seq<seq<nat>>, maxDegree: nat) {
    && |vids| == |recs| && Ascending(vids)
    && forall j :: 0 <= j < |recs| ==> RecordFor(recs[j], UnionOf(shards, vids[j]), maxDegree)
  }

  /** All lists of the first n pairs are non-empty. */
  ghost predicate NoneEmpty(shards: seq<Shard>, pairs: seq<Pair>, n: nat, maxVid: nat)
    requires Ok(shards, pairs, maxVid) && n <= |pairs|
  {
    forall j :: 0 <= j < n ==> ListOf(shards, pairs, j, maxVid) != []
  }

  /** The first n pairs have been read: the ids below `cur` are written, `final` is what there is for `cur`. */
  ghost predicate Merging(shards: seq<Shard>, pairs: seq<Pair>, n: nat, maxVid: nat, maxDegree: nat,
                          cur: nat, final: seq<nat>, vids: seq<nat>, recs: seq<seq<nat>>)
  {
    && Ok(shards, pairs, maxVid) && n <= |pairs|
    && NoDup(final) && Elements(final) == UnionTo(shards, pairs, n, cur, maxVid)
    && Recorded(shards, vids, recs, maxDegree)
    && (forall v :: v in vids ==> v < cur)
    && forall v :: v in vids <==> v != cur && Among(pairs, n, v)
  }

  ghost predicate Among(pairs: seq<Pair>, n: nat, v: nat)
    requires n <= |pairs|
  {
    exists j :: 0 <= j < n && pairs[j].id == v
  }

  /** Every cursor is behind the lists its shard has given. */
  ghost predicate Cursors(shards: seq<Shard>, pairs: seq<Pair>, n: nat, offs: seq<nat>)
    requires n <= |pairs|
  {
    && |offs| == |shards|
    && forall m :: 0 <= m < |shards| ==>
         Rank(pairs, n, m) <= |shards[m]| && offs[m] == Start(Lists(shards[m]), Rank(pairs, n, m))
  }

  lemma IdsAscend(shards: seq<Shard>, pairs: seq<Pair>, i: nat, j: nat)
    requires Sorted(shards, pairs) && i <= j < |pairs|
    ensures pairs[i].id <= pairs[j].id
  {
    if i < j {
      assert Before(pairs[i], pairs[j]);
    }
  }

  /** The record of `cur` may be written once a later id comes, or none. */
  lemma RecordIsFor(shards: seq<Shard>, pairs: seq<Pair>, n: nat, maxVid: nat, maxDegree: nat, cur: nat, final: seq<nat>,
                    vids: seq<nat>, recs: seq<seq<nat>>, record: seq<nat>)
    requires Merging(shards, pairs, n, maxVid, maxDegree, cur, final, vids, recs)
    requires n < |pairs| ==> cur < pairs[n].id
    requires RecordFor(record, Elements(final), maxDegree)
    ensures RecordFor(record, UnionOf(shards, cur), maxDegree)
    ensures Recorded(shards, vids + [cur], recs + [record], maxDegree)
  {
    forall j | n <= j < |pairs|
      ensures cur < pairs[j].id
    {
      IdsAscend(shards, pairs, n, j);
    }
    UnionComplete(shards, pairs, n, cur, maxVid);
    var vids1 := vids + [cur];
    forall i, j | 0 <= i < j < |vids1|
      ensures vids1[i] < vids1[j]
    {
      assert vids1[i] in vids;
    }
  }

  lemma NextId(shards: seq<Shard>, pairs: seq<Pair>, n: nat, maxVid: nat, maxDegree: nat, cur: nat, final: seq<nat>,
               vids: seq<nat>, recs: seq<seq<nat>>, record: seq<nat>)
    requires Merging(shards, pairs, n, maxVid, maxDegree, cur, final, vids, recs)
    requires 0 < n < |pairs| && cur == pairs[n - 1].id < pairs[n].id && RecordFor(record, Elements(final), maxDegree)
    ensures Merging(shards, pairs, n, maxVid, maxDegree, pairs[n].id, [], vids + [cur], recs + [record])
  {
    RecordIsFor(shards, pairs, n, maxVid, maxDegree, cur, final, vids, recs, record);
    var next := pairs[n].id;
    forall j | 0 <= j < n
      ensures pairs[j].id != next
    {
      IdsAscend(shards, pairs, j, n - 1);
    }
    UnionNotYet(shards, pairs, n, next, maxVid);
    assert Among(pairs, n, cur);
    forall v
      ensures v in vids + [cur] <==> v != next && Among(pairs, n, v)
    {
      assert v in vids <==> v != cur && Among(pairs, n, v);
    }
  }

  lemma ListRead(shards: seq<Shard>, pairs: seq<Pair>, n: nat, maxVid: nat, maxDegree: nat, final: seq<nat>,
                 final1: seq<nat>, vids: seq<nat>, recs: seq<seq<nat>>)
    requires n < |pairs| && Merging(shards, pairs, n, maxVid, maxDegree, pairs[n].id, final, vids, recs)
    requires NoDup(final1) && Elements(final1) == Elements(final) + Elements(ListOf(shards, pairs, n, maxVid))
    ensures Merging(shards, pairs, n + 1, maxVid, maxDegree, pairs[n].id, final1, vids, recs)
  {
    var cur, n1 := pairs[n].id, n + 1;
    forall v
      ensures v in vids <==> v != cur && Among(pairs, n1, v)
    {
      assert v in vids <==> v != cur && Among(pairs, n, v);
      if v != cur && Among(pairs, n1, v) {
        var j :| 0 <= j < n1 && pairs[j].id == v;
        assert Among(pairs, n, v);
      }
      if Among(pairs, n, v) {
        var j :| 0 <= j < n && pairs[j].id == v;
        assert Among(pairs, n1, v);
      }
    }
  }

  /** The list of pair n is at its shard's cursor. */
  lemma AtCursor(shards: seq<Shard>, pairs: seq<Pair>, n: nat, maxVid: nat, offs: seq<nat>, stream: seq<nat>)
    requires Ok(shards, pairs, maxVid) && n < |pairs| && Cursors(shards, pairs, n, offs) && pairs[n].shard < |shards|
    requires stream == Encode(Lists(shards[pairs[n].shard]))
    ensures ListAt(stream, offs[pairs[n].shard], ListOf(shards, pairs, n, maxVid))
    ensures forall i :: 0 <= i < |ListOf(shards, pairs, n, maxVid)| ==> ListOf(shards, pairs, n, maxVid)[i] < maxVid
  {
    Aligned(shards, pairs, n, maxVid);
    EncodedListAt(Lists(shards[pairs[n].shard]), Rank(pairs, n, pairs[n].shard));
  }

  lemma CursorMoves(shards: seq<Shard>, pairs: seq<Pair>, n: nat, maxVid: nat, offs: seq<nat>)
    requires Ok(shards, pairs, maxVid) && n < |pairs| && Cursors(shards, pairs, n, offs) && pairs[n].shard < |shards|
    ensures var m := pairs[n].shard;
            Cursors(shards, pairs, n + 1, offs[m := offs[m] + 1 + |ListOf(shards, pairs, n, maxVid)|])
  {
    Aligned(shards, pairs, n, maxVid);
    var m, n1 := pairs[n].shard, n + 1;
    forall q | 0 <= q < |shards|
      ensures Rank(pairs, n1, q) == Rank(pairs, n, q) + if q == m then 1 else 0
    {
    }
  }

  /** One pair: its list is read from its shard, and the shard's cursor moves on. */
  method ReadPair(ghost shards: seq<Shard>, streams: seq<seq<nat>>, pairs: seq<Pair>, n: nat, bits: array<bool>,
                  offs0: seq<nat>, final0: seq<nat>)
    returns (ok: bool, final: seq<nat>, offs: seq<nat>)
    requires Ok(shards, pairs, bits.Length) && n < |pairs| && Cursors(shards, pairs, n, offs0)
    requires StreamsOf(shards, streams)
    requires NoDup(final0) && Marks(bits, final0)
    modifies bits
    ensures Cursors(shards, pairs, n + 1, offs) && Marks(bits, final) && NoDup(final)
    ensures ok == (ListOf(shards, pairs, n, bits.Length) != [])
    ensures Elements(final) == Elements(final0) + Elements(ListOf(shards, pairs, n, bits.Length))
  {
    Aligned(shards, pairs, n, bits.Length);
    var m := pairs[n].shard;
    AtCursor(shards, pairs, n, bits.Length, offs0, streams[m]);
    CursorMoves(shards, pairs, n, bits.Length, offs0);
    var ofs;
    ok, ofs, final := ReadList(streams[m], offs0[m], bits, final0, ListOf(shards, pairs, n, bits.Length));
    offs := offs0[m := ofs];
  }

  /** 8 bytes for the size, 4 for the degree, 4 for the medoid, 8 for frozen points. */
  const META_LEN := 24

  /** A record is written: its degree and its neighbours. */
  method Write(out0: seq<nat>, size0: nat, record: seq<nat>, ghost recs: seq<seq<nat>>) returns (out: seq<nat>, size: nat)
    requires out0 == Encode(recs) && size0 == META_LEN + 4 * |out0|
    ensures out == Encode(recs + [record]) && size == META_LEN + 4 * |out|
  {
    out := out0 + [|record|] + record;
    size := size0 + 4 + |record| * 4;
    assert (recs + [record])[..|recs|] == recs;
  }

  /** Between two pairs: a record is written if the next pair has a new id. */
  method StartPair(ghost shards: seq<Shard>, pairs: seq<Pair>, n: nat, bits: array<bool>, maxDegree: nat,
                   shuffle: (nat, seq<nat>) -> seq<nat>, cur0: nat, final0: seq<nat>, out0: seq<nat>, size0: nat,
                   ghost vids0: seq<nat>, ghost recs0: seq<seq<nat>>)
    returns (ok: bool, cur: nat, final: seq<nat>, out: seq<nat>, size: nat, ghost vids: seq<nat>, ghost recs: seq<seq<nat>>)
    requires Merging(shards, pairs, n, bits.Length, maxDegree, cur0, final0, vids0, recs0) && Marks(bits, final0)
    requires n < |pairs| && cur0 == (if n == 0 then pairs[0].id else pairs[n - 1].id) && Shuffles(shuffle)
    requires out0 == Encode(recs0) && size0 == META_LEN + 4 * |out0| && (n > 0 ==> final0 != [])
    modifies bits
    ensures !ok ==> maxDegree == 0
    ensures ok ==>
              && Merging(shards, pairs, n, bits.Length, maxDegree, cur, final, vids, recs) && Marks(bits, final)
              && cur == pairs[n].id && out == Encode(recs) && size == META_LEN + 4 * |out|
  {
    ok, cur, final, out, size, vids, recs := true, cur0, final0, out0, size0, vids0, recs0;
    if cur < pairs[n].id {
      var record;
      ok, record := Flush(final, bits, maxDegree, shuffle, |out0|);
      if ok {
        NextId(shards, pairs, n, bits.Length, maxDegree, cur, final, vids, recs, record);
        out, size := Write(out, size, record, recs);
        cur, final, vids, recs := pairs[n].id, [], vids + [cur], recs + [record];
      }
    } else if n > 0 {
      IdsAscend(shards, pairs, n - 1, n);
    }
  }

  /** After the last pair every stream has been read to its end. */
  lemma CursorsAtEnd(shards: seq<Shard>, pairs: seq<Pair>, maxVid: nat, offs: seq<nat>, streams: seq<seq<nat>>)
    requires Ok(shards, pairs, maxVid) && Cursors(shards, pairs, |pairs|, offs)
    requires StreamsOf(shards, streams)
    ensures forall m :: 0 <= m < |shards| ==> offs[m] == |streams[m]|
  {
    forall m | 0 <= m < |shards|
      ensures offs[m] == |streams[m]|
    {
      ShardInOrder(shards, pairs, m, maxVid);
      EncodedSize(Lists(shards[m]));
    }
  }

  ghost predicate StreamsOf(shards: seq<Shard>, streams: seq<seq<nat>>) {
    |streams| == |shards| && forall m :: 0 <= m < |shards| ==> streams[m] == Encode(Lists(shards[m]))
  }

  /** Where the merge is after n pairs. */
  ghost predicate Going(shards: seq<Shard>, pairs: seq<Pair>, n: nat, maxVid: nat, maxDegree: nat, cur: nat,
                        final: seq<nat>, out: seq<nat>, size: nat, offs: seq<nat>, vids: seq<nat>, recs: seq<seq<nat>>)
  {
    && Merging(shards, pairs, n, maxVid, maxDegree, cur, final, vids, recs) && pairs != []
    && cur == (if n == 0 then pairs[0].id else pairs[n - 1].id) && (n > 0 ==> final != [])
    && out == Encode(recs) && size == META_LEN + 4 * |out|
    && Cursors(shards, pairs, n, offs) && NoneEmpty(shards, pairs, n, maxVid)
  }

  lemma NotEmptyYet(final: seq<nat>, list: seq<nat>, before: seq<nat>)
    requires list != [] && Elements(final) == Elements(before) + Elements(list)
    ensures final != []
  {
    assert list[0] in Elements(final);
  }

  lemma PairRead(shards: seq<Shard>, pairs: seq<Pair>, n: nat, maxVid: nat, maxDegree: nat, final: seq<nat>,
                 final1: seq<nat>, out: seq<nat>, size: nat, offs: seq<nat>, vids: seq<nat>, recs: seq<seq<nat>>)
    requires n < |pairs| && Merging(shards, pairs, n, maxVid, maxDegree, pairs[n].id, final, vids, recs)
    requires out == Encode(recs) && size == META_LEN + 4 * |out|
    requires NoDup(final1) && Elements(final1) == Elements(final) + Elements(ListOf(shards, pairs, n, maxVid))
    requires ListOf(shards, pairs, n, maxVid) != [] && NoneEmpty(shards, pairs, n, maxVid)
    requires Cursors(shards, pairs, n + 1, offs)
    ensures Going(shards, pairs, n + 1, maxVid, maxDegree, pairs[n].id, final1, out, size, offs, vids, recs)
  {
    ListRead(shards, pairs, n, maxVid, maxDegree, final, final1, vids, recs);
    NotEmptyYet(final1, ListOf(shards, pairs, n, maxVid), final);
  }

  lemma GoingStarts(shards: seq<Shard>, pairs: seq<Pair>, maxVid: nat, maxDegree: nat, offs: seq<nat>)
    requires Ok(shards, pairs, maxVid) && pairs != [] && |offs| == |shards| && forall m :: 0 <= m < |offs| ==> offs[m] == 0
    ensures Going(shards, pairs, 0, maxVid, maxDegree, pairs[0].id, [], [], META_LEN, offs, [], [])
  {
    assert UnionTo(shards, pairs, 0, pairs[0].id, maxVid) == {};
  }

  method MergePair(ghost shards: seq<Shard>, streams: seq<seq<nat>>, pairs: seq<Pair>, n: nat, bits: array<bool>,
                   maxDegree: nat, shuffle: (nat, seq<nat>) -> seq<nat>, cur0: nat, final0: seq<nat>, out0: seq<nat>,
                   size0: nat, offs0: seq<nat>, ghost vids0: seq<nat>, ghost recs0: seq<seq<nat>>)
    returns (ok: bool, cur: nat, final: seq<nat>, out: seq<nat>, size: nat, offs: seq<nat>, ghost vids: seq<nat>,
             ghost recs: seq<seq<nat>>)
    requires Going(shards, pairs, n, bits.Length, maxDegree, cur0, final0, out0, size0, offs0, vids0, recs0)
    requires n < |pairs| && Shuffles(shuffle) && StreamsOf(shards, streams) && Marks(bits, final0)
    modifies bits
    ensures !ok ==> maxDegree == 0 || ListOf(shards, pairs, n, bits.Length) == []
    ensures ok ==> Going(shards, pairs, n + 1, bits.Length, maxDegree, cur, final, out, size, offs, vids, recs)
    ensures ok ==> Marks(bits, final)
  {
    offs := offs0;
    ok, cur, final, out, size, vids, recs :=
      StartPair(shards, pairs, n, bits, maxDegree, shuffle, cur0, final0, out0, size0, vids0, recs0);
    if ok {
      ghost var before := final;
      ok, final, offs := ReadPair(shards, streams, pairs, n, bits, offs0, final);
      if ok {
        PairRead(shards, pairs, n, bits.Length, maxDegree, before, final, out, size, offs, vids, recs);
      }
    }
  }

  method LastRecord(ghost shards: seq<Shard>, ghost pairs: seq<Pair>, bits: array<bool>, maxDegree: nat,
                    shuffle: (nat, seq<nat>) -> seq<nat>, ghost cur: nat, final: seq<nat>, out0: seq<nat>, size0: nat,
                    ghost offs: seq<nat>, ghost vids0: seq<nat>, ghost recs0: seq<seq<nat>>)
    returns (ok: bool, out: seq<nat>, size: nat, ghost vids: seq<nat>, ghost recs: seq<seq<nat>>)
    requires Going(shards, pairs, |pairs|, bits.Length, maxDegree, cur, final, out0, size0, offs, vids0, recs0)
    requires Shuffles(shuffle) && Marks(bits, final)
    modifies bits
    ensures ok <==> maxDegree > 0
    ensures ok ==> out == Encode(recs) && size == META_LEN + 4 * |out| && Recorded(shards, vids, recs, maxDegree)
    ensures ok ==> forall v :: v in vids <==> Among(pairs, |pairs|, v)
  {
    out, size, vids, recs := out0, size0, vids0, recs0;
    var record;
    ok, record := Flush(final, bits, maxDegree, shuffle, |out|);
    if ok {
      RecordIsFor(shards, pairs, |pairs|, bits.Length, maxDegree, cur, final, vids, recs, record);
      out, size := Write(out, size, record, recs);
      assert Among(pairs, |pairs|, cur);
      vids, recs := vids + [cur], recs + [record];
    }
  }

  /** merge_replica_partition.  `ok` is false where the code finds a vertex without neighbours or writes a
      record without any, and aborts.  Otherwise there is one record for every id of any shard, in ascending
      order of ids; each is a choice without duplicates from the union of all lists for its id, as large as
      the degree allows; the size is that of the file, and every stream has been read to its end. */
  method MergeReplicaPartition(ghost shards: seq<Shard>, streams: seq<seq<nat>>, pairs: seq<Pair>, maxVid: nat,
                               maxDegree: nat, shuffle: (nat, seq<nat>) -> seq<nat>)
    returns (ok: bool, out: seq<nat>, size: nat, offs: seq<nat>, ghost vids: seq<nat>, ghost recs: seq<seq<nat>>)
    requires Ok(shards, pairs, maxVid) && pairs != [] && Shuffles(shuffle) && StreamsOf(shards, streams)
    ensures ok <==> maxDegree > 0 && NoneEmpty(shards, pairs, |pairs|, maxVid)
    ensures ok ==> out == Encode(recs) && size == META_LEN + 4 * |out| && Recorded(shards, vids, recs, maxDegree)
    ensures ok ==> forall v :: v in vids <==> Among(pairs, |pairs|, v)
    ensures ok ==> |offs| == |streams| && forall m :: 0 <= m < |streams| ==> offs[m] == |streams[m]|
  {
    var bits := new bool[maxVid](_ => false);
    offs := seq(|streams|, _ => 0);
    var cur, final: seq<nat> := pairs[0].id, [];
    out, size, vids, recs := [], META_LEN, [], [];
    GoingStarts(shards, pairs, maxVid, maxDegree, offs);
    for n := 0 to |pairs|
      invariant Going(shards, pairs, n, maxVid, maxDegree, cur, final, out, size, offs, vids, recs)
      invariant Marks(bits, final)
    {
      ok, cur, final, out, size, offs, vids, recs :=
        MergePair(shards, streams, pairs, n, bits, maxDegree, shuffle, cur, final, out, size, offs, vids, recs);
      if !ok {
        return;
      }
    }
    ok, out, size, vids, recs := LastRecord(shards, pairs, bits, maxDegree, shuffle, cur, final, out, size, offs, vids, recs);
    CursorsAtEnd(shards, pairs, maxVid, offs, streams);
  }

  // ----- From the collected shards to the file

  function PairsOf(ids: seq<nat>, m: nat): (r: seq<Pair>)
    ensures |r| == |ids|
  {
    seq(|ids|, i requires 0 <= i < |ids| => Pair(ids[i], m))
  }

  /** The pairs of the first n machines. */
  function AllPairs(collected: seq<seq<nat>>, n: nat): seq<Pair>
    requires n <= |collected|
  {
    if n == 0 then [] else AllPairs(collected, n - 1) + PairsOf(collected[n - 1], n - 1)
  }

  /** node_shard before the sort. */
  method InverseMap(collected: seq<seq<nat>>) returns (pairs: seq<Pair>)
    ensures pairs == AllPairs(collected, |collected|)
  {
    pairs := [];
    for m := 0 to |collected|
      invariant pairs == AllPairs(collected, m)
    {
      ghost var before, more := pairs, PairsOf(collected[m], m);
      for idx := 0 to |collected[m]|
        invariant pairs == before + more[..idx]
      {
        assert more[..idx + 1] == more[..idx] + [more[idx]];
        pairs := pairs + [Pair(collected[m][idx], m)];
      }
      assert more[..|more|] == more;
    }
  }

  /** std::sort by Before, of which only this is known. */
  ghost predicate Sorts(sort: seq<Pair> -> seq<Pair>) {
    forall s: seq<Pair> {:trigger sort(s)} ::
      multiset(sort(s)) == multiset(s) && forall i, j :: 0 <= i < j < |sort(s)| ==> !Before(sort(s)[j], sort(s)[i])
  }

  ghost predicate CollectedOf(shards: seq<Shard>, collected: seq<seq<nat>>) {
    |collected| == |shards| && forall m :: 0 <= m < |shards| ==> collected[m] == IdsOf(shards[m])
  }

  predicate Distinct(s: seq<Pair>) { forall i, j :: 0 <= i < j < |s| ==> s[i] != s[j] }

  lemma {:induction false} AllPairsFacts(shards: seq<Shard>, collected: seq<seq<nat>>, n: nat, maxVid: nat)
    requires CollectedOf(shards, collected) && n <= |shards| && forall m :: 0 <= m < |shards| ==> ShardOk(shards[m], maxVid)
    ensures Distinct(AllPairs(collected, n))
    ensures forall p: Pair :: p in AllPairs(collected, n) <==> p.shard < n && IsIn(shards, p)
  {
    if n > 0 {
      var m := n - 1;
      AllPairsFacts(shards, collected, m, maxVid);
      OneShard(shards[m], m, maxVid);
      var front, more := AllPairs(collected, m), PairsOf(collected[m], m);
      forall p: Pair
        ensures p in front + more <==> p.shard < n && IsIn(shards, p)
      {
        assert p in front + more <==> p in front || p in more;
      }
      forall p: Pair | p in front && p in more
        ensures false
      {
      }
      BothDistinct(front, more);
    }
  }

  lemma OneShard(s: Shard, m: nat, maxVid: nat)
    requires ShardOk(s, maxVid)
    ensures var ps := PairsOf(IdsOf(s), m);
            Distinct(ps) && forall p: Pair :: p in ps <==> p.shard == m && exists k :: 0 <= k < |s| && s[k].id == p.id
  {
    var ps := PairsOf(IdsOf(s), m);
    forall p: Pair | p.shard == m && exists k :: 0 <= k < |s| && s[k].id == p.id
      ensures p in ps
    {
      var k :| 0 <= k < |s| && s[k].id == p.id;
      assert ps[k] == p;
    }
  }

  lemma BothDistinct(a: seq<Pair>, b: seq<Pair>)
    requires Distinct(a) && Distinct(b) && forall p: Pair :: p in a ==> p !in b
    ensures Distinct(a + b)
  {
    var s := a + b;
    forall i, j | 0 <= i < j < |s|
      ensures s[i] != s[j]
    {
      if i < |a| <= j {
        assert s[i] in a && s[j] in b;
      }
    }
  }

  lemma {:induction false} DistinctOnce(s: seq<Pair>, p: Pair)
    requires Distinct(s)
    ensures multiset(s)[p] <= 1
  {
    if s != [] {
      var front, last := s[..|s| - 1], s[|s| - 1];
      DistinctOnce(front, p);
      assert s == front + [last];
      assert last !in front;
    }
  }

  lemma PermutedDistinct(s: seq<Pair>, t: seq<Pair>)
    requires Distinct(s) && multiset(s) == multiset(t)
    ensures Distinct(t)
  {
    forall i, j | 0 <= i < j < |t|
      ensures t[i] != t[j]
    {
      DistinctOnce(s, t[j]);
      assert t == t[..j] + [t[j]] + t[j + 1..];
      assert t[i] in t[..j];
      assert multiset(t)[t[j]] == multiset(t[..j])[t[j]] + 1 + multiset(t[j + 1..])[t[j]];
    }
  }

  /** The sorted inverse map lists every id of every shard, in order. */
  lemma InverseMapSorted(shards: seq<Shard>, collected: seq<seq<nat>>, sort: seq<Pair> -> seq<Pair>, maxVid: nat)
    requires CollectedOf(shards, collected) && forall m :: 0 <= m < |shards| ==> ShardOk(shards[m], maxVid)
    requires Sorts(sort)
    ensures Sorted(shards, sort(AllPairs(collected, |collected|)))
  {
    var s := AllPairs(collected, |collected|);
    var t := sort(s);
    AllPairsFacts(shards, collected, |shards|, maxVid);
    PermutedDistinct(s, t);
    forall p: Pair
      ensures p in t <==> IsIn(shards, p)
    {
      assert p in t <==> p in multiset(t);
      assert p in s <==> p in multiset(s);
    }
    forall i, j | 0 <= i < j < |t|
      ensures Before(t[i], t[j])
    {
      assert t[i] != t[j] && !Before(t[j], t[i]);
    }
  }

  /** No vertex of any shard is without neighbours. */
  predicate AllHaveNeighbours(shards: seq<Shard>) {
    forall m, k :: 0 <= m < |shards| && 0 <= k < |shards[m]| ==> shards[m][k].nghs != []
  }

  lemma PairOfNode(shards: seq<Shard>, pairs: seq<Pair>, m: nat, k: nat, maxVid: nat) returns (j: nat)
    requires Ok(shards, pairs, maxVid) && m < |shards| && k < |shards[m]|
    ensures j < |pairs| && pairs[j] == Pair(shards[m][k].id, m) && ListOf(shards, pairs, j, maxVid) == shards[m][k].nghs
  {
    assert IsIn(shards, Pair(shards[m][k].id, m));
    j :| 0 <= j < |pairs| && pairs[j] == Pair(shards[m][k].id, m);
    Aligned(shards, pairs, j, maxVid);
    var r := Rank(pairs, j, m);
    assert shards[m][r].id == shards[m][k].id;
  }

  lemma NoneEmptyMeans(shards: seq<Shard>, pairs: seq<Pair>, maxVid: nat)
    requires Ok(shards, pairs, maxVid)
    ensures NoneEmpty(shards, pairs, |pairs|, maxVid) <==> AllHaveNeighbours(shards)
  {
    if NoneEmpty(shards, pairs, |pairs|, maxVid) {
      forall m, k | 0 <= m < |shards| && 0 <= k < |shards[m]|
        ensures shards[m][k].nghs != []
      {
        var j := PairOfNode(shards, pairs, m, k, maxVid);
      }
    }
    if AllHaveNeighbours(shards) {
      forall j | 0 <= j < |pairs|
        ensures ListOf(shards, pairs, j, maxVid) != []
      {
        Aligned(shards, pairs, j, maxVid);
      }
    }
  }

  const TWO_32 := 0x1_0000_0000

  /** Some shard has vertex v. */
  ghost predicate Has(shards: seq<Shard>, v: nat) { exists m :: 0 <= m < |shards| && IsIn(shards, Pair(v, m)) }

  /** What a merged file holds: the size of the file in bytes (two words), the degree bound, the medoid, no
      frozen points (two words), and the records. */
  ghost predicate IsMerged(shards: seq<Shard>, file: seq<nat>, maxDegree: nat, medoid: nat, vids: seq<nat>,
                           recs: seq<seq<nat>>)
  {
    && |file| >= 6 && file[0] < TWO_32 && file[0] + TWO_32 * file[1] == 4 * |file|
    && file[2] == maxDegree && file[3] == medoid && file[4] == file[5] == 0
    && file[6..] == Encode(recs) && Recorded(shards, vids, recs, maxDegree)
    && forall v: nat :: v in vids <==> Has(shards, v)
  }

  /** merge_replica_partition from the collected ids and lists to the file.  `ok` is false where the code
      finds a vertex without neighbours or writes a record without any, and aborts. */
  method MergeCollected(ghost shards: seq<Shard>, collected: seq<seq<nat>>, streams: seq<seq<nat>>, maxVid: nat,
                        maxDegree: nat, medoid: nat, sort: seq<Pair> -> seq<Pair>,
                        shuffle: (nat, seq<nat>) -> seq<nat>)
    returns (ok: bool, file: seq<nat>, ghost vids: seq<nat>, ghost recs: seq<seq<nat>>)
    requires CollectedOf(shards, collected) && StreamsOf(shards, streams)
    requires forall m :: 0 <= m < |shards| ==> ShardOk(shards[m], maxVid)
    requires exists m :: 0 <= m < |shards| && shards[m] != []
    requires Sorts(sort) && Shuffles(shuffle)
    ensures ok <==> maxDegree > 0 && AllHaveNeighbours(shards)
    ensures ok ==> IsMerged(shards, file, maxDegree, medoid, vids, recs)
  {
    var unsorted := InverseMap(collected);
    var pairs := sort(unsorted);
    InverseMapSorted(shards, collected, sort, maxVid);
    NoneEmptyMeans(shards, pairs, maxVid);
    SomePair(shards, pairs);
    file := [META_LEN, 0, maxDegree, medoid, 0, 0];
    var out, size, offs;
    ok, out, size, offs, vids, recs := MergeReplicaPartition(shards, streams, pairs, maxVid, maxDegree, shuffle);
    if ok {
      file := file + out;
      file := file[0 := size % TWO_32][1 := size / TWO_32];
      assert file[6..] == out;
      AmongMeans(shards, pairs);
    }
  }

  lemma SomePair(shards: seq<Shard>, pairs: seq<Pair>)
    requires Sorted(shards, pairs) && exists m :: 0 <= m < |shards| && shards[m] != []
    ensures pairs != []
  {
    var m :| 0 <= m < |shards| && shards[m] != [];
    assert IsIn(shards, Pair(shards[m][0].id, m));
  }

  lemma AmongMeans(shards: seq<Shard>, pairs: seq<Pair>)
    requires Sorted(shards, pairs)
    ensures forall v: nat :: Among(pairs, |pairs|, v) <==> Has(shards, v)
  {
    forall v: nat
      ensures Among(pairs, |pairs|, v) <==> Has(shards, v)
    {
      if Among(pairs, |pairs|, v) {
        var j :| 0 <= j < |pairs| && pairs[j].id == v;
        assert pairs[j] in pairs && pairs[j] == Pair(v, pairs[j].shard);
      }
      if m :| 0 <= m < |shards| && IsIn(shards, Pair(v, m)) {
        assert Pair(v, m) in pairs;
        var j :| 0 <= j < |pairs| && pairs[j] == Pair(v, m);
      }
    }
  }
}
