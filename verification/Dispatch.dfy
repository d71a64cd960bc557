/**
 Sorting a machine's replica shard by owning partition: a first pass over the index counts, a second pass
 fills buffers of just that size.  Buffers hold 32-bit words.
 */
module Dispatch {
  import opened ShardMerge
  import opened Multiplicity

  /** A local index: the global ids of its vertices, and for each the local numbers of its neighbours. */
  datatype Local = Local(ids: seq<nat>, lists: seq<seq<nat>>, part: seq<nat>, machines: nat) {
    ghost predicate Valid() {
      && |ids| == |lists|
      && (forall i :: 0 <= i < |ids| ==> ids[i] < |part|)
      && (forall v :: 0 <= v < |part| ==> part[v] < machines)
      && forall i, j :: 0 <= i < |lists| && 0 <= j < |lists[i]| ==> lists[i][j] < |ids|
    }

    function Nghs(i: nat): (r: seq<nat>)
      requires i < |lists| && forall j :: 0 <= j < |lists[i]| ==> lists[i][j] < |ids|
      ensures |r| == |lists[i]|
    {
      seq(|lists[i]|, j requires 0 <= j < |lists[i]| => ids[lists[i][j]])
    }

    function NodeAt(i: nat): Node
      requires i < |ids| == |lists| && forall j :: 0 <= j < |lists[i]| ==> lists[i][j] < |ids|
    {
      Node(ids[i], Nghs(i))
    }

    /** The first n vertices that partition p owns, with their neighbours' global ids. */
    ghost function ShardFor(n: nat, p: nat): Shard
      requires Valid() && n <= |ids|
    {
      if n == 0 then [] else ShardFor(n - 1, p) + if part[ids[n - 1]] == p then [NodeAt(n - 1)] else []
    }
  }

  /** The id buffer and the neighbour buffer of a shard. */
  ghost function IdWords(s: Shard): seq<nat> { IdsOf(s) }

  ghost function NghWords(s: Shard): seq<nat> { Encode(Lists(s)) }

  lemma WordsOfMore(s: Shard, x: Node)
    ensures IdWords(s + [x]) == IdWords(s) + [x.id]
    ensures NghWords(s + [x]) == NghWords(s) + ([|x.nghs|] + x.nghs)
  {
    var l := Lists(s + [x]);
    assert l[..|l| - 1] == Lists(s);
  }

  lemma {:induction false} ShardGrows(g: Local, m: nat, n: nat, p: nat)
    requires g.Valid() && m <= n <= |g.ids|
    ensures |g.ShardFor(m, p)| <= |g.ShardFor(n, p)|
    ensures |NghWords(g.ShardFor(m, p))| <= |NghWords(g.ShardFor(n, p))|
    decreases n
  {
    if m < n {
      ShardGrows(g, m, n - 1, p);
      assert g.ShardFor(n - 1, p) + [] == g.ShardFor(n - 1, p);
      WordsOfMore(g.ShardFor(n - 1, p), g.NodeAt(n - 1));
    }
  }

  /** If the local ids ascend, so do those of each shard, and it can be merged. */
  lemma {:induction false} ShardIsOk(g: Local, n: nat, p: nat)
    requires g.Valid() && n <= |g.ids| && Ascending(g.ids)
    ensures ShardOk(g.ShardFor(n, p), |g.part|)
    ensures forall x :: x in g.ShardFor(n, p) ==> exists i :: 0 <= i < n && x.id == g.ids[i]
  {
    if n > 0 {
      ShardIsOk(g, n - 1, p);
    }
  }

  // ----- The edges in the buffers

  /** How often v is among the vertices with these local numbers. */
  function NumbersOf(ids: seq<nat>, numbers: seq<nat>, v: nat): nat {
    if numbers == [] then 0
    else
      var n := |numbers| - 1;
      NumbersOf(ids, numbers[..n], v) + if numbers[n] < |ids| && ids[numbers[n]] == v then 1 else 0
  }

  /** How often the first n vertices of a local index list v as a neighbour of u. */
  function Listed(g: Local, n: nat, u: nat, v: nat): nat
    requires n <= |g.ids| == |g.lists|
  {
    if n == 0 then 0
    else Listed(g, n - 1, u, v) + if g.ids[n - 1] == u then NumbersOf(g.ids, g.lists[n - 1], v) else 0
  }

  /** The words are one list for each id, behind its length, and nothing else. */
  predicate IsStream(ids: seq<nat>, words: seq<nat>) {
    if ids == [] then words == []
    else words != [] && 1 + words[0] <= |words| && IsStream(ids[1..], words[1 + words[0]..])
  }

  /** How often v is in the lists of u. */
  function Edges(ids: seq<nat>, words: seq<nat>, u: nat, v: nat): nat
    requires IsStream(ids, words)
  {
    if ids == [] then 0
    else
      Edges(ids[1..], words[1 + words[0]..], u, v) + if ids[0] == u then Times(words[1..1 + words[0]], v) else 0
  }

  lemma EdgesOfOne(id: nat, list: seq<nat>, words: seq<nat>, u: nat, v: nat)
    requires words == [|list|] + list
    ensures IsStream([id], words) && Edges([id], words, u, v) == if id == u then Times(list, v) else 0
  {
    assert [id][1..] == [] && words[1..1 + |list|] == list && words[1 + |list|..] == [];
  }

  lemma EdgesFirst(ids: seq<nat>, words: seq<nat>, first: nat, list: seq<nat>, all: seq<nat>, u: nat, v: nat)
    requires IsStream(ids, words) && all == [|list|] + list + words
    ensures IsStream([first] + ids, all)
    ensures Edges([first] + ids, all, u, v) == Edges(ids, words, u, v) + if first == u then Times(list, v) else 0
  {
    assert ([first] + ids)[1..] == ids && all[1..1 + |list|] == list && all[1 + |list|..] == words;
  }

  /** The first list and the rest, whatever follows. */
  lemma EdgesApart(ids: seq<nat>, words: seq<nat>, id: nat, more: seq<nat>, u: nat, v: nat)
    requires ids != [] && IsStream(ids, words)
    requires IsStream(ids[1..] + [id], words[1 + words[0]..] + more)
    ensures IsStream(ids + [id], words + more)
    ensures Edges(ids + [id], words + more, u, v) - Edges(ids, words, u, v) ==
            Edges(ids[1..] + [id], words[1 + words[0]..] + more, u, v) - Edges(ids[1..], words[1 + words[0]..], u, v)
  {
    var size := 1 + words[0];
    var list0, words1 := words[1..size], words[size..];
    EdgesFirst(ids[1..] + [id], words1 + more, ids[0], list0, words + more, u, v);
    assert ids + [id] == [ids[0]] + (ids[1..] + [id]);
    assert words + more == [|list0|] + list0 + (words1 + more);
  }

  /** One more id and one more list. */
  lemma {:induction false} EdgesMore(ids: seq<nat>, words: seq<nat>, id: nat, list: seq<nat>, u: nat, v: nat)
    requires IsStream(ids, words)
    ensures IsStream(ids + [id], words + ([|list|] + list))
    ensures Edges(ids + [id], words + ([|list|] + list), u, v) ==
            Edges(ids, words, u, v) + if id == u then Times(list, v) else 0
    decreases |ids|
  {
    var more := [|list|] + list;
    if ids == [] {
      EdgesOfOne(id, list, more, u, v);
      assert ids + [id] == [id] && words + more == more;
    } else {
      var ids1, words1 := ids[1..], words[1 + words[0]..];
      EdgesMore(ids1, words1, id, list, u, v);
      EdgesApart(ids, words, id, more, u, v);
    }
  }

  lemma {:induction false} NumbersCount(g: Local, i: nat, n: nat, v: nat)
    requires i < |g.lists| && (forall j :: 0 <= j < |g.lists[i]| ==> g.lists[i][j] < |g.ids|) && n <= |g.lists[i]|
    ensures Times(g.Nghs(i)[..n], v) == NumbersOf(g.ids, g.lists[i][..n], v)
  {
    if n > 0 {
      var m := n - 1;
      NumbersCount(g, i, m, v);
      TimesFront(g.Nghs(i)[..n], v);
      assert g.Nghs(i)[..n][..m] == g.Nghs(i)[..m] && g.lists[i][..n][..m] == g.lists[i][..m];
    }
  }

  lemma NodeWords(g: Local, i: nat, s: Shard, s1: Shard, u: nat, v: nat)
    requires g.Valid() && i < |g.ids| && s1 == s + [g.NodeAt(i)] && IsStream(IdWords(s), NghWords(s))
    ensures IsStream(IdWords(s1), NghWords(s1))
    ensures Edges(IdWords(s1), NghWords(s1), u, v) ==
            Edges(IdWords(s), NghWords(s), u, v) + if g.ids[i] == u then NumbersOf(g.ids, g.lists[i], v) else 0
    ensures Times(IdWords(s1), u) == Times(IdWords(s), u) + if g.ids[i] == u then 1 else 0
  {
    var x := g.NodeAt(i);
    WordsOfMore(s, x);
    EdgesMore(IdWords(s), NghWords(s), x.id, x.nghs, u, v);
    NumbersCount(g, i, |g.lists[i]|, v);
    assert g.Nghs(i)[..|g.lists[i]|] == g.Nghs(i) && g.lists[i][..|g.lists[i]|] == g.lists[i];
    TimesConcat(IdWords(s), [x.id], u);
  }

  lemma ShardEdgesNext(g: Local, i: nat, n: nat, p: nat, u: nat, v: nat)
    requires g.Valid() && i < n == i + 1 <= |g.ids| && IsStream(IdWords(g.ShardFor(i, p)), NghWords(g.ShardFor(i, p)))
    ensures var s, s1, more := g.ShardFor(i, p), g.ShardFor(n, p), u == g.ids[i] && g.part[u] == p;
            && IsStream(IdWords(s1), NghWords(s1))
            && Edges(IdWords(s1), NghWords(s1), u, v) ==
               Edges(IdWords(s), NghWords(s), u, v) + (if more then NumbersOf(g.ids, g.lists[i], v) else 0)
            && Times(IdWords(s1), u) == Times(IdWords(s), u) + (if more then 1 else 0)
            && Times(g.ids[..n], u) == Times(g.ids[..i], u) + if u == g.ids[i] then 1 else 0
  {
    var s, s1 := g.ShardFor(i, p), g.ShardFor(n, p);
    TimesFront(g.ids[..n], u);
    assert g.ids[..n][..i] == g.ids[..i];
    if g.part[g.ids[i]] == p {
      NodeWords(g, i, s, s1, u, v);
    } else {
      assert s1 == s + [] == s;
    }
  }

  lemma {:induction false} ShardEdges(g: Local, n: nat, p: nat, u: nat, v: nat)
    requires g.Valid() && n <= |g.ids|
    ensures var s := g.ShardFor(n, p);
            && IsStream(IdWords(s), NghWords(s))
            && Edges(IdWords(s), NghWords(s), u, v) == (if u < |g.part| && g.part[u] == p then Listed(g, n, u, v) else 0)
            && Times(IdWords(s), u) == (if u < |g.part| && g.part[u] == p then Times(g.ids[..n], u) else 0)
  {
    if n > 0 {
      var i := n - 1;
      ShardEdges(g, i, p, u, v);
      ShardEdgesNext(g, i, n, p, u, v);
      assert Listed(g, n, u, v) == Listed(g, i, u, v) + if g.ids[i] == u then NumbersOf(g.ids, g.lists[i], v) else 0;
    }
  }

  /** The buffers of machine p are the ids it owns, each as often as the index has it, and a list for each; as edges
      from global id to global id they are exactly those the index lists for these vertices. */
  ghost predicate Dispatched(g: Local, p: nat, ids: seq<nat>, words: seq<nat>)
    requires |g.ids| == |g.lists|
  {
    && IsStream(ids, words)
    && (forall u: nat :: Times(ids, u) == if u < |g.part| && g.part[u] == p then Times(g.ids, u) else 0)
    && forall u: nat, v: nat :: Edges(ids, words, u, v) ==
         if u < |g.part| && g.part[u] == p then Listed(g, |g.ids|, u, v) else 0
  }

  lemma ShardIsDispatched(g: Local, p: nat)
    requires g.Valid()
    ensures var s := g.ShardFor(|g.ids|, p); Dispatched(g, p, IdWords(s), NghWords(s))
  {
    var n := |g.ids|;
    assert g.ids[..n] == g.ids;
    ShardEdges(g, n, p, 0, 0);
    forall u: nat
      ensures Times(IdWords(g.ShardFor(n, p)), u) == if u < |g.part| && g.part[u] == p then Times(g.ids, u) else 0
    {
      ShardEdges(g, n, p, u, 0);
    }
    forall u: nat, v: nat
      ensures Edges(IdWords(g.ShardFor(n, p)), NghWords(g.ShardFor(n, p)), u, v) ==
              if u < |g.part| && g.part[u] == p then Listed(g, n, u, v) else 0
    {
      ShardEdges(g, n, p, u, v);
    }
  }

  // ----- The count pass

  ghost predicate Counted(g: Local, n: nat, idNum: seq<nat>, nghNum: seq<nat>)
    requires g.Valid() && n <= |g.ids|
  {
    && |idNum| == |nghNum| == g.machines
    && forall p :: 0 <= p < g.machines ==>
         idNum[p] == |g.ShardFor(n, p)| && nghNum[p] == |NghWords(g.ShardFor(n, p))|
  }

  lemma CountStep(g: Local, n: nat, idNum: seq<nat>, nghNum: seq<nat>)
    requires g.Valid() && n < |g.ids| && Counted(g, n, idNum, nghNum)
    ensures var p := g.part[g.ids[n]];
            p < g.machines
            && Counted(g, n + 1, idNum[p := idNum[p] + 1], nghNum[p := nghNum[p] + |g.lists[n]| + 1])
  {
    var n1 := n + 1;
    forall q | 0 <= q < g.machines
      ensures |NghWords(g.ShardFor(n1, q))| ==
              |NghWords(g.ShardFor(n, q))| + if q == g.part[g.ids[n]] then |g.lists[n]| + 1 else 0
    {
      assert g.ShardFor(n, q) + [] == g.ShardFor(n, q);
      WordsOfMore(g.ShardFor(n, q), g.NodeAt(n));
    }
  }

  /** `ok` is false where the code finds a vertex without neighbours and aborts. */
  method CountPass(g: Local) returns (ok: bool, idNum: seq<nat>, nghNum: seq<nat>)
    requires g.Valid()
    ensures ok <==> forall i :: 0 <= i < |g.ids| ==> g.lists[i] != []
    ensures ok ==> Counted(g, |g.ids|, idNum, nghNum)
  {
    idNum, nghNum := seq(g.machines, _ => 0), seq(g.machines, _ => 0);
    for i := 0 to |g.ids|
      invariant Counted(g, i, idNum, nghNum) && forall j :: 0 <= j < i ==> g.lists[j] != []
    {
      if |g.lists[i]| == 0 {
        return false, idNum, nghNum;
      }
      CountStep(g, i, idNum, nghNum);
      var p := g.part[g.ids[i]];
      idNum, nghNum := idNum[p := idNum[p] + 1], nghNum[p := nghNum[p] + |g.lists[i]| + 1];
    }
    return true, idNum, nghNum;
  }

  // ----- The fill pass

  /** The buffers hold, up to their offsets, what the first n vertices bring. */
  ghost predicate Filled(g: Local, n: nat, ids: seq<seq<nat>>, nghs: seq<seq<nat>>)
    requires g.Valid() && n <= |g.ids|
  {
    && |ids| == |nghs| == g.machines
    && forall p :: 0 <= p < g.machines ==> ids[p] == IdWords(g.ShardFor(n, p)) && nghs[p] == NghWords(g.ShardFor(n, p))
  }

  ghost predicate Distinct(a: seq<array<nat>>) { forall i, j :: 0 <= i < j < |a| ==> a[i] != a[j] }

  /** What has been written into the buffers. */
  ghost function Prefixes(a: seq<array<nat>>, ofs: seq<nat>): (r: seq<seq<nat>>)
    requires |a| == |ofs| && forall p :: 0 <= p < |a| ==> ofs[p] <= a[p].Length
    reads a
    ensures |r| == |a|
  {
    seq(|a|, p requires 0 <= p < |a| reads a => if ofs[p] <= a[p].Length then a[p][..ofs[p]] else [])
  }

  /** memcpy at the offset. */
  method Append(a: seq<array<nat>>, ofs0: seq<nat>, p: nat, data: seq<nat>) returns (ofs: seq<nat>)
    requires Distinct(a) && |a| == |ofs0| && p < |a| && forall q :: 0 <= q < |a| ==> ofs0[q] <= a[q].Length
    requires ofs0[p] + |data| <= a[p].Length
    modifies a[p]
    ensures |ofs| == |a| && forall q :: 0 <= q < |a| ==> ofs[q] <= a[q].Length
    ensures ofs == ofs0[p := ofs0[p] + |data|]
    ensures Prefixes(a, ofs) == old(Prefixes(a, ofs0))[p := old(Prefixes(a, ofs0))[p] + data]
  {
    ghost var before := a[p][..ofs0[p]];
    for i := 0 to |data|
      invariant a[p][..ofs0[p]] == before && forall j :: 0 <= j < i ==> a[p][ofs0[p] + j] == data[j]
    {
      a[p][ofs0[p] + i] := data[i];
    }
    ofs := ofs0[p := ofs0[p] + |data|];
    assert a[p][..ofs[p]] == before + data;
  }

  lemma WordsStep(g: Local, n: nat, q: nat)
    requires g.Valid() && n < |g.ids| && q < g.machines
    ensures var x, s, s1 := g.NodeAt(n), g.ShardFor(n, q), g.ShardFor(n + 1, q);
            if g.part[g.ids[n]] == q then
              IdWords(s1) == IdWords(s) + [x.id] && NghWords(s1) == NghWords(s) + ([|x.nghs|] + x.nghs)
            else s1 == s
  {
    WordsOfMore(g.ShardFor(n, q), g.NodeAt(n));
  }

  lemma FillStep(g: Local, n: nat, ids: seq<seq<nat>>, nghs: seq<seq<nat>>)
    requires g.Valid() && n < |g.ids| && Filled(g, n, ids, nghs)
    ensures var p, x := g.part[g.ids[n]], g.NodeAt(n);
            p < g.machines && Filled(g, n + 1, ids[p := ids[p] + [x.id]], nghs[p := nghs[p] + ([|x.nghs|] + x.nghs)])
  {
    var n1, p, x := n + 1, g.part[g.ids[n]], g.NodeAt(n);
    var ids1, nghs1 := ids[p := ids[p] + [x.id]], nghs[p := nghs[p] + ([|x.nghs|] + x.nghs)];
    forall q | 0 <= q < g.machines
      ensures ids1[q] == IdWords(g.ShardFor(n1, q)) && nghs1[q] == NghWords(g.ShardFor(n1, q))
    {
      WordsStep(g, n, q);
    }
  }

  /** What vertex n brings fits into the counted buffers. */
  lemma Room(g: Local, n: nat, ids: seq<seq<nat>>, nghs: seq<seq<nat>>)
    requires g.Valid() && n < |g.ids| && Filled(g, n, ids, nghs)
    ensures var p, x := g.part[g.ids[n]], g.NodeAt(n);
            && |ids[p]| + 1 <= |g.ShardFor(|g.ids|, p)|
            && |nghs[p]| + 1 + |x.nghs| <= |NghWords(g.ShardFor(|g.ids|, p))|
  {
    var p := g.part[g.ids[n]];
    WordsStep(g, n, p);
    ShardGrows(g, n + 1, |g.ids|, p);
  }

  method NewBuffers(sizes: seq<nat>) returns (a: seq<array<nat>>)
    ensures |a| == |sizes| && fresh(a) && Distinct(a) && forall p :: 0 <= p < |a| ==> a[p].Length == sizes[p]
  {
    a := [];
    for p := 0 to |sizes|
      invariant |a| == p && fresh(a) && Distinct(a) && forall q :: 0 <= q < p ==> a[q].Length == sizes[q]
    {
      var b := new nat[sizes[p]];
      a := a + [b];
    }
  }

  /** The neighbour list as it is written: degree, then global ids. */
  method Record(g: Local, i: nat) returns (data: seq<nat>)
    requires g.Valid() && i < |g.ids|
    ensures data == [|g.NodeAt(i).nghs|] + g.NodeAt(i).nghs
  {
    var remapped: seq<nat> := [];
    for j := 0 to |g.lists[i]|
      invariant remapped == g.Nghs(i)[..j]
    {
      remapped := remapped + [g.ids[g.lists[i][j]]];
    }
    data := [|g.lists[i]|] + remapped;
  }

  /** Offsets and buffers after the first n vertices. */
  ghost predicate Filling(g: Local, n: nat, ids: seq<array<nat>>, idOfs: seq<nat>, nghs: seq<array<nat>>, nghOfs: seq<nat>)
    requires g.Valid() && n <= |g.ids|
    reads ids, nghs
  {
    && |ids| == |idOfs| == |nghs| == |nghOfs| == g.machines
    && (forall p :: 0 <= p < g.machines ==> idOfs[p] <= ids[p].Length && nghOfs[p] <= nghs[p].Length)
    && Filled(g, n, Prefixes(ids, idOfs), Prefixes(nghs, nghOfs))
  }

  ghost predicate Buffers(g: Local, ids: seq<array<nat>>, nghs: seq<array<nat>>)
    requires g.Valid()
  {
    && Distinct(ids) && Distinct(nghs) && |ids| == |nghs| == g.machines
    && (forall p, q :: 0 <= p < |ids| && 0 <= q < |nghs| ==> ids[p] != nghs[q])
    && forall p :: 0 <= p < g.machines ==>
         ids[p].Length == |g.ShardFor(|g.ids|, p)| && nghs[p].Length == |NghWords(g.ShardFor(|g.ids|, p))|
  }

  method FillOne(g: Local, n: nat, ids: seq<array<nat>>, idOfs0: seq<nat>, nghs: seq<array<nat>>, nghOfs0: seq<nat>)
    returns (idOfs: seq<nat>, nghOfs: seq<nat>)
    requires g.Valid() && n < |g.ids| && Buffers(g, ids, nghs) && Filling(g, n, ids, idOfs0, nghs, nghOfs0)
    modifies ids, nghs
    ensures Filling(g, n + 1, ids, idOfs, nghs, nghOfs)
  {
    var v := g.ids[n];
    var p := g.part[v];
    ghost var idWords, nghWords := Prefixes(ids, idOfs0), Prefixes(nghs, nghOfs0);
    FillStep(g, n, idWords, nghWords);
    Room(g, n, idWords, nghWords);
    idOfs := Append(ids, idOfs0, p, [v]);
    assert Prefixes(nghs, nghOfs0) == nghWords;
    ghost var idWords1 := Prefixes(ids, idOfs);
    var data := Record(g, n);
    nghOfs := Append(nghs, nghOfs0, p, data);
    assert Prefixes(ids, idOfs) == idWords1;
  }

  method FillPass(g: Local, ids: seq<array<nat>>, nghs: seq<array<nat>>)
    requires g.Valid() && Buffers(g, ids, nghs)
    modifies ids, nghs
    ensures forall p :: 0 <= p < g.machines ==> Dispatched(g, p, ids[p][..], nghs[p][..])
    ensures forall p :: 0 <= p < g.machines ==>
              ids[p][..] == IdWords(g.ShardFor(|g.ids|, p)) && nghs[p][..] == NghWords(g.ShardFor(|g.ids|, p))
  {
    var idOfs, nghOfs := seq(g.machines, _ => 0), seq(g.machines, _ => 0);
    for i := 0 to |g.ids|
      invariant Filling(g, i, ids, idOfs, nghs, nghOfs)
    {
      idOfs, nghOfs := FillOne(g, i, ids, idOfs, nghs, nghOfs);
    }
    AllFull(g, ids, idOfs, nghs, nghOfs);
    forall p | 0 <= p < g.machines
      ensures Dispatched(g, p, ids[p][..], nghs[p][..])
    {
      ShardIsDispatched(g, p);
    }
  }

  /** collect_replica_partition, both passes: every machine's buffers hold exactly the ids and neighbour
      lists of the vertices it owns, to the last word.  `ok` is false where the code aborts. */
  method CollectReplicaPartition(g: Local) returns (ok: bool, ids: seq<array<nat>>, nghs: seq<array<nat>>)
    requires g.Valid()
    ensures ok <==> forall i :: 0 <= i < |g.ids| ==> g.lists[i] != []
    ensures fresh(ids) && fresh(nghs) && (ok ==> |ids| == |nghs| == g.machines)
    ensures ok ==> forall p :: 0 <= p < g.machines ==> Dispatched(g, p, ids[p][..], nghs[p][..])
    ensures ok ==> forall p :: 0 <= p < g.machines ==>
              && ids[p][..] == IdWords(g.ShardFor(|g.ids|, p)) && nghs[p][..] == NghWords(g.ShardFor(|g.ids|, p))
  {
    ids, nghs := [], [];
    var idNum, nghNum;
    ok, idNum, nghNum := CountPass(g);
    if ok {
      ids := NewBuffers(idNum);
      nghs := NewBuffers(nghNum);
      FillPass(g, ids, nghs);
    }
  }

  lemma AllFull(g: Local, ids: seq<array<nat>>, idOfs: seq<nat>, nghs: seq<array<nat>>, nghOfs: seq<nat>)
    requires g.Valid() && Buffers(g, ids, nghs) && Filling(g, |g.ids|, ids, idOfs, nghs, nghOfs)
    ensures forall p :: 0 <= p < g.machines ==>
              ids[p][..] == IdWords(g.ShardFor(|g.ids|, p)) && nghs[p][..] == NghWords(g.ShardFor(|g.ids|, p))
  {
    forall p | 0 <= p < g.machines
      ensures ids[p][..] == IdWords(g.ShardFor(|g.ids|, p)) && nghs[p][..] == NghWords(g.ShardFor(|g.ids|, p))
    {
      assert Prefixes(ids, idOfs)[p] == ids[p][..idOfs[p]] && Prefixes(nghs, nghOfs)[p] == nghs[p][..nghOfs[p]];
    }
  }
}
