/** The graph that is laid out: partitions by prefix sums, and neighbours sorted into buckets. */
module ScalaGraph {
  import opened ScalaLayout

  function Cum(sizes: seq<nat>, p: nat): nat
    requires p <= |sizes|
  {
    if p == 0 then 0 else Cum(sizes, p - 1) + sizes[p - 1]
  }

  lemma {:induction false} CumMonotone(sizes: seq<nat>, p: nat, q: nat)
    requires p <= q <= |sizes|
    ensures Cum(sizes, p) <= Cum(sizes, q)
    decreases q
  {
    if p < q {
      CumMonotone(sizes, p, q - 1);
    }
  }

  /** Partition p owns vertex v. */
  predicate Owns(sizes: seq<nat>, p: nat, v: nat) {
    p < |sizes| && Cum(sizes, p) <= v < Cum(sizes, p + 1)
  }

  /** Every vertex has exactly one owner. */
  lemma OwnerUnique(sizes: seq<nat>, v: nat, p: nat, q: nat)
    requires Owns(sizes, p, v) && Owns(sizes, q, v)
    ensures p == q
  {
    if p < q {
      CumMonotone(sizes, p + 1, q);
    } else if q < p {
      CumMonotone(sizes, q + 1, p);
    }
  }

  function PartFrom(sizes: seq<nat>, v: nat, p: nat): (r: nat)
    requires p < |sizes| && Cum(sizes, p) <= v < Cum(sizes, |sizes|)
    ensures Owns(sizes, r, v)
    decreases |sizes| - p
  {
    if v < Cum(sizes, p + 1) then p
    else if p + 1 < |sizes| then PartFrom(sizes, v, p + 1)
    else assert false; p
  }

  /** The partition that owns vertex v. */
  function PartOf(sizes: seq<nat>, v: nat): (r: nat)
    requires v < Cum(sizes, |sizes|)
    ensures Owns(sizes, r, v)
  {
    PartFrom(sizes, v, 0)
  }

  /** cumupsize and cumu_partition_num: the prefix sums of the partition sizes. */
  method PrefixSums(sizes: seq<nat>) returns (cumu: seq<nat>)
    ensures |cumu| == |sizes| + 1 && forall q :: 0 <= q <= |sizes| ==> cumu[q] == Cum(sizes, q)
  {
    cumu := [0];
    for p := 1 to |sizes| + 1
      invariant |cumu| == p && forall q :: 0 <= q < p ==> cumu[q] == Cum(sizes, q)
    {
      cumu := cumu + [cumu[p - 1] + sizes[p - 1]];
    }
  }

  /** judge_partition: the first partition that ends behind v, or -1. */
  method JudgePartition(sizes: seq<nat>, v: nat) returns (p: int)
    ensures v < Cum(sizes, |sizes|) ==> 0 <= p && Owns(sizes, p, v)
    ensures v >= Cum(sizes, |sizes|) ==> p == -1
  {
    var cumupsize := PrefixSums(sizes);
    for q := 0 to |sizes|
      invariant Cum(sizes, q) <= v
    {
      if cumupsize[q + 1] > v {
        CumMonotone(sizes, q + 1, |sizes|);
        return q;
      }
    }
    return -1;
  }

  /** get_machine_id: searches the prefix sums instead; the owner is found. */
  method GetMachineId(sizes: seq<nat>, cumu: seq<nat>, v: nat) returns (p: nat)
    requires |cumu| == |sizes| + 1 && forall q :: 0 <= q <= |sizes| ==> cumu[q] == Cum(sizes, q)
    requires v < Cum(sizes, |sizes|)
    ensures Owns(sizes, p, v)
  {
    var q := 1;
    while cumu[q] <= v
      invariant 1 <= q <= |sizes| && Cum(sizes, q - 1) <= v
      decreases |sizes| - q
    {
      assert q < |sizes|;
      q := q + 1;
    }
    return q - 1;
  }

  /** Neighbours known to the partitioning. */
  predicate Known(sizes: seq<nat>, l: seq<nat>) {
    forall i :: 0 <= i < |l| ==> l[i] < Cum(sizes, |sizes|)
  }

  /** The neighbours in list l that partition q owns, in order. */
  function Bucket(sizes: seq<nat>, l: seq<nat>, q: nat): seq<nat>
    requires Known(sizes, l)
  {
    if l == [] then []
    else
      var u := l[|l| - 1];
      Bucket(sizes, l[..|l| - 1], q) + if PartOf(sizes, u) == q then [u] else []
  }

  function Buckets(sizes: seq<nat>, l: seq<nat>): (r: seq<seq<nat>>)
    requires Known(sizes, l)
    ensures |r| == |sizes|
  {
    seq(|sizes|, q requires 0 <= q < |sizes| => Bucket(sizes, l, q))
  }

  lemma {:induction false} BucketFacts(sizes: seq<nat>, l: seq<nat>, q: nat)
    requires Known(sizes, l)
    ensures Known(sizes, Bucket(sizes, l, q))
    ensures forall u :: u in Bucket(sizes, l, q) ==> u in l && Owns(sizes, q, u)
    decreases |l|
  {
    if l != [] {
      BucketFacts(sizes, l[..|l| - 1], q);
    }
  }

  /** All neighbours in the lists below upto. */
  function Gathered(lists: seq<seq<nat>>, upto: nat): multiset<nat>
    requires upto <= |lists|
  {
    if upto == 0 then multiset{} else Gathered(lists, upto - 1) + multiset(lists[upto - 1])
  }

  lemma {:induction false} GatheredEmpty(lists: seq<seq<nat>>, upto: nat)
    requires upto <= |lists| && forall q :: 0 <= q < |lists| ==> lists[q] == []
    ensures Gathered(lists, upto) == multiset{}
  {
    if upto > 0 {
      GatheredEmpty(lists, upto - 1);
    }
  }

  lemma {:induction false} GatheredOneMore(a: seq<seq<nat>>, b: seq<seq<nat>>, u: nat, p: nat, upto: nat)
    requires |a| == |b| && upto <= |a| && p < |a| && b == a[p := a[p] + [u]]
    ensures Gathered(b, upto) == Gathered(a, upto) + if p < upto then multiset{u} else multiset{}
  {
    if upto > 0 {
      var j := upto - 1;
      GatheredOneMore(a, b, u, p, j);
      assert multiset(b[j]) == multiset(a[j]) + if p == j then multiset{u} else multiset{};
    }
  }

  lemma BucketsStep(sizes: seq<nat>, l: seq<nat>, u: nat)
    requires Known(sizes, l) && u < Cum(sizes, |sizes|)
    ensures Known(sizes, l + [u])
    ensures var p := PartOf(sizes, u);
            Buckets(sizes, l + [u]) == Buckets(sizes, l)[p := Buckets(sizes, l)[p] + [u]]
  {
    var p := PartOf(sizes, u);
    assert (l + [u])[..|l|] == l;
    forall q | 0 <= q < |sizes|
      ensures Bucket(sizes, l + [u], q) == if q == p then Bucket(sizes, l, q) + [u] else Bucket(sizes, l, q)
    {
      assert Bucket(sizes, l, q) + [] == Bucket(sizes, l, q);
    }
  }

  /** The buckets together hold the list, every neighbour exactly once. */
  lemma {:induction false} BucketsPartition(sizes: seq<nat>, l: seq<nat>)
    requires Known(sizes, l)
    ensures Gathered(Buckets(sizes, l), |sizes|) == multiset(l)
    decreases |l|
  {
    if l == [] {
      GatheredEmpty(Buckets(sizes, l), |sizes|);
    } else {
      var front, u := l[..|l| - 1], l[|l| - 1];
      BucketsPartition(sizes, front);
      var p := PartOf(sizes, u);
      var a, b := Buckets(sizes, front), Buckets(sizes, l);
      assert l == front + [u];
      BucketsStep(sizes, front, u);
      GatheredOneMore(a, b, u, p, |sizes|);
    }
  }

  lemma {:induction false} DegreeIsSize(lists: seq<seq<nat>>, upto: nat)
    requires upto <= |lists|
    ensures Degree(lists, upto) == |Gathered(lists, upto)|
  {
    if upto > 0 {
      DegreeIsSize(lists, upto - 1);
    }
  }

  /** sizes[p] vertices in partition p; adj[v] the neighbours of vertex v. */
  datatype Graph = Graph(sizes: seq<nat>, adj: seq<seq<nat>>) {
    ghost predicate Valid() {
      && 0 < |sizes| <= MAX_PARTS
      && Cum(sizes, |sizes|) == |adj| < TWO_32
      && forall v :: 0 <= v < |adj| ==> 0 < |adj[v]| <= MAX_DEG && Known(sizes, adj[v])
    }
  }

  function VertexOf(sizes: seq<nat>, l: seq<nat>, v: nat): Vertex
    requires v < Cum(sizes, |sizes|) && Known(sizes, l)
  {
    var p := PartOf(sizes, v);
    Vertex(p, v - Cum(sizes, p), Buckets(sizes, l))
  }

  function TableOf(g: Graph): Table
    requires g.Valid()
  {
    Table(g.sizes, seq(|g.adj|, v requires 0 <= v < |g.adj| => VertexOf(g.sizes, g.adj[v], v)))
  }

  lemma TableIsValid(g: Graph)
    requires g.Valid()
    ensures TableOf(g).Valid()
  {
    var tab := TableOf(g);
    forall v | 0 <= v < |tab.vs|
      ensures tab.VertexOk(v)
    {
      VertexIsOk(g, v);
    }
    forall q | 0 <= q < |g.sizes|
      ensures g.sizes[q] <= TWO_32
    {
      CumMonotone(g.sizes, q + 1, |g.sizes|);
    }
    forall v, w | 0 <= v < w < |tab.vs| && tab.vs[v].home == tab.vs[w].home
      ensures tab.vs[v].index < tab.vs[w].index
    {
    }
  }

  lemma VertexIsOk(g: Graph, v: nat)
    requires g.Valid() && v < |g.adj|
    ensures TableOf(g).VertexOk(v)
  {
    var lists := Buckets(g.sizes, g.adj[v]);
    BucketsPartition(g.sizes, g.adj[v]);
    DegreeIsSize(lists, |g.sizes|);
    forall q, i | 0 <= q < |g.sizes| && 0 <= i < |lists[q]|
      ensures lists[q][i] < TWO_32
    {
      BucketFacts(g.sizes, g.adj[v], q);
    }
  }
}
