/** What the reader hands out for a candidate is what the ring model calls its expansion, and what goes to
    another core machine are the neighbours that machine owns. */
module GroupExpansion {
  import Code = QueryMsgCode
  import opened MessageContents
  import opened ScalaReaders
  import opened ScalaRoundTrip
  import opened ScalaGraph
  import opened Multiplicity

  // ----- What has been added to the queues

  function ListOf(buf: seq<int>, e: Stored): seq<int> { ListAt(buf, e.ofs, e.deg) }

  function ListsOf(buf: seq<int>, l: seq<Stored>): (r: seq<seq<int>>)
    ensures |r| == |l|
  {
    seq(|l|, k requires 0 <= k < |l| => ListOf(buf, l[k]))
  }

  function Ids(l: seq<Read>): (r: seq<int>)
    ensures |r| == |l|
  {
    seq(|l|, k requires 0 <= k < |l| => l[k].vid)
  }

  /** For machine m: single vertices, and lists, of which the receiver is told the places in its own buffer. */
  function LoadFor(b: Box, b1: Box, bufs: Buffers, m: nat): Load
    requires m < |b.micro| && m < |b1.micro| && m < |b.large| && m < |b1.large| && m < |bufs|
    requires b.micro[m] <= b1.micro[m] && b.large[m] <= b1.large[m]
  {
    Load(ListsOf(bufs[m], b1.large[m][|b.large[m]|..]), b1.micro[m][|b.micro[m]|..])
  }

  /** A ring of core machines, given by their numbers. */
  predicate IsRing(ring: seq<nat>, core: seq<bool>) { forall j :: 0 <= j < |ring| ==> ring[j] < |core| && core[ring[j]] }

  lemma QueuesGrow(b: Box, b1: Box, rd: Reader, m: nat)
    requires RightQueues(b, b1, rd) && m < |rd.core|
    ensures b.micro[m] <= b1.micro[m] && b.large[m] <= b1.large[m] && |b.tasks[m]| <= |b1.tasks[m]|
    ensures m == rd.home ==> b1.micro[m] == b.micro[m] && b1.large[m] == b.large[m]
    ensures rd.core[m] ==> b1.tasks[m] == b.tasks[m]
  {
    assert RightQueue(b, b1, rd, m);
  }

  lemma {:induction false} TasksGrow(b: Box, b1: Box, rd: Reader, n: nat)
    requires RightQueues(b, b1, rd) && n <= |rd.core|
    ensures CountTasks(b.tasks, n) <= CountTasks(b1.tasks, n)
  {
    if n > 0 {
      TasksGrow(b, b1, rd, n - 1);
      QueuesGrow(b, b1, rd, n - 1);
    }
  }

  function LoadAt(b: Box, b1: Box, rd: Reader, bufs: Buffers, m: nat): Load
    requires RightQueues(b, b1, rd) && m < |rd.core| == |bufs|
  {
    QueuesGrow(b, b1, rd, m);
    LoadFor(b, b1, bufs, m)
  }

  /** The expansion of an own vertex, by what its neighbours have added to the queues. */
  function ExpansionOf(b: Box, b1: Box, rd: Reader, bufs: Buffers, ring: seq<nat>): Code.Expansion
    requires RightQueues(b, b1, rd) && IsRing(ring, rd.core) && |bufs| == |rd.core|
  {
    TasksGrow(b, b1, rd, |rd.core|);
    Code.Here(Ids(b1.fetches[|b.fetches|..]), CountTasks(b1.tasks, |b1.tasks|) - CountTasks(b.tasks, |b.tasks|),
              |b1.local| - |b.local|,
              seq(|ring|, j requires 0 <= j < |ring| => LoadAt(b, b1, rd, bufs, ring[j])))
  }

  /** The reader's result is the number of counted messages the expansion issues, and nothing is found for the
      machine itself. */
  lemma ReaderCounts(g: Graph, v: nat, rd: Reader, bufs: Buffers, b: Box, b1: Box, postCnt: nat, ring: seq<nat>, i: nat)
    requires v < |g.adj| && Expanded(g, v, rd, bufs, b, b1, postCnt) && |bufs| == |rd.core|
    requires IsRing(ring, rd.core) && i < |ring| && ring[i] == rd.home
    ensures var e := ExpansionOf(b, b1, rd, bufs, ring);
            e.For(|ring|, i) && e.PostCnt() == postCnt == |Code.Issued(i, e)|
  {
    QueuesGrow(b, b1, rd, ring[i]);
    assert LoadAt(b, b1, rd, bufs, ring[i]) == NOTHING;
  }

  // ----- They are the neighbours the machine owns

  lemma {:induction false} StoredMore(buf: seq<int>, l: seq<Stored>, more: seq<Stored>, u: int)
    ensures InStored(buf, l + more, u) == InStored(buf, l, u) + InLists(ListsOf(buf, more), u)
    decreases |more|
  {
    if more == [] {
      assert l + more == l;
    } else {
      var front, e := more[..|more| - 1], more[|more| - 1];
      assert (l + more)[..|l + more| - 1] == l + front;
      assert ListsOf(buf, more)[..|more| - 1] == ListsOf(buf, front);
      StoredMore(buf, l, front, u);
    }
  }

  lemma TimesMore(l: seq<int>, more: seq<int>, u: int)
    ensures Times(l + more, u) == Times(l, u) + Times(more, u)
  {
  }

  lemma {:induction false} FetchedElsewhere(l: seq<Read>, more: seq<Read>, q: nat, u: int)
    requires forall k :: 0 <= k < |more| ==> more[k].part != q
    ensures InFetched(l + more, q, u) == InFetched(l, q, u)
    decreases |more|
  {
    if more == [] {
      assert l + more == l;
    } else {
      assert (l + more)[..|l + more| - 1] == l + more[..|more| - 1];
      FetchedElsewhere(l, more[..|more| - 1], q, u);
    }
  }

  /** What a SYNC carries to another core machine are the neighbours that machine owns, as often as they are listed,
      and no others. */
  lemma LoadIsOwned(g: Graph, v: nat, rd: Reader, bufs: Buffers, b: Box, b1: Box, postCnt: nat, ring: seq<nat>, j: nat,
                    u: nat)
    requires v < |g.adj| && Expanded(g, v, rd, bufs, b, b1, postCnt) && |bufs| == |rd.core|
    requires IsRing(ring, rd.core) && j < |ring| && ring[j] != rd.home
    ensures InLoad(ExpansionOf(b, b1, rd, bufs, ring).found[j], u) ==
            if Owns(g.sizes, ring[j], u) then Times(g.adj[v], u) else 0
  {
    var m := ring[j];
    QueuesGrow(b, b1, rd, m);
    var micro, large, fetches := b1.micro[m][|b.micro[m]|..], b1.large[m][|b.large[m]|..], b1.fetches[|b.fetches|..];
    assert b1.micro[m] == b.micro[m] + micro && b1.large[m] == b.large[m] + large;
    assert b1.fetches == b.fetches + fetches;
    TimesMore(b.micro[m], micro, u);
    StoredMore(bufs[m], b.large[m], large, u);
    FetchedElsewhere(b.fetches, fetches, m, u);
    HandedAs(g, v, rd, bufs, b, b1, m, u);
  }

  lemma HandedAs(g: Graph, v: nat, rd: Reader, bufs: Buffers, b: Box, b1: Box, m: nat, u: nat)
    requires v < |g.adj| && Given(g, v, rd.home, bufs, b, b1) && m < |bufs|
    ensures Handed(b1, rd.home, bufs, m, u) ==
            Handed(b, rd.home, bufs, m, u) + if Owns(g.sizes, m, u) then Times(g.adj[v], u) else 0
  {
  }

  // ----- What is read

  /** How often u is among the reads from the first n partitions. */
  function InReads(l: seq<Read>, n: nat, u: int): nat { if n == 0 then 0 else InReads(l, n - 1, u) + InFetched(l, n - 1, u) }

  lemma {:induction false} OneMoreRead(l: seq<Read>, x: Read, n: nat, u: int)
    ensures InReads(l + [x], n, u) == InReads(l, n, u) + if x.part < n && x.vid == u then 1 else 0
  {
    if n > 0 {
      OneMoreRead(l, x, n - 1, u);
      assert (l + [x])[..|l|] == l;
    }
  }

  lemma {:induction false} IdsAreRead(l: seq<Read>, n: nat, u: int)
    requires forall k :: 0 <= k < |l| ==> l[k].part < n
    ensures Times(Ids(l), u) == InReads(l, n, u)
    decreases |l|
  {
    if l == [] {
      NothingToRead(n, u);
    } else {
      var front, x := l[..|l| - 1], l[|l| - 1];
      assert l == front + [x];
      IdsAreRead(front, n, u);
      OneMoreRead(front, x, n, u);
      TimesFront(Ids(l), u);
      assert Ids(l)[..|l| - 1] == Ids(front);
    }
  }

  lemma {:induction false} NothingToRead(n: nat, u: int)
    ensures InReads([], n, u) == 0
  {
    if n > 0 {
      NothingToRead(n - 1, u);
    }
  }

  lemma {:induction false} FetchedMore(l: seq<Read>, more: seq<Read>, q: nat, u: int)
    ensures InFetched(l + more, q, u) == InFetched(l, q, u) + InFetched(more, q, u)
    decreases |more|
  {
    if more == [] {
      assert l + more == l;
    } else {
      assert (l + more)[..|l + more| - 1] == l + more[..|more| - 1];
      FetchedMore(l, more[..|more| - 1], q, u);
    }
  }

  lemma {:induction false} ReadFromOne(l: seq<Read>, n: nat, m: nat, u: int)
    requires forall q :: 0 <= q < n && q != m ==> InFetched(l, q, u) == 0
    ensures InReads(l, n, u) == if m < n then InFetched(l, m, u) else 0
  {
    if n > 0 {
      ReadFromOne(l, n - 1, m, u);
    }
  }

  /** Queues only grow. */
  lemma {:induction false} TasksHold(buf: seq<int>, l: seq<Task>, l1: seq<Task>, u: int)
    requires l <= l1
    ensures InTasks(buf, l, u) <= InTasks(buf, l1, u)
    decreases |l1|
  {
    if |l| < |l1| {
      TasksHold(buf, l, l1[..|l1| - 1], u);
    } else {
      assert l == l1;
    }
  }

  /** A partition that does not own u gains no read of it. */
  lemma NoReadFrom(g: Graph, v: nat, rd: Reader, bufs: Buffers, b: Box, b1: Box, postCnt: nat, q: nat, u: nat)
    requires v < |g.adj| && Expanded(g, v, rd, bufs, b, b1, postCnt) && q < |rd.core| == |bufs| && !Owns(g.sizes, q, u)
    ensures InFetched(b1.fetches[|b.fetches|..], q, u) == 0
  {
    var more := b1.fetches[|b.fetches|..];
    if rd.core[q] {
      assert [] + more == more;
      FetchedElsewhere([], more, q, u);
    } else {
      assert b1.fetches == b.fetches + more;
      FetchedMore(b.fetches, more, q, u);
      HandedAs(g, v, rd, bufs, b, b1, q, u);
      assert RightQueue(b, b1, rd, q);
      TasksHold(bufs[q], b.tasks[q], b1.tasks[q], u);
      LocalHolds(bufs[q], b.local, b1.local, u);
    }
  }

  lemma {:induction false} LocalHolds(buf: seq<int>, l: seq<Task>, l1: seq<Task>, u: int)
    requires l <= l1
    ensures InLocal(buf, l, u) <= InLocal(buf, l1, u)
    decreases |l1|
  {
    if |l| < |l1| {
      LocalHolds(buf, l, l1[..|l1| - 1], u);
    } else {
      assert l == l1;
    }
  }

  /** What is read of u is read from its owner. */
  lemma OnlyOwnerIsRead(g: Graph, v: nat, rd: Reader, bufs: Buffers, b: Box, b1: Box, postCnt: nat, m: nat, u: nat)
    requires v < |g.adj| && Expanded(g, v, rd, bufs, b, b1, postCnt)
    requires m < |rd.core| == |bufs| && Owns(g.sizes, m, u)
    ensures Times(Ids(b1.fetches[|b.fetches|..]), u) == InFetched(b1.fetches[|b.fetches|..], m, u)
  {
    var more, n := b1.fetches[|b.fetches|..], |rd.core|;
    forall q | 0 <= q < n && q != m
      ensures InFetched(more, q, u) == 0
    {
      if Owns(g.sizes, q, u) {
        OwnerUnique(g.sizes, u, m, q);
      }
      NoReadFrom(g, v, rd, bufs, b, b1, postCnt, q, u);
    }
    IdsAreRead(more, n, u);
    ReadFromOne(more, n, m, u);
  }

  /** A partition other than the machine's own and no core machine's. */
  lemma OtherIsHanded(g: Graph, v: nat, rd: Reader, bufs: Buffers, b: Box, b1: Box, postCnt: nat, m: nat, u: nat)
    requires v < |g.adj| && Expanded(g, v, rd, bufs, b, b1, postCnt)
    requires m < |rd.core| == |bufs| && !rd.core[m] && m != rd.home && Owns(g.sizes, m, u)
    ensures InFetched(b1.fetches[|b.fetches|..], m, u) + InTasks(bufs[m], b1.tasks[m], u) ==
            InTasks(bufs[m], b.tasks[m], u) + Times(g.adj[v], u)
  {
    assert b1.fetches == b.fetches + b1.fetches[|b.fetches|..];
    FetchedMore(b.fetches, b1.fetches[|b.fetches|..], m, u);
    HandedAs(g, v, rd, bufs, b, b1, m, u);
    assert RightQueue(b, b1, rd, m);
  }

  /** The vertices an expansion reads, with those in its tasks for other than core machines, are the neighbours these
      machines own, each as often as it is listed; a neighbour a core machine owns is not read. */
  lemma ReadsAreNeighbours(g: Graph, v: nat, rd: Reader, bufs: Buffers, b: Box, b1: Box, postCnt: nat, ring: seq<nat>,
                           m: nat, u: nat)
    requires v < |g.adj| && Expanded(g, v, rd, bufs, b, b1, postCnt) && IsRing(ring, rd.core)
    requires m < |rd.core| == |bufs| && m != rd.home && Owns(g.sizes, m, u)
    ensures var read := Times(ExpansionOf(b, b1, rd, bufs, ring).fetches, u);
            if rd.core[m] then read == 0
            else read + InTasks(bufs[m], b1.tasks[m], u) == InTasks(bufs[m], b.tasks[m], u) + Times(g.adj[v], u)
  {
    var more := b1.fetches[|b.fetches|..];
    OnlyOwnerIsRead(g, v, rd, bufs, b, b1, postCnt, m, u);
    if rd.core[m] {
      assert [] + more == more;
      FetchedElsewhere([], more, m, u);
    } else {
      OtherIsHanded(g, v, rd, bufs, b, b1, postCnt, m, u);
    }
  }
}
