/** What messages carry besides what the ring model counts: neighbours for one machine, results. */
module MessageContents {
  import opened SubQueryRing
  import opened SyncMerge
  import opened Multiplicity

  /** Neighbours for one machine: lists in its own index, and single vertices. */
  datatype Load = Load(large: seq<seq<int>>, micro: seq<int>) {
    function Size(): nat { |large| + |micro| }

    function Join(l: Load): (r: Load)
      ensures r.Size() == Size() + l.Size()
    {
      Load(large + l.large, micro + l.micro)
    }
  }

  const NOTHING := Load([], [])

  /** How often u is in the lists. */
  function InLists(lists: seq<seq<int>>, u: int): nat {
    if lists == [] then 0 else InLists(lists[..|lists| - 1], u) + Times(lists[|lists| - 1], u)
  }

  function InLoad(l: Load, u: int): nat { InLists(l.large, u) + Times(l.micro, u) }

  lemma {:induction false} InListsConcat(a: seq<seq<int>>, b: seq<seq<int>>, u: int)
    ensures InLists(a + b, u) == InLists(a, u) + InLists(b, u)
    decreases |b|
  {
    if b == [] {
      assert a + b == a;
    } else {
      assert (a + b)[..|a + b| - 1] == a + b[..|b| - 1];
      InListsConcat(a, b[..|b| - 1], u);
    }
  }

  /** Joined loads carry what each carries. */
  lemma InJoin(a: Load, b: Load, u: int)
    ensures InLoad(a.Join(b), u) == InLoad(a, u) + InLoad(b, u)
  {
    InListsConcat(a.large, b.large, u);
    TimesConcat(a.micro, b.micro, u);
  }

  /** Vertex u is in the load. */
  ghost predicate Mentions(l: Load, u: int) { u in l.micro || InSome(l.large, u) }

  ghost predicate InSome(lists: seq<seq<int>>, u: int) { exists m :: 0 <= m < |lists| && u in lists[m] }

  /** Another machine's results, neighbours, computed distances. */
  datatype Content = Content(adds: seq<int>, load: Load, results: seq<int>)

  const EMPTY := Content([], NOTHING, [])

  /** The ring model's count of neighbour work is that of the neighbours carried. */
  predicate Fits(m: Msg, c: Content) {
    match m
    case Sync(_, _, _, w, _) => c.load.Size() == w && c.results == []
    case NodeSync(_, _, _, w) => c.load.Size() == w && c.results == [] && c.adds == []
    case Read(_) => c.load.large == [] && c.results == [] && c.adds == []
    case Result(_, _, _) => c.load == NOTHING && c.adds == []
    case NodeResult(_, _) => c.load == NOTHING && c.adds == []
    case Chunk(_) => c.load == NOTHING && c.adds == []
    case _ => c == EMPTY
  }

  predicate AllFit(ms: seq<Msg>, cs: seq<Content>) { |ms| == |cs| && forall k :: 0 <= k < |ms| ==> Fits(ms[k], cs[k]) }

  // ----- sync_msg

  function Counts(loads: seq<Load>): (r: seq<nat>)
    ensures |r| == |loads|
  {
    seq(|loads|, j requires 0 <= j < |loads| => loads[j].Size())
  }

  function NoLoads(n: nat): (r: seq<Load>)
    ensures |r| == n && Counts(r) == Zeros(n)
  {
    seq(n, _ => NOTHING)
  }

  function JoinAll(a: seq<Load>, b: seq<Load>): (r: seq<Load>)
    requires |a| == |b|
    ensures |r| == |a|
  {
    seq(|a|, j requires 0 <= j < |a| => a[j].Join(b[j]))
  }

  lemma JoinCounts(a: seq<Load>, b: seq<Load>)
    requires |a| == |b|
    ensures Counts(JoinAll(a, b)) == Plus(Counts(a), Counts(b))
  {
  }

  /** Of the accepted candidates those within the bound are sent. */
  function Kept(adds: seq<int>, bound: int): seq<int> {
    if adds == [] then []
    else
      var front, x := Kept(adds[..|adds| - 1], bound), adds[|adds| - 1];
      if x > bound then front else front + [x]
  }

  /** What the SYNCs to the machines below `upto` carry. */
  function SyncContents(n: nat, i: nat, loads: seq<Load>, adds: seq<int>, upto: nat): seq<Content>
    requires upto <= n == |loads|
  {
    if upto == 0 then []
    else
      var j := upto - 1;
      SyncContents(n, i, loads, adds, j) + if j == i then [] else [Content(adds, loads[j], [])]
  }

  /** The counts in the messages are those of what they carry. */
  lemma {:induction false} SyncsFit(n: nat, i: nat, c: Core, token: Token, loads: seq<Load>, adds: seq<int>, upto: nat)
    requires upto <= n == |loads| && c.unsent == Counts(loads)
    ensures AllFit(SyncMsgs(n, i, c, token, upto), SyncContents(n, i, loads, adds, upto))
    decreases upto
  {
    if upto > 0 {
      var j := upto - 1;
      SyncsFit(n, i, c, token, loads, adds, j);
      FitMore(SyncMsgs(n, i, c, token, j), SyncContents(n, i, loads, adds, j),
              if j == i then [] else [Sync(i, c.passes, j, c.unsent[j], if j == Next(n, i) then token else NoToken)],
              if j == i then [] else [Content(adds, loads[j], [])]);
    }
  }

  lemma FitMore(ms: seq<Msg>, cs: seq<Content>, ms1: seq<Msg>, cs1: seq<Content>)
    requires AllFit(ms, cs) && AllFit(ms1, cs1)
    ensures AllFit(ms + ms1, cs + cs1)
  {
  }

  // ----- Everybody gets a SYNC

  predicate IsSyncTo(m: Msg, j: nat) { m.Sync? && m.dst == j }

  /** Those of the accepted candidates that are within the bound. */
  ghost predicate KeptOf(sent: seq<int>, adds: seq<int>, bound: int) {
    forall x :: Times(sent, x) == if x <= bound then Times(adds, x) else 0
  }

  lemma {:induction false} KeptCounts(adds: seq<int>, bound: int)
    ensures KeptOf(Kept(adds, bound), adds, bound)
    decreases |adds|
  {
    if adds != [] {
      KeptCounts(adds[..|adds| - 1], bound);
      forall x
        ensures Times(Kept(adds, bound), x) == if x <= bound then Times(adds, x) else 0
      {
        TimesFront(adds, x);
      }
    }
  }

  /** Exactly one of the messages is a SYNC to machine j, and it carries this. */
  ghost predicate OneSyncTo(ms: seq<Msg>, cs: seq<Content>, j: nat, load: Load, adds: seq<int>, bound: int, token: Token) {
    && |ms| == |cs|
    && (exists k :: 0 <= k < |ms| && IsSyncTo(ms[k], j) && cs[k].load == load && ms[k].work == load.Size() &&
                    ms[k].token == token && KeptOf(cs[k].adds, adds, bound))
    && forall k, l :: 0 <= k < |ms| && 0 <= l < |ms| && IsSyncTo(ms[k], j) && IsSyncTo(ms[l], j) ==> k == l
  }

  /** A SYNC to every machine but the sender and nothing else: for each its neighbours and the accepted candidates
      within the bound, for the next in the ring the token. */
  ghost predicate SyncToAll(n: nat, i: nat, ms: seq<Msg>, cs: seq<Content>, loads: seq<Load>, adds: seq<int>,
                            bound: int, token: Token)
  {
    && |loads| == n && (forall m :: m in ms ==> m.Sync? && m.cause == i && m.dst < n && m.dst != i)
    && forall j :: 0 <= j < n && j != i ==>
         OneSyncTo(ms, cs, j, loads[j], adds, bound, if j == i + 1 || (j == 0 && i + 1 == n) then token else NoToken)
  }

  /** The place of machine j among the others. */
  function Place(i: nat, j: nat): int { if j < i then j else j - 1 }

  lemma {:induction false} SyncsInPlace(n: nat, i: nat, c: Core, token: Token, loads: seq<Load>, adds: seq<int>, upto: nat)
    requires upto <= n == |loads| && c.unsent == Counts(loads) && i < n
    ensures var ms, cs := SyncMsgs(n, i, c, token, upto), SyncContents(n, i, loads, adds, upto);
            && |ms| == |cs| == Place(i, upto) + (if upto == i then 1 else 0)
            && forall j :: 0 <= j < upto && j != i ==>
                 && ms[Place(i, j)] == Sync(i, c.passes, j, loads[j].Size(), if j == Next(n, i) then token else NoToken)
                 && cs[Place(i, j)] == Content(adds, loads[j], [])
    decreases upto
  {
    if upto > 0 {
      var last := upto - 1;
      SyncsInPlace(n, i, c, token, loads, adds, last);
      var ms, cs := SyncMsgs(n, i, c, token, last), SyncContents(n, i, loads, adds, last);
      assert |ms| == |cs| == Place(i, last) + if last == i then 1 else 0;
    }
  }

  lemma EveryoneGetsSync(n: nat, i: nat, c: Core, token: Token, loads: seq<Load>, adds: seq<int>, bound: int)
    requires n == |loads| && c.unsent == Counts(loads) && i < n
    ensures SyncToAll(n, i, SyncMsgs(n, i, c, token, n), SyncContents(n, i, loads, Kept(adds, bound), n),
                      loads, adds, bound, token)
  {
    var ms, cs := SyncMsgs(n, i, c, token, n), SyncContents(n, i, loads, Kept(adds, bound), n);
    SyncsInPlace(n, i, c, token, loads, Kept(adds, bound), n);
    KeptCounts(adds, bound);
    forall k | 0 <= k < |ms|
      ensures ms[k].Sync? && ms[k].cause == i && ms[k].dst < n && ms[k].dst != i && k == Place(i, ms[k].dst)
    {
      var j := if k < i then k else k + 1;
      assert k == Place(i, j);
    }
    forall j | 0 <= j < n && j != i
      ensures OneSyncTo(ms, cs, j, loads[j], adds, bound, if j == i + 1 || (j == 0 && i + 1 == n) then token else NoToken)
    {
      var k := Place(i, j);
      assert IsSyncTo(ms[k], j) && cs[k].load == loads[j];
    }
  }

  // ----- What is to be read

  /** How often vertex u is among those the reads are for. */
  function ReadsIn(ms: seq<Msg>, cs: seq<Content>, u: int): nat
    requires |ms| == |cs|
    decreases |ms|
  {
    if ms == [] then 0
    else
      var n := |ms| - 1;
      ReadsIn(ms[..n], cs[..n], u) + if ms[n].Read? then Times(cs[n].load.micro, u) else 0
  }

  lemma {:induction false} ReadsConcat(ms: seq<Msg>, cs: seq<Content>, ms1: seq<Msg>, cs1: seq<Content>, u: int)
    requires |ms| == |cs| && |ms1| == |cs1|
    ensures ReadsIn(ms + ms1, cs + cs1, u) == ReadsIn(ms, cs, u) + ReadsIn(ms1, cs1, u)
    decreases |ms1|
  {
    if ms1 == [] {
      assert ms + ms1 == ms && cs + cs1 == cs;
    } else {
      var n := |ms1| - 1;
      assert (ms + ms1)[..|ms| + n] == ms + ms1[..n] && (cs + cs1)[..|ms| + n] == cs + cs1[..n];
      ReadsConcat(ms, cs, ms1[..n], cs1[..n], u);
    }
  }

  lemma {:induction false} NothingRead(ms: seq<Msg>, cs: seq<Content>, u: int)
    requires |ms| == |cs| && forall m :: m in ms ==> !m.Read?
    ensures ReadsIn(ms, cs, u) == 0
    decreases |ms|
  {
    if ms != [] {
      NothingRead(ms[..|ms| - 1], cs[..|ms| - 1], u);
    }
  }

  // ----- What a machine finds in its queues

  /** The queues, in the order in which they are emptied: lists, computed chunks, single vertices, vectors that
      were read, results of tasks. */
  datatype Queue = Lists | Chunks | Micro | Reads | Answers

  function Flat(lists: seq<seq<int>>): seq<int> { if lists == [] then [] else Flat(lists[..|lists| - 1]) + lists[|lists| - 1] }

  function Part(q: Queue, m: Msg, c: Content): seq<int> {
    match q
    case Lists => Flat(c.load.large)
    case Chunks => if m.Chunk? then c.results else []
    case Micro => if m.Read? then [] else c.load.micro
    case Reads => if m.Read? then c.load.micro else []
    case Answers => if m.Chunk? then [] else c.results
  }

  function Gather(q: Queue, ms: seq<Msg>, cs: seq<Content>): seq<int>
    requires |ms| == |cs|
    decreases |ms|
  {
    if ms == [] then []
    else
      var n := |ms| - 1;
      Gather(q, ms[..n], cs[..n]) + Part(q, ms[n], cs[n])
  }

  lemma FlatOfNone(m: Msg, c: Content, q: Queue)
    requires Fits(m, c) && Part(q, m, c) != [] && !m.NodeResult?
    ensures Payload(m)
  {
  }

  ghost predicate SomePayload(ms: seq<Msg>) { exists m :: m in ms && Payload(m) }

  lemma {:induction false} GatherSome(q: Queue, ms: seq<Msg>, cs: seq<Content>)
    requires AllFit(ms, cs) && Gather(q, ms, cs) != [] && forall m :: m in ms ==> !m.NodeResult?
    ensures SomePayload(ms)
    decreases |ms|
  {
    var n := |ms| - 1;
    if Part(q, ms[n], cs[n]) != [] {
      FlatOfNone(ms[n], cs[n], q);
      assert ms[n] in ms;
    } else {
      assert Gather(q, ms, cs) == Gather(q, ms[..n], cs[..n]) + [];
      GatherSome(q, ms[..n], cs[..n]);
    }
  }

  /** The vertices in the list, as a set. */
  function Vertices(ids: seq<int>): set<int> { set u | u in ids }

  /** The distances of those not visited before, each vertex once. */
  function FreshDists(ids: seq<int>, visited: set<int>, dist: int -> int): seq<int> {
    if ids == [] then []
    else
      var front, u := ids[..|ids| - 1], ids[|ids| - 1];
      FreshDists(front, visited, dist) + if u in visited || u in front then [] else [dist(u)]
  }

  /** All distances the queues bring, in the order in which they are processed. */
  function Brought(ms: seq<Msg>, cs: seq<Content>, visited: set<int>, dist: int -> int): seq<int>
    requires |ms| == |cs|
  {
    var v1 := visited + Vertices(Gather(Lists, ms, cs));
    var v2 := v1 + Vertices(Gather(Micro, ms, cs));
    FreshDists(Gather(Lists, ms, cs), visited, dist) + Gather(Chunks, ms, cs) +
    FreshDists(Gather(Micro, ms, cs), v1, dist) + FreshDists(Gather(Reads, ms, cs), v2, dist) + Gather(Answers, ms, cs)
  }

  function VisitedThen(ms: seq<Msg>, cs: seq<Content>, visited: set<int>): set<int>
    requires |ms| == |cs|
  {
    visited + Vertices(Gather(Lists, ms, cs)) + Vertices(Gather(Micro, ms, cs)) + Vertices(Gather(Reads, ms, cs))
  }

  lemma BroughtSome(ms: seq<Msg>, cs: seq<Content>, visited: set<int>, dist: int -> int)
    requires AllFit(ms, cs) && forall m :: m in ms ==> !m.NodeResult?
    ensures Brought(ms, cs, visited, dist) == [] || SomePayload(ms)
  {
    if Gather(Lists, ms, cs) != [] {
      GatherSome(Lists, ms, cs);
    } else if Gather(Chunks, ms, cs) != [] {
      GatherSome(Chunks, ms, cs);
    } else if Gather(Micro, ms, cs) != [] {
      GatherSome(Micro, ms, cs);
    } else if Gather(Reads, ms, cs) != [] {
      GatherSome(Reads, ms, cs);
    } else if Gather(Answers, ms, cs) != [] {
      GatherSome(Answers, ms, cs);
    }
  }

  // ----- Nothing is left out

  /** The vertices visited after v0, as far as they are at distance x. */
  function NewAt(v0: set<int>, v1: set<int>, dist: int -> int, x: int): set<int> { set u | u in v1 && u !in v0 && dist(u) == x }

  /** How often distance x is among the results. */
  function InResults(cs: seq<Content>, x: int): nat {
    if cs == [] then 0 else InResults(cs[..|cs| - 1], x) + Times(cs[|cs| - 1].results, x)
  }

  /** Visited is what has been before and every vertex in a load; the distances are the results, and one for
      each vertex that is new. */
  ghost predicate BroughtBy(cs: seq<Content>, v0: set<int>, v1: set<int>, dist: int -> int, dists: seq<int>) {
    && (forall u :: u in v1 <==> u in v0 || exists k :: 0 <= k < |cs| && Mentions(cs[k].load, u))
    && forall x :: Times(dists, x) == InResults(cs, x) + |NewAt(v0, v1, dist, x)|
  }

  lemma {:induction false} InFlat(lists: seq<seq<int>>, u: int)
    ensures u in Flat(lists) <==> InSome(lists, u)
  {
    if lists != [] {
      var n := |lists| - 1;
      InFlat(lists[..n], u);
      if u in lists[n] {
        assert InSome(lists, u);
      } else if InSome(lists[..n], u) {
        var m :| 0 <= m < n && u in lists[..n][m];
        assert u in lists[m];
      }
      if InSome(lists, u) && u !in lists[n] {
        var m :| 0 <= m < |lists| && u in lists[m];
        assert lists[..n][m] == lists[m];
      }
    }
  }

  /** The three queues of vertices. */
  ghost predicate InQueues(ms: seq<Msg>, cs: seq<Content>, u: int)
    requires |ms| == |cs|
  {
    u in Gather(Lists, ms, cs) || u in Gather(Micro, ms, cs) || u in Gather(Reads, ms, cs)
  }

  lemma {:induction false} AllVerticesQueued(ms: seq<Msg>, cs: seq<Content>, u: int)
    requires |ms| == |cs|
    ensures InQueues(ms, cs, u) <==> exists k :: 0 <= k < |cs| && Mentions(cs[k].load, u)
    decreases |ms|
  {
    if ms != [] {
      var n := |ms| - 1;
      AllVerticesQueued(ms[..n], cs[..n], u);
      InFlat(cs[n].load.large, u);
      assert InQueues(ms, cs, u) <==> InQueues(ms[..n], cs[..n], u) || Mentions(cs[n].load, u);
      if k :| 0 <= k < n && Mentions(cs[..n][k].load, u) {
        assert Mentions(cs[k].load, u);
      }
      if k :| 0 <= k < |cs| && Mentions(cs[k].load, u) && k != n {
        assert Mentions(cs[..n][k].load, u);
      }
    }
  }

  lemma {:induction false} AllResultsQueued(ms: seq<Msg>, cs: seq<Content>, x: int)
    requires |ms| == |cs|
    ensures Times(Gather(Chunks, ms, cs), x) + Times(Gather(Answers, ms, cs), x) == InResults(cs, x)
    decreases |ms|
  {
    if ms != [] {
      var n := |ms| - 1;
      AllResultsQueued(ms[..n], cs[..n], x);
      TimesConcat(Gather(Chunks, ms[..n], cs[..n]), Part(Chunks, ms[n], cs[n]), x);
      TimesConcat(Gather(Answers, ms[..n], cs[..n]), Part(Answers, ms[n], cs[n]), x);
    }
  }

  lemma {:induction false} FreshCounts(ids: seq<int>, visited: set<int>, dist: int -> int, x: int)
    ensures Times(FreshDists(ids, visited, dist), x) == |NewAt(visited, visited + Vertices(ids), dist, x)|
  {
    if ids == [] {
      assert NewAt(visited, visited + Vertices(ids), dist, x) == {};
    } else {
      var front, u := ids[..|ids| - 1], ids[|ids| - 1];
      FreshCounts(front, visited, dist, x);
      OneMoreFresh(ids, front, u, visited, dist, x);
    }
  }

  lemma OneMoreFresh(ids: seq<int>, front: seq<int>, u: int, visited: set<int>, dist: int -> int, x: int)
    requires ids == front + [u]
    ensures Times(FreshDists(ids, visited, dist), x) - Times(FreshDists(front, visited, dist), x) ==
            |NewAt(visited, visited + Vertices(ids), dist, x)| - |NewAt(visited, visited + Vertices(front), dist, x)|
  {
    var more := if u in visited || u in front then [] else [dist(u)];
    assert ids[..|ids| - 1] == front;
    assert FreshDists(ids, visited, dist) == FreshDists(front, visited, dist) + more;
    TimesConcat(FreshDists(front, visited, dist), more, x);
    OneMoreNew(visited, Vertices(front), u, dist, x);
    assert Vertices(ids) == Vertices(front) + {u};
  }

  lemma OneMoreNew(visited: set<int>, v: set<int>, u: int, dist: int -> int, x: int)
    ensures |NewAt(visited, visited + (v + {u}), dist, x)| ==
            |NewAt(visited, visited + v, dist, x)| + if u !in visited && u !in v && dist(u) == x then 1 else 0
  {
    var before, after := NewAt(visited, visited + v, dist, x), NewAt(visited, visited + (v + {u}), dist, x);
    if u !in visited && u !in v && dist(u) == x {
      assert after == before + {u} && u !in before;
    } else {
      assert after == before;
    }
  }

  lemma NewInTurn(v0: set<int>, v1: set<int>, v2: set<int>, dist: int -> int, x: int)
    requires v0 <= v1 <= v2
    ensures |NewAt(v0, v2, dist, x)| == |NewAt(v0, v1, dist, x)| + |NewAt(v1, v2, dist, x)|
  {
    assert NewAt(v0, v2, dist, x) == NewAt(v0, v1, dist, x) + NewAt(v1, v2, dist, x);
    assert NewAt(v0, v1, dist, x) !! NewAt(v1, v2, dist, x);
  }

  lemma BroughtCounts(ms: seq<Msg>, cs: seq<Content>, visited: set<int>, dist: int -> int, x: int)
    requires |ms| == |cs|
    ensures Times(Brought(ms, cs, visited, dist), x) ==
            InResults(cs, x) + |NewAt(visited, VisitedThen(ms, cs, visited), dist, x)|
  {
    var lists, micro, vectors := Gather(Lists, ms, cs), Gather(Micro, ms, cs), Gather(Reads, ms, cs);
    var v1 := visited + Vertices(lists);
    var v2 := v1 + Vertices(micro);
    FreshCounts(lists, visited, dist, x);
    FreshCounts(micro, v1, dist, x);
    FreshCounts(vectors, v2, dist, x);
    NewInTurn(visited, v1, v2, dist, x);
    NewInTurn(visited, v2, v2 + Vertices(vectors), dist, x);
    AllResultsQueued(ms, cs, x);
  }

  /** Whatever the queues are called, together they bring what the messages carry. */
  lemma NothingLeftOut(ms: seq<Msg>, cs: seq<Content>, visited: set<int>, dist: int -> int)
    requires |ms| == |cs|
    ensures BroughtBy(cs, visited, VisitedThen(ms, cs, visited), dist, Brought(ms, cs, visited, dist))
  {
    forall u
      ensures u in VisitedThen(ms, cs, visited) <==> u in visited || exists k :: 0 <= k < |cs| && Mentions(cs[k].load, u)
    {
      AllVerticesQueued(ms, cs, u);
    }
    forall x
      ensures Times(Brought(ms, cs, visited, dist), x) ==
              InResults(cs, x) + |NewAt(visited, VisitedThen(ms, cs, visited), dist, x)|
    {
      BroughtCounts(ms, cs, visited, dist, x);
    }
  }

  // ----- Processing them

  /** A machine's heaps, the candidates it has accepted since it sent a SYNC, its colour. */
  datatype Work = Work(heaps: Heaps, adds: seq<int>, black: bool)

  function One(w: Work, dist: int): Work {
    if Considers(w.heaps, dist) then Work(Accepted(w.heaps, dist), w.adds + [dist], true) else w
  }

  /** One distance after the other. */
  function Done(w: Work, dists: seq<int>): Work
    decreases |dists|
  {
    if dists == [] then w else One(Done(w, dists[..|dists| - 1]), dists[|dists| - 1])
  }

  lemma DoneNext(w: Work, dists: seq<int>, x: int)
    ensures Done(w, dists + [x]) == One(Done(w, dists), x)
  {
    assert (dists + [x])[..|dists|] == dists;
  }

  lemma {:induction false} DoneThen(w: Work, a: seq<int>, b: seq<int>)
    ensures Done(w, a + b) == Done(Done(w, a), b)
    decreases |b|
  {
    if b == [] {
      assert a + b == a;
    } else {
      var front, x := b[..|b| - 1], b[|b| - 1];
      assert a + b == (a + front) + [x];
      DoneThen(w, a, front);
      DoneNext(w, a + front, x);
    }
  }

  /** The colour tells that something has been accepted; if nothing has nothing has changed. */
  lemma {:induction false} DoneFacts(w: Work, dists: seq<int>)
    ensures var w1 := Done(w, dists);
            && |w1.adds| >= |w.adds| && w1.black == (w.black || |w1.adds| > |w.adds|)
            && (|w1.adds| == |w.adds| ==> w1 == w)
    decreases |dists|
  {
    if dists != [] {
      DoneFacts(w, dists[..|dists| - 1]);
    }
  }

  /** The results are the nearest of those before and all distances; the candidates gain what has been accepted,
      and not accepted is only what is no nearer than all results. */
  ghost predicate Evaluated(h0: Heaps, h: Heaps, accepted: seq<int>, dists: seq<int>) {
    && h.ef == h0.ef && NearestOf(h.top, h0.ef, h0.top + dists)
    && forall x ::
         && Times(h.candidates, x) == Times(h0.candidates, x) + Times(accepted, x)
         && Times(accepted, x) <= Times(dists, x)
         && (Times(accepted, x) < Times(dists, x) ==> |h.top| >= h.ef && x >= h.lowerBound)
  }

  /** The results after the distances processed so far. */
  lemma {:induction false} DoneKeepsNearest(w: Work, dists: seq<int>)
    requires w.heaps.Valid()
    ensures var h := Done(w, dists).heaps;
            && h.Valid() && h.ef == w.heaps.ef && h.top == Nearest(InsertAll(w.heaps.top, dists), h.ef)
    decreases |dists|
  {
    if dists != [] {
      var front, x := dists[..|dists| - 1], dists[|dists| - 1];
      DoneKeepsNearest(w, front);
      var h, all := Done(w, front).heaps, InsertAll(w.heaps.top, front);
      InsertAllFacts(w.heaps.top, front);
      AcceptedIsValid(h, x);
      NearestInsert(all, x, h.ef);
      if !Considers(h, x) {
        InsertBeyond(all, x, h.ef);
      }
    }
  }

  /** A full heap's bound only falls. */
  lemma FullStaysFull(h: Heaps, x: int)
    requires h.Valid() && |h.top| >= h.ef
    ensures |Accepted(h, x).top| >= h.ef && Accepted(h, x).lowerBound <= h.lowerBound
  {
    InsertSorted(h.top, x);
    if h.top != [] {
      InsertLowers(h.top, x, |h.top| - 1);
    }
  }

  lemma {:induction false} DoneAccepts(w: Work, dists: seq<int>, x: int)
    requires w.heaps.Valid()
    ensures var w1 := Done(w, dists);
            && w.adds <= w1.adds
            && var accepted := w1.adds[|w.adds|..];
               && Times(w1.heaps.candidates, x) == Times(w.heaps.candidates, x) + Times(accepted, x)
               && Times(accepted, x) <= Times(dists, x)
               && (Times(accepted, x) < Times(dists, x) ==>
                     |w1.heaps.top| >= w1.heaps.ef && x >= w1.heaps.lowerBound)
    decreases |dists|
  {
    if dists != [] {
      var front, y := dists[..|dists| - 1], dists[|dists| - 1];
      DoneAccepts(w, front, x);
      DoneKeepsNearest(w, front);
      TimesFront(dists, x);
      OneAccepts(w, Done(w, front), y, x);
    }
  }

  lemma OneAccepts(w: Work, w0: Work, y: int, x: int)
    requires w0.heaps.Valid() && w.adds <= w0.adds
    ensures var w1 := One(w0, y);
            && w.adds <= w1.adds
            && Times(w1.adds[|w.adds|..], x) - Times(w0.adds[|w.adds|..], x) ==
               Times(w1.heaps.candidates, x) - Times(w0.heaps.candidates, x) ==
               (if x == y && Considers(w0.heaps, y) then 1 else 0)
            && (!Considers(w0.heaps, y) ==> |w1.heaps.top| >= w1.heaps.ef && y >= w1.heaps.lowerBound)
            && (|w0.heaps.top| >= w0.heaps.ef ==>
                  |w1.heaps.top| >= w1.heaps.ef && w1.heaps.lowerBound <= w0.heaps.lowerBound)
  {
    InsertCounts(w0.heaps.candidates, y, x);
    if Considers(w0.heaps, y) {
      assert (w0.adds + [y])[|w.adds|..] == w0.adds[|w.adds|..] + [y];
      if |w0.heaps.top| >= w0.heaps.ef {
        FullStaysFull(w0.heaps, y);
      }
    }
  }

  lemma DoneEvaluates(w: Work, dists: seq<int>)
    requires w.heaps.Valid()
    ensures var w1 := Done(w, dists);
            w.adds <= w1.adds && Evaluated(w.heaps, w1.heaps, w1.adds[|w.adds|..], dists)
  {
    DoneAccepts(w, dists, 0);
    DoneKeepsNearest(w, dists);
    var all := InsertAll(w.heaps.top, dists);
    InsertAllFacts(w.heaps.top, dists);
    forall x
      ensures Times(all, x) == Times(w.heaps.top + dists, x)
    {
      InsertAllCounts(w.heaps.top, dists, x);
      TimesConcat(w.heaps.top, dists, x);
    }
    NearestIs(all, w.heaps.ef, w.heaps.top + dists);
    forall x
      ensures var w1 := Done(w, dists);
              var accepted := w1.adds[|w.adds|..];
              && Times(w1.heaps.candidates, x) == Times(w.heaps.candidates, x) + Times(accepted, x)
              && Times(accepted, x) <= Times(dists, x)
              && (Times(accepted, x) < Times(dists, x) ==> |w1.heaps.top| >= w1.heaps.ef && x >= w1.heaps.lowerBound)
    {
      DoneAccepts(w, dists, x);
    }
  }

  /** The queues in turn. */
  lemma DoneInTurn(w: Work, a: seq<int>, b: seq<int>, c: seq<int>, d: seq<int>, e: seq<int>)
    ensures Done(w, a + b + c + d + e) == Done(Done(Done(Done(Done(w, a), b), c), d), e)
  {
    DoneThen(w, a + b + c + d, e);
    DoneThen(w, a + b + c, d);
    DoneThen(w, a + b, c);
    DoneThen(w, a, b);
  }

  lemma FreshNext(ids: seq<int>, k: nat, next: nat, visited: set<int>, dist: int -> int, w: Work)
    requires k < |ids| && next == k + 1
    ensures Vertices(ids[..next]) == Vertices(ids[..k]) + {ids[k]}
    ensures var before := Done(w, FreshDists(ids[..k], visited, dist));
            Done(w, FreshDists(ids[..next], visited, dist)) ==
              if ids[k] in visited + Vertices(ids[..k]) then before else One(before, dist(ids[k]))
  {
    assert ids[..next][..k] == ids[..k] && ids[..next][k] == ids[k];
    var dists := FreshDists(ids[..k], visited, dist);
    assert dists + [] == dists;
    DoneNext(w, dists, dist(ids[k]));
  }
}
