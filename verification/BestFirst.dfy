/**
 Best-first search on one level of the graph.  Distances are an arbitrary integer function of the vertex;
 a heap is the set of its vertices, and which of several equally distant ones is on top is left open.
 */
module BestFirst {

  type Dist = nat -> int

  datatype Graph = Graph(adj: seq<seq<nat>>) {
    predicate Valid() { forall v, i :: 0 <= v < |adj| && 0 <= i < |adj[v]| ==> adj[v][i] < |adj| }
  }

  function Vertices(n: nat): (r: set<nat>)
    ensures forall v: nat :: v in r <==> v < n
    ensures |r| == n
  {
    if n == 0 then {} else Vertices(n - 1) + {n - 1}
  }

  lemma SubsetSize(a: set<nat>, b: set<nat>)
    requires a <= b
    ensures |a| <= |b| && (a != b ==> |a| < |b|)
  {
    assert b == a + (b - a);
    if a != b {
      var x :| x in b - a;
    }
  }

  lemma Top(s: set<nat>, d: Dist) returns (v: nat)
    requires s != {}
    ensures v in s && forall w :: w in s ==> d(w) <= d(v)
  {
    v :| v in s;
    if s != {v} {
      var w := Top(s - {v}, d);
      v := if d(w) > d(v) then w else v;
    }
  }

  /** All neighbours of v are in s. */
  predicate Closed(g: Graph, v: nat, s: set<nat>)
    requires v < |g.adj|
  {
    forall i :: 0 <= i < |g.adj[v]| ==> g.adj[v][i] in s
  }

  /** Each vertex of the path is listed by the one before. */
  ghost predicate IsPath(g: Graph, path: seq<nat>) {
    && path != [] && (forall i :: 0 <= i < |path| ==> path[i] < |g.adj|)
    && forall i :: 0 < i < |path| ==> path[i] in g.adj[path[i - 1]]
  }

  ghost predicate Reachable(g: Graph, ep: nat, v: nat) {
    exists path :: IsPath(g, path) && path[0] == ep && path[|path| - 1] == v
  }

  ghost predicate AllReachable(g: Graph, ep: nat, s: set<nat>) { forall v :: v in s ==> Reachable(g, ep, v) }

  lemma NextReachable(g: Graph, ep: nat, v: nat, i: nat)
    requires g.Valid() && Reachable(g, ep, v) && v < |g.adj| && i < |g.adj[v]|
    ensures Reachable(g, ep, g.adj[v][i])
  {
    var path :| IsPath(g, path) && path[0] == ep && path[|path| - 1] == v;
    assert IsPath(g, path + [g.adj[v][i]]);
  }

  /** `top` are the ef nearest vertices of s, or all of s if there are fewer. */
  ghost predicate Nearest(d: Dist, top: set<nat>, s: set<nat>, ef: nat) {
    && top <= s && |top| <= ef && (|top| < ef ==> top == s)
    && forall v, w :: v in s - top && w in top ==> d(w) <= d(v)
  }

  ghost predicate IsBound(d: Dist, top: set<nat>, lowerBound: int) {
    (exists v :: v in top && d(v) == lowerBound) && forall v :: v in top ==> d(v) <= lowerBound
  }

  /** A vertex farther than the bound of a full heap changes nothing. */
  lemma NotConsidered(d: Dist, top: set<nat>, s: set<nat>, ef: nat, lowerBound: int, u: nat)
    requires Nearest(d, top, s, ef) && IsBound(d, top, lowerBound) && |top| >= ef && lowerBound <= d(u)
    ensures Nearest(d, top, s + {u}, ef)
  {
  }

  /** Pushing a vertex and popping the farthest if there are too many keeps the ef nearest. */
  lemma Considered(d: Dist, top: set<nat>, s: set<nat>, ef: nat, u: nat, out: nat)
    requires Nearest(d, top, s, ef) && u !in s && |top| == ef
    requires out in top + {u} && forall w :: w in top + {u} ==> d(w) <= d(out)
    ensures Nearest(d, top + {u} - {out}, s + {u}, ef)
  {
    var t := top + {u} - {out};
    assert |top + {u}| == ef + 1;
    assert top + {u} == t + {out};
    forall v, w | v in s + {u} - t && w in t
      ensures d(w) <= d(v)
    {
    }
  }

  /** Pushes a vertex onto the result heap and trims it. */
  method PushTop(d: Dist, ef: nat, top0: set<nat>, lowerBound0: int, ghost visited: set<nat>, u: nat)
    returns (top: set<nat>, lowerBound: int)
    requires ef >= 1 && Nearest(d, top0, visited, ef) && IsBound(d, top0, lowerBound0) && u !in visited
    ensures Nearest(d, top, visited + {u}, ef) && IsBound(d, top, lowerBound) && top <= top0 + {u}
  {
    top := top0 + {u};
    assert |top| == |top0| + 1;
    if |top| > ef {
      ghost var _ := Top(top, d);
      var out :| out in top && forall w :: w in top ==> d(w) <= d(out);
      Considered(d, top0, visited, ef, u, out);
      top := top - {out};
    }
    ghost var _ := Top(top, d);
    var far :| far in top && forall w :: w in top ==> d(w) <= d(far);
    lowerBound := d(far);
  }

  /** The two heaps and what has been visited. */
  datatype Search = Search(top: set<nat>, lowerBound: int, visited: set<nat>, candidates: set<nat>) {
    ghost predicate Valid(d: Dist, ef: nat, n: nat) {
      && Nearest(d, top, visited, ef) && IsBound(d, top, lowerBound)
      && candidates <= visited && forall v :: v in visited ==> v < n
    }

    /** Every vertex evaluated is still a candidate, has been expanded, or is no nearer than the bound of a full
        heap. */
    ghost predicate Pending(d: Dist, ef: nat, expanded: set<nat>) {
      && candidates !! expanded && expanded <= visited
      && forall v :: v in visited ==> v in candidates || v in expanded || (v !in top && |top| == ef && lowerBound <= d(v))
    }
  }

  /** One neighbour of the vertex that is expanded. */
  method Visit(d: Dist, ef: nat, s: Search, u: nat, ghost n: nat, ghost expanded: set<nat>) returns (r: Search)
    requires ef >= 1 && s.Valid(d, ef, n) && s.Pending(d, ef, expanded) && u < n
    ensures r.Valid(d, ef, n) && r.Pending(d, ef, expanded) && r.visited == s.visited + {u}
    ensures s.visited <= r.visited && (r.visited == s.visited ==> r == s)
  {
    r := s;
    if u !in s.visited {
      if |s.top| < ef || s.lowerBound > d(u) {
        var top, lowerBound := PushTop(d, ef, s.top, s.lowerBound, s.visited, u);
        r := Search(top, lowerBound, s.visited + {u}, s.candidates + {u});
      } else {
        NotConsidered(d, s.top, s.visited, ef, s.lowerBound, u);
        r := s.(visited := s.visited + {u});
      }
    }
  }

  function Elements(s: seq<nat>): set<nat> { set v | v in s }

  /** The entry point and the neighbours of all vertices expanded. */
  function Seen(g: Graph, ep: nat, order: seq<nat>): set<nat> {
    if order == [] then {ep}
    else
      var v := order[|order| - 1];
      Seen(g, ep, order[..|order| - 1]) + if v < |g.adj| then Elements(g.adj[v]) else {}
  }

  /** Vertex v is no farther than some of the ef nearest of s. */
  ghost predicate WithinBound(d: Dist, ef: nat, s: set<nat>, v: nat) {
    exists top: set<nat>, w :: Nearest(d, top, s, ef) && w in top && d(v) <= d(w)
  }

  /** The k-th vertex expanded is the nearest of those evaluated and not expanded before, and within the bound. */
  ghost predicate NearestNext(g: Graph, d: Dist, ep: nat, ef: nat, order: seq<nat>, k: nat)
    requires k < |order|
  {
    var v, seen, before := order[k], Seen(g, ep, order[..k]), order[..k];
    && v in seen && v !in before && WithinBound(d, ef, seen, v)
    && forall w :: w in seen && w !in before ==> d(v) <= d(w)
  }

  ghost predicate BestFirstOrder(g: Graph, d: Dist, ep: nat, ef: nat, order: seq<nat>) {
    forall k :: 0 <= k < |order| ==> NearestNext(g, d, ep, ef, order, k)
  }

  lemma OrderMore(g: Graph, d: Dist, ep: nat, ef: nat, order: seq<nat>, s: Search, v: nat)
    requires BestFirstOrder(g, d, ep, ef, order) && s.Valid(d, ef, |g.adj|) && s.Pending(d, ef, Elements(order))
    requires s.visited == Seen(g, ep, order)
    requires v in s.candidates && d(v) <= s.lowerBound && forall w :: w in s.candidates ==> d(v) <= d(w)
    ensures BestFirstOrder(g, d, ep, ef, order + [v])
  {
    var order1 := order + [v];
    forall k | 0 <= k < |order1|
      ensures NearestNext(g, d, ep, ef, order1, k)
    {
      if k < |order| {
        assert NearestNext(g, d, ep, ef, order, k) && order1[..k] == order[..k];
      } else {
        assert order1[..k] == order && v !in Elements(order);
        var far :| far in s.top && d(far) == s.lowerBound;
        assert Nearest(d, s.top, s.visited, ef) && d(v) <= d(far);
      }
    }
  }

  /** What visiting the vertices in `seen` has made of s. */
  ghost predicate Visiting(d: Dist, ef: nat, n: nat, expanded: set<nat>, s: Search, r: Search, seen: set<nat>) {
    && r.Valid(d, ef, n) && r.Pending(d, ef, expanded)
    && r.visited == s.visited + seen && (r.visited == s.visited ==> r == s)
  }

  /** The j-th of the neighbours. */
  method VisitNext(d: Dist, ef: nat, ghost n: nat, ghost expanded: set<nat>, ghost s: Search, r0: Search, l: seq<nat>,
                   j: nat, ghost next: nat)
    returns (r: Search)
    requires ef >= 1 && j < |l| && next == j + 1 && l[j] < n
    requires Visiting(d, ef, n, expanded, s, r0, Elements(l[..j]))
    ensures Visiting(d, ef, n, expanded, s, r, Elements(l[..next]))
  {
    assert l[..next] == l[..j] + [l[j]];
    assert Elements(l[..next]) == Elements(l[..j]) + {l[j]};
    r := Visit(d, ef, r0, l[j], n, expanded);
  }

  /** The neighbours of the current vertex, one after the other. */
  method Expand(g: Graph, d: Dist, ef: nat, current: nat, s: Search, ghost expanded: set<nat>) returns (r: Search)
    requires g.Valid() && current < |g.adj| && ef >= 1 && s.Valid(d, ef, |g.adj|) && s.Pending(d, ef, expanded)
    ensures Visiting(d, ef, |g.adj|, expanded, s, r, Elements(g.adj[current]))
  {
    r := s;
    var l := g.adj[current];
    for j := 0 to |l|
      invariant Visiting(d, ef, |g.adj|, expanded, s, r, Elements(l[..j]))
    {
      r := VisitNext(d, ef, |g.adj|, expanded, s, r, l, j, j + 1);
    }
    assert l[..|l|] == l;
  }

  /** The next candidate, unless it is farther than the bound. */
  method NextCandidate(d: Dist, candidates: set<nat>, lowerBound: int) returns (stop: bool, current: nat)
    ensures stop ==> forall v :: v in candidates ==> d(v) > lowerBound
    ensures !stop ==> d(current) <= lowerBound && current in candidates && forall v :: v in candidates ==> d(current) <= d(v)
  {
    if candidates == {} {
      return true, 0;
    }
    ghost var _ := Top(candidates, (v: nat) => -d(v));
    current :| current in candidates && forall w :: w in candidates ==> d(current) <= d(w);
    stop := d(current) > lowerBound;
  }

  ghost predicate AllClosed(g: Graph, expanded: set<nat>, visited: set<nat>) {
    forall v :: v in expanded ==> v in visited && v < |g.adj| && Closed(g, v, visited)
  }

  lemma Shrinks(n: nat, visited0: set<nat>, visited: set<nat>, candidates0: set<nat>, current: nat, candidates: set<nat>)
    requires visited0 <= visited && (forall v :: v in visited ==> v < n) && current in candidates0
    requires visited == visited0 ==> candidates == candidates0 - {current}
    ensures |visited| <= n
    ensures |visited| > |visited0| || (|visited| == |visited0| && |candidates| < |candidates0|)
  {
    SubsetSize(visited0, visited);
    SubsetSize(visited, Vertices(n));
  }

  /** What has been seen is reachable, and includes all neighbours of what has been expanded. */
  ghost predicate SeenRight(g: Graph, ep: nat, order: seq<nat>) {
    ep in Seen(g, ep, order) && AllReachable(g, ep, Seen(g, ep, order)) && AllClosed(g, Elements(order), Seen(g, ep, order))
  }

  lemma {:induction false} SeenFacts(g: Graph, d: Dist, ep: nat, ef: nat, order: seq<nat>)
    requires g.Valid() && ep < |g.adj| && BestFirstOrder(g, d, ep, ef, order)
    ensures SeenRight(g, ep, order)
  {
    if order == [] {
      NothingExpanded(g, ep);
    } else {
      var n := |order| - 1;
      OrderBefore(g, d, ep, ef, order, order[..n]);
      SeenFacts(g, d, ep, ef, order[..n]);
      NextIsSeen(g, d, ep, ef, order, n);
      SeenNext(g, ep, order[..n], order, order[n]);
    }
  }

  lemma NextIsSeen(g: Graph, d: Dist, ep: nat, ef: nat, order: seq<nat>, k: nat)
    requires BestFirstOrder(g, d, ep, ef, order) && k < |order|
    ensures order[k] in Seen(g, ep, order[..k])
  {
    assert NearestNext(g, d, ep, ef, order, k);
  }

  lemma NothingExpanded(g: Graph, ep: nat)
    requires ep < |g.adj|
    ensures SeenRight(g, ep, [])
  {
    assert IsPath(g, [ep]);
  }

  lemma OrderBefore(g: Graph, d: Dist, ep: nat, ef: nat, order: seq<nat>, front: seq<nat>)
    requires BestFirstOrder(g, d, ep, ef, order) && order != [] && front == order[..|order| - 1]
    ensures BestFirstOrder(g, d, ep, ef, front)
  {
    forall k | 0 <= k < |front|
      ensures NearestNext(g, d, ep, ef, front, k)
    {
      assert NearestNext(g, d, ep, ef, order, k) && front[..k] == order[..k];
    }
  }

  lemma SeenNext(g: Graph, ep: nat, front: seq<nat>, order: seq<nat>, v: nat)
    requires g.Valid() && SeenRight(g, ep, front) && v in Seen(g, ep, front) && order == front + [v]
    ensures SeenRight(g, ep, order)
  {
    ReachableIsVertex(g, ep, v);
    forall i | 0 <= i < |g.adj[v]|
      ensures Reachable(g, ep, g.adj[v][i])
    {
      NextReachable(g, ep, v, i);
    }
    assert order[..|order| - 1] == front;
    assert Elements(order) == Elements(front) + {v};
  }

  lemma ReachableIsVertex(g: Graph, ep: nat, v: nat)
    requires Reachable(g, ep, v)
    ensures v < |g.adj|
  {
  }

  /** The state of the search after the vertices in `order` have been expanded. */
  ghost predicate Searching(g: Graph, d: Dist, ep: nat, ef: nat, s: Search, order: seq<nat>) {
    && s.Valid(d, ef, |g.adj|) && s.Pending(d, ef, Elements(order))
    && BestFirstOrder(g, d, ep, ef, order) && s.visited == Seen(g, ep, order)
  }

  lemma NowExpanded(g: Graph, d: Dist, ep: nat, ef: nat, s: Search, order: seq<nat>, order1: seq<nat>, v: nat)
    requires Searching(g, d, ep, ef, s, order) && order1 == order + [v]
    requires v in s.candidates && d(v) <= s.lowerBound && forall w :: w in s.candidates ==> d(v) <= d(w)
    ensures BestFirstOrder(g, d, ep, ef, order1) && Elements(order1) == Elements(order) + {v}
    ensures v < |g.adj| ==> Seen(g, ep, order1) == s.visited + Elements(g.adj[v])
    ensures var s1 := s.(candidates := s.candidates - {v}); s1.Valid(d, ef, |g.adj|) && s1.Pending(d, ef, Elements(order1))
  {
    OrderMore(g, d, ep, ef, order, s, v);
    assert order1[..|order|] == order;
  }

  /** The nearest candidate is expanded. */
  method ExpandNearest(g: Graph, d: Dist, ghost ep: nat, ef: nat, current: nat, s: Search, ghost order: seq<nat>)
    returns (r: Search, ghost order1: seq<nat>)
    requires g.Valid() && ef >= 1 && Searching(g, d, ep, ef, s, order)
    requires current in s.candidates && d(current) <= s.lowerBound && forall w :: w in s.candidates ==> d(current) <= d(w)
    ensures Searching(g, d, ep, ef, r, order1) && s.visited <= r.visited
    ensures r.visited == s.visited ==> r.candidates == s.candidates - {current}
  {
    order1 := order + [current];
    NowExpanded(g, d, ep, ef, s, order, order1, current);
    r := Expand(g, d, ef, current, s.(candidates := s.candidates - {current}), Elements(order1));
  }

  lemma SearchIsOver(g: Graph, d: Dist, ep: nat, ef: nat, s: Search, order: seq<nat>)
    requires g.Valid() && ep < |g.adj| && Searching(g, d, ep, ef, s, order)
    requires forall v :: v in s.candidates ==> d(v) > s.lowerBound
    ensures s.top <= Elements(order) && SeenRight(g, ep, order)
    ensures forall v :: v in s.visited && v !in order ==> d(v) > s.lowerBound || (|s.top| == ef && d(v) >= s.lowerBound)
  {
    SeenFacts(g, d, ep, ef, order);
  }

  /** The search from an entry point: it terminates; it expands the nearest vertex first, as long as one is within
      the bound; evaluated are the entry point and the neighbours of the vertices expanded; the results are the ef
      nearest of them, and each has been expanded. */
  method SearchBaseLayer(g: Graph, d: Dist, ep: nat, ef: nat)
    returns (top: set<nat>, lowerBound: int, ghost evaluated: set<nat>, ghost order: seq<nat>)
    requires g.Valid() && ep < |g.adj| && ef >= 1
    ensures BestFirstOrder(g, d, ep, ef, order) && evaluated == Seen(g, ep, order)
    ensures SeenRight(g, ep, order)
    ensures Nearest(d, top, evaluated, ef) && IsBound(d, top, lowerBound) && top <= Elements(order)
    ensures forall v :: v in evaluated && v !in order ==> d(v) > lowerBound || (|top| == ef && d(v) >= lowerBound)
  {
    var s := Search({ep}, d(ep), {ep}, {ep});
    order := [];
    while true
      invariant Searching(g, d, ep, ef, s, order)
      decreases |g.adj| - |s.visited|, |s.candidates|
    {
      var stop, current := NextCandidate(d, s.candidates, s.lowerBound);
      if stop {
        break;
      }
      ghost var s0 := s;
      s, order := ExpandNearest(g, d, ep, ef, current, s, order);
      Shrinks(|g.adj|, s0.visited, s.visited, s0.candidates, current, s.candidates);
    }
    SearchIsOver(g, d, ep, ef, s, order);
    top, lowerBound, evaluated := s.top, s.lowerBound, s.visited;
  }

  /** Where the search stops is a local optimum: a neighbour of a result is a result itself, or the
      result heap is full and no result is farther than that neighbour. */
  lemma LocalOptimum(g: Graph, d: Dist, ef: nat, top: set<nat>, lowerBound: int, evaluated: set<nat>,
                     expanded: set<nat>, v: nat, i: nat)
    requires Nearest(d, top, evaluated, ef) && IsBound(d, top, lowerBound)
    requires top <= expanded && AllClosed(g, expanded, evaluated)
    requires v in top && v < |g.adj| && i < |g.adj[v]|
    ensures var u := g.adj[v][i]; u in top || (|top| == ef && lowerBound <= d(u))
  {
    assert Closed(g, v, evaluated) && g.adj[v][i] in evaluated;
  }
}
