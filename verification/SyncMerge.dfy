/**
 The two heaps of a sub-query: candidate_set and top_candidates.  A heap is the ascending sequence of the
 distances in it.  The ring model lets a SYNC only lower the number of candidates within the bound, and
 new candidates only come from accepting one; this is why it may.
 */
module SyncMerge {
  import opened Multiplicity

  // ----- Heaps

  predicate Sorted(s: seq<int>) { forall i, j :: 0 <= i < j < |s| ==> s[i] <= s[j] }

  function Insert(s: seq<int>, x: int): (r: seq<int>)
    ensures |r| == |s| + 1
  {
    if s == [] || x <= s[0] then [x] + s else [s[0]] + Insert(s[1..], x)
  }

  lemma {:induction false} InsertAbove(s: seq<int>, x: int, low: int)
    requires low <= x && forall i :: 0 <= i < |s| ==> low <= s[i]
    ensures forall i :: 0 <= i < |Insert(s, x)| ==> low <= Insert(s, x)[i]
  {
    if s != [] && x > s[0] {
      InsertAbove(s[1..], x, low);
    }
  }

  lemma {:induction false} InsertSorted(s: seq<int>, x: int)
    requires Sorted(s)
    ensures Sorted(Insert(s, x))
  {
    if s != [] && x > s[0] {
      InsertSorted(s[1..], x);
      InsertAbove(s[1..], x, s[0]);
    }
  }

  lemma {:induction false} InsertHas(s: seq<int>, x: int, y: int)
    ensures y in Insert(s, x) <==> y in s || y == x
  {
    if s != [] && x > s[0] {
      InsertHas(s[1..], x, y);
    }
  }

  lemma {:induction false} InsertCounts(s: seq<int>, x: int, y: int)
    ensures Times(Insert(s, x), y) == Times(s, y) + if x == y then 1 else 0
  {
    if s == [] || x <= s[0] {
      TimesConcat([x], s, y);
    } else {
      InsertCounts(s[1..], x, y);
      assert s == [s[0]] + s[1..];
      TimesConcat([s[0]], s[1..], y);
      TimesConcat([s[0]], Insert(s[1..], x), y);
    }
  }

  /** Every place is taken by an element no larger than before. */
  lemma {:induction false} InsertLowers(s: seq<int>, x: int, k: nat)
    requires Sorted(s) && k < |s|
    ensures Insert(s, x)[k] <= s[k]
  {
    if x > s[0] && k > 0 {
      InsertLowers(s[1..], x, k - 1);
    }
  }

  /** The pops: what is left when the largest go until n are left. */
  function Nearest(s: seq<int>, n: nat): seq<int> { if |s| > n then s[..n] else s }

  /** What is left are the n nearest of all there were. */
  ghost predicate NearestOf(top: seq<int>, n: nat, all: seq<int>) {
    && Sorted(top) && |top| == Min(n, |all|)
    && forall x :: Times(top, x) <= Times(all, x) && (Times(top, x) < Times(all, x) ==> forall y :: y in top ==> y <= x)
  }

  lemma NearestIs(s: seq<int>, n: nat, all: seq<int>)
    requires Sorted(s) && |s| == |all| && forall x :: Times(s, x) == Times(all, x)
    ensures NearestOf(Nearest(s, n), n, all)
  {
    if |s| > n {
      var near, far := s[..n], s[n..];
      assert s == near + far;
      forall x
        ensures Times(near, x) <= Times(all, x) && (Times(near, x) < Times(all, x) ==> forall y :: y in near ==> y <= x)
      {
        TimesConcat(near, far, x);
        if Times(near, x) < Times(all, x) {
          TimesIn(far, x);
          var j :| 0 <= j < |far| && far[j] == x;
          assert s[n + j] == x;
        }
      }
    }
  }

  /** lowerBound: the largest result, if there is any. */
  function Bound(top: seq<int>, lowerBound: int): int { if top == [] then lowerBound else top[|top| - 1] }

  /** What matters of the elements beyond the n nearest is nothing. */
  lemma {:induction false} NearestInsert(s: seq<int>, x: int, n: nat)
    ensures Nearest(Insert(s, x), n) == Nearest(Insert(Nearest(s, n), x), n)
  {
    if n == 0 || |s| <= n {
    } else if x <= s[0] {
      assert ([x] + s)[..n] == ([x] + s[..n])[..n];
    } else {
      NearestInsert(s[1..], x, n - 1);
      assert s[..n][1..] == s[1..][..n - 1];
      assert ([s[0]] + Insert(s[1..], x))[..n] == [s[0]] + Insert(s[1..], x)[..n - 1];
      assert ([s[0]] + Insert(s[..n][1..], x))[..n] == [s[0]] + Insert(s[..n][1..], x)[..n - 1];
    }
  }

  lemma {:induction false} InsertBeyond(s: seq<int>, x: int, n: nat)
    requires Sorted(s) && n <= |s| && (n > 0 ==> s[n - 1] <= x)
    ensures Nearest(Insert(s, x), n) == Nearest(s, n)
  {
    if n > 0 {
      if x <= s[0] {
        SameFront(s, x, n);
      } else {
        InsertBeyond(s[1..], x, n - 1);
        assert ([s[0]] + Insert(s[1..], x))[..n] == [s[0]] + Insert(s[1..], x)[..n - 1];
        assert s[..n] == [s[0]] + s[1..][..n - 1];
      }
    }
  }

  lemma SameFront(s: seq<int>, x: int, n: nat)
    requires Sorted(s) && 0 < n <= |s| && s[n - 1] <= x <= s[0]
    ensures ([x] + s)[..n] == s[..n]
  {
    assert forall i :: 0 <= i < n ==> s[0] <= s[i] <= s[n - 1];
  }

  /** The number of candidates no farther than the bound. */
  function Within(s: seq<int>, bound: int): nat { if s == [] then 0 else (if s[0] <= bound then 1 else 0) + Within(s[1..], bound) }

  lemma {:induction false} WithinFalls(s: seq<int>, bound0: int, bound: int)
    requires forall i :: 0 <= i < |s| && s[i] <= bound ==> s[i] <= bound0
    ensures Within(s, bound) <= Within(s, bound0)
  {
    if s != [] {
      forall i | 0 <= i < |s[1..]| && s[1..][i] <= bound
        ensures s[1..][i] <= bound0
      {
        assert s[1..][i] == s[i + 1];
      }
      WithinFalls(s[1..], bound0, bound);
    }
  }

  // ----- A sub-query's heaps

  datatype Heaps = Heaps(top: seq<int>, candidates: seq<int>, lowerBound: int, ef: nat) {
    /** As long as the result heap is not full every candidate is a result. */
    ghost predicate Valid() {
      && Sorted(top) && Sorted(candidates) && |top| <= ef && lowerBound == Bound(top, lowerBound)
      && (|top| < ef ==> forall c :: c in candidates ==> c in top)
    }

    function Cands(): nat { Within(candidates, lowerBound) }
  }

  // ----- Accepting a candidate

  predicate Considers(h: Heaps, dist: int) { |h.top| < h.ef || h.lowerBound > dist }

  function Accepted(h: Heaps, dist: int): Heaps {
    var top := Nearest(Insert(h.top, dist), h.ef);
    Heaps(top, Insert(h.candidates, dist), Bound(top, h.lowerBound), h.ef)
  }

  lemma AcceptedIsValid(h: Heaps, dist: int)
    requires h.Valid()
    ensures Accepted(h, dist).Valid()
  {
    InsertSorted(h.top, dist);
    InsertSorted(h.candidates, dist);
    if |h.top| + 1 < h.ef {
      forall c | c in Insert(h.candidates, dist)
        ensures c in Insert(h.top, dist)
      {
        InsertHas(h.candidates, dist, c);
        InsertHas(h.top, dist, c);
      }
    }
  }

  /** The candidates gain one, the results are the ef nearest of before and the new one. */
  ghost predicate GainsOne(h0: Heaps, h: Heaps, dist: int) {
    && h.ef == h0.ef && NearestOf(h.top, h0.ef, h0.top + [dist])
    && forall x :: Times(h.candidates, x) == Times(h0.candidates, x) + if x == dist then 1 else 0
  }

  lemma AcceptedGains(h: Heaps, dist: int)
    requires h.Valid()
    ensures GainsOne(h, Accepted(h, dist), dist)
  {
    InsertSorted(h.top, dist);
    forall x
      ensures Times(Insert(h.candidates, dist), x) == Times(h.candidates, x) + if x == dist then 1 else 0
      ensures Times(Insert(h.top, dist), x) == Times(h.top + [dist], x)
    {
      InsertCounts(h.candidates, dist, x);
      InsertCounts(h.top, dist, x);
    }
    NearestIs(Insert(h.top, dist), h.ef, h.top + [dist]);
  }

  method PopTo(top0: seq<int>, ef: nat) returns (top: seq<int>)
    ensures top == Nearest(top0, ef)
  {
    top := top0;
    while |top| > ef
      invariant Nearest(top, ef) == Nearest(top0, ef)
    {
      assert top[..|top| - 1][..ef] == top[..ef];
      top := top[..|top| - 1];
    }
    assert |top0| > ef && |top| == ef ==> top[..ef] == top;
  }

  /** post_proc_candidate. */
  method PostProcCandidate(h0: Heaps, dist: int) returns (h: Heaps, accepted: bool)
    requires h0.Valid()
    ensures h.Valid() && accepted == Considers(h0, dist) && h == if accepted then Accepted(h0, dist) else h0
    ensures accepted <==> |h0.top| < h0.ef || dist < h0.lowerBound
    ensures accepted ==> GainsOne(h0, h, dist)
    ensures !accepted ==> h == h0 && |h0.top| >= h0.ef && forall y :: y in h0.top ==> y <= dist
  {
    h, accepted := h0, |h0.top| < h0.ef || h0.lowerBound > dist;
    if accepted {
      AcceptedIsValid(h0, dist);
      AcceptedGains(h0, dist);
      var top := PopTo(Insert(h0.top, dist), h0.ef);
      h := Heaps(top, Insert(h0.candidates, dist), Bound(top, h0.lowerBound), h0.ef);
    }
  }

  // ----- The nearest candidates leave

  /** How many candidates the next group takes. */
  function GroupSize(h: Heaps, max: nat): nat { if h.Cands() < max then h.Cands() else max }

  lemma NoneWithin(s: seq<int>, bound: int)
    requires Sorted(s) && (s != [] ==> s[0] > bound)
    ensures Within(s, bound) == 0
  {
    if s != [] {
      WithinFalls(s, s[0] - 1, bound);
      NoneBelowFirst(s, s[0]);
    }
  }

  lemma {:induction false} NoneBelowFirst(s: seq<int>, low: int)
    requires forall i :: 0 <= i < |s| ==> low <= s[i]
    ensures Within(s, low - 1) == 0
  {
    if s != [] {
      NoneBelowFirst(s[1..], low);
    }
  }

  /** The heaps without their g nearest candidates. */
  function WithoutNearest(h: Heaps, g: nat): Heaps
    requires g <= |h.candidates|
  {
    h.(candidates := h.candidates[g..])
  }

  lemma WithoutOne(h: Heaps)
    requires h.Valid() && h.candidates != [] && h.candidates[0] <= h.lowerBound
    ensures WithoutNearest(h, 1).Valid() && WithoutNearest(h, 1).Cands() == h.Cands() - 1
  {
    forall c | c in h.candidates[1..]
      ensures c in h.candidates
    {
    }
  }

  lemma NearestFirst(s: seq<int>, a: seq<int>, b: seq<int>)
    requires Sorted(s) && s == a + b
    ensures forall x, y :: x in a && y in b ==> x <= y
  {
    forall x, y | x in a && y in b
      ensures x <= y
    {
      var i :| 0 <= i < |a| && a[i] == x;
      var j :| 0 <= j < |b| && b[j] == y;
      assert s[i] == x && s[|a| + j] == y;
    }
  }

  /** The group are the nearest candidates, which have left. */
  ghost predicate Popped(h0: Heaps, h: Heaps, group: seq<int>) {
    && h0.candidates == group + h.candidates && h.top == h0.top && h.lowerBound == h0.lowerBound && h.ef == h0.ef
    && h.Valid() && h.Cands() + |group| == h0.Cands() && forall x :: x in group ==> x <= h0.lowerBound
  }

  lemma PopNext(h0: Heaps, h: Heaps, group: seq<int>)
    requires Popped(h0, h, group) && h.candidates != [] && h.candidates[0] <= h.lowerBound
    ensures Popped(h0, WithoutNearest(h, 1), group + [h.candidates[0]])
  {
    WithoutOne(h);
    assert h.candidates == [h.candidates[0]] + h.candidates[1..];
  }

  lemma GroupComplete(h0: Heaps, h: Heaps, group: seq<int>, max: nat)
    requires h0.Valid() && Popped(h0, h, group) && |group| <= max
    requires |group| == max || h.candidates == [] || h.candidates[0] > h.lowerBound
    ensures |group| == GroupSize(h0, max) <= |h0.candidates| && h == WithoutNearest(h0, |group|)
    ensures forall x, y :: x in group && y in h.candidates ==> x <= y
    ensures |group| < max ==> forall y :: y in h.candidates ==> y > h0.lowerBound
  {
    NearestFirst(h0.candidates, group, h.candidates);
    if |group| < max {
      NoneWithin(h.candidates, h.lowerBound);
    }
  }

  /** The candidates of a group: the nearest ones, as long as they are no farther than the bound. */
  method PopGroup(h0: Heaps, max: nat) returns (h: Heaps, group: seq<int>)
    requires h0.Valid()
    ensures |group| == GroupSize(h0, max) <= |h0.candidates| && h == WithoutNearest(h0, |group|)
    ensures Popped(h0, h, group) && |group| <= max && forall x, y :: x in group && y in h.candidates ==> x <= y
    ensures |group| < max ==> forall y :: y in h.candidates ==> y > h0.lowerBound
  {
    h, group := h0, [];
    while |group| < max && h.candidates != [] && h.candidates[0] <= h.lowerBound
      invariant |group| <= max && Popped(h0, h, group)
      decreases max - |group|
    {
      PopNext(h0, h, group);
      group := group + [h.candidates[0]];
      h := h.(candidates := h.candidates[1..]);
    }
    GroupComplete(h0, h, group, max);
  }

  // ----- Merging what another machine has found

  /** The pushes, judged by the bound before all of them. */
  function Pushed(top: seq<int>, lowerBound: int, ef: nat, adds: seq<int>): seq<int>
    decreases |adds|
  {
    if adds == [] then top
    else
      var front, x := Pushed(top, lowerBound, ef, adds[..|adds| - 1]), adds[|adds| - 1];
      if |front| < ef || x < lowerBound then Insert(front, x) else front
  }

  function Merged(h: Heaps, adds: seq<int>): Heaps {
    var top := Nearest(Pushed(h.top, h.lowerBound, h.ef, adds), h.ef);
    h.(top := top, lowerBound := Bound(top, h.lowerBound))
  }

  lemma {:induction false} PushedFacts(top: seq<int>, lowerBound: int, ef: nat, adds: seq<int>)
    requires Sorted(top)
    ensures var p := Pushed(top, lowerBound, ef, adds);
            && Sorted(p) && |top| <= |p|
            && (forall c :: c in top ==> c in p)
            && (forall k :: 0 <= k < |top| ==> p[k] <= top[k])
    decreases |adds|
  {
    if adds != [] {
      var before, x := adds[..|adds| - 1], adds[|adds| - 1];
      PushedFacts(top, lowerBound, ef, before);
      var front := Pushed(top, lowerBound, ef, before);
      InsertSorted(front, x);
      forall c | c in top
        ensures c in Insert(front, x)
      {
        InsertHas(front, x, c);
      }
      forall k | 0 <= k < |top|
        ensures Insert(front, x)[k] <= top[k]
      {
        InsertLowers(front, x, k);
      }
    }
  }

  /** The bound of a full heap never rises. */
  lemma FullHeapBound(h: Heaps, adds: seq<int>)
    requires h.Valid() && |h.top| == h.ef
    ensures Merged(h, adds).lowerBound <= h.lowerBound
  {
    PushedFacts(h.top, h.lowerBound, h.ef, adds);
  }

  /** No candidate that was beyond the bound is within it afterwards. */
  lemma MergeLowersCands(h: Heaps, adds: seq<int>)
    requires h.Valid()
    ensures Merged(h, adds).Valid() && Merged(h, adds).Cands() <= h.Cands()
  {
    PushedFacts(h.top, h.lowerBound, h.ef, adds);
    var h1 := Merged(h, adds);
    forall i | 0 <= i < |h.candidates| && h.candidates[i] <= h1.lowerBound
      ensures h.candidates[i] <= h.lowerBound
    {
      assert h.candidates[i] in h.candidates;
      if |h.top| == h.ef {
        FullHeapBound(h, adds);
      }
    }
    WithinFalls(h.candidates, h.lowerBound, h1.lowerBound);
  }

  lemma {:induction false} PushedCounts(top: seq<int>, lowerBound: int, ef: nat, adds: seq<int>, x: int)
    ensures var p := Pushed(top, lowerBound, ef, adds);
            && Min(ef, |top| + |adds|) <= |p| <= |top| + |adds|
            && Times(p, x) <= Times(top, x) + Times(adds, x)
            && (Times(p, x) < Times(top, x) + Times(adds, x) ==> |p| >= ef && x >= lowerBound)
    decreases |adds|
  {
    if adds != [] {
      var before, y := adds[..|adds| - 1], adds[|adds| - 1];
      PushedCounts(top, lowerBound, ef, before, x);
      TimesFront(adds, x);
      InsertCounts(Pushed(top, lowerBound, ef, before), y, x);
    }
  }

  /** Another machine's results join: no candidate is touched, as many results as there is room for, and missing
      is only what is no nearer than all results or than the bound of before. */
  ghost predicate Joins(h0: Heaps, h: Heaps, adds: seq<int>) {
    && h.candidates == h0.candidates && h.ef == h0.ef && |h.top| == Min(h0.ef, |h0.top| + |adds|)
    && forall x :: Times(h.top, x) <= Times(h0.top + adds, x) &&
         (Times(h.top, x) < Times(h0.top + adds, x) ==> x >= h0.lowerBound || forall y :: y in h.top ==> y <= x)
  }

  lemma MergedJoins(h: Heaps, adds: seq<int>)
    requires h.Valid()
    ensures Joins(h, Merged(h, adds), adds)
  {
    var p := Pushed(h.top, h.lowerBound, h.ef, adds);
    PushedFacts(h.top, h.lowerBound, h.ef, adds);
    PushedCounts(h.top, h.lowerBound, h.ef, adds, 0);
    NearestIs(p, h.ef, p);
    var top := Nearest(p, h.ef);
    forall x
      ensures Times(top, x) <= Times(h.top + adds, x)
      ensures Times(top, x) < Times(h.top + adds, x) ==> x >= h.lowerBound || forall y :: y in top ==> y <= x
    {
      TimesConcat(h.top, adds, x);
      PushedCounts(h.top, h.lowerBound, h.ef, adds, x);
      assert Times(top, x) <= Times(p, x);
    }
  }

  /** update_sub_query's part for the heaps. */
  method UpdateSubQuery(h0: Heaps, adds: seq<int>) returns (h: Heaps)
    requires h0.Valid()
    ensures h == Merged(h0, adds) && h.Valid() && h.Cands() <= h0.Cands() && Joins(h0, h, adds)
  {
    MergeLowersCands(h0, adds);
    MergedJoins(h0, adds);
    var top := h0.top;
    for i := 0 to |adds|
      invariant top == Pushed(h0.top, h0.lowerBound, h0.ef, adds[..i])
    {
      assert adds[..i + 1][..i] == adds[..i];
      if |top| < h0.ef || adds[i] < h0.lowerBound {
        top := Insert(top, adds[i]);
      }
    }
    assert adds[..|adds|] == adds;
    top := PopTo(top, h0.ef);
    h := h0.(top := top, lowerBound := Bound(top, h0.lowerBound));
  }

  // ----- When the ef nearest are kept

  function InsertAll(s: seq<int>, adds: seq<int>): seq<int>
    decreases |adds|
  {
    if adds == [] then s else Insert(InsertAll(s, adds[..|adds| - 1]), adds[|adds| - 1])
  }

  /** The merged heap holds the ef nearest of the results and the additions. */
  predicate KeepsNearest(h: Heaps, adds: seq<int>) { Merged(h, adds).top == Nearest(InsertAll(h.top, adds), h.ef) }

  lemma {:induction false} RoomForAll(top: seq<int>, lowerBound: int, ef: nat, adds: seq<int>)
    requires |top| + |adds| <= ef
    ensures Pushed(top, lowerBound, ef, adds) == InsertAll(top, adds) && |InsertAll(top, adds)| == |top| + |adds|
    decreases |adds|
  {
    if adds != [] {
      RoomForAll(top, lowerBound, ef, adds[..|adds| - 1]);
    }
  }

  lemma {:induction false} InsertAllFacts(s: seq<int>, adds: seq<int>)
    requires Sorted(s)
    ensures var p := InsertAll(s, adds);
            Sorted(p) && |p| == |s| + |adds| && forall k :: 0 <= k < |s| ==> p[k] <= s[k]
    decreases |adds|
  {
    if adds != [] {
      InsertAllFacts(s, adds[..|adds| - 1]);
      var front, x := InsertAll(s, adds[..|adds| - 1]), adds[|adds| - 1];
      InsertSorted(front, x);
      forall k | 0 <= k < |s|
        ensures Insert(front, x)[k] <= s[k]
      {
        InsertLowers(front, x, k);
      }
    }
  }

  /** A full heap turns away only what is beyond its ef nearest anyway. */
  lemma {:induction false} FullHeapKeeps(h: Heaps, adds: seq<int>)
    requires h.Valid() && |h.top| == h.ef
    ensures Nearest(Pushed(h.top, h.lowerBound, h.ef, adds), h.ef) == Nearest(InsertAll(h.top, adds), h.ef)
    decreases |adds|
  {
    if adds != [] {
      var before, x := adds[..|adds| - 1], adds[|adds| - 1];
      FullHeapKeeps(h, before);
      var p, q := Pushed(h.top, h.lowerBound, h.ef, before), InsertAll(h.top, before);
      PushedFacts(h.top, h.lowerBound, h.ef, before);
      NearestInsert(p, x, h.ef);
      NearestInsert(q, x, h.ef);
      if x >= h.lowerBound {
        InsertAllFacts(h.top, before);
        InsertBeyond(q, x, h.ef);
      }
    }
  }

  /** Additions that are pushed as long as there is room though they are far away, and a nearer one that
      then is turned away by the bound of before. */
  function FarAway(h: Heaps, n: nat): seq<int> {
    seq(n, i => if |h.top| + i < h.ef then h.lowerBound + 2 else h.lowerBound + 1)
  }

  /** Whatever n additions are merged the ef nearest are kept, if and only if the heap is full before or has
      room for all of them. */
  lemma NearestKeptExactly(h: Heaps, n: nat)
    requires h.Valid()
    ensures (forall adds: seq<int> :: |adds| == n ==> KeepsNearest(h, adds)) <==> |h.top| == h.ef || |h.top| + n <= h.ef
  {
    if |h.top| == h.ef || |h.top| + n <= h.ef {
      forall adds: seq<int> | |adds| == n
        ensures KeepsNearest(h, adds)
      {
        if |h.top| == h.ef {
          FullHeapKeeps(h, adds);
        } else {
          RoomForAll(h.top, h.lowerBound, h.ef, adds);
        }
      }
    } else {
      NearerTurnedAway(h, n);
      assert |FarAway(h, n)| == n && !KeepsNearest(h, FarAway(h, n));
    }
  }

  lemma {:induction false} InsertAt(s: seq<int>, x: int, k: nat)
    requires Sorted(s) && k <= |s| && (k > 0 ==> s[k - 1] <= x)
    ensures Insert(s, x)[k] <= x
  {
    if s != [] && x > s[0] && k > 0 {
      InsertAt(s[1..], x, k - 1);
    }
  }

  lemma {:induction false} InsertLast(s: seq<int>, x: int)
    requires forall i :: 0 <= i < |s| ==> s[i] <= x
    requires Sorted(s)
    ensures Insert(s, x) == s + [x]
  {
    if s != [] {
      if x == s[0] {
        assert forall i :: 0 <= i < |s| ==> s[0] <= s[i] <= x;
      } else {
        InsertLast(s[1..], x);
      }
    }
  }

  /** The results with k far additions behind them. */
  function WithFar(h: Heaps, k: nat): seq<int> { h.top + seq(k, _ => h.lowerBound + 2) }

  /** Of the far additions only as many are pushed as there is room for, and no nearer one. */
  lemma {:induction false} FarPushed(h: Heaps, n: nat, i: nat)
    requires h.Valid() && |h.top| < h.ef && i <= n
    ensures Pushed(h.top, h.lowerBound, h.ef, FarAway(h, n)[..i]) ==
            WithFar(h, if |h.top| + i < h.ef then i else h.ef - |h.top|)
  {
    if i > 0 {
      var adds, j := FarAway(h, n), i - 1;
      FarPushed(h, n, j);
      assert adds[..i][..j] == adds[..j] && adds[..i][j] == adds[j];
      if |h.top| + j < h.ef {
        FarInserted(h, j, i);
      }
    }
  }

  lemma FarInserted(h: Heaps, k: nat, next: nat)
    requires h.Valid() && next == k + 1
    ensures Insert(WithFar(h, k), h.lowerBound + 2) == WithFar(h, next)
  {
    var p := WithFar(h, k);
    InsertLast(p, h.lowerBound + 2);
    assert p + [h.lowerBound + 2] == WithFar(h, next);
  }

  lemma NearerTurnedAway(h: Heaps, n: nat)
    requires h.Valid() && |h.top| < h.ef < |h.top| + n
    ensures !KeepsNearest(h, FarAway(h, n))
  {
    var adds, t := FarAway(h, n), |h.top|;
    FarPushed(h, n, n);
    assert adds[..n] == adds;
    assert Merged(h, adds).top[t] == h.lowerBound + 2;
    var front := InsertAll(h.top, adds[..n - 1]);
    InsertAllFacts(h.top, adds[..n - 1]);
    assert adds[n - 1] == h.lowerBound + 1;
    InsertAt(front, h.lowerBound + 1, t);
    assert InsertAll(h.top, adds)[t] <= h.lowerBound + 1;
    InsertAllFacts(h.top, adds);
  }

  // ----- The heaps of a forked sub-query

  /** A result of the search on the top index, and the machine that owns the vertex. */
  datatype Found = Found(dist: int, owner: nat)

  /** The machine a result is given to as a candidate: its owner if that is a core machine, else the leader. */
  function GivenTo(f: Found, core: seq<bool>, leader: nat): nat
    requires f.owner < |core|
  {
    if core[f.owner] then f.owner else leader
  }

  ghost predicate OwnersKnown(pre: seq<Found>, n: nat) { forall f :: f in pre ==> f.owner < n }

  function Dists(pre: seq<Found>): seq<int> { seq(|pre|, i requires 0 <= i < |pre| => pre[i].dist) }

  /** Those owned by machine m, the last first. */
  function Own(pre: seq<Found>, m: nat): seq<int> {
    if pre == [] then [] else Own(pre[1..], m) + if pre[0].owner == m then [pre[0].dist] else []
  }

  function Owned(pre: seq<Found>, n: nat): (r: seq<seq<int>>)
    ensures |r| == n
  {
    seq(n, m requires 0 <= m < n => Own(pre, m))
  }

  /** The lists of the machines below m that are not core machines. */
  function Others(lists: seq<seq<int>>, core: seq<bool>, m: nat): seq<int>
    requires m <= |core| == |lists|
  {
    if m == 0 then []
    else if core[m - 1] then Others(lists, core, m - 1)
    else Others(lists, core, m - 1) + lists[m - 1]
  }

  /** What is filtered for the core machines: their own, for the leader that of the others as well. */
  function Filtered(lists: seq<seq<int>>, core: seq<bool>, leader: nat): seq<seq<int>>
    requires leader < |core| == |lists|
  {
    lists[leader := lists[leader] + Others(lists, core, |core|)]
  }

  ghost function GivenCount(pre: seq<Found>, core: seq<bool>, leader: nat, m: nat, x: int): nat
    requires OwnersKnown(pre, |core|)
  {
    if pre == [] then 0
    else
      GivenCount(pre[1..], core, leader, m, x) +
      if GivenTo(pre[0], core, leader) == m && pre[0].dist == x then 1 else 0
  }

  lemma OwnCount(pre: seq<Found>, m: nat, x: int)
    requires pre != []
    ensures Times(Own(pre, m), x) ==
            Times(Own(pre[1..], m), x) + if pre[0].owner == m && pre[0].dist == x then 1 else 0
  {
    TimesConcat(Own(pre[1..], m), [pre[0].dist], x);
    assert Own(pre[1..], m) + [] == Own(pre[1..], m);
  }

  /** One list has one more x. */
  lemma {:induction false} OthersCount(a: seq<seq<int>>, b: seq<seq<int>>, core: seq<bool>, m: nat, x: int, o: nat, more: nat)
    requires m <= |core| == |a| == |b|
    requires forall q :: 0 <= q < |a| ==> Times(a[q], x) == Times(b[q], x) + if q == o then more else 0
    ensures Times(Others(a, core, m), x) == Times(Others(b, core, m), x) + if o < m && !core[o] then more else 0
  {
    if m > 0 {
      var j := m - 1;
      OthersCount(a, b, core, j, x, o, more);
      if !core[j] {
        TimesConcat(Others(a, core, j), a[j], x);
        TimesConcat(Others(b, core, j), b[j], x);
      }
    }
  }

  lemma {:induction false} OthersNone(lists: seq<seq<int>>, core: seq<bool>, m: nat)
    requires m <= |core| == |lists| && forall q :: 0 <= q < |lists| ==> lists[q] == []
    ensures Others(lists, core, m) == []
  {
    if m > 0 {
      OthersNone(lists, core, m - 1);
    }
  }

  lemma FilteredCount(lists: seq<seq<int>>, core: seq<bool>, leader: nat, m: nat, x: int)
    requires leader < |core| == |lists| && m < |core|
    ensures Times(Filtered(lists, core, leader)[m], x) ==
            Times(lists[m], x) + if m == leader then Times(Others(lists, core, |core|), x) else 0
  {
    TimesConcat(lists[leader], Others(lists, core, |core|), x);
  }

  lemma OwnedCounts(pre: seq<Found>, n: nat, x: int, more: nat)
    requires pre != [] && more == if pre[0].dist == x then 1 else 0
    ensures var lists, lists1 := Owned(pre, n), Owned(pre[1..], n);
            forall q :: 0 <= q < n ==> Times(lists[q], x) == Times(lists1[q], x) + if q == pre[0].owner then more else 0
  {
    forall q | 0 <= q < n
      ensures Times(Own(pre, q), x) == Times(Own(pre[1..], q), x) + if q == pre[0].owner then more else 0
    {
      OwnCount(pre, q, x);
    }
  }

  lemma FilteredOneMore(pre: seq<Found>, core: seq<bool>, leader: nat, m: nat, x: int)
    requires pre != [] && OwnersKnown(pre, |core|) && leader < |core| && core[leader] && m < |core| && core[m]
    ensures pre[0].owner < |core|
    ensures Times(Filtered(Owned(pre, |core|), core, leader)[m], x) ==
            Times(Filtered(Owned(pre[1..], |core|), core, leader)[m], x) +
            if GivenTo(pre[0], core, leader) == m && pre[0].dist == x then 1 else 0
  {
    var n := |core|;
    var lists, lists1 := Owned(pre, n), Owned(pre[1..], n);
    var more := if pre[0].dist == x then 1 else 0;
    assert pre[0] in pre;
    FilteredCount(lists, core, leader, m, x);
    FilteredCount(lists1, core, leader, m, x);
    OwnedCounts(pre, n, x, more);
    OthersCount(lists, lists1, core, n, x, pre[0].owner, more);
  }

  /** No result is lost or given away twice: a core machine's candidates are the results it owns, and with the
      leader those that no core machine owns. */
  lemma {:induction false} FilteredIsGiven(pre: seq<Found>, core: seq<bool>, leader: nat, m: nat, x: int)
    requires OwnersKnown(pre, |core|) && leader < |core| && core[leader] && m < |core| && core[m]
    ensures Times(Filtered(Owned(pre, |core|), core, leader)[m], x) == GivenCount(pre, core, leader, m, x)
  {
    if pre == [] {
      FilteredCount(Owned(pre, |core|), core, leader, m, x);
      OthersNone(Owned(pre, |core|), core, |core|);
    } else {
      assert forall f :: f in pre[1..] ==> f in pre;
      FilteredIsGiven(pre[1..], core, leader, m, x);
      FilteredOneMore(pre, core, leader, m, x);
    }
  }

  /** How often x is given to the core machines below n. */
  ghost function GivenToAll(pre: seq<Found>, core: seq<bool>, leader: nat, n: nat, x: int): nat
    requires OwnersKnown(pre, |core|) && n <= |core|
  {
    if n == 0 then 0
    else GivenToAll(pre, core, leader, n - 1, x) + if core[n - 1] then GivenCount(pre, core, leader, n - 1, x) else 0
  }

  lemma {:induction false} GivenToOne(pre: seq<Found>, core: seq<bool>, leader: nat, n: nat, x: int)
    requires pre != [] && OwnersKnown(pre, |core|) && n <= |core| && leader < |core| && core[leader]
    ensures OwnersKnown(pre[1..], |core|)
    ensures GivenToAll(pre, core, leader, n, x) ==
            GivenToAll(pre[1..], core, leader, n, x) +
            if GivenTo(pre[0], core, leader) < n && pre[0].dist == x then 1 else 0
  {
    assert pre[0] in pre && forall f :: f in pre[1..] ==> f in pre;
    if n > 0 {
      GivenToOne(pre, core, leader, n - 1, x);
    }
  }

  /** Every result is a candidate of exactly one core machine. */
  lemma {:induction false} EveryResultIsGiven(pre: seq<Found>, core: seq<bool>, leader: nat, x: int)
    requires OwnersKnown(pre, |core|) && leader < |core| && core[leader]
    ensures GivenToAll(pre, core, leader, |core|, x) == Times(Dists(pre), x)
  {
    if pre == [] {
      NoneGiven(core, leader, |core|, x);
    } else {
      GivenToOne(pre, core, leader, |core|, x);
      EveryResultIsGiven(pre[1..], core, leader, x);
      assert pre[0] in pre;
      assert Dists(pre) == [pre[0].dist] + Dists(pre[1..]);
      TimesConcat([pre[0].dist], Dists(pre[1..]), x);
    }
  }

  lemma {:induction false} NoneGiven(core: seq<bool>, leader: nat, n: nat, x: int)
    requires n <= |core|
    ensures GivenToAll([], core, leader, n, x) == 0
  {
    if n > 0 {
      NoneGiven(core, leader, n - 1, x);
    }
  }

  lemma {:induction false} GivenIsResult(pre: seq<Found>, core: seq<bool>, leader: nat, m: nat, c: int)
    requires OwnersKnown(pre, |core|) && GivenCount(pre, core, leader, m, c) > 0
    ensures c in Dists(pre)
  {
    if pre[0].dist == c {
      assert Dists(pre)[0] == c;
    } else {
      var rest := pre[1..];
      assert forall f :: f in rest ==> f in pre;
      GivenIsResult(rest, core, leader, m, c);
      var i :| 0 <= i < |rest| && Dists(rest)[i] == c;
      assert Dists(pre)[i + 1] == c;
    }
  }

  /** What belongs to other than core machines goes to the leader. */
  method Filter(lists: seq<seq<int>>, core: seq<bool>, leader: nat) returns (filtered: seq<seq<int>>)
    requires leader < |core| == |lists| && core[leader]
    ensures filtered == Filtered(lists, core, leader)
  {
    filtered := lists;
    var l := lists[leader];
    assert l + [] == l;
    for m := 0 to |core|
      invariant filtered == lists[leader := l + Others(lists, core, m)]
    {
      ghost var others := Others(lists, core, m);
      if !core[m] {
        assert l + others + lists[m] == l + (others + lists[m]);
        filtered := filtered[leader := filtered[leader] + filtered[m]];
      }
    }
  }

  /** The results are sorted by their owners. */
  method ByOwner(pre: seq<Found>, n: nat) returns (filtered: seq<seq<int>>)
    requires OwnersKnown(pre, n)
    ensures filtered == Owned(pre, n)
  {
    filtered := seq(n, _ => []);
    var i := |pre|;
    while i > 0
      invariant 0 <= i <= |pre| && |filtered| == n
      invariant forall m :: 0 <= m < n ==> filtered[m] == Own(pre[i..], m)
    {
      i := i - 1;
      assert pre[i] in pre && pre[i..][1..] == pre[i + 1..];
      filtered := filtered[pre[i].owner := filtered[pre[i].owner] + [pre[i].dist]];
    }
    assert pre[0..] == pre;
  }

  lemma {:induction false} InsertAllCounts(s: seq<int>, adds: seq<int>, y: int)
    ensures Times(InsertAll(s, adds), y) == Times(s, y) + Times(adds, y)
    decreases |adds|
  {
    if adds != [] {
      TimesFront(adds, y);
      InsertAllCounts(s, adds[..|adds| - 1], y);
      InsertCounts(InsertAll(s, adds[..|adds| - 1]), adds[|adds| - 1], y);
    }
  }

  /** The heaps a core machine starts with: all results, and its share of them as candidates. */
  method ForkedHeaps(pre: seq<Found>, core: seq<bool>, leader: nat, m: nat, lowerBound: int, ef: nat) returns (h: Heaps)
    requires OwnersKnown(pre, |core|) && leader < |core| && core[leader] && m < |core| && core[m]
    requires Sorted(Dists(pre)) && |pre| <= ef && lowerBound == Bound(Dists(pre), lowerBound)
    ensures h.Valid() && h.top == Dists(pre) && h.lowerBound == lowerBound && h.ef == ef
    ensures forall x :: Times(h.candidates, x) == GivenCount(pre, core, leader, m, x)
  {
    var lists := ByOwner(pre, |core|);
    var filtered := Filter(lists, core, leader);
    var candidates := [];
    var l := filtered[m];
    for i := 0 to |l|
      invariant candidates == InsertAll([], l[..i])
    {
      assert l[..i + 1][..i] == l[..i];
      candidates := Insert(candidates, l[i]);
    }
    assert l[..|l|] == l;
    InsertAllFacts([], l);
    h := Heaps(Dists(pre), candidates, lowerBound, ef);
    forall x
      ensures Times(candidates, x) == GivenCount(pre, core, leader, m, x)
    {
      InsertAllCounts([], l, x);
      FilteredIsGiven(pre, core, leader, m, x);
    }
    forall c | c in candidates
      ensures c in h.top
    {
      TimesIn(candidates, c);
      GivenIsResult(pre, core, leader, m, c);
    }
  }
}
