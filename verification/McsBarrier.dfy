/**
 The MCS tree barrier: a 4-ary arrival tree, a binary wake-up tree and sense reversal.

 Every thread runs `wait` as a sequence of atomic steps, one read or one write of a shared flag
 each.  `Step(s, i)` lets thread i take its next step; a schedule is any sequence of thread
 numbers, so a statement about all schedules is one about every interleaving and every number
 of episodes.
 */
module McsBarrier {

  type Slot = k: nat | k < 4
  type Flags = f: seq<bool> | |f| == 4 witness [false, false, false, false]

  /** Where a thread stands inside `wait`. */
  datatype Pc =
    | Outside                 // not inside wait
    | CheckChild(k: Slot)     // about to read childnotready[k]; 0..k-1 were read as false
    | ResetChild(k: Slot)     // about to write childnotready[k] := havechild[k]
    | SignalParent            // about to write false through parentpointer
    | AwaitParent             // about to compare parentsense with sense
    | WakeLeft                // about to write through childpointers[0]
    | WakeRight               // about to write through childpointers[1]
    | Flip                    // about to reverse sense and return

  /** One treenode.  `episode` counts the completed calls of wait; the code does not store it. */
  datatype Node = Node(childNotReady: Flags, parentSense: bool, sense: bool, pc: Pc, episode: nat)

  type State = seq<Node>

  function ArrivalChild(i: nat, k: Slot): nat { 4 * i + k + 1 }

  function ArrivalParent(c: nat): nat
    requires c > 0
  {
    (c - 1) / 4
  }

  function ArrivalSlot(c: nat): Slot
    requires c > 0
  {
    (c - 1) % 4
  }

  function WakeParent(c: nat): nat
    requires c > 0
  {
    (c - 1) / 2
  }

  predicate HaveChild(threads: nat, i: nat, k: Slot) { ArrivalChild(i, k) < threads }

  function InitNode(threads: nat, i: nat): Node {
    Node([HaveChild(threads, i, 0), HaveChild(threads, i, 1), HaveChild(threads, i, 2), HaveChild(threads, i, 3)],
         false, true, Outside, 0)
  }

  function Init(threads: nat): State { seq(threads, i requires 0 <= i => InitNode(threads, i)) }

  /** `_reinit`: fills the node array in place. */
  method Reinit(nodes: array<Node>)
    modifies nodes
    ensures nodes[..] == Init(nodes.Length)
  {
    for i := 0 to nodes.Length
      invariant forall j :: 0 <= j < i ==> nodes[j] == InitNode(nodes.Length, j)
    {
      var ready: Flags := [false, false, false, false];
      for j := 0 to 4
        invariant forall k: Slot :: k < j ==> ready[k] == HaveChild(nodes.Length, i, k)
      {
        ready := ready[j := 4 * i + j + 1 < nodes.Length];
      }
      assert ready == InitNode(nodes.Length, i).childNotReady;
      nodes[i] := Node(ready, false, true, Outside, 0);
    }
  }

  /** What the next atomic step of thread i does to its own node. */
  function OwnStep(threads: nat, i: nat, n: Node): Node {
    match n.pc
    case Outside => n.(pc := CheckChild(0))
    case CheckChild(k) =>
      if n.childNotReady[k] then n.(pc := CheckChild(0))
      else n.(pc := if k == 3 then ResetChild(0) else CheckChild(k + 1))
    case ResetChild(k) =>
      n.(childNotReady := n.childNotReady[k := HaveChild(threads, i, k)],
         pc := if k == 3 then SignalParent else ResetChild(k + 1))
    case SignalParent => n.(pc := if i == 0 then WakeLeft else AwaitParent)
    case AwaitParent => if n.parentSense == n.sense then n.(pc := WakeLeft) else n
    case WakeLeft => n.(pc := WakeRight)
    case WakeRight => n.(pc := Flip)
    case Flip => n.(sense := !n.sense, pc := Outside, episode := n.episode + 1)
  }

  /** What the same step writes into another node j, through parentpointer or childpointers. */
  function PointerWrite(i: nat, n: Node, j: nat, m: Node): Node {
    if n.pc.SignalParent? && i > 0 && j == ArrivalParent(i) then
      m.(childNotReady := m.childNotReady[ArrivalSlot(i) := false])
    else if (n.pc.WakeLeft? && j == 2 * i + 1) || (n.pc.WakeRight? && j == 2 * i + 2) then
      m.(parentSense := n.sense)
    else m
  }

  /** The next atomic step of thread i. */
  function Step(s: State, i: nat): State
    requires i < |s|
  {
    seq(|s|, j requires 0 <= j < |s| =>
      if j == i then OwnStep(|s|, i, s[i]) else PointerWrite(i, s[i], j, s[j]))
  }

  predicate IsSchedule(threads: nat, schedule: seq<nat>) {
    forall k :: 0 <= k < |schedule| ==> schedule[k] < threads
  }

  function Run(threads: nat, schedule: seq<nat>): (s: State)
    requires IsSchedule(threads, schedule)
    ensures |s| == threads
  {
    if schedule == [] then Init(threads)
    else
      var s := Run(threads, schedule[..|schedule| - 1]);
      Step(s, schedule[|schedule| - 1])
  }

  // ----- How often each point of wait has been passed

  function Entered(n: Node): nat { n.episode + if n.pc.Outside? then 0 else 1 }

  function Resets(n: Node, k: Slot): nat {
    n.episode + if n.pc.Outside? || n.pc.CheckChild? || (n.pc.ResetChild? && n.pc.k <= k) then 0 else 1
  }

  function Arrived(n: Node): nat {
    n.episode + if n.pc.AwaitParent? || n.pc.WakeLeft? || n.pc.WakeRight? || n.pc.Flip? then 1 else 0
  }

  function Released(n: Node): nat {
    n.episode + if n.pc.WakeLeft? || n.pc.WakeRight? || n.pc.Flip? then 1 else 0
  }

  /** How often the wake-up parent of c has written c's parentsense. */
  function Told(s: State, c: nat): nat
    requires 0 < c < |s|
  {
    var w := s[WakeParent(c)];
    w.episode + if w.pc.Flip? || (w.pc.WakeRight? && c % 2 == 1) then 1 else 0
  }

  // ----- The invariant

  /** A flag is up exactly when the child's next arrival is still to come. */
  ghost predicate FlagOk(n: Node, k: Slot, child: Node) {
    && Resets(n, k) <= Arrived(child) <= Resets(n, k) + 1
    && n.childNotReady[k] == (Arrived(child) == Resets(n, k))
  }

  ghost predicate ArrivalOk(s: State, i: nat, k: Slot)
    requires i < |s|
  {
    var c := ArrivalChild(i, k);
    if c < |s| then FlagOk(s[i], k, s[c]) else !s[i].childNotReady[k]
  }

  ghost predicate SenseOk(n: Node) {
    && n.sense == (n.episode % 2 == 0)
    && (n.pc.CheckChild? ==> forall k: Slot :: k < n.pc.k ==> !n.childNotReady[k])
    && (n.pc.ResetChild? ==> forall k: Slot :: k >= n.pc.k ==> !n.childNotReady[k])
  }

  ghost predicate WakeOk(s: State, c: nat)
    requires c < |s|
  {
    if c == 0 then !s[c].pc.AwaitParent?
    else
      && Released(s[c]) <= Told(s, c)
      && s[c].parentSense == (Told(s, c) % 2 == 1)
  }

  ghost predicate Inv(s: State) {
    && (forall i :: 0 <= i < |s| ==> SenseOk(s[i]))
    && (forall i, k: Slot :: 0 <= i < |s| ==> ArrivalOk(s, i, k))
    && (forall i :: 0 <= i < |s| ==> WakeOk(s, i))
  }

  // ----- The two trees

  /** Induction over the wake-up tree: nobody is released before the root. */
  lemma {:induction false} ReleasedAfterRoot(s: State, i: nat)
    requires Inv(s) && i < |s|
    ensures Released(s[i]) <= Released(s[0])
    decreases i
  {
    if i > 0 {
      assert WakeOk(s, i);
      ReleasedAfterRoot(s, WakeParent(i));
    }
  }

  /** Induction over the arrival tree: the root arrives last. */
  lemma {:induction false} RootArrivesLast(s: State, j: nat)
    requires Inv(s) && j < |s|
    ensures Arrived(s[0]) <= Arrived(s[j])
    decreases j
  {
    if j > 0 {
      var p, k := ArrivalParent(j), ArrivalSlot(j);
      assert ArrivalChild(p, k) == j;
      assert ArrivalOk(s, p, k);
      RootArrivesLast(s, p);
    }
  }

  /** What ties the trees together: releases never run ahead of arrivals. */
  lemma ReleasesFollowArrivals(s: State, i: nat, j: nat)
    requires Inv(s) && i < |s| && j < |s|
    ensures Released(s[i]) <= Arrived(s[j])
  {
    ReleasedAfterRoot(s, i);
    RootArrivesLast(s, j);
    assert WakeOk(s, 0);
  }

  lemma InitHolds(threads: nat)
    ensures Inv(Init(threads))
  {
    var s := Init(threads);
    forall i, k: Slot | 0 <= i < |s|
      ensures ArrivalOk(s, i, k)
    {
      assert s[i] == InitNode(threads, i);
    }
  }

  lemma StepKeepsSense(s: State, i: nat, j: nat)
    requires i < |s| && j < |s|
    requires SenseOk(s[i]) && SenseOk(s[j])
    ensures SenseOk(Step(s, i)[j])
  {
  }

  lemma ParentStepKeepsFlag(threads: nat, i: nat, n: Node, k: Slot, child: Node)
    requires SenseOk(n) && FlagOk(n, k, child) && HaveChild(threads, i, k)
    ensures FlagOk(OwnStep(threads, i, n), k, child)
  {
  }

  lemma ChildStepKeepsFlag(threads: nat, c: nat, child: Node, n: Node, k: Slot)
    requires c > 0 && k == ArrivalSlot(c)
    requires FlagOk(n, k, child) && Released(child) <= Arrived(n)
    ensures FlagOk(PointerWrite(c, child, ArrivalParent(c), n), k, OwnStep(threads, c, child))
  {
  }

  lemma StepKeepsArrival(s: State, i: nat, j: nat, k: Slot)
    requires i < |s| && j < |s|
    requires SenseOk(s[i]) && ArrivalOk(s, j, k)
    requires ArrivalChild(j, k) < |s| ==> Released(s[ArrivalChild(j, k)]) <= Arrived(s[j])
    ensures ArrivalOk(Step(s, i), j, k)
  {
    var c := ArrivalChild(j, k);
    var t := Step(s, i);
    assert c > 0 && ArrivalParent(c) == j && ArrivalSlot(c) == k;
    if c < |s| {
      if i == j {
        ParentStepKeepsFlag(|s|, i, s[i], k, s[c]);
        assert FlagOk(t[j], k, s[c]);
      } else if i == c {
        ChildStepKeepsFlag(|s|, c, s[c], s[j], k);
      } else {
        PointerWriteElsewhere(i, s[i], j, s[j], k);
      }
    }
  }

  lemma PointerWriteElsewhere(i: nat, n: Node, j: nat, m: Node, k: Slot)
    requires i != j && i != ArrivalChild(j, k)
    ensures PointerWrite(i, n, j, m).childNotReady[k] == m.childNotReady[k]
  {
    if i > 0 {
      assert i == 4 * ArrivalParent(i) + ArrivalSlot(i) + 1;
    }
  }

  lemma StepKeepsWake(s: State, i: nat, c: nat)
    requires i < |s| && c < |s|
    requires SenseOk(s[i]) && SenseOk(s[c]) && WakeOk(s, c)
    requires c > 0 ==> Released(s[WakeParent(c)]) <= Arrived(s[c])
    ensures WakeOk(Step(s, i), c)
  {
    var t := Step(s, i);
    if c > 0 {
      var w := WakeParent(c);
      assert c == 2 * w + 1 || c == 2 * w + 2;
      if i == w {
        assert t[w] == OwnStep(|s|, w, s[w]);
        assert t[c] == PointerWrite(w, s[w], c, s[c]);
        assert Released(t[c]) == Released(s[c]);
      } else if i == c {
        assert Told(t, c) == Told(s, c);
      } else {
        assert Told(t, c) == Told(s, c);
        assert t[c].parentSense == s[c].parentSense;
      }
    }
  }

  lemma StepKeepsInv(s: State, i: nat)
    requires Inv(s) && i < |s|
    ensures Inv(Step(s, i))
  {
    var t := Step(s, i);
    forall j | 0 <= j < |t|
      ensures SenseOk(t[j])
    {
      StepKeepsSense(s, i, j);
    }
    forall j, k: Slot | 0 <= j < |t|
      ensures ArrivalOk(t, j, k)
    {
      if ArrivalChild(j, k) < |s| {
        ReleasesFollowArrivals(s, ArrivalChild(j, k), j);
      }
      StepKeepsArrival(s, i, j, k);
    }
    forall j | 0 <= j < |t|
      ensures WakeOk(t, j)
    {
      if j > 0 {
        ReleasesFollowArrivals(s, WakeParent(j), j);
      }
      StepKeepsWake(s, i, j);
    }
  }

  lemma {:induction false} RunKeepsInv(threads: nat, schedule: seq<nat>)
    requires IsSchedule(threads, schedule)
    ensures Inv(Run(threads, schedule))
    decreases |schedule|
  {
    if schedule == [] {
      InitHolds(threads);
    } else {
      RunKeepsInv(threads, schedule[..|schedule| - 1]);
      StepKeepsInv(Run(threads, schedule[..|schedule| - 1]), schedule[|schedule| - 1]);
    }
  }

  // ----- Main results

  /** Safety: a thread that has left wait e times leaves behind nobody who has not entered e times. */
  lemma BarrierSafety(threads: nat, schedule: seq<nat>, i: nat, j: nat)
    requires IsSchedule(threads, schedule)
    requires i < threads && j < threads
    ensures Run(threads, schedule)[i].episode <= Entered(Run(threads, schedule)[j])
  {
    RunKeepsInv(threads, schedule);
    ReleasesFollowArrivals(Run(threads, schedule), i, j);
  }

  /** A reset of childnotready[k] erases the arrival of this episode and never one of the next. */
  lemma ResetErasesNoArrival(threads: nat, schedule: seq<nat>, i: nat)
    requires IsSchedule(threads, schedule)
    requires i < threads && Run(threads, schedule)[i].pc.ResetChild?
    ensures var s := Run(threads, schedule);
            var c := ArrivalChild(i, s[i].pc.k);
            c < threads ==> !s[i].childNotReady[s[i].pc.k] && Arrived(s[c]) == s[i].episode + 1
  {
    RunKeepsInv(threads, schedule);
    var s := Run(threads, schedule);
    assert SenseOk(s[i]);
    assert ArrivalOk(s, i, s[i].pc.k);
  }

  /** When a wake-up parent is about to write parentsense, the child has acted on every earlier
      write and is waiting for exactly this one. */
  lemma WakeUpNeverOvertaken(threads: nat, schedule: seq<nat>, c: nat)
    requires IsSchedule(threads, schedule)
    requires 0 < c < threads
    requires var w := Run(threads, schedule)[WakeParent(c)];
             if c % 2 == 1 then w.pc.WakeLeft? else w.pc.WakeRight?
    ensures var s := Run(threads, schedule);
            && s[c].pc.AwaitParent?
            && s[c].episode == s[WakeParent(c)].episode
            && s[c].parentSense != s[c].sense
            && Step(s, WakeParent(c))[c].parentSense == s[c].sense
  {
    RunKeepsInv(threads, schedule);
    var s := Run(threads, schedule);
    ReleasesFollowArrivals(s, WakeParent(c), c);
    assert WakeOk(s, c) && SenseOk(s[c]) && SenseOk(s[WakeParent(c)]);
  }

  // ----- Progress

  /** Thread i can leave the loop it spins in, or is not in one. */
  ghost predicate CanAdvance(s: State, i: nat)
    requires i < |s|
  {
    var n := s[i];
    && (n.pc.CheckChild? ==> forall k: Slot :: !n.childNotReady[k])
    && (n.pc.AwaitParent? ==> n.parentSense == n.sense)
  }

  /** If nobody can advance then all threads are in the same episode (down the wake-up tree). */
  lemma {:induction false} StuckInOneEpisode(s: State, i: nat)
    requires Inv(s) && i < |s|
    requires forall j :: 0 <= j < |s| ==> !s[j].pc.Outside? && !CanAdvance(s, j)
    ensures s[i].episode == s[0].episode
    decreases i
  {
    if i > 0 {
      var w := WakeParent(i);
      StuckInOneEpisode(s, w);
      assert WakeOk(s, i) && SenseOk(s[i]);
      assert !CanAdvance(s, w) && !CanAdvance(s, i);
      ReleasesFollowArrivals(s, w, i);
    }
  }

  /** If nobody can advance then a checking thread waits for a checking child (down the arrival
      tree), which cannot go on for ever. */
  lemma {:induction false} StuckIsImpossibleBelow(s: State, i: nat)
    requires Inv(s) && i < |s| && s[i].pc.CheckChild?
    requires forall j :: 0 <= j < |s| ==> !s[j].pc.Outside? && !CanAdvance(s, j)
    ensures false
    decreases |s| - i
  {
    assert !CanAdvance(s, i);
    var k: Slot :| s[i].childNotReady[k];
    assert ArrivalOk(s, i, k);
    var c := ArrivalChild(i, k);
    StuckInOneEpisode(s, i);
    StuckInOneEpisode(s, c);
    assert !CanAdvance(s, c);
    StuckIsImpossibleBelow(s, c);
  }

  /** Deadlock freedom: once all threads are inside wait, some thread is not blocked. */
  lemma BarrierProgress(threads: nat, schedule: seq<nat>)
    requires IsSchedule(threads, schedule)
    requires threads > 0
    requires forall j :: 0 <= j < threads ==> !Run(threads, schedule)[j].pc.Outside?
    ensures exists i :: 0 <= i < threads && CanAdvance(Run(threads, schedule), i)
  {
    RunKeepsInv(threads, schedule);
    var s := Run(threads, schedule);
    if forall i :: 0 <= i < threads ==> !CanAdvance(s, i) {
      assert WakeOk(s, 0);
      assert !CanAdvance(s, 0);
      StuckIsImpossibleBelow(s, 0);
    }
  }

  // ----- How long it takes

  /** Steps a thread has taken in its episode, not counting those in which it spins. */
  function Within(n: Node): nat {
    match n.pc
    case Outside => 0
    case CheckChild(k) => if forall j: Slot :: !n.childNotReady[j] then 1 + k else 1
    case ResetChild(k) => 5 + k
    case SignalParent => 9
    case AwaitParent => 10
    case WakeLeft => 11
    case WakeRight => 12
    case Flip => 13
  }

  function Position(n: Node): nat { 14 * n.episode + Within(n) }

  function Positions(s: State, m: nat): nat
    requires m <= |s|
  {
    if m == 0 then 0 else Positions(s, m - 1) + Position(s[m - 1])
  }

  /** How many steps of the schedule were taken by threads that did not spin. */
  ghost function Advances(threads: nat, schedule: seq<nat>): nat
    requires IsSchedule(threads, schedule)
  {
    if schedule == [] then 0
    else
      var front, i := schedule[..|schedule| - 1], schedule[|schedule| - 1];
      Advances(threads, front) + if CanAdvance(Run(threads, front), i) then 1 else 0
  }

  lemma OwnStepAdvances(s: State, i: nat)
    requires i < |s|
    ensures Position(Step(s, i)[i]) >= Position(s[i]) + if CanAdvance(s, i) then 1 else 0
  {
  }

  lemma OtherKeepsPosition(s: State, i: nat, j: nat)
    requires i < |s| && j < |s| && i != j
    ensures Position(Step(s, i)[j]) >= Position(s[j])
  {
    var m, m1 := s[j], Step(s, i)[j];
    assert m1.pc == m.pc && m1.episode == m.episode;
    assert forall k: Slot :: m1.childNotReady[k] ==> m.childNotReady[k];
  }

  lemma {:induction false} StepRaises(s: State, i: nat, m: nat)
    requires i < |s| && m <= |s|
    ensures Positions(Step(s, i), m) >= Positions(s, m) + if i < m && CanAdvance(s, i) then 1 else 0
  {
    if m > 0 {
      var j := m - 1;
      StepRaises(s, i, j);
      if i == j {
        OwnStepAdvances(s, i);
      } else {
        OtherKeepsPosition(s, i, j);
      }
    }
  }

  lemma OneMoreStep(threads: nat, schedule: seq<nat>, front: seq<nat>, i: nat)
    requires IsSchedule(threads, schedule) && IsSchedule(threads, front) && i < threads && schedule == front + [i]
    ensures Run(threads, schedule) == Step(Run(threads, front), i)
    ensures Advances(threads, schedule) == Advances(threads, front) + if CanAdvance(Run(threads, front), i) then 1 else 0
  {
    assert schedule[..|schedule| - 1] == front && schedule[|schedule| - 1] == i;
  }

  lemma EpisodesGrow(s: State, i: nat)
    requires i < |s|
    ensures forall j :: 0 <= j < |s| ==> s[j].episode <= Step(s, i)[j].episode
  {
  }

  lemma NextRaises(threads: nat, schedule: seq<nat>, front: seq<nat>, i: nat)
    requires IsSchedule(threads, schedule) && IsSchedule(threads, front) && i < threads && schedule == front + [i]
    ensures Positions(Run(threads, schedule), threads) + Advances(threads, front) >=
            Positions(Run(threads, front), threads) + Advances(threads, schedule)
    ensures forall j :: 0 <= j < threads ==> Run(threads, front)[j].episode <= Run(threads, schedule)[j].episode
  {
    OneMoreStep(threads, schedule, front, i);
    StepRaises(Run(threads, front), i, threads);
    EpisodesGrow(Run(threads, front), i);
  }

  /** Positions grow at least as fast as counted steps. */
  lemma {:induction false} StretchRaises(threads: nat, schedule: seq<nat>, more: seq<nat>, whole: seq<nat>)
    requires IsSchedule(threads, schedule) && IsSchedule(threads, whole) && whole == schedule + more
    ensures Positions(Run(threads, whole), threads) + Advances(threads, schedule) >=
            Positions(Run(threads, schedule), threads) + Advances(threads, whole)
    ensures forall i :: 0 <= i < threads ==> Run(threads, schedule)[i].episode <= Run(threads, whole)[i].episode
    decreases |more|
  {
    if more == [] {
      assert whole == schedule;
    } else {
      var front, i := more[..|more| - 1], more[|more| - 1];
      var before := schedule + front;
      assert whole == before + [i];
      assert whole[|before|] == i && forall k :: 0 <= k < |before| ==> before[k] == whole[k];
      NextRaises(threads, whole, before, i);
      StretchRaises(threads, schedule, front, before);
    }
  }

  lemma {:induction false} PositionsBelow(s: State, m: nat, low: int)
    requires m <= |s| && forall i :: 0 <= i < |s| ==> low <= Position(s[i])
    ensures low * m <= Positions(s, m)
  {
    if m > 0 {
      PositionsBelow(s, m - 1, low);
      assert low * m == low * (m - 1) + low;
    }
  }

  lemma {:induction false} PositionsAbove(s: State, m: nat, high: nat)
    requires m <= |s| && forall i :: 0 <= i < |s| ==> Position(s[i]) <= high
    ensures Positions(s, m) <= high * m
  {
    if m > 0 {
      PositionsAbove(s, m - 1, high);
      assert high * m == high * (m - 1) + high;
    }
  }

  /** A thread that has not left wait in a stretch has held back all the others. */
  lemma HeldBack(threads: nat, schedule: seq<nat>, more: seq<nat>, j: nat)
    requires IsSchedule(threads, schedule) && IsSchedule(threads, schedule + more) && j < threads
    requires Run(threads, schedule + more)[j].episode == Run(threads, schedule)[j].episode
    ensures Advances(threads, schedule + more) <= Advances(threads, schedule) + 41 * threads
  {
    var s, t := Run(threads, schedule), Run(threads, schedule + more);
    var e := s[j].episode;
    forall i | 0 <= i < threads
      ensures 14 * e - 14 <= Position(s[i])
    {
      BarrierSafety(threads, schedule, j, i);
    }
    forall i | 0 <= i < threads
      ensures Position(t[i]) <= 14 * e + 27
    {
      BarrierSafety(threads, schedule + more, i, j);
    }
    PositionsBelow(s, threads, 14 * e - 14);
    PositionsAbove(t, threads, 14 * e + 27);
    StretchRaises(threads, schedule, more, schedule + more);
    assert (14 * e + 27) * threads - (14 * e - 14) * threads == 41 * threads;
  }

  /** However the threads are interleaved, in any stretch of the schedule with more than 41 steps for each
      thread, steps of spinning threads not counted, every thread leaves wait. */
  lemma EveryoneLeaves(threads: nat, schedule: seq<nat>, more: seq<nat>, j: nat)
    requires IsSchedule(threads, schedule) && IsSchedule(threads, schedule + more) && j < threads
    requires Advances(threads, schedule + more) > Advances(threads, schedule) + 41 * threads
    ensures Run(threads, schedule + more)[j].episode > Run(threads, schedule)[j].episode
  {
    StretchRaises(threads, schedule, more, schedule + more);
    if Run(threads, schedule + more)[j].episode == Run(threads, schedule)[j].episode {
      HeldBack(threads, schedule, more, j);
    }
  }

  /** ... and there always is a thread whose next step is counted. */
  lemma SomeoneAdvances(threads: nat, schedule: seq<nat>) returns (i: nat)
    requires IsSchedule(threads, schedule) && threads > 0
    ensures i < threads && CanAdvance(Run(threads, schedule), i)
  {
    var s := Run(threads, schedule);
    if j :| 0 <= j < threads && s[j].pc.Outside? {
      i := j;
    } else {
      BarrierProgress(threads, schedule);
      i :| 0 <= i < threads && CanAdvance(s, i);
    }
  }
}
