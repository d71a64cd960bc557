/**
 The thread pool's wake-up tree.  A thread is woken with a range of other threads to wake; it hands the
 front half to the first of them and the back half to the first of that half, does the work, waits for
 both and reports done.  Every step below is one thread's next access to the shared signals, so a run is
 any interleaving of them.
 */
module ThreadPool {

  /** Idle: in `wait`, or for thread 0 outside of `mainThread`. */
  datatype Pc = Idle | Split | WakeLeft | SplitRight | WakeRight | Work | AwaitLeft | AwaitRight | Report

  /** A thread's signal and place.  `worked` counts the executions of the work in this run, `level` the
      wake-ups between thread 0 and this thread. */
  datatype Thread = Thread(pc: Pc, wbegin: nat, wend: nat, done: bool, worked: nat, level: nat)

  type State = seq<Thread>

  function Midpoint(wbegin: nat, wend: nat): nat
    requires wbegin <= wend
  {
    wbegin + (1 + wend - wbegin) / 2
  }

  function Initial(maxThreads: nat): State {
    seq(maxThreads, _ => Thread(Idle, 0, 0, true, 0, 0))
  }

  // ----- Steps

  function At(s: State, t: nat, pc: Pc): State
    requires t < |s|
  {
    s[t := s[t].(pc := pc)]
  }

  /** The range of child c. */
  function SetRange(s: State, c: nat, wbegin: nat, wend: nat, level: nat): State {
    if c < |s| then s[c := s[c].(wbegin := wbegin, wend := wend, level := level)] else s
  }

  function WakeUp(s: State, c: nat): State {
    if c < |s| then s[c := s[c].(done := false)] else s
  }

  predicate Done(s: State, c: nat) { c < |s| && s[c].done }

  /** mainThread(num) may be called when it is not running. */
  predicate MayBegin(s: State, num: nat) { 1 <= num <= |s| && s[0].pc == Idle }

  function Begin(s: State, num: nat): (r: State)
    requires MayBegin(s, num)
    ensures |r| == |s|
  {
    var s0 := seq(|s|, i requires 0 <= i < |s| => s[i].(worked := 0));
    s0[0 := s0[0].(pc := Split, wbegin := 1, wend := num, level := 0)]
  }

  /** Thread t can take a step: the others spin on a flag or wait for a wake-up. */
  predicate Enabled(s: State, t: nat) {
    && t < |s| && s[t].wbegin <= s[t].wend
    && var x := s[t];
       match x.pc
       case Idle => t > 0 && !x.done
       case AwaitLeft => x.wbegin == x.wend || Done(s, x.wbegin)
       case AwaitRight => Midpoint(x.wbegin, x.wend) == x.wend || Done(s, Midpoint(x.wbegin, x.wend))
       case _ => true
  }

  function Step(s: State, t: nat): (r: State)
    requires Enabled(s, t)
    ensures |r| == |s|
  {
    var x := s[t];
    var mid := Midpoint(x.wbegin, x.wend);
    match x.pc
    case Idle => At(s, t, Split)
    case Split =>
      if x.wbegin == x.wend then At(s, t, Work)
      else At(SetRange(s, x.wbegin, x.wbegin + 1, mid, x.level + 1), t, WakeLeft)
    case WakeLeft => At(WakeUp(s, x.wbegin), t, SplitRight)
    case SplitRight =>
      if mid < x.wend then At(SetRange(s, mid, mid + 1, x.wend, x.level + 1), t, WakeRight)
      else At(s, t, Work)
    case WakeRight => At(WakeUp(s, mid), t, Work)
    case Work => s[t := x.(worked := x.worked + 1, pc := AwaitLeft)]
    case AwaitLeft => At(s, t, if x.wbegin == x.wend then Report else AwaitRight)
    case AwaitRight => At(s, t, Report)
    case Report => s[t := x.(done := true, pc := Idle)]
  }

  // ----- The code of a cascade

  /** A thread's signal. */
  class ThdSignal {
    var wbegin: nat
    var wend: nat
    var done: bool

    method WakeUp()
      modifies `done
      ensures !done
    {
      done := false;
    }
  }

  ghost predicate Shows(signals: seq<ThdSignal>, s: State)
    reads signals
  {
    && |signals| == |s|
    && (forall i, j :: 0 <= i < j < |signals| ==> signals[i] != signals[j])
    && forall i :: 0 <= i < |s| ==>
         signals[i].wbegin == s[i].wbegin && signals[i].wend == s[i].wend && signals[i].done == s[i].done
  }

  /** s after k steps of thread t and of no other, as far as it can step. */
  function Alone(s: State, t: nat, k: nat): (r: State)
    requires t < |s|
    ensures |r| == |s|
    decreases k
  {
    if k == 0 || !Enabled(s, t) then s else Alone(Step(s, t), t, k - 1)
  }

  /** A range and a wake-up for child c. */
  method HandOver(signals: seq<ThdSignal>, c: nat, wbegin: nat, wend: nat, ghost s: State, ghost level: nat)
    requires Shows(signals, s) && c < |s|
    modifies signals[c]
    ensures Shows(signals, WakeUp(SetRange(s, c, wbegin, wend, level), c))
  {
    signals[c].wbegin, signals[c].wend := wbegin, wend;
    signals[c].WakeUp();
  }

  lemma AloneTwice(s: State, t: nat)
    requires t < |s| && Enabled(s, t) && Enabled(Step(s, t), t)
    ensures Alone(s, t, 2) == Step(Step(s, t), t)
  {
    assert Alone(s, t, 2) == Alone(Step(s, t), t, 1) == Alone(Step(Step(s, t), t), t, 0);
  }

  lemma TwoStepsLeft(s: State, t: nat)
    requires t < |s| && s[t].pc == Split && t < s[t].wbegin < s[t].wend <= |s|
    ensures var x := s[t];
            var child := SetRange(s, x.wbegin, x.wbegin + 1, Midpoint(x.wbegin, x.wend), x.level + 1);
            Alone(s, t, 2) == At(WakeUp(child, x.wbegin), t, SplitRight)
  {
    var s1 := Step(s, t);
    assert Enabled(s1, t);
    AloneTwice(s, t);
  }

  lemma TwoStepsRight(s: State, t: nat)
    requires t < |s| && s[t].pc == SplitRight && t < s[t].wbegin < s[t].wend <= |s|
    requires Midpoint(s[t].wbegin, s[t].wend) < s[t].wend
    ensures var x := s[t];
            var mid := Midpoint(x.wbegin, x.wend);
            var child := SetRange(s, mid, mid + 1, x.wend, x.level + 1);
            Alone(s, t, 2) == At(WakeUp(child, mid), t, Work)
  {
    var s1 := Step(s, t);
    assert Enabled(s1, t);
    AloneTwice(s, t);
  }

  lemma {:induction false} AloneAdds(s: State, t: nat, j: nat, k: nat)
    requires t < |s|
    ensures Alone(Alone(s, t, j), t, k) == Alone(s, t, j + k)
    decreases j
  {
    if j > 0 && Enabled(s, t) {
      AloneAdds(Step(s, t), t, j - 1, k);
    } else if j > 0 {
      assert Alone(s, t, k) == s;
    }
  }

  /** The front half of a cascade ... */
  method CascadeLeft(signals: seq<ThdSignal>, t: nat, wbegin: nat, wend: nat, ghost s: State)
    requires Shows(signals, s) && t < |s| && s[t].pc == Split && t < wbegin < wend <= |s|
    requires wbegin == s[t].wbegin && wend == s[t].wend
    modifies signals
    ensures var s1 := Alone(s, t, 2); s1[t] == s[t].(pc := SplitRight) && Shows(signals, s1)
  {
    HandOver(signals, wbegin, wbegin + 1, Midpoint(wbegin, wend), s, s[t].level + 1);
    TwoStepsLeft(s, t);
  }

  /** ... and the back half, if it is not empty. */
  method CascadeRight(signals: seq<ThdSignal>, t: nat, wbegin: nat, wend: nat, ghost s: State) returns (ghost k: nat)
    requires Shows(signals, s) && t < |s| && s[t].pc == SplitRight && t < wbegin < wend <= |s|
    requires wbegin == s[t].wbegin && wend == s[t].wend
    modifies signals
    ensures Alone(s, t, k)[t].pc == Work && Shows(signals, Alone(s, t, k))
  {
    var midpoint := Midpoint(wbegin, wend);
    if midpoint < wend {
      HandOver(signals, midpoint, midpoint + 1, wend, s, s[t].level + 1);
      TwoStepsRight(s, t);
      k := 2;
    } else {
      assert Alone(s, t, 1) == Step(s, t);
      k := 1;
    }
  }

  /** cascade() of thread t, undisturbed, takes it from the split to the work in the steps above. */
  method Cascade(signals: seq<ThdSignal>, t: nat, ghost s: State) returns (ghost k: nat)
    requires Shows(signals, s) && t < |s| && s[t].pc == Split && t < s[t].wbegin <= s[t].wend <= |s|
    modifies signals
    ensures Alone(s, t, k)[t].pc == Work && Shows(signals, Alone(s, t, k))
  {
    var wbegin, wend := signals[t].wbegin, signals[t].wend;
    if wbegin == wend {
      assert Alone(s, t, 1) == Step(s, t);
      k := 1;
    } else {
      CascadeLeft(signals, t, wbegin, wend, s);
      ghost var j := CascadeRight(signals, t, wbegin, wend, Alone(s, t, 2));
      AloneAdds(s, t, 2, j);
      k := 2 + j;
    }
  }

  // ----- Sizes of ranges

  function Log2(n: nat): nat { if n <= 1 then 0 else 1 + Log2(n / 2) }

  function Pow2(k: nat): nat { if k == 0 then 1 else 2 * Pow2(k - 1) }

  /** Log2 is the integer logarithm. */
  lemma {:induction false} Log2Bounds(n: nat)
    requires n > 0
    ensures Pow2(Log2(n)) <= n < 2 * Pow2(Log2(n))
  {
    if n > 1 {
      Log2Bounds(n / 2);
    }
  }

  lemma {:induction false} Pow2Monotone(a: nat, b: nat)
    requires a <= b
    ensures Pow2(a) <= Pow2(b)
    decreases b
  {
    if a < b {
      Pow2Monotone(a, b - 1);
    }
  }

  /** At most the integer logarithm of n. */
  lemma WithinLog2(k: nat, n: nat)
    requires n > 0 && k <= Log2(n)
    ensures Pow2(k) <= n
  {
    Log2Bounds(n);
    Pow2Monotone(k, Log2(n));
  }

  lemma {:induction false} Log2Monotone(m: nat, n: nat)
    requires m <= n
    ensures Log2(m) <= Log2(n)
  {
    if m > 1 {
      Log2Monotone(m / 2, n / 2);
    }
  }

  /** Both halves of a subtree are at most half as large. */
  lemma Halves(i: nat, e: nat)
    requires i + 1 < e
    ensures var mid := Midpoint(i + 1, e); i + 1 < mid <= e && Log2(mid - (i + 1)) < Log2(e - i) && Log2(e - mid) < Log2(e - i)
  {
    var mid := Midpoint(i + 1, e);
    Log2Monotone(e - mid, (e - i) / 2);
  }

  // ----- Subtrees

  ghost predicate Untouched(s: State, a: nat, b: nat)
    requires b <= |s|
  {
    forall j :: a <= j < b ==> s[j].pc == Idle && s[j].done && s[j].worked == 0
  }

  ghost predicate Finished(s: State, a: nat, b: nat, top: nat)
    requires b <= |s|
  {
    forall j :: a <= j < b ==> s[j].pc == Idle && s[j].done && s[j].worked == 1 && s[j].level <= top
  }

  /** Thread i has been given the range behind it up to e. */
  ghost predicate Given(s: State, i: nat, e: nat, top: nat)
    requires i < e <= |s|
  {
    s[i].wbegin == i + 1 && s[i].wend == e && s[i].level + Log2(e - i) <= top
  }

  /** Thread i has been woken to run threads i up to e; where all of them are. */
  ghost predicate Started(s: State, i: nat, e: nat, top: nat)
    requires i < e <= |s|
    decreases e - i
  {
    || Finished(s, i, e, top)
    || (&& Given(s, i, e, top) && s[i].done == (i == 0) && Running(s, i, e, top))
  }

  ghost predicate Running(s: State, i: nat, e: nat, top: nat)
    requires i < e <= |s|
    decreases e - i, 1
  {
    var x, mid := s[i], Midpoint(i + 1, e);
    && x.worked == (if x.pc in {AwaitLeft, AwaitRight, Report} then 1 else 0)
    && match x.pc
       case Idle => i > 0 && Untouched(s, i + 1, e)
       case Split => Untouched(s, i + 1, e)
       case WakeLeft => i + 1 < e && Untouched(s, i + 1, e) && Given(s, i + 1, mid, top)
       case SplitRight => i + 1 < e && Started(s, i + 1, mid, top) && Untouched(s, mid, e)
       case WakeRight => i + 1 < mid < e && Started(s, i + 1, mid, top) && Untouched(s, mid, e) && Given(s, mid, e, top)
       case Work => Children(s, i, e, top)
       case AwaitLeft => Children(s, i, e, top)
       case AwaitRight => i + 1 < e && Finished(s, i + 1, mid, top) && (mid < e ==> Started(s, mid, e, top))
       case Report => Finished(s, i + 1, e, top)
  }

  ghost predicate Children(s: State, i: nat, e: nat, top: nat)
    requires i < e <= |s|
    decreases e - i, 0
  {
    i + 1 < e ==>
      var mid := Midpoint(i + 1, e);
      Started(s, i + 1, mid, top) && (mid < e ==> Started(s, mid, e, top))
  }

  // ----- A step stays inside its subtree

  ghost predicate SameOn(s: State, s1: State, a: nat, b: nat) {
    |s| == |s1| && forall j :: a <= j < b && j < |s| ==> s[j] == s1[j]
  }

  lemma {:induction false} StartedDependsOn(s: State, s1: State, i: nat, e: nat, top: nat)
    requires i < e <= |s| && SameOn(s, s1, i, e) && Started(s, i, e, top)
    ensures Started(s1, i, e, top)
    decreases e - i
  {
    if !Finished(s, i, e, top) {
      RunningDependsOn(s, s1, i, e, top);
    }
  }

  lemma {:induction false} RunningDependsOn(s: State, s1: State, i: nat, e: nat, top: nat)
    requires i < e <= |s| && SameOn(s, s1, i, e) && Running(s, i, e, top)
    ensures Running(s1, i, e, top)
    decreases e - i, 1
  {
    if s[i].pc in {SplitRight, WakeRight} {
      SplittingDependsOn(s, s1, i, e, top);
    } else if s[i].pc in {Work, AwaitLeft} {
      ChildrenDependOn(s, s1, i, e, top);
      assert s1[i] == s[i] && Running(s1, i, e, top);
    } else if s[i].pc == AwaitRight {
      AwaitingDependsOn(s, s1, i, e, top);
    } else {
      assert s1[i] == s[i] && Running(s1, i, e, top);
    }
  }

  lemma {:induction false} SplittingDependsOn(s: State, s1: State, i: nat, e: nat, top: nat)
    requires i < e <= |s| && SameOn(s, s1, i, e) && Running(s, i, e, top) && s[i].pc in {SplitRight, WakeRight}
    ensures Running(s1, i, e, top)
    decreases e - i, 0
  {
    StartedDependsOn(s, s1, i + 1, Midpoint(i + 1, e), top);
    assert s1[i] == s[i];
  }

  lemma {:induction false} AwaitingDependsOn(s: State, s1: State, i: nat, e: nat, top: nat)
    requires i < e <= |s| && SameOn(s, s1, i, e) && Running(s, i, e, top) && s[i].pc == AwaitRight
    ensures Running(s1, i, e, top)
    decreases e - i, 0
  {
    var mid := Midpoint(i + 1, e);
    if mid < e {
      StartedDependsOn(s, s1, mid, e, top);
    }
    assert s1[i] == s[i];
  }

  lemma {:induction false} ChildrenDependOn(s: State, s1: State, i: nat, e: nat, top: nat)
    requires i < e <= |s| && SameOn(s, s1, i + 1, e) && Children(s, i, e, top)
    ensures Children(s1, i, e, top)
    decreases e - i, 0
  {
    if i + 1 < e {
      var mid := Midpoint(i + 1, e);
      StartedDependsOn(s, s1, i + 1, mid, top);
      if mid < e {
        StartedDependsOn(s, s1, mid, e, top);
      }
    }
  }

  /** A thread of a started subtree that has reported done has everything below it finished. */
  lemma DoneMeansFinished(s: State, i: nat, e: nat, top: nat)
    requires 0 < i < e <= |s| && Started(s, i, e, top) && s[i].done
    ensures Finished(s, i, e, top)
  {
  }

  /** A range handed to a child is within the bound. */
  lemma ChildGiven(s: State, s1: State, i: nat, e: nat, c: nat, to: nat, top: nat)
    requires i < e <= |s| == |s1| && Given(s, i, e, top) && c < to <= e && Log2(to - c) < Log2(e - i)
    requires s1[c].wbegin == c + 1 && s1[c].wend == to && s1[c].level == s[i].level + 1
    ensures Given(s1, c, to, top)
  {
  }

  /** A thread with an empty range goes straight to work. */
  lemma LeafStep(s: State, i: nat, e: nat, top: nat)
    requires i + 1 == e <= |s| && Given(s, i, e, top) && Running(s, i, e, top) && s[i].done == (i == 0)
    requires s[i].pc == Split
    ensures Started(Step(s, i), i, e, top)
  {
    assert Children(Step(s, i), i, e, top);
    assert Running(Step(s, i), i, e, top);
  }

  /** Handing the front half to the left child ... */
  lemma SplitStep(s: State, i: nat, e: nat, top: nat)
    requires i + 1 < e <= |s| && Given(s, i, e, top) && Running(s, i, e, top) && s[i].done == (i == 0)
    requires s[i].pc == Split
    ensures Started(Step(s, i), i, e, top)
  {
    Halves(i, e);
    var s1, mid := Step(s, i), Midpoint(i + 1, e);
    ChildGiven(s, s1, i, e, i + 1, mid, top);
    assert Running(s1, i, e, top);
  }

  /** ... and waking it. */
  lemma ChildWoken(s: State, c: nat, e: nat, top: nat)
    requires 0 < c < e <= |s| && Given(s, c, e, top) && Untouched(s, c + 1, e)
    requires s[c].pc == Idle && !s[c].done && s[c].worked == 0
    ensures Started(s, c, e, top)
  {
    assert Running(s, c, e, top);
  }

  lemma WakeLeftStep(s: State, i: nat, e: nat, top: nat)
    requires i < e <= |s| && Given(s, i, e, top) && Running(s, i, e, top) && s[i].done == (i == 0)
    requires s[i].pc == WakeLeft
    ensures Started(Step(s, i), i, e, top)
  {
    var s1, c, mid := Step(s, i), i + 1, Midpoint(i + 1, e);
    Halves(i, e);
    assert s[c].pc == Idle && s[c].worked == 0;
    ChildWoken(s1, c, mid, top);
    assert Running(s1, i, e, top);
  }

  lemma SplitRightStep(s: State, i: nat, e: nat, top: nat)
    requires i < e <= |s| && Given(s, i, e, top) && Running(s, i, e, top) && s[i].done == (i == 0)
    requires s[i].pc == SplitRight
    ensures Started(Step(s, i), i, e, top)
  {
    var s1, mid := Step(s, i), Midpoint(i + 1, e);
    Halves(i, e);
    StartedDependsOn(s, s1, i + 1, mid, top);
    if mid < e {
      ChildGiven(s, s1, i, e, mid, e, top);
    } else {
      assert Children(s1, i, e, top);
    }
    assert Running(s1, i, e, top);
  }

  lemma WakeRightStep(s: State, i: nat, e: nat, top: nat)
    requires i < e <= |s| && Given(s, i, e, top) && Running(s, i, e, top) && s[i].done == (i == 0)
    requires s[i].pc == WakeRight
    ensures Started(Step(s, i), i, e, top)
  {
    var s1, mid := Step(s, i), Midpoint(i + 1, e);
    Halves(i, e);
    StartedDependsOn(s, s1, i + 1, mid, top);
    assert s[mid].pc == Idle && s[mid].worked == 0;
    ChildWoken(s1, mid, e, top);
    assert Children(s1, i, e, top);
    assert Running(s1, i, e, top);
  }

  lemma WorkStep(s: State, i: nat, e: nat, top: nat)
    requires i < e <= |s| && Given(s, i, e, top) && Running(s, i, e, top) && s[i].done == (i == 0)
    requires s[i].pc == Work
    ensures Started(Step(s, i), i, e, top)
  {
    ChildrenDependOn(s, Step(s, i), i, e, top);
    assert Running(Step(s, i), i, e, top);
  }

  lemma LeftIsFinished(s: State, s1: State, i: nat, e: nat, mid: nat, top: nat)
    requires i + 1 < e <= |s| && mid == Midpoint(i + 1, e) && SameOn(s, s1, i + 1, e) && Children(s, i, e, top) && s[i + 1].done
    ensures Finished(s1, i + 1, mid, top) && (mid < e ==> Started(s1, mid, e, top))
  {
    DoneMeansFinished(s, i + 1, mid, top);
    if mid < e {
      StartedDependsOn(s, s1, mid, e, top);
    }
  }

  lemma AwaitLeftStep(s: State, i: nat, e: nat, top: nat)
    requires i < e <= |s| && Given(s, i, e, top) && Running(s, i, e, top) && s[i].done == (i == 0)
    requires s[i].pc == AwaitLeft && Enabled(s, i)
    ensures Started(Step(s, i), i, e, top)
  {
    var s1 := Step(s, i);
    if i + 1 < e {
      LeftIsFinished(s, s1, i, e, Midpoint(i + 1, e), top);
    }
    assert Running(s1, i, e, top);
  }

  lemma AwaitRightStep(s: State, i: nat, e: nat, top: nat)
    requires i < e <= |s| && Given(s, i, e, top) && Running(s, i, e, top) && s[i].done == (i == 0)
    requires s[i].pc == AwaitRight && Enabled(s, i)
    ensures Started(Step(s, i), i, e, top)
  {
    var mid := Midpoint(i + 1, e);
    if mid < e {
      DoneMeansFinished(s, mid, e, top);
    }
    assert Finished(Step(s, i), i + 1, e, top);
    assert Running(Step(s, i), i, e, top);
  }

  lemma WokenStep(s: State, i: nat, e: nat, top: nat)
    requires i < e <= |s| && Given(s, i, e, top) && Running(s, i, e, top) && s[i].done == (i == 0)
    requires s[i].pc == Idle && Enabled(s, i)
    ensures Started(Step(s, i), i, e, top)
  {
    assert Running(Step(s, i), i, e, top);
  }

  lemma ReportStep(s: State, i: nat, e: nat, top: nat)
    requires i < e <= |s| && Given(s, i, e, top) && Running(s, i, e, top) && s[i].pc == Report
    ensures Started(Step(s, i), i, e, top)
  {
    assert Finished(Step(s, i), i, e, top);
  }

  /** The subtree's own first thread steps. */
  lemma RootStep(s: State, i: nat, e: nat, top: nat)
    requires i < e <= |s| && Started(s, i, e, top) && Enabled(s, i)
    ensures Started(Step(s, i), i, e, top)
  {
    match s[i].pc
    case Split => if i + 1 < e { SplitStep(s, i, e, top); } else { LeafStep(s, i, e, top); }
    case WakeLeft => WakeLeftStep(s, i, e, top);
    case SplitRight => SplitRightStep(s, i, e, top);
    case WakeRight => WakeRightStep(s, i, e, top);
    case Work => WorkStep(s, i, e, top);
    case AwaitLeft => AwaitLeftStep(s, i, e, top);
    case AwaitRight => AwaitRightStep(s, i, e, top);
    case Idle => WokenStep(s, i, e, top);
    case Report => ReportStep(s, i, e, top);
  }

  lemma RootStepLocal(s: State, i: nat, e: nat, top: nat)
    requires i < e <= |s| && Started(s, i, e, top) && Enabled(s, i)
    ensures SameOn(s, Step(s, i), 0, i) && SameOn(s, Step(s, i), e, |s|)
  {
    if i + 1 < e {
      Halves(i, e);
    }
  }

  /** A thread other than the first that is about is in a subtree that has been started. */
  lemma WhichChild(s: State, i: nat, e: nat, top: nat, t: nat)
    requires i < t < e <= |s| && Started(s, i, e, top) && !(s[t].pc == Idle && s[t].done)
    ensures s[i].pc in {SplitRight, WakeRight, Work, AwaitLeft, AwaitRight}
    ensures var mid := Midpoint(i + 1, e);
            if t < mid then s[i].pc != AwaitRight && Started(s, i + 1, mid, top)
            else s[i].pc in {Work, AwaitLeft, AwaitRight} && Started(s, mid, e, top)
  {
    assert Running(s, i, e, top);
    assert s[i].pc in {Work, AwaitLeft} ==> Children(s, i, e, top);
  }

  /** Whichever thread of a started subtree steps, the subtree stays in order and nothing outside of it
      changes. */
  lemma {:induction false} SubtreeStep(s: State, i: nat, e: nat, top: nat, t: nat)
    requires i <= t < e <= |s| && Started(s, i, e, top) && Enabled(s, t)
    ensures Started(Step(s, t), i, e, top) && SameOn(s, Step(s, t), 0, i) && SameOn(s, Step(s, t), e, |s|)
    decreases e - i
  {
    if t == i {
      RootStep(s, i, e, top);
      RootStepLocal(s, i, e, top);
    } else {
      var s1, mid := Step(s, t), Midpoint(i + 1, e);
      Halves(i, e);
      WhichChild(s, i, e, top, t);
      if t < mid {
        SubtreeStep(s, i + 1, mid, top, t);
        LeftStepped(s, s1, i, e, top);
      } else {
        SubtreeStep(s, mid, e, top, t);
        RightStepped(s, s1, i, e, top);
      }
    }
  }

  lemma LeftStepped(s: State, s1: State, i: nat, e: nat, top: nat)
    requires i + 1 < e <= |s| && Given(s, i, e, top) && Running(s, i, e, top) && s[i].done == (i == 0)
    requires s[i].pc in {SplitRight, WakeRight, Work, AwaitLeft}
    requires var mid := Midpoint(i + 1, e);
             SameOn(s, s1, 0, i + 1) && SameOn(s, s1, mid, |s|) && Started(s1, i + 1, mid, top)
    ensures Started(s1, i, e, top)
  {
    var mid := Midpoint(i + 1, e);
    if s[i].pc in {Work, AwaitLeft} {
      assert Children(s, i, e, top);
      if mid < e {
        StartedDependsOn(s, s1, mid, e, top);
      }
      assert Children(s1, i, e, top);
    }
    assert Running(s1, i, e, top);
  }

  lemma RightStepped(s: State, s1: State, i: nat, e: nat, top: nat)
    requires i + 1 < e <= |s| && Given(s, i, e, top) && Running(s, i, e, top) && s[i].done == (i == 0)
    requires s[i].pc in {Work, AwaitLeft, AwaitRight}
    requires var mid := Midpoint(i + 1, e);
             mid < e && SameOn(s, s1, 0, mid) && SameOn(s, s1, e, |s|) && Started(s1, mid, e, top)
    ensures Started(s1, i, e, top)
  {
    var mid := Midpoint(i + 1, e);
    if s[i].pc in {Work, AwaitLeft} {
      assert Children(s, i, e, top);
      StartedDependsOn(s, s1, i + 1, mid, top);
      assert Children(s1, i, e, top);
    }
    assert Running(s1, i, e, top);
  }

  // ----- Runs

  /** Thread 0 calls mainThread(num), or thread t takes a step. */
  datatype Action = Call(num: nat) | Go(t: nat)

  /** `num` is the argument of the last call. */
  datatype Pool = Pool(s: State, num: nat)

  predicate CanTake(p: Pool, a: Action) {
    match a
    case Call(num) => MayBegin(p.s, num)
    case Go(t) => Enabled(p.s, t)
  }

  function Take(p: Pool, a: Action): Pool
    requires CanTake(p, a)
  {
    match a
    case Call(num) => Pool(Begin(p.s, num), num)
    case Go(t) => Pool(Step(p.s, t), p.num)
  }

  /** Any interleaving of any number of runs. */
  predicate Schedule(p: Pool, actions: seq<Action>)
    decreases |actions|, 0
  {
    actions == [] ||
    var front := actions[..|actions| - 1];
    Schedule(p, front) && CanTake(After(p, front), actions[|actions| - 1])
  }

  function After(p: Pool, actions: seq<Action>): Pool
    requires Schedule(p, actions)
    decreases |actions|, 1
  {
    if actions == [] then p else Take(After(p, actions[..|actions| - 1]), actions[|actions| - 1])
  }

  /** mainThread is not running: all threads wait, and those below num have worked. */
  ghost predicate Quiet(p: Pool) {
    && p.num <= |p.s|
    && Finished(p.s, 0, p.num, Log2(p.num))
    && Untouched(p.s, p.num, |p.s|)
  }

  ghost predicate Inv(p: Pool) {
    && 0 < |p.s|
    && if p.s[0].pc == Idle then Quiet(p)
       else 1 <= p.num <= |p.s| && Started(p.s, 0, p.num, Log2(p.num)) && Untouched(p.s, p.num, |p.s|)
  }

  lemma BeginResets(s: State, num: nat)
    requires MayBegin(s, num) && forall j :: 0 <= j < |s| ==> s[j].pc == Idle && s[j].done
    ensures var s1 := Begin(s, num);
            && Untouched(s1, 1, |s1|) && Given(s1, 0, num, Log2(num))
            && s1[0].pc == Split && s1[0].done && s1[0].worked == 0
  {
  }

  lemma CallKeepsInv(p: Pool, num: nat)
    requires Inv(p) && MayBegin(p.s, num)
    ensures Inv(Take(p, Call(num)))
  {
    var s1 := Begin(p.s, num);
    BeginResets(p.s, num);
    assert Untouched(s1, 1, num) && Running(s1, 0, num, Log2(num));
    assert Started(s1, 0, num, Log2(num));
  }

  lemma GoKeepsInv(p: Pool, t: nat)
    requires Inv(p) && Enabled(p.s, t)
    ensures Inv(Take(p, Go(t)))
    ensures p.s[0].pc != Idle && t < p.num
  {
    assert !(p.s[t].pc == Idle && p.s[t].done);
    SubtreeStep(p.s, 0, p.num, Log2(p.num), t);
    var s1 := Step(p.s, t);
    if s1[0].pc == Idle {
      assert Finished(s1, 0, p.num, Log2(p.num));
    }
  }

  lemma {:induction false} ScheduleKeepsInv(p: Pool, actions: seq<Action>)
    requires Inv(p) && Schedule(p, actions)
    ensures Inv(After(p, actions)) && |After(p, actions).s| == |p.s|
    decreases |actions|
  {
    if actions != [] {
      var front, a := actions[..|actions| - 1], actions[|actions| - 1];
      ScheduleKeepsInv(p, front);
      match a
      case Call(num) => CallKeepsInv(After(p, front), num);
      case Go(t) => GoKeepsInv(After(p, front), t);
    }
  }

  function Start(maxThreads: nat): Pool { Pool(Initial(maxThreads), 0) }

  // ----- Every thread works exactly once

  /** How often thread t has executed the work. */
  function Executions(p: Pool, actions: seq<Action>, t: nat): nat
    requires Schedule(p, actions)
  {
    if actions == [] then 0
    else
      var front, a := actions[..|actions| - 1], actions[|actions| - 1];
      Executions(p, front, t) + if a == Go(t) && After(p, front).s[t].pc == Work then 1 else 0
  }

  /** In how many of the runs so far thread t takes part. */
  function Calls(actions: seq<Action>, t: nat): nat {
    if actions == [] then 0
    else
      var a := actions[|actions| - 1];
      Calls(actions[..|actions| - 1], t) + if a.Call? && t < a.num then 1 else 0
  }

  lemma {:induction false} NotYetWorked(s: State, i: nat, e: nat, top: nat, t: nat)
    requires i <= t < e <= |s| && Started(s, i, e, top) && (s[t].pc == Work || (s[t].pc == Idle && !s[t].done))
    ensures s[t].worked == 0
    decreases e - i
  {
    if t != i {
      WhichChild(s, i, e, top, t);
      Halves(i, e);
      var mid := Midpoint(i + 1, e);
      if t < mid {
        NotYetWorked(s, i + 1, mid, top, t);
      } else {
        NotYetWorked(s, mid, e, top, t);
      }
    }
  }

  /** Thread t has still to work in the run that is on. */
  predicate Owes(p: Pool, t: nat) { t < |p.s| && t < p.num && p.s[0].pc != Idle && p.s[t].worked == 0 }

  lemma StepChanges(s: State, u: nat, t: nat)
    requires Enabled(s, u) && t < |s|
    ensures Step(s, u)[t].worked == s[t].worked + if u == t && s[t].pc == Work then 1 else 0
    ensures (u != t ==> Step(s, u)[t].pc == s[t].pc) && (u == t ==> (Step(s, u)[t].pc == Idle) == (s[t].pc == Report))
  {
  }

  lemma StepPays(p: Pool, t: nat, u: nat)
    requires Inv(p) && Enabled(p.s, u) && t < |p.s|
    ensures var p1 := Take(p, Go(u));
            (if Owes(p, t) then 1 else 0) ==
            (if Owes(p1, t) then 1 else 0) + if u == t && p.s[t].pc == Work then 1 else 0
  {
    var p1 := Take(p, Go(u));
    GoKeepsInv(p, u);
    StepChanges(p.s, u, t);
    StepChanges(p.s, u, 0);
    if p.s[u].pc == Work {
      NotYetWorked(p.s, 0, p.num, Log2(p.num), u);
    }
    if p1.s[0].pc == Idle && t < p.num {
      assert p1.s[t].worked == 1;
    }
  }

  lemma {:induction false} WorkAccount(p: Pool, actions: seq<Action>, t: nat)
    requires Inv(p) && p.s[0].pc == Idle && Schedule(p, actions) && t < |p.s|
    ensures Executions(p, actions, t) + (if Owes(After(p, actions), t) then 1 else 0) == Calls(actions, t)
    decreases |actions|
  {
    if actions != [] {
      var front, a := actions[..|actions| - 1], actions[|actions| - 1];
      WorkAccount(p, front, t);
      ScheduleKeepsInv(p, front);
      if a.Go? {
        StepPays(After(p, front), t, a.t);
      }
    }
  }

  /** Whenever mainThread has returned, every thread has executed the work exactly once in each run it
      takes part in and never otherwise, all threads are waiting again, and each thread of the last run
      had been woken within the integer logarithm of the number of threads. */
  lemma EveryThreadWorksOnce(maxThreads: nat, actions: seq<Action>)
    requires maxThreads > 0 && Schedule(Start(maxThreads), actions)
    requires After(Start(maxThreads), actions).s[0].pc == Idle
    ensures forall t :: 0 <= t < maxThreads ==> Executions(Start(maxThreads), actions, t) == Calls(actions, t)
    ensures var p := After(Start(maxThreads), actions);
            && |p.s| == maxThreads
            && (forall t :: 0 <= t < maxThreads ==> p.s[t].pc == Idle && p.s[t].done)
            && (forall t :: 0 <= t < p.num <= maxThreads ==> Pow2(p.s[t].level) <= p.num)
  {
    ScheduleKeepsInv(Start(maxThreads), actions);
    forall t | 0 <= t < maxThreads
      ensures Executions(Start(maxThreads), actions, t) == Calls(actions, t)
    {
      WorkAccount(Start(maxThreads), actions, t);
    }
    var p := After(Start(maxThreads), actions);
    forall t | 0 <= t < p.num <= maxThreads
      ensures Pow2(p.s[t].level) <= p.num
    {
      WithinLog2(p.s[t].level, p.num);
    }
  }

  // ----- Every run ends

  /** A started subtree that is not finished has a thread that can step. */
  lemma {:induction false} SomeoneCanStep(s: State, i: nat, e: nat, top: nat) returns (t: nat)
    requires i < e <= |s| && Started(s, i, e, top) && !Finished(s, i, e, top)
    ensures i <= t < e && Enabled(s, t)
    decreases e - i
  {
    t := i;
    if i + 1 < e {
      var mid := Midpoint(i + 1, e);
      Halves(i, e);
      if s[i].pc == AwaitLeft && !s[i + 1].done {
        assert Children(s, i, e, top);
        t := SomeoneCanStep(s, i + 1, mid, top);
      } else if s[i].pc == AwaitRight && mid < e && !s[mid].done {
        t := SomeoneCanStep(s, mid, e, top);
      }
    }
  }

  /** Steps a thread has before it in this run. */
  function Rank(x: Thread): nat {
    match x.pc
    case Idle => if x.worked == 0 then 9 else 0
    case Split => 8
    case WakeLeft => 7
    case SplitRight => 6
    case WakeRight => 5
    case Work => 4
    case AwaitLeft => 3
    case AwaitRight => 2
    case Report => 1
  }

  function Ranks(s: State, n: nat): nat
    requires n <= |s|
  {
    if n == 0 then 0 else Ranks(s, n - 1) + Rank(s[n - 1])
  }

  lemma {:induction false} RanksFall(s: State, s1: State, n: nat, t: nat)
    requires t < n <= |s| == |s1| && Rank(s1[t]) < Rank(s[t])
    requires forall j :: 0 <= j < n && j != t ==> Rank(s1[j]) == Rank(s[j])
    ensures Ranks(s1, n) < Ranks(s, n)
  {
    if t < n - 1 {
      RanksFall(s, s1, n - 1, t);
    } else {
      RanksSame(s, s1, n - 1);
    }
  }

  lemma {:induction false} RanksSame(s: State, s1: State, n: nat)
    requires n <= |s| == |s1| && forall j :: 0 <= j < n ==> Rank(s1[j]) == Rank(s[j])
    ensures Ranks(s1, n) == Ranks(s, n)
  {
    if n > 0 {
      RanksSame(s, s1, n - 1);
    }
  }

  lemma {:induction false} RanksBound(s: State, n: nat)
    requires n <= |s|
    ensures Ranks(s, n) <= 9 * n
  {
    if n > 0 {
      RanksBound(s, n - 1);
    }
  }

  lemma {:induction false} ReportsAfterWork(s: State, i: nat, e: nat, top: nat, t: nat)
    requires i <= t < e <= |s| && Started(s, i, e, top) && s[t].pc == Report
    ensures s[t].worked == 1
    decreases e - i
  {
    if t != i {
      WhichChild(s, i, e, top, t);
      Halves(i, e);
      var mid := Midpoint(i + 1, e);
      if t < mid {
        ReportsAfterWork(s, i + 1, mid, top, t);
      } else {
        ReportsAfterWork(s, mid, e, top, t);
      }
    }
  }

  lemma StepLowersRanks(p: Pool, t: nat)
    requires Inv(p) && Enabled(p.s, t)
    ensures p.num <= |p.s| && Ranks(Step(p.s, t), p.num) < Ranks(p.s, p.num)
  {
    GoKeepsInv(p, t);
    var s1 := Step(p.s, t);
    if p.s[t].pc == Report {
      ReportsAfterWork(p.s, 0, p.num, Log2(p.num), t);
    } else if p.s[t].pc == Idle {
      NotYetWorked(p.s, 0, p.num, Log2(p.num), t);
    }
    RanksFall(p.s, s1, p.num, t);
  }

  predicate OnlySteps(actions: seq<Action>) { forall i :: 0 <= i < |actions| ==> actions[i].Go? }

  lemma {:induction false} StepsAreBounded(p: Pool, gos: seq<Action>)
    requires Inv(p) && Schedule(p, gos) && OnlySteps(gos)
    ensures var p1 := After(p, gos);
            p1.num == p.num <= |p1.s| && p.num <= |p.s| && |gos| + Ranks(p1.s, p.num) <= Ranks(p.s, p.num)
    decreases |gos|
  {
    if gos != [] {
      var front := gos[..|gos| - 1];
      StepsAreBounded(p, front);
      ScheduleKeepsInv(p, front);
      StepLowersRanks(After(p, front), gos[|gos| - 1].t);
    }
  }

  /** From any reachable state, whatever the interleaving, a run of num threads is over after at most
      9 * num steps: as long as mainThread has not returned some thread can step. */
  lemma EveryRunEnds(maxThreads: nat, actions: seq<Action>, gos: seq<Action>)
    requires maxThreads > 0 && Schedule(Start(maxThreads), actions)
    requires var p := After(Start(maxThreads), actions); Schedule(p, gos) && OnlySteps(gos)
    ensures var p := After(Start(maxThreads), actions); |gos| <= 9 * p.num
    ensures var p1 := After(After(Start(maxThreads), actions), gos);
            |p1.s| > 0 && (p1.s[0].pc == Idle <==> forall t :: !Enabled(p1.s, t))
  {
    var p := After(Start(maxThreads), actions);
    ScheduleKeepsInv(Start(maxThreads), actions);
    ScheduleKeepsInv(p, gos);
    StepsAreBounded(p, gos);
    RanksBound(p.s, p.num);
    var p1 := After(p, gos);
    if p1.s[0].pc == Idle {
      forall t
        ensures !Enabled(p1.s, t)
      {
        if Enabled(p1.s, t) {
          GoKeepsInv(p1, t);
        }
      }
    } else {
      var t := SomeoneCanStep(p1.s, 0, p1.num, Log2(p1.num));
    }
  }
}
