/** A query with a single core machine: the token plays no part, and what helpers send unasked is covered
    by no counter. */
module SingleCore {
  import opened Options
  import opened SubQueryRing
  import opened RingTermination

  /** What holds of a single core machine's query at any time. */
  ghost predicate Alone(s: State) {
    && |s.cores| == 1 && Basic(s)
    && var c := s.cores[0];
       && !c.phase.Paused?
       && (c.phase.Waiting? ==> s.net == [] && c.inq == [])
       && (c.phase.Select? ==> NoNodeSync(c.inq))
  }

  ghost predicate NoNodeSync(ms: seq<Msg>) { forall m :: m in ms ==> !m.NodeSync? }

  /** No vertex expanded by a helper has a neighbour at the core machine. */
  predicate Quiet(a: Action) { a.RunNodeTask? ==> forall m :: m in a.out ==> !m.NodeSync? }

  predicate AllQuiet(actions: seq<Action>) { forall k :: 0 <= k < |actions| ==> Quiet(actions[k]) }

  lemma InitialIsAlone(s: State)
    requires Initial(s) && |s.cores| == 1
    ensures Alone(s)
  {
    InitialIsBasic(s);
  }

  lemma StepStaysAlone(s: State, a: Action)
    requires Alone(s) && Enabled(s, a)
    ensures Alone(Apply(s, a))
  {
    StepKeepsBasic(s, a);
    if a.Deliver? || a.RunTask? || a.RunNodeTask? || a.RunBalance? {
      assert s.net != [];
    }
  }

  lemma {:induction false} RunStaysAlone(s: State, actions: seq<Action>)
    requires Alone(s) && Run(s, actions, false).Some?
    ensures Alone(Run(s, actions, false).value)
    decreases |actions|
  {
    if actions != [] {
      RunStaysAlone(s, actions[..|actions| - 1]);
      StepStaysAlone(Run(s, actions[..|actions| - 1], false).value, actions[|actions| - 1]);
    }
  }

  // ----- Without NODE_SYNCs nothing is left

  ghost predicate NoneToCome(s: State) {
    && Alone(s) && NoNodeSync(s.net)
    && (s.cores[0].phase.Ended? ==> NoNodeSync(s.cores[0].inq))
  }

  lemma QuietStep(s: State, a: Action)
    requires NoneToCome(s) && Enabled(s, a) && Quiet(a)
    ensures NoneToCome(Apply(s, a))
  {
    StepStaysAlone(s, a);
    var t := Apply(s, a);
    forall m | m in t.net
      ensures !m.NodeSync?
    {
      NewMessage(s, a, m);
    }
  }

  lemma NewMessage(s: State, a: Action, m: Msg)
    requires Alone(s) && Enabled(s, a) && Quiet(a) && m in Apply(s, a).net
    ensures m in s.net || !m.NodeSync?
  {
    match a
    case Expand(i, group, issued, found) => ExpandMessages(s, i, group, issued, found, m);
    case Deliver(k, _) => InRemove(s.net, k);
    case RunTask(k) => InRemove(s.net, k);
    case RunNodeTask(k, _) => InRemove(s.net, k);
    case RunBalance(k) => InRemove(s.net, k);
    case _ =>
  }

  lemma {:induction false} QuietRun(s: State, actions: seq<Action>)
    requires NoneToCome(s) && Run(s, actions, false).Some? && AllQuiet(actions)
    ensures NoneToCome(Run(s, actions, false).value)
    decreases |actions|
  {
    if actions != [] {
      var front := actions[..|actions| - 1];
      QuietRun(s, front);
      assert Quiet(actions[|actions| - 1]);
      QuietStep(Run(s, front, false).value, actions[|actions| - 1]);
    }
  }

  // ----- A NODE_SYNC can be overtaken by the end

  /** Steps that a message other than a NODE_SYNC still needs in the net. */
  function Needs(m: Msg): nat {
    match m
    case NodeSync(_, _, _, _) => 0
    case Sync(_, _, _, _, _) => 0
    case NodeTask(_) => 2
    case Task(_, _, _) => 2
    case _ => 1
  }

  function Pending(ms: seq<Msg>): nat { if ms == [] then 0 else Needs(ms[0]) + Pending(ms[1..]) }

  lemma {:induction false} PendingConcat(a: seq<Msg>, b: seq<Msg>)
    ensures Pending(a + b) == Pending(a) + Pending(b)
  {
    if a == [] {
      assert a + b == b;
    } else {
      assert (a + b)[1..] == a[1..] + b;
      PendingConcat(a[1..], b);
    }
  }

  lemma PendingRemove(ms: seq<Msg>, k: nat)
    requires k < |ms|
    ensures Pending(ms) == Pending(Remove(ms, k)) + Needs(ms[k])
  {
    PendingConcat(ms[..k], ms[k + 1..]);
    PendingConcat(ms[..k], ms[k..]);
    assert ms == ms[..k] + ms[k..];
    assert ms[k..][1..] == ms[k + 1..];
  }

  lemma PendingOne(m: Msg)
    ensures Pending([m]) == Needs(m)
  {
    assert [m][1..] == [];
  }

  lemma {:induction false} SomethingPending(ms: seq<Msg>) returns (k: nat)
    requires Pending(ms) > 0
    ensures k < |ms| && Needs(ms[k]) > 0
  {
    if Needs(ms[0]) > 0 {
      k := 0;
    } else {
      k := SomethingPending(ms[1..]);
      k := k + 1;
    }
  }

  lemma {:induction false} NothingPending(ms: seq<Msg>, m: Msg)
    requires Pending(ms) == 0 && m in ms
    ensures Needs(m) == 0
  {
    if m != ms[0] {
      NothingPending(ms[1..], m);
    }
  }

  /** How near the coroutine is to its last test, once nothing is pending. */
  function Stage(c: Core): nat {
    match c.phase
    case Ended => 0
    case Select => if AllReceived(c) then 1 else 3
    case Yielded => 2
    case Paused => 4
    case Waiting => 4
  }

  ghost predicate Nearer(s: State, t: State)
    requires |s.cores| == |t.cores| == 1
  {
    var c, d := s.cores[0], t.cores[0];
    || d.cands < c.cands
    || (d.cands == c.cands && Pending(t.net) < Pending(s.net))
    || (d.cands == c.cands && Pending(t.net) == Pending(s.net) && Stage(d) < Stage(c))
  }

  /** Every NODE_SYNC under way stays under way. */
  ghost predicate KeepsNodeSyncs(s: State, t: State) { forall m :: m in s.net && m.NodeSync? ==> m in t.net }

  lemma StillThere(ms: seq<Msg>, k: nat)
    requires k < |ms| && !ms[k].NodeSync?
    ensures forall m :: m in ms && m.NodeSync? ==> m in Remove(ms, k)
  {
    forall m | m in ms && m.NodeSync?
      ensures m in Remove(ms, k)
    {
      var j :| 0 <= j < |ms| && ms[j] == m;
      if j < k {
        assert Remove(ms, k)[j] == m;
      } else {
        assert Remove(ms, k)[j - 1] == m;
      }
    }
  }

  ghost predicate Advances(s: State, a: Action) {
    && |s.cores| == 1 && Enabled(s, a) && Quiet(a)
    && KeepsNodeSyncs(s, Apply(s, a)) && |Apply(s, a).cores| == 1 && Nearer(s, Apply(s, a))
  }

  /** A pending message can be settled further unless the coroutine is about to test. */
  lemma Settle(s: State, k: nat) returns (a: Action)
    requires Alone(s) && k < |s.net| && Needs(s.net[k]) > 0 && s.cores[0].phase.Yielded?
    ensures Advances(s, a)
  {
    var x := s.net[k];
    assert MsgOk(s, x);
    StillThere(s.net, k);
    PendingRemove(s.net, k);
    match x
    case Task(o, c, n) =>
      a := RunTask(k);
      PendingConcat(Remove(s.net, k), [Result(o, c, n)]);
      PendingOne(Result(o, c, n));
    case NodeTask(o) =>
      a := RunNodeTask(k, []);
      SettleNodeTask(s, k);
    case Balance(_) =>
      a := RunBalance(k);
    case Read(_) =>
      a := Deliver(k, s.cores[0].cands);
    case Result(_, _, _) =>
      a := Deliver(k, s.cores[0].cands);
    case NodeResult(_, _) =>
      a := Deliver(k, s.cores[0].cands);
    case Chunk(_) =>
      assert false;
    case Sync(_, _, _, _, _) =>
      assert false;
    case NodeSync(_, _, _, _) =>
      assert false;
  }

  lemma SettleNodeTask(s: State, k: nat)
    requires Alone(s) && k < |s.net| && s.net[k].NodeTask?
    ensures Advances(s, RunNodeTask(k, []))
  {
    assert MsgOk(s, s.net[k]);
    StillThere(s.net, k);
    PendingRemove(s.net, k);
    var back := NodeResult(0, Sum(NocoreCredit, 0, []));
    var t := Apply(s, RunNodeTask(k, []));
    assert t.net == Remove(s.net, k) + [back];
    PendingConcat(Remove(s.net, k), [back]);
    PendingOne(back);
  }

  /** Without the pending ones the counters agree as soon as the queues are empty. */
  lemma EmptyMeansReceived(s: State)
    requires Alone(s) && Pending(s.net) == 0 && s.cores[0].inq == []
    ensures AllReceived(s.cores[0])
  {
    forall m | m in s.net
      ensures !Outstanding(0, m)
    {
      NothingPending(s.net, m);
    }
    IdleTestExact(s, 0);
  }

  lemma ResumeAdvances(s: State)
    requires Alone(s) && Pending(s.net) == 0 && s.cores[0].phase.Yielded?
    ensures Advances(s, Resume(0, false, s.cores[0].cands))
  {
    var a := Resume(0, false, s.cores[0].cands);
    StepStaysAlone(s, a);
    EmptyMeansReceived(Apply(s, a));
  }

  /** The coroutine looks at its candidates, or tests. */
  lemma SelectAdvances(s: State) returns (a: Action)
    requires Alone(s) && s.cores[0].phase.Select?
    ensures Advances(s, a)
  {
    var c := s.cores[0];
    assert CoreShape(s, 0);
    if c.cands > 0 {
      var group := if c.cands < CAND_GROUP_SIZE then c.cands else CAND_GROUP_SIZE;
      a := Expand(0, group, [], [0]);
      assert s.net + [] == s.net;
    } else {
      a := Test(0);
    }
  }

  lemma Advance(s: State) returns (a: Action)
    requires Alone(s) && !s.cores[0].phase.Ended?
    ensures Advances(s, a)
  {
    if s.cores[0].phase.Waiting? {
      a := Start(0);
    } else if s.cores[0].phase.Select? {
      a := SelectAdvances(s);
    } else if Pending(s.net) > 0 {
      var k := SomethingPending(s.net);
      a := Settle(s, k);
    } else {
      a := Resume(0, false, s.cores[0].cands);
      ResumeAdvances(s);
    }
  }

  /** From any state the query can end, helpers keeping quiet, with every NODE_SYNC still under way. */
  lemma {:induction false} EndsQuietly(s: State) returns (more: seq<Action>)
    requires Alone(s)
    ensures AllQuiet(more) && Run(s, more, false).Some?
    ensures var t := Run(s, more, false).value; Finished(t) && KeepsNodeSyncs(s, t)
    decreases s.cores[0].cands, Pending(s.net), Stage(s.cores[0])
  {
    if s.cores[0].phase.Ended? {
      more := [];
    } else {
      var a := Advance(s);
      StepStaysAlone(s, a);
      var rest := EndsQuietly(Apply(s, a));
      RunFromFirst(s, a, rest, false);
      more := [a] + rest;
    }
  }

  // ----- Exactly when

  /** The query can end with helpers keeping quiet. */
  ghost predicate CanEndQuietly(t: State) {
    exists more: seq<Action> :: AllQuiet(more) && Run(t, more, false).Some? && Finished(Run(t, more, false).value)
  }

  /** Every way to end the query from here on, helpers keeping quiet, leaves nothing of it. */
  ghost predicate EndsClean(t: State) {
    forall more: seq<Action> ::
      AllQuiet(more) && Run(t, more, false).Some? && Finished(Run(t, more, false).value) ==>
        NothingLeft(Run(t, more, false).value)
  }

  /** The end of a single core machine's query is clean if and only if no NODE_SYNC is under way to it:
      in any state it can reach before the end, if there is none and helpers send no further ones then
      nothing is left however it ends, and if there is one it may be lost.  It always can end. */
  lemma SingleCoreTermination(s: State, actions: seq<Action>)
    requires Initial(s) && |s.cores| == 1 && Run(s, actions, false).Some?
    requires !Finished(Run(s, actions, false).value)
    ensures EndsClean(Run(s, actions, false).value) <==> NoNodeSync(Run(s, actions, false).value.net)
    ensures CanEndQuietly(Run(s, actions, false).value)
  {
    InitialIsAlone(s);
    RunStaysAlone(s, actions);
    var t := Run(s, actions, false).value;
    var quiet := EndsQuietly(t);
    if NoNodeSync(t.net) {
      forall more: seq<Action> | AllQuiet(more) && Run(t, more, false).Some? && Finished(Run(t, more, false).value)
        ensures NothingLeft(Run(t, more, false).value)
      {
        QuietRun(t, more);
        CleanEnd(Run(t, more, false).value);
      }
    } else {
      var m :| m in t.net && m.NodeSync?;
      assert m in Run(t, quiet, false).value.net && !NothingLeft(Run(t, quiet, false).value);
    }
  }

  lemma CleanEnd(t: State)
    requires NoneToCome(t) && Finished(t)
    ensures NothingLeft(t)
  {
    SingleCoreLeftovers(t);
  }

  /** In particular: a query none of whose helpers has a neighbour to send ends with nothing left. */
  lemma QuietHelpersEndClean(s: State, actions: seq<Action>)
    requires Initial(s) && |s.cores| == 1 && Run(s, actions, false).Some? && AllQuiet(actions)
    requires Finished(Run(s, actions, false).value)
    ensures NothingLeft(Run(s, actions, false).value)
  {
    InitialIsAlone(s);
    QuietRun(s, actions);
    CleanEnd(Run(s, actions, false).value);
  }
}
