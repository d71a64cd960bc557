/** How far channels that keep their messages in order make the ring safe by themselves. */
module RingFifoExact {
  import opened Options
  import opened SubQueryRing
  import opened RingTermination
  import opened RingFifo
  import RingTightness
  import opened SingleCore

  /** Every run of n core machines whose channels keep order ends with nothing left. */
  ghost predicate SafeInOrder(n: nat, helpers: bool) {
    forall s: State, actions: seq<Action> ::
      (Initial(s) && |s.cores| == n && AllInOrder(s, actions, helpers) && Run(s, actions, false).Some? &&
       Finished(Run(s, actions, false).value)) ==> NothingLeft(Run(s, actions, false).value)
  }

  // ----- One machine without helpers

  ghost predicate Helperless(s: State) { NoneToCome(s) && forall m :: m in s.net ==> !m.NodeTask? }

  lemma StepStaysHelperless(s: State, a: Action)
    requires Helperless(s) && Enabled(s, a) && InOrder(s, a, false)
    ensures Helperless(Apply(s, a))
  {
    assert forall k :: 0 <= k < |s.net| ==> s.net[k] in s.net;
    assert !a.RunNodeTask?;
    QuietStep(s, a);
    forall m | m in Apply(s, a).net
      ensures !m.NodeTask?
    {
      match a
      case Expand(i, group, issued, found) => ExpandMessages(s, i, group, issued, found, m);
      case Deliver(k, _) => InRemove(s.net, k);
      case RunTask(k) => InRemove(s.net, k);
      case RunBalance(k) => InRemove(s.net, k);
      case _ =>
    }
  }

  lemma {:induction false} RunStaysHelperless(s: State, actions: seq<Action>)
    requires Initial(s) && |s.cores| == 1 && AllInOrder(s, actions, false) && Run(s, actions, false).Some?
    ensures Helperless(Run(s, actions, false).value)
    decreases |actions|
  {
    if actions == [] {
      InitialIsAlone(s);
    } else {
      var front := actions[..|actions| - 1];
      RunStaysHelperless(s, front);
      StepStaysHelperless(Run(s, front, false).value, actions[|actions| - 1]);
    }
  }

  lemma SmallRingSafe(n: nat)
    requires 0 < n <= 2
    ensures SafeInOrder(n, false)
  {
    forall s: State, actions: seq<Action> |
      Initial(s) && |s.cores| == n && AllInOrder(s, actions, false) && Run(s, actions, false).Some?
      && Finished(Run(s, actions, false).value)
      ensures NothingLeft(Run(s, actions, false).value)
    {
      if n == 1 {
        RunStaysHelperless(s, actions);
        CleanEnd(Run(s, actions, false).value);
      } else {
        TwoCoreFifoSafe(s, actions);
      }
    }
  }

  /** Order in the channels makes the ring safe by itself if and only if it has at most two core machines and no
      vertices go to helpers. */
  lemma FifoSafeExactly(n: nat, helpers: bool)
    requires n > 0
    ensures SafeInOrder(n, helpers) <==> n <= 2 && !helpers
  {
    if n <= 2 && !helpers {
      SmallRingSafe(n);
    } else if n == 1 {
      var actions := RingTightness.SingleCoreLosesNodeSync();
      RingTightness.RunWithoutAssumption(RingTightness.U0, actions);
    } else {
      var c := RingTightness.Case(n, helpers);
      var actions := RingTightness.AssumptionNeeded(c);
      assert !NothingLeft(Run(c.First(), actions, false).value);
    }
  }
}
