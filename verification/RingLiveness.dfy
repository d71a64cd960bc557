/** The ring ends: once nothing is left of the query the number of token visits to its end is fixed, whatever
    the machines do, and some machine can always bring the next one about. */
module RingLiveness {
  import opened Options
  import opened SubQueryRing
  import opened RingTermination

  // ----- Holders of the token

  /** Nobody sleeps on the token, and who has ended the query keeps it. */
  ghost predicate Holding(s: State) {
    && |s.cores| > 1
    && forall i :: 0 <= i < |s.cores| ==>
         (s.cores[i].hasToken ==> !s.cores[i].phase.Paused?) && (s.cores[i].phase.Ended? ==> s.cores[i].hasToken)
  }

  lemma StepKeepsHolding(s: State, a: Action)
    requires Holding(s) && Enabled(s, a)
    ensures Holding(Apply(s, a))
  {
  }

  lemma {:induction false} RunKeepsHolding(s: State, actions: seq<Action>)
    requires Initial(s) && |s.cores| > 1 && Run(s, actions, true).Some?
    ensures Holding(Run(s, actions, true).value)
    decreases |actions|
  {
    if actions != [] {
      RunKeepsHolding(s, actions[..|actions| - 1]);
      StepKeepsHolding(Run(s, actions[..|actions| - 1], true).value, actions[|actions| - 1]);
    }
  }

  // ----- Idle rings

  ghost predicate Started(s: State) { forall i :: 0 <= i < |s.cores| ==> !s.cores[i].phase.Waiting? }

  /** All machines have started and nothing is left, but the query has not necessarily ended. */
  ghost predicate Idle(s: State) { Stable(s) && NothingLeft(s) && Started(s) && Holding(s) }

  /** The only steps: a SYNC arrives, a machine resumes and finds nothing, a machine tests. */
  lemma IdleActions(s: State, a: Action)
    requires Idle(s) && Enabled(s, a)
    ensures match a
            case Deliver(k, cands) => cands == 0 && s.net[k].Sync? && s.net[k].work == 0
            case Resume(i, accepted, cands) => !accepted && cands == 0
            case Test(i) => AllReceived(s.cores[i])
            case _ => false
    ensures DeliveryGuard(s, a)
  {
    forall k | 0 <= k < |s.net|
      ensures s.net[k].Sync? && s.net[k].work == 0
    {
      assert s.net[k] in s.net;
    }
    assert forall i :: 0 <= i < |s.cores| ==> CoreIdle(s.cores[i]);
  }

  lemma PostedIsEmpty(s: State, i: nat, token: Token, m: Msg)
    requires Idle(s) && i < |s.cores| == |s.cores[i].unsent| && m in SyncMsgs(|s.cores|, i, s.cores[i], token, |s.cores|)
    ensures m.Sync? && m.work == 0
  {
    assert CoreIdle(s.cores[i]);
    SyncMsgsFacts(|s.cores|, i, s.cores[i], token, |s.cores|);
  }

  lemma VisitLeavesNothing(s: State, i: nat)
    requires Idle(s) && Visits(s, Test(i))
    ensures NothingLeft(Apply(s, Test(i)))
  {
    var t := Apply(s, Test(i));
    forall m | m in t.net
      ensures m.Sync? && m.work == 0
    {
      if m !in s.net {
        var failed := s.cores[i].tokenIsBlack || s.cores[i].procIsBlack;
        PostedIsEmpty(s, i, Token(failed && !IsLeader(|s.cores|, i)), m);
      }
    }
    assert CoreIdle(s.cores[i]);
  }

  lemma ResumeLeavesNothing(s: State, i: nat)
    requires Idle(s) && Enabled(s, Resume(i, false, 0))
    ensures NothingLeft(Apply(s, Resume(i, false, 0)))
  {
    assert CoreIdle(s.cores[i]);
    SumNone(CoreCredit, i, s.cores[i].inq);
    SumNone(NocoreCredit, i, s.cores[i].inq);
  }

  lemma ArrivalLeavesNothing(s: State, k: nat)
    requires Idle(s) && Enabled(s, Deliver(k, 0))
    ensures NothingLeft(Apply(s, Deliver(k, 0)))
  {
    var m := s.net[k];
    assert m in s.net && CoreIdle(s.cores[Home(m)]);
    InRemove(s.net, k);
  }

  lemma StepStaysIdle(s: State, a: Action)
    requires Idle(s) && Enabled(s, a)
    ensures Idle(Apply(s, a)) && |Apply(s, a).cores| == |s.cores|
  {
    IdleActions(s, a);
    StepKeepsStable(s, a);
    StepKeepsHolding(s, a);
    StepLeavesNothing(s, a);
  }

  lemma StepLeavesNothing(s: State, a: Action)
    requires Idle(s) && Enabled(s, a)
    ensures NothingLeft(Apply(s, a))
  {
    IdleActions(s, a);
    match a
    case Deliver(k, _) => ArrivalLeavesNothing(s, k);
    case Resume(i, _, _) => ResumeLeavesNothing(s, i);
    case Test(i) =>
      if Visits(s, a) {
        VisitLeavesNothing(s, i);
      } else {
        assert CoreIdle(s.cores[i]);
      }
    case _ =>
  }

  // ----- How many visits are left

  /** A machine already visited in this circuit is black. */
  ghost predicate BlackBehind(s: State) { exists j :: 0 <= j < s.at && j < |s.cores| && s.cores[j].procIsBlack }

  /** The leader's next test is bound to fail. */
  ghost predicate Fails(s: State) { TokenBlack(s) || BlackAhead(s) }

  /** Circuits after the one that is under way. */
  ghost function Circuits(s: State): nat
    requires |s.cores| > 0
  {
    if Fails(s) then if BlackBehind(s) then 3 else 2
    else if s.cores[|s.cores| - 1].lastIsWhite then 0
    else if BlackBehind(s) then 3 else 1
  }

  /** The number of token visits until the end of the query, the last one included. */
  ghost function VisitsLeft(s: State): nat
    requires s.at < |s.cores|
  {
    if Finished(s) then 0 else |s.cores| - s.at + |s.cores| * Circuits(s)
  }

  lemma AtMostFourCircuits(s: State)
    requires s.at < |s.cores|
    ensures VisitsLeft(s) <= 4 * |s.cores| && (Finished(s) <==> VisitsLeft(s) == 0)
  {
    assert |s.cores| * Circuits(s) <= |s.cores| * 3;
  }

  lemma {:induction false} SomeToken(ms: seq<Msg>) returns (m: Msg)
    requires Tokens(ms) > 0
    ensures m in ms && m.HasToken()
  {
    if ms[0].HasToken() {
      m := ms[0];
    } else {
      m := SomeToken(ms[1..]);
    }
  }

  /** Who holds the token sees its colour. */
  lemma HeldColour(s: State)
    requires Stable(s) && s.cores[s.at].hasToken
    ensures TokenBlack(s) <==> s.cores[s.at].tokenIsBlack
  {
    if m :| m in s.net && m.HasToken() {
      TokensAtLeast(s.net, m);
    }
  }

  /** The token leaves with the machine's colour, the leader's always white. */
  lemma ColourPassedOn(s: State, i: nat)
    requires Stable(s) && Visits(s, Test(i)) && !Terminates(s, i)
    ensures var t := VisitToken(s, i);
            TokenBlack(t) <==> !IsLeader(|s.cores|, i) && (s.cores[i].tokenIsBlack || s.cores[i].procIsBlack)
  {
    var n, c, t := |s.cores|, s.cores[i], VisitToken(s, i);
    var taint := (c.tokenIsBlack || c.procIsBlack) && !IsLeader(n, i);
    var posted := SyncMsgs(n, i, c, Token(taint), n);
    SyncMsgsFacts(n, i, c, Token(taint), n);
    var m := SomeToken(posted);
    assert m in t.net;
    forall x | x in t.net && x.HasToken()
      ensures x.token.black == taint
    {
      if x in s.net {
        TokensAtLeast(s.net, x);
      }
    }
  }

  /** The colours a visit leaves. */
  lemma VisitColours(s: State, i: nat)
    requires Stable(s) && Visits(s, Test(i)) && !Terminates(s, i)
    ensures var t := Apply(s, Test(i));
            && i == s.at && t.at == Next(|s.cores|, i) && |t.cores| == |s.cores|
            && (forall j :: 0 <= j < |s.cores| && j != i ==> t.cores[j] == s.cores[j])
            && !t.cores[i].procIsBlack
  {
  }

  lemma PassedOn(s: State, i: nat)
    requires Stable(s) && Visits(s, Test(i)) && !IsLeader(|s.cores|, i)
    ensures var t := Apply(s, Test(i));
            && t.at == s.at + 1 && (Fails(t) <==> Fails(s)) && (BlackBehind(t) <==> BlackBehind(s))
            && t.cores[|t.cores| - 1].lastIsWhite == s.cores[|s.cores| - 1].lastIsWhite
  {
    HeldColour(s);
    ColourPassedOn(s, i);
    VisitColours(s, i);
    var t := Apply(s, Test(i));
    if BlackAhead(s) && !s.cores[i].procIsBlack {
      var j :| s.at <= j < |s.cores| && s.cores[j].procIsBlack;
      assert t.cores[j].procIsBlack;
    }
    if j :| 0 <= j < s.at && j < |s.cores| && s.cores[j].procIsBlack {
      assert t.cores[j].procIsBlack;
    }
  }

  /** The leader judges: what was behind is ahead now. */
  lemma Judged(s: State, i: nat)
    requires Stable(s) && Visits(s, Test(i)) && IsLeader(|s.cores|, i) && !Terminates(s, i)
    ensures var t := Apply(s, Test(i));
            && t.at == 0 && (Fails(t) <==> BlackBehind(s)) && !BlackBehind(t)
            && (t.cores[|t.cores| - 1].lastIsWhite <==> !Fails(s))
  {
    HeldColour(s);
    ColourPassedOn(s, i);
    VisitColours(s, i);
    var t := Apply(s, Test(i));
    if j :| 0 <= j < s.at && j < |s.cores| && s.cores[j].procIsBlack {
      assert t.cores[j].procIsBlack;
    }
    assert BlackAhead(s) <==> s.cores[i].procIsBlack;
  }

  lemma EndSeen(s: State, i: nat)
    requires i < |s.cores|
    ensures s.cores[i].phase.Ended? ==> Finished(s)
  {
  }

  lemma NobodyEnds(s: State, t: State)
    requires |s.cores| == |t.cores| && !Finished(s)
    requires forall i :: 0 <= i < |s.cores| && t.cores[i].phase.Ended? ==> s.cores[i].phase.Ended?
    ensures !Finished(t)
  {
  }

  /** Every visit is one of those that were left. */
  lemma VisitCounts(s: State, i: nat)
    requires Stable(s) && !Finished(s) && Visits(s, Test(i))
    ensures Apply(s, Test(i)).at < |Apply(s, Test(i)).cores| && VisitsLeft(Apply(s, Test(i))) == VisitsLeft(s) - 1
  {
    var n, t := |s.cores|, Apply(s, Test(i));
    HeldColour(s);
    if Terminates(s, i) {
      EndSeen(t, i);
      assert !BlackAhead(s);
    } else {
      VisitColours(s, i);
      NobodyEnds(s, t);
      if IsLeader(n, i) {
        Judged(s, i);
      } else {
        PassedOn(s, i);
      }
    }
  }

  lemma SameColours(s: State, t: State)
    requires |s.cores| == |t.cores| && s.at == t.at < |s.cores| && (TokenBlack(s) <==> TokenBlack(t))
    requires forall i :: 0 <= i < |s.cores| ==>
               && t.cores[i].procIsBlack == s.cores[i].procIsBlack && t.cores[i].lastIsWhite == s.cores[i].lastIsWhite
               && t.cores[i].phase.Ended? == s.cores[i].phase.Ended?
    ensures VisitsLeft(t) == VisitsLeft(s)
  {
    assert BlackAhead(s) <==> BlackAhead(t);
    assert BlackBehind(s) <==> BlackBehind(t);
    assert Finished(s) <==> Finished(t);
  }

  lemma ArrivalKeepsColour(s: State, k: nat, cands: nat)
    requires Stable(s) && Enabled(s, Deliver(k, cands))
    ensures TokenBlack(Apply(s, Deliver(k, cands))) <==> TokenBlack(s)
  {
    DeliverTokens(s, k, cands);
    InRemove(s.net, k);
    assert s.net[k] in s.net;
  }

  /** No other step changes their number. */
  lemma OtherStepsDoNotCount(s: State, a: Action)
    requires Idle(s) && Enabled(s, a) && !Visits(s, a)
    ensures Apply(s, a).at < |Apply(s, a).cores| && VisitsLeft(Apply(s, a)) == VisitsLeft(s)
  {
    IdleActions(s, a);
    if a.Deliver? {
      ArrivalKeepsColour(s, a.k, a.cands);
    }
    SameColours(s, Apply(s, a));
  }

  // ----- Every run

  /** The token visits of a run. */
  ghost function VisitCount(s: State, actions: seq<Action>): nat
    requires Run(s, actions, false).Some?
  {
    if actions == [] then 0
    else
      var front := actions[..|actions| - 1];
      VisitCount(s, front) + if Visits(Run(s, front, false).value, actions[|actions| - 1]) then 1 else 0
  }

  lemma NoVisitAfterTheEnd(s: State, i: nat)
    requires Stable(s) && Holding(s) && Visits(s, Test(i))
    ensures !Finished(s)
  {
    assert i == s.at && s.cores[i].phase.Select?;
  }

  lemma StepCounts(s: State, a: Action)
    requires Idle(s) && Enabled(s, a)
    ensures Apply(s, a).at < |Apply(s, a).cores|
    ensures VisitsLeft(Apply(s, a)) + (if Visits(s, a) then 1 else 0) == VisitsLeft(s)
  {
    if Visits(s, a) {
      NoVisitAfterTheEnd(s, a.i);
      AtMostFourCircuits(s);
      VisitCounts(s, a.i);
    } else {
      OtherStepsDoNotCount(s, a);
    }
  }

  /** From an idle state on, whatever the machines do, the query ends exactly with the last of the visits that
      were left, at most four for each machine. */
  lemma {:induction false} VisitsToTheEnd(s: State, actions: seq<Action>)
    requires Idle(s) && Run(s, actions, false).Some?
    ensures var t := Run(s, actions, false).value;
            && Idle(t) && |t.cores| == |s.cores| && VisitCount(s, actions) + VisitsLeft(t) == VisitsLeft(s)
            && VisitsLeft(s) <= 4 * |s.cores|
            && (Finished(t) <==> VisitCount(s, actions) == VisitsLeft(s))
    decreases |actions|
  {
    AtMostFourCircuits(s);
    if actions != [] {
      var front, a := actions[..|actions| - 1], actions[|actions| - 1];
      VisitsToTheEnd(s, front);
      var u := Run(s, front, false).value;
      StepStaysIdle(u, a);
      StepCounts(u, a);
      AtMostFourCircuits(Apply(u, a));
    }
  }

  // ----- The next visit comes about

  /** Steps of the machine the token is with or comes to before it can visit. */
  function Distance(c: Core): nat {
    match c.phase
    case Select => if c.hasToken then 1 else 4
    case Yielded => if c.hasToken then 2 else 3
    case _ => 3
  }

  /** A step towards the next visit: the machine the token is with or comes to tests, resumes, or gets it. */
  lemma NextStep(s: State) returns (a: Action)
    requires Idle(s) && !Finished(s)
    ensures Enabled(s, a) && |Apply(s, a).cores| == |s.cores| && Apply(s, a).at < |s.cores|
    ensures Visits(s, a) || (Apply(s, a).at == s.at && Distance(Apply(s, a).cores[s.at]) < Distance(s.cores[s.at]))
  {
    var c := s.cores[s.at];
    assert CoreIdle(c) && CoreShape(s, s.at);
    StepPossible(s);
    if c.phase.Select? {
      a := Test(s.at);
    } else if c.hasToken {
      a := Resume(s.at, false, 0);
    } else {
      var m := SomeToken(s.net);
      var k :| 0 <= k < |s.net| && s.net[k] == m;
      a := Deliver(k, 0);
    }
  }

  lemma StepPossible(s: State)
    requires Idle(s) && !Finished(s)
    ensures !s.cores[s.at].phase.Ended? && !s.cores[s.at].phase.Waiting?
    ensures s.cores[s.at].hasToken ==> !s.cores[s.at].phase.Paused?
    ensures !s.cores[s.at].hasToken ==> Tokens(s.net) > 0
  {
    EndSeen(s, s.at);
  }

  /** An idle ring can always end its query, within four steps a visit. */
  lemma {:induction false} IdleRingCanEnd(s: State) returns (more: seq<Action>)
    requires Idle(s)
    ensures Run(s, more, false).Some? && Finished(Run(s, more, false).value)
    ensures |more| <= if Finished(s) then 0 else 4 * (VisitsLeft(s) - 1) + Distance(s.cores[s.at])
    decreases VisitsLeft(s), Distance(s.cores[s.at])
  {
    AtMostFourCircuits(s);
    if Finished(s) {
      more := [];
    } else {
      var a := NextStep(s);
      StepStaysIdle(s, a);
      StepCounts(s, a);
      AtMostFourCircuits(Apply(s, a));
      var rest := IdleRingCanEnd(Apply(s, a));
      RunFromFirst(s, a, rest, false);
      more := [a] + rest;
    }
  }

  /** In any run that meets the delivery assumption: once all machines have started and nothing of the query is
      left, some continuation of at most sixteen steps for each machine ends it, and any continuation ends it
      with the same number of token visits, at most four for each machine. */
  lemma RingEnds(s: State, actions: seq<Action>) returns (more: seq<Action>)
    requires Initial(s) && |s.cores| > 1 && Run(s, actions, true).Some?
    requires NothingLeft(Run(s, actions, true).value) && Started(Run(s, actions, true).value)
    ensures var t := Run(s, actions, true).value;
            && Idle(t) && Run(t, more, false).Some? && Finished(Run(t, more, false).value)
            && |more| <= 16 * |t.cores|
            && forall others: seq<Action> :: Run(t, others, false).Some? ==>
                 (Finished(Run(t, others, false).value) <==> VisitCount(t, others) == VisitsLeft(t) <= 4 * |t.cores|)
  {
    var t := Run(s, actions, true).value;
    RunKeepsStable(s, actions);
    RunKeepsHolding(s, actions);
    AtMostFourCircuits(t);
    more := IdleRingCanEnd(t);
    forall others: seq<Action> | Run(t, others, false).Some?
      ensures Finished(Run(t, others, false).value) <==> VisitCount(t, others) == VisitsLeft(t) <= 4 * |t.cores|
    {
      VisitsToTheEnd(t, others);
    }
  }
}
