/** Every fair run of the ring ends: candidates are all that can keep it going. */
module RingBound {
  import opened Options
  import opened SubQueryRing
  import opened RingTermination
  import opened RingLiveness
  import opened RingProgress

  /** A machine looks whether there is anything new, in vain. */
  predicate Polls(s: State, a: Action) {
    match a
    case Test(i) => i < |s.cores| && !AllReceived(s.cores[i])
    case Resume(i, _, _) => i < |s.cores| && s.cores[i].inq == []
    case _ => false
  }

  /** A group issues at most d messages, a helper passes on at most d. */
  predicate Small(a: Action, d: nat) {
    match a
    case Expand(_, _, issued, _) => |issued| <= d
    case RunNodeTask(_, out) => |out| <= d
    case _ => true
  }

  // ----- What is still to come

  function Cost(d: nat, m: Msg): nat {
    match m
    case Task(_, _, _) => 4
    case NodeTask(_) => 4 + 4 * d
    case Balance(_) => 2
    case _ => 3
  }

  function NetCost(d: nat, ms: seq<Msg>): nat { if ms == [] then 0 else Cost(d, ms[0]) + NetCost(d, ms[1..]) }

  /** Sending sync_msg to all, and the visit itself. */
  function VisitCost(n: nat): nat { 3 * n + 1 }

  /** A candidate: the messages its group issues, and a flush of sync_msg. */
  function CandCost(n: nat, d: nat): nat { 3 * n + d * (4 + 4 * d) + 1 }

  function PhaseCost(p: Phase): nat {
    match p
    case Waiting => 2
    case Select => 1
    case Yielded => 1
    case Paused => 0
    case Ended => 0
  }

  function CoreCost(each: nat, c: Core): nat { each * c.cands + |c.inq| + PhaseCost(c.phase) }

  function CoreCosts(s: State, each: nat): (r: seq<nat>)
    ensures |r| == |s.cores|
  {
    seq(|s.cores|, i requires 0 <= i < |s.cores| => CoreCost(each, s.cores[i]))
  }

  ghost function VisitsToCome(s: State): nat
    requires s.at < |s.cores|
  {
    VisitsLeft(s) * VisitCost(|s.cores|)
  }

  /** An upper bound of the steps to come that are no polling, as long as nothing is accepted. */
  ghost function ToCome(s: State, d: nat): nat
    requires s.at < |s.cores|
  {
    NetCost(d, s.net) + Total(CoreCosts(s, CandCost(|s.cores|, d))) + VisitsToCome(s)
  }

  /** What accepting candidates adds. */
  function Gain(s: State, a: Action): nat {
    match a
    case Resume(i, accepted, cands) =>
      if accepted && i < |s.cores| then 1 + if cands > s.cores[i].cands then cands - s.cores[i].cands else 0 else 0
    case _ => 0
  }

  function GainCost(n: nat, d: nat): nat { CandCost(n, d) + 4 * n * VisitCost(n) }

  function Price(gains: nat, n: nat, d: nat): nat { gains * GainCost(n, d) }

  // ----- Sums

  lemma {:induction false} CostConcat(d: nat, a: seq<Msg>, b: seq<Msg>)
    ensures NetCost(d, a + b) == NetCost(d, a) + NetCost(d, b)
  {
    if a == [] {
      assert a + b == b;
    } else {
      assert (a + b)[1..] == a[1..] + b;
      CostConcat(d, a[1..], b);
    }
  }

  lemma CostOne(d: nat, m: Msg)
    ensures NetCost(d, [m]) == Cost(d, m)
  {
    assert [m][1..] == [];
  }

  lemma CostRemove(d: nat, ms: seq<Msg>, k: nat)
    requires k < |ms|
    ensures NetCost(d, ms) == NetCost(d, Remove(ms, k)) + Cost(d, ms[k])
  {
    CostConcat(d, ms[..k], ms[k + 1..]);
    CostConcat(d, ms[..k], ms[k..]);
    assert ms == ms[..k] + ms[k..];
    assert ms[k..][1..] == ms[k + 1..];
  }

  lemma {:induction false} CostAtMost(d: nat, ms: seq<Msg>, each: nat)
    requires forall m :: m in ms ==> Cost(d, m) <= each
    ensures NetCost(d, ms) <= |ms| * each
  {
    if ms != [] {
      CostAtMost(d, ms[1..], each);
      assert |ms| * each == each + (|ms| - 1) * each;
    }
  }

  lemma {:induction false} PostedCost(d: nat, n: nat, i: nat, c: Core, token: Token, upto: nat)
    requires upto <= n == |c.unsent|
    ensures NetCost(d, SyncMsgs(n, i, c, token, upto)) <= 3 * upto
    decreases upto
  {
    if upto > 0 {
      var j := upto - 1;
      PostedCost(d, n, i, c, token, j);
      var last := if j == i then [] else [Sync(i, c.passes, j, c.unsent[j], if j == Next(n, i) then token else NoToken)];
      CostConcat(d, SyncMsgs(n, i, c, token, j), last);
      if j != i {
        CostOne(d, last[0]);
      }
    }
  }

  lemma OneCost(s: State, t: State, i: nat, each: nat)
    requires Only(s, t, i)
    ensures Total(CoreCosts(t, each)) + CoreCost(each, s.cores[i]) == Total(CoreCosts(s, each)) + CoreCost(each, t.cores[i])
  {
    TotalOne(CoreCosts(s, each), CoreCosts(t, each), i);
  }

  // ----- What steps cost

  ghost predicate Pays(s: State, t: State, d: nat, gain: nat, moved: bool) {
    && s.at < |s.cores| && t.at < |t.cores|
    && ToCome(t, d) + (if moved then 1 else 0) <= ToCome(s, d) + gain
  }

  /** No step but a visit or the acceptance of a candidate changes the number of visits left. */
  ghost predicate SameVisits(s: State, t: State) {
    s.at < |s.cores| && t.at < |t.cores| && |t.cores| == |s.cores| && VisitsLeft(t) == VisitsLeft(s)
  }

  /** Messages and one machine account for the step. */
  lemma LocalPays(s: State, t: State, i: nat, d: nat, moved: bool)
    requires Only(s, t, i) && SameVisits(s, t)
    requires var each := CandCost(|s.cores|, d);
             NetCost(d, t.net) + CoreCost(each, t.cores[i]) + (if moved then 1 else 0) <=
             NetCost(d, s.net) + CoreCost(each, s.cores[i])
    ensures Pays(s, t, d, 0, moved)
  {
    OneCost(s, t, i, CandCost(|s.cores|, d));
  }

  lemma ColoursKept(s: State, a: Action)
    requires Stable(s) && Enabled(s, a) && !Visits(s, a) && Gain(s, a) == 0
    ensures SameVisits(s, Apply(s, a))
  {
    match a
    case Deliver(k, cands) => DeliverColour(s, k, cands);
    case RunTask(k) => HelperColour(s, a, k);
    case RunNodeTask(k, _) => HelperColour(s, a, k);
    case Expand(i, group, issued, found) => ExpandColour(s, i, group, issued, found);
    case RunBalance(k) => BalanceColour(s, k);
    case _ => SameColours(s, Apply(s, a));
  }

  lemma TokensStay(ms: seq<Msg>, k: nat)
    requires k < |ms| && !ms[k].HasToken()
    ensures forall m: Msg :: m.HasToken() ==> (m in Remove(ms, k) <==> m in ms)
  {
    forall m: Msg | m.HasToken() && m in ms
      ensures m in Remove(ms, k)
    {
      var j :| 0 <= j < |ms| && ms[j] == m;
      assert Remove(ms, k)[if j < k then j else j - 1] == m;
    }
    InRemove(ms, k);
  }

  lemma HelperColour(s: State, a: Action, k: nat)
    requires Stable(s) && Enabled(s, a) && (a.RunTask? || a.RunNodeTask?) && a.k == k
    ensures SameVisits(s, Apply(s, a))
  {
    TokensStay(s.net, k);
    NetColour(s, Apply(s, a));
  }

  lemma BalanceColour(s: State, k: nat)
    requires Stable(s) && Enabled(s, RunBalance(k))
    ensures SameVisits(s, Apply(s, RunBalance(k)))
  {
    TokensStay(s.net, k);
    NetColour(s, Apply(s, RunBalance(k)));
  }

  /** The tokens under way stay the same. */
  lemma NetColour(s: State, t: State)
    requires s.at == t.at < |s.cores| == |t.cores|
    requires forall m: Msg :: m.HasToken() ==> (m in t.net <==> m in s.net)
    requires forall i :: 0 <= i < |s.cores| ==>
               && t.cores[i].procIsBlack == s.cores[i].procIsBlack && t.cores[i].lastIsWhite == s.cores[i].lastIsWhite
               && t.cores[i].phase.Ended? == s.cores[i].phase.Ended? && t.cores[i].tokenIsBlack == s.cores[i].tokenIsBlack
    ensures SameVisits(s, t)
  {
    SameColours(s, t);
  }

  lemma DeliverColour(s: State, k: nat, cands: nat)
    requires Stable(s) && Enabled(s, Deliver(k, cands))
    ensures SameVisits(s, Apply(s, Deliver(k, cands)))
  {
    ArrivalKeepsColour(s, k, cands);
    SameColours(s, Apply(s, Deliver(k, cands)));
  }

  lemma ExpandColour(s: State, i: nat, group: nat, issued: seq<Msg>, found: seq<nat>)
    requires Stable(s) && Enabled(s, Expand(i, group, issued, found))
    ensures SameVisits(s, Apply(s, Expand(i, group, issued, found)))
  {
    var n, c1, t := |s.cores|, Expanded(s.cores[i], group, issued, found), Apply(s, Expand(i, group, issued, found));
    var flushed := if c1.syncStep >= SYNC_BAR then SyncMsgs(n, i, c1, NoToken, n) else [];
    SyncMsgsFacts(n, i, c1, NoToken, n);
    MoreNet(s.net, s.net + issued, issued);
    MoreNet(s.net + issued, s.net + issued + flushed, flushed);
    assert s.net + issued + [] == s.net + issued;
    NetColour(s, t);
  }

  lemma MoreNet(ms: seq<Msg>, ms1: seq<Msg>, more: seq<Msg>)
    requires ms1 == ms + more && forall m :: m in more ==> !m.HasToken()
    ensures forall m: Msg :: m.HasToken() ==> (m in ms1 <==> m in ms)
  {
  }

  // ----- Each step pays for itself

  lemma StartPays(s: State, i: nat, d: nat)
    requires Stable(s) && Enabled(s, Start(i))
    ensures Pays(s, Apply(s, Start(i)), d, 0, true)
  {
    ColoursKept(s, Start(i));
    LocalPays(s, Apply(s, Start(i)), i, d, true);
  }

  lemma DeliverPays(s: State, k: nat, cands: nat, d: nat)
    requires Stable(s) && Enabled(s, Deliver(k, cands))
    ensures Pays(s, Apply(s, Deliver(k, cands)), d, 0, true)
  {
    ColoursKept(s, Deliver(k, cands));
    var i, t := Home(s.net[k]), Apply(s, Deliver(k, cands));
    CostRemove(d, s.net, k);
    ArrivalCost(s.cores[i], s.net[k], cands, CandCost(|s.cores|, d));
    LocalPays(s, t, i, d, true);
  }

  lemma ArrivalCost(c: Core, m: Msg, cands: nat, each: nat)
    requires cands <= c.cands
    ensures CoreCost(each, Arrive(c, m, cands)) <= CoreCost(each, c) + 2
  {
    Times(each, cands, c.cands);
  }

  lemma Times(each: nat, a: nat, b: nat)
    requires a <= b
    ensures each * a <= each * b
  {
  }

  lemma HelperPays(s: State, k: nat, a: Action, d: nat, answer: seq<Msg>)
    requires Stable(s) && Enabled(s, a) && !Visits(s, a) && Gain(s, a) == 0 && k < |s.net|
    requires Apply(s, a).cores == s.cores && Apply(s, a).net == Remove(s.net, k) + answer
    requires NetCost(d, answer) < Cost(d, s.net[k])
    ensures Pays(s, Apply(s, a), d, 0, true)
  {
    ColoursKept(s, a);
    CostRemove(d, s.net, k);
    CostConcat(d, Remove(s.net, k), answer);
    LocalPays(s, Apply(s, a), 0, d, true);
  }

  lemma TaskPays(s: State, k: nat, d: nat)
    requires Stable(s) && Enabled(s, RunTask(k))
    ensures Pays(s, Apply(s, RunTask(k)), d, 0, true)
  {
    var answer := Result(s.net[k].owner, s.net[k].core, s.net[k].nocore);
    CostOne(d, answer);
    HelperPays(s, k, RunTask(k), d, [answer]);
  }

  lemma NodeTaskPays(s: State, k: nat, out: seq<Msg>, d: nat)
    requires Stable(s) && Enabled(s, RunNodeTask(k, out)) && |out| <= d
    ensures Pays(s, Apply(s, RunNodeTask(k, out)), d, 0, true)
  {
    var i := s.net[k].owner;
    var answer := NodeResult(i, Sum(NocoreCredit, i, out));
    CostOne(d, answer);
    CostAtMost(d, out, 4);
    CostConcat(d, [answer], out);
    assert Apply(s, RunNodeTask(k, out)).net == Remove(s.net, k) + ([answer] + out);
    HelperPays(s, k, RunNodeTask(k, out), d, [answer] + out);
  }

  lemma BalancePays(s: State, k: nat, d: nat)
    requires Stable(s) && Enabled(s, RunBalance(k))
    ensures Pays(s, Apply(s, RunBalance(k)), d, 0, true)
  {
    ColoursKept(s, RunBalance(k));
    CostRemove(d, s.net, k);
    LocalPays(s, Apply(s, RunBalance(k)), s.net[k].owner, d, true);
  }

  lemma IssuedCost(d: nat, issued: seq<Msg>)
    requires |issued| <= d
    ensures NetCost(d, issued) <= d * (4 + 4 * d)
  {
    CostAtMost(d, issued, 4 + 4 * d);
    Times(4 + 4 * d, |issued|, d);
  }

  lemma ExpandCost(s: State, i: nat, group: nat, issued: seq<Msg>, found: seq<nat>, d: nat)
    requires Enabled(s, Expand(i, group, issued, found)) && |issued| <= d
    ensures NetCost(d, Apply(s, Expand(i, group, issued, found)).net) < NetCost(d, s.net) + CandCost(|s.cores|, d)
  {
    var n, c1 := |s.cores|, Expanded(s.cores[i], group, issued, found);
    var flushed := if c1.syncStep >= SYNC_BAR then SyncMsgs(n, i, c1, NoToken, n) else [];
    PostedCost(d, n, i, c1, NoToken, n);
    IssuedCost(d, issued);
    ThreeCosts(d, s.net, issued, flushed, Apply(s, Expand(i, group, issued, found)).net);
  }

  lemma ThreeCosts(d: nat, a: seq<Msg>, b: seq<Msg>, c: seq<Msg>, all: seq<Msg>)
    requires all == a + b + c || (c == [] && all == a + b)
    ensures NetCost(d, all) == NetCost(d, a) + NetCost(d, b) + NetCost(d, c)
  {
    CostConcat(d, a + b, c);
    CostConcat(d, a, b);
  }

  lemma ExpandPays(s: State, i: nat, group: nat, issued: seq<Msg>, found: seq<nat>, d: nat)
    requires Stable(s) && Enabled(s, Expand(i, group, issued, found)) && |issued| <= d
    ensures Pays(s, Apply(s, Expand(i, group, issued, found)), d, 0, true)
  {
    var a := Expand(i, group, issued, found);
    var t, each := Apply(s, a), CandCost(|s.cores|, d);
    ColoursKept(s, a);
    ExpandCost(s, i, group, issued, found, d);
    var left := s.cores[i].cands - group;
    Times(each, left + 1, s.cores[i].cands);
    assert each * (left + 1) == each * left + each;
    assert t.cores[i].cands == left && t.cores[i].inq == s.cores[i].inq && t.cores[i].phase.Yielded?;
    LocalPays(s, t, i, d, true);
  }

  lemma TestPays(s: State, i: nat, d: nat)
    requires Stable(s) && Enabled(s, Test(i)) && !Visits(s, Test(i))
    ensures Pays(s, Apply(s, Test(i)), d, 0, !Polls(s, Test(i)))
  {
    ColoursKept(s, Test(i));
    LocalPays(s, Apply(s, Test(i)), i, d, !Polls(s, Test(i)));
  }

  lemma VisitNetCost(s: State, i: nat, d: nat)
    requires Stable(s) && Visits(s, Test(i))
    ensures NetCost(d, Apply(s, Test(i)).net) <= NetCost(d, s.net) + 3 * |s.cores|
  {
    var n, c := |s.cores|, s.cores[i];
    var token := Token((c.tokenIsBlack || c.procIsBlack) && !IsLeader(n, i));
    PostedCost(d, n, i, c, token, n);
    CostConcat(d, s.net, SyncMsgs(n, i, c, token, n));
  }

  lemma VisitsFall(s: State, i: nat)
    requires Stable(s) && Holding(s) && Visits(s, Test(i))
    ensures Apply(s, Test(i)).at < |Apply(s, Test(i)).cores| == |s.cores|
    ensures VisitsToCome(Apply(s, Test(i))) + VisitCost(|s.cores|) == VisitsToCome(s)
  {
    NoVisitAfterTheEnd(s, i);
    VisitCounts(s, i);
    Once(VisitsLeft(Apply(s, Test(i))), VisitsLeft(s), VisitCost(|s.cores|));
  }

  lemma Once(a: nat, b: nat, each: nat)
    requires b == a + 1
    ensures b * each == a * each + each
  {
  }

  lemma VisitedCost(s: State, i: nat, each: nat)
    requires Stable(s) && Visits(s, Test(i))
    ensures Total(CoreCosts(Apply(s, Test(i)), each)) <= Total(CoreCosts(s, each))
  {
    OneCost(s, Apply(s, Test(i)), i, each);
  }

  lemma VisitPays(s: State, i: nat, d: nat)
    requires Stable(s) && Holding(s) && Visits(s, Test(i))
    ensures Pays(s, Apply(s, Test(i)), d, 0, true)
  {
    VisitsFall(s, i);
    VisitNetCost(s, i, d);
    VisitedCost(s, i, CandCost(|s.cores|, d));
  }

  lemma ResumePays(s: State, i: nat, d: nat, a: Action)
    requires Stable(s) && a.Resume? && a.i == i && Enabled(s, a) && !a.accepted
    ensures Pays(s, Apply(s, a), d, 0, !Polls(s, a))
  {
    ColoursKept(s, a);
    LocalPays(s, Apply(s, a), i, d, !Polls(s, a));
  }

  lemma VisitsBounded(t: State)
    requires t.at < |t.cores|
    ensures VisitsToCome(t) <= 4 * |t.cores| * VisitCost(|t.cores|)
  {
    AtMostFourCircuits(t);
    Times(VisitCost(|t.cores|), VisitsLeft(t), 4 * |t.cores|);
  }

  /** The machine's share of what `more` candidates cost. */
  lemma AcceptedCost(s: State, i: nat, a: Action, each: nat, more: nat)
    requires a.Resume? && a.i == i && Enabled(s, a) && a.cands <= s.cores[i].cands + more && s.cores[i].inq != []
    ensures Total(CoreCosts(Apply(s, a), each)) + 1 <= Total(CoreCosts(s, each)) + each * more
  {
    OneCost(s, Apply(s, a), i, each);
    Times(each, a.cands, s.cores[i].cands + more);
    Distribute(each, s.cores[i].cands, more);
  }

  lemma Distribute(each: nat, a: nat, b: nat)
    ensures each * (a + b) == each * a + each * b
  {
  }

  /** Accepting candidates pays what they cost and, at worst, for four circuits of the token. */
  lemma AcceptPays(s: State, i: nat, d: nat, a: Action)
    requires Stable(s) && a.Resume? && a.i == i && Enabled(s, a) && a.accepted
    ensures Pays(s, Apply(s, a), d, Price(Gain(s, a), |s.cores|, d), true)
  {
    var n, t, each, gain := |s.cores|, Apply(s, a), CandCost(|s.cores|, d), Gain(s, a);
    VisitsBounded(t);
    AcceptedCost(s, i, a, each, gain);
    Enough(gain, each, 4 * n * VisitCost(n), GainCost(n, d));
  }

  lemma Enough(gain: nat, each: nat, visits: nat, cost: nat)
    requires gain > 0 && cost == each + visits
    ensures each * gain + visits <= gain * cost
  {
    Distribute(gain, each, visits);
    Times(visits, 1, gain);
  }

  lemma MessagePays(s: State, a: Action, d: nat)
    requires Stable(s) && Enabled(s, a) && Small(a, d) && (a.Deliver? || a.RunTask? || a.RunNodeTask? || a.RunBalance?)
    ensures Pays(s, Apply(s, a), d, 0, true)
  {
    match a
    case Deliver(k, cands) => DeliverPays(s, k, cands, d);
    case RunTask(k) => TaskPays(s, k, d);
    case RunNodeTask(k, out) => NodeTaskPays(s, k, out, d);
    case RunBalance(k) => BalancePays(s, k, d);
    case _ =>
  }

  lemma MachinePays(s: State, a: Action, d: nat)
    requires Stable(s) && Holding(s) && Enabled(s, a) && Small(a, d) && (a.Start? || a.Expand? || a.Test?)
    ensures Pays(s, Apply(s, a), d, 0, !Polls(s, a))
  {
    match a
    case Start(i) => StartPays(s, i, d);
    case Expand(i, group, issued, found) => ExpandPays(s, i, group, issued, found, d);
    case Test(i) => if Visits(s, a) { VisitPays(s, i, d); } else { TestPays(s, i, d); }
    case _ =>
  }

  lemma StepPays(s: State, a: Action, d: nat)
    requires Stable(s) && Holding(s) && Enabled(s, a) && Small(a, d)
    ensures Pays(s, Apply(s, a), d, Price(Gain(s, a), |s.cores|, d), !Polls(s, a))
  {
    if a.Resume? && a.accepted {
      AcceptPays(s, a.i, d, a);
    } else if a.Resume? {
      ResumePays(s, a.i, d, a);
    } else {
      NoGain(s, a, d);
      if a.Start? || a.Expand? || a.Test? {
        MachinePays(s, a, d);
      } else {
        MessagePays(s, a, d);
      }
    }
  }

  lemma NoGain(s: State, a: Action, d: nat)
    requires !a.Resume?
    ensures Price(Gain(s, a), |s.cores|, d) == 0 && (!a.Test? ==> !Polls(s, a))
  {
  }

  // ----- Whole runs

  predicate AllSmall(actions: seq<Action>, d: nat) { forall k :: 0 <= k < |actions| ==> Small(actions[k], d) }

  /** The steps of a run that are no polling. */
  ghost function Moves(s: State, actions: seq<Action>): nat
    requires Run(s, actions, true).Some?
  {
    if actions == [] then 0
    else
      var front, a := actions[..|actions| - 1], actions[|actions| - 1];
      Moves(s, front) + if Polls(Run(s, front, true).value, a) then 0 else 1
  }

  /** What its acceptances count. */
  ghost function Gains(s: State, actions: seq<Action>): nat
    requires Run(s, actions, true).Some?
  {
    if actions == [] then 0
    else
      var front, a := actions[..|actions| - 1], actions[|actions| - 1];
      Gains(s, front) + Gain(Run(s, front, true).value, a)
  }

  ghost function Earned(s: State, actions: seq<Action>, d: nat): nat
    requires Run(s, actions, true).Some?
  {
    if actions == [] then 0
    else
      var front, a := actions[..|actions| - 1], actions[|actions| - 1];
      Earned(s, front, d) + Price(Gain(Run(s, front, true).value, a), |s.cores|, d)
  }

  lemma {:induction false} EarnedIs(s: State, actions: seq<Action>, d: nat)
    requires Run(s, actions, true).Some?
    ensures Earned(s, actions, d) == Price(Gains(s, actions), |s.cores|, d)
    decreases |actions|
  {
    if actions != [] {
      var front, a := actions[..|actions| - 1], actions[|actions| - 1];
      EarnedIs(s, front, d);
      Split(Gains(s, actions), Gains(s, front), Gain(Run(s, front, true).value, a), GainCost(|s.cores|, d));
    }
  }

  lemma Split(all: nat, a: nat, b: nat, each: nat)
    requires all == a + b
    ensures all * each == a * each + b * each
  {
  }

  /** The last step of a run. */
  lemma LastCounts(s: State, actions: seq<Action>, front: seq<Action>, a: Action)
    requires actions == front + [a] && Run(s, actions, true).Some?
    ensures Run(s, front, true).Some?
    ensures var t := Run(s, front, true).value;
            && Enabled(t, a) && DeliveryGuard(t, a) && Run(s, actions, true) == Some(Apply(t, a))
            && Moves(s, actions) == Moves(s, front) + (if Polls(t, a) then 0 else 1)
            && forall d :: Earned(s, actions, d) == Earned(s, front, d) + Price(Gain(t, a), |s.cores|, d)
  {
    assert actions[..|actions| - 1] == front && actions[|actions| - 1] == a;
  }

  /** The run has paid for its steps so far. */
  ghost predicate Paid(s: State, t: State, d: nat, moves: nat, earned: nat) {
    && s.at < |s.cores| && t.at < |t.cores| == |s.cores|
    && moves + ToCome(t, d) <= ToCome(s, d) + earned
  }

  lemma PaidStep(s: State, t: State, a: Action, d: nat, moves: nat, earned: nat)
    requires Paid(s, t, d, moves, earned) && Stable(t) && Holding(t) && Enabled(t, a) && Small(a, d)
    ensures Paid(s, Apply(t, a), d, moves + (if Polls(t, a) then 0 else 1), earned + Price(Gain(t, a), |s.cores|, d))
  {
    StepPays(t, a, d);
    StepKeepsCount(t, a);
  }

  lemma {:induction false} RunPays(s: State, actions: seq<Action>, d: nat)
    requires Initial(s) && |s.cores| > 1 && Run(s, actions, true).Some? && AllSmall(actions, d)
    ensures Paid(s, Run(s, actions, true).value, d, Moves(s, actions), Earned(s, actions, d))
    decreases |actions|
  {
    if actions != [] {
      var front, a := actions[..|actions| - 1], actions[|actions| - 1];
      assert actions == front + [a] && Small(a, d);
      LastCounts(s, actions, front, a);
      RunPays(s, front, d);
      RunStaysLive(s, front);
      PaidStep(s, Run(s, front, true).value, a, d, Moves(s, front), Earned(s, front, d));
    }
  }

  /** The longest a query can take, polling aside, for its initial candidates and those accepted on the way. */
  ghost function Longest(s: State, d: nat, gains: nat): nat
    requires s.at < |s.cores|
  {
    ToCome(s, d) + Price(gains, |s.cores|, d)
  }

  /** In every run that meets the delivery assumption the steps that are no polling are bounded by the candidates
      there are at first and are accepted on the way. */
  lemma RunsAreBounded(s: State, actions: seq<Action>, d: nat)
    requires Initial(s) && |s.cores| > 1 && Run(s, actions, true).Some? && AllSmall(actions, d)
    ensures Moves(s, actions) <= Longest(s, d, Gains(s, actions))
  {
    RunPays(s, actions, d);
    EarnedIs(s, actions, d);
  }

  // ----- Runs without end

  function Prefix(acts: nat -> Action, k: nat): (r: seq<Action>)
    ensures |r| == k
  {
    seq(k, i requires 0 <= i < k => acts(i))
  }

  lemma PrefixNext(acts: nat -> Action, k: nat, next: nat)
    requires next == k + 1
    ensures Prefix(acts, next) == Prefix(acts, k) + [acts(k)]
  {
  }

  ghost predicate Endless(s: State, acts: nat -> Action, d: nat, gains: nat) {
    forall k: nat :: EndlessTo(s, acts, d, gains, k)
  }

  ghost predicate EndlessTo(s: State, acts: nat -> Action, d: nat, gains: nat, k: nat) {
    Small(acts(k), d) && Run(s, Prefix(acts, k), true).Some? && Gains(s, Prefix(acts, k)) <= gains
  }

  ghost predicate EndedBy(s: State, acts: nat -> Action, k: nat) {
    Run(s, Prefix(acts, k), true).Some? && Finished(Run(s, Prefix(acts, k), true).value)
  }

  ghost predicate EndedBefore(s: State, acts: nat -> Action, k: nat) { exists j: nat :: j <= k && EndedBy(s, acts, j) }

  /** A run that meets the delivery assumption and goes on until the query has ended, if it ever does; it accepts
      candidates only up to `gains`, of which there are finitely many as no vertex is accepted twice. */
  ghost predicate GoesOn(s: State, acts: nat -> Action, d: nat, gains: nat) {
    forall k: nat :: EndedBefore(s, acts, k) || EndlessTo(s, acts, d, gains, k)
  }

  /** Step k is no polling. */
  ghost predicate MovesAt(s: State, acts: nat -> Action, k: nat) {
    Run(s, Prefix(acts, k), true).Some? && !Polls(Run(s, Prefix(acts, k), true).value, acts(k))
  }

  /** As long as the query has not ended the machines do not poll for ever. */
  ghost predicate Fair(s: State, acts: nat -> Action) {
    forall k: nat :: EndedBefore(s, acts, k) || exists j: nat :: k <= j && MovesAt(s, acts, j)
  }

  lemma NextMove(s: State, acts: nat -> Action, d: nat, gains: nat, k: nat, next: nat)
    requires Endless(s, acts, d, gains) && next == k + 1
    ensures EndlessTo(s, acts, d, gains, k) && EndlessTo(s, acts, d, gains, next)
    ensures Moves(s, Prefix(acts, next)) == Moves(s, Prefix(acts, k)) + if MovesAt(s, acts, k) then 1 else 0
  {
    PrefixNext(acts, k, next);
    assert EndlessTo(s, acts, d, gains, k) && EndlessTo(s, acts, d, gains, next);
    LastCounts(s, Prefix(acts, next), Prefix(acts, k), acts(k));
  }

  lemma {:induction false} MovesGrow(s: State, acts: nat -> Action, d: nat, gains: nat, j: nat, k: nat)
    requires Endless(s, acts, d, gains) && j <= k
    ensures EndlessTo(s, acts, d, gains, j) && EndlessTo(s, acts, d, gains, k)
    ensures Moves(s, Prefix(acts, j)) <= Moves(s, Prefix(acts, k))
    decreases k - j
  {
    if j < k {
      var before := k - 1;
      MovesGrow(s, acts, d, gains, j, before);
      NextMove(s, acts, d, gains, before, k);
    }
  }

  lemma {:induction false} ManyMoves(s: State, acts: nat -> Action, d: nat, gains: nat, count: nat) returns (k: nat)
    requires Endless(s, acts, d, gains) && Fair(s, acts) && forall k: nat :: !EndedBy(s, acts, k)
    ensures EndlessTo(s, acts, d, gains, k) && Moves(s, Prefix(acts, k)) >= count
  {
    if count == 0 {
      k := 0;
    } else {
      var before := ManyMoves(s, acts, d, gains, count - 1);
      assert !EndedBefore(s, acts, before);
      var j: nat :| before <= j && MovesAt(s, acts, j);
      k := j + 1;
      MovesGrow(s, acts, d, gains, before, j);
      NextMove(s, acts, d, gains, j, k);
    }
  }

  lemma PrefixSmall(s: State, acts: nat -> Action, d: nat, gains: nat, k: nat)
    requires Endless(s, acts, d, gains)
    ensures AllSmall(Prefix(acts, k), d)
  {
    forall j | 0 <= j < k
      ensures Small(Prefix(acts, k)[j], d)
    {
      assert EndlessTo(s, acts, d, gains, j);
    }
  }

  lemma MovesBounded(s: State, acts: nat -> Action, d: nat, gains: nat, k: nat)
    requires Initial(s) && |s.cores| > 1 && Endless(s, acts, d, gains) && EndlessTo(s, acts, d, gains, k)
    ensures Moves(s, Prefix(acts, k)) <= Longest(s, d, gains)
  {
    PrefixSmall(s, acts, d, gains, k);
    RunsAreBounded(s, Prefix(acts, k), d);
    Times(GainCost(|s.cores|, d), Gains(s, Prefix(acts, k)), gains);
  }

  /** Every fair run that meets the delivery assumption ends the query, with nothing left. */
  lemma FairRunsEnd(s: State, acts: nat -> Action, d: nat, gains: nat) returns (k: nat)
    requires Initial(s) && |s.cores| > 1 && GoesOn(s, acts, d, gains) && Fair(s, acts)
    ensures EndedBy(s, acts, k) && NothingLeft(Run(s, Prefix(acts, k), true).value)
  {
    if forall k: nat :: !EndedBy(s, acts, k) {
      assert forall k: nat :: !EndedBefore(s, acts, k);
      k := ManyMoves(s, acts, d, gains, Longest(s, d, gains) + 1);
      MovesBounded(s, acts, d, gains, k);
      assert false;
    } else {
      k :| EndedBy(s, acts, k);
      RingTerminationSafe(s, Prefix(acts, k));
    }
  }

  // ----- Fair runs exist

  lemma {:induction false} SmallEnough(actions: seq<Action>) returns (d: nat)
    ensures AllSmall(actions, d)
  {
    d := 0;
    if actions != [] {
      var front, a := actions[..|actions| - 1], actions[|actions| - 1];
      var e := SmallEnough(front);
      var own := if a.Expand? then |a.issued| else if a.RunNodeTask? then |a.out| else 0;
      d := e + own;
      forall k | 0 <= k < |actions|
        ensures Small(actions[k], d)
      {
        assert k < |front| ==> actions[k] == front[k];
      }
    }
  }

  lemma {:induction false} RunJoined(s: State, actions: seq<Action>, more: seq<Action>)
    requires Run(s, actions, true).Some? && Run(Run(s, actions, true).value, more, true).Some?
    ensures Run(s, actions + more, true) == Run(Run(s, actions, true).value, more, true)
    decreases |more|
  {
    if more == [] {
      assert actions + more == actions;
    } else {
      var front := more[..|more| - 1];
      RunJoined(s, actions, front);
      assert (actions + more)[..|actions + more| - 1] == actions + front;
    }
  }

  lemma {:induction false} Beginning(s: State, actions: seq<Action>, k: nat)
    requires Run(s, actions, true).Some? && k <= |actions|
    ensures Run(s, actions[..k], true).Some? && Gains(s, actions[..k]) <= Gains(s, actions)
    decreases |actions|
  {
    if k < |actions| {
      var front := actions[..|actions| - 1];
      assert front[..k] == actions[..k];
      Beginning(s, front, k);
    } else {
      assert actions[..k] == actions;
    }
  }

  lemma PollingEndsNothing(s: State, a: Action)
    requires Enabled(s, a) && Polls(s, a) && Finished(Apply(s, a))
    ensures Finished(s)
  {
    var t := Apply(s, a);
    var i :| 0 <= i < |t.cores| && t.cores[i].phase.Ended?;
    assert s.cores[i].phase.Ended?;
  }

  /** Polling ends no query: behind any point before its end there is another step. */
  lemma {:induction false} MoveBeforeEnd(s: State, actions: seq<Action>, k: nat) returns (j: nat)
    requires Run(s, actions, true).Some? && Finished(Run(s, actions, true).value) && k <= |actions|
    ensures Run(s, actions[..k], true).Some?
    ensures Finished(Run(s, actions[..k], true).value) ||
            (k <= j < |actions| && Run(s, actions[..j], true).Some? && !Polls(Run(s, actions[..j], true).value, actions[j]))
    decreases |actions|
  {
    j := 0;
    Beginning(s, actions, k);
    if k == |actions| {
      assert actions[..k] == actions;
    } else {
      var last := |actions| - 1;
      var front := actions[..last];
      var t := Run(s, front, true).value;
      if Polls(t, actions[last]) {
        PollingEndsNothing(t, actions[last]);
        j := MoveBeforeEnd(s, front, k);
        assert front[..k] == actions[..k];
        assert j < last ==> front[..j] == actions[..j];
      } else {
        j := last;
      }
    }
  }

  lemma BeforeEnd(s: State, acts: nat -> Action, all: seq<Action>, d: nat, k: nat)
    requires Run(s, all, true).Some? && Finished(Run(s, all, true).value) && AllSmall(all, d)
    requires Prefix(acts, |all|) == all && k < |all| && !EndedBy(s, acts, k)
    ensures EndlessTo(s, acts, d, Gains(s, all), k) && exists j: nat :: k <= j && MovesAt(s, acts, j)
  {
    assert Prefix(acts, k) == all[..k] && acts(k) == all[k];
    Beginning(s, all, k);
    var j := MoveBeforeEnd(s, all, k);
    assert Prefix(acts, j) == all[..j] && acts(j) == all[j];
    assert MovesAt(s, acts, j);
  }

  /** Every run that meets the delivery assumption can be continued as a fair one. */
  lemma FairRunExists(s: State, actions: seq<Action>) returns (acts: nat -> Action, d: nat, gains: nat)
    requires Initial(s) && |s.cores| > 1 && Run(s, actions, true).Some?
    ensures Prefix(acts, |actions|) == actions && GoesOn(s, acts, d, gains) && Fair(s, acts)
  {
    var more := RingCanAlwaysEnd(s, actions);
    var all := actions + more;
    RunJoined(s, actions, more);
    acts := (k: nat) => if k < |all| then all[k] else Start(0);
    d := SmallEnough(all);
    gains := Gains(s, all);
    assert Prefix(acts, |all|) == all;
    assert EndedBy(s, acts, |all|);
    forall k: nat | !EndedBefore(s, acts, k)
      ensures EndlessTo(s, acts, d, gains, k) && exists j: nat :: k <= j && MovesAt(s, acts, j)
    {
      assert k < |all|;
      BeforeEnd(s, acts, all, d, k);
    }
  }
}
