/** Two core machines, FIFO channels, no non-core helpers: the delivery assumption comes for free. */
module RingFifo {
  import opened SubQueryRing
  import opened RingTermination

  /** A SYNC arrives only after every earlier SYNC on its channel; without `helpers` no vertex goes to a
      helper. */
  predicate InOrder(s: State, a: Action, helpers: bool) {
    && (a.Deliver? && a.k < |s.net| && s.net[a.k].Sync? ==>
          forall j :: 0 <= j < a.k && s.net[j].Sync? ==>
            s.net[j].cause != s.net[a.k].cause || s.net[j].dst != s.net[a.k].dst)
    && (a.Expand? && !helpers ==> NodeTask(a.i) !in a.issued)
  }

  predicate AllInOrder(s: State, actions: seq<Action>, helpers: bool) {
    actions != [] ==>
      && var before := actions[..|actions| - 1];
         AllInOrder(s, before, helpers)
         && (Run(s, before, false).Some? ==> InOrder(Run(s, before, false).value, actions[|actions| - 1], helpers))
  }

  predicate IsOld(s: State, m: Msg) {
    m.IsWork() && m.cause < |s.cores| && m.epoch != s.cores[m.cause].passes
  }

  /** Nothing of a helper, and work from before its machine's last pass is followed by the token that
      machine sent. */
  ghost predicate TokenFollows(s: State, k: nat)
    requires k < |s.net|
  {
    && !s.net[k].NodeTask? && !s.net[k].NodeSync?
    && (IsOld(s, s.net[k]) ==>
          exists j :: k <= j < |s.net| && s.net[j].HasToken() && s.net[j].cause == s.net[k].cause)
  }

  ghost predicate Ordered(s: State) {
    forall k :: 0 <= k < |s.net| ==> TokenFollows(s, k)
  }

  lemma NothingForHelpers(s: State, k: nat)
    requires Ordered(s) && k < |s.net|
    ensures !s.net[k].NodeTask? && !s.net[k].NodeSync?
  {
    assert TokenFollows(s, k);
  }

  lemma {:induction false} TokenUnique(ms: seq<Msg>, i: nat, j: nat)
    requires i < j < |ms| && ms[i].HasToken() && ms[j].HasToken()
    ensures Tokens(ms) >= 2
  {
    assert ms == ms[..j] + ms[j..];
    TokensConcat(ms[..j], ms[j..]);
    assert ms[..j][i] in ms[..j];
    TokensAtLeast(ms[..j], ms[i]);
    assert ms[j..][0] in ms[j..];
    TokensAtLeast(ms[j..], ms[j]);
  }

  /** In order, the token is never ahead of older work of the machine it goes to. */
  lemma GuardHolds(s: State, a: Action)
    requires Stable(s) && |s.cores| == 2 && Ordered(s) && Enabled(s, a)
    ensures DeliveryGuard(s, a)
  {
    if a.Deliver? && s.net[a.k].HasToken() {
      var d := s.net[a.k].dst;
      assert s.net[a.k] in s.net && MsgOk(s, s.net[a.k]);
      forall m | m in s.net && m.IsWork() && m.cause == d
        ensures m.epoch == s.cores[d].passes
      {
        if m.epoch != s.cores[d].passes {
          var k :| 0 <= k < |s.net| && s.net[k] == m;
          assert TokenFollows(s, k);
          var j :| k <= j < |s.net| && s.net[j].HasToken() && s.net[j].cause == d;
          TokenUnique(s.net, if j < a.k then j else a.k, if j < a.k then a.k else j);
        }
      }
    }
  }

  /** Appending fresh messages. */
  lemma AppendKeepsOrder(s: State, t: State, add: seq<Msg>)
    requires Ordered(s) && t.net == s.net + add && |t.cores| == |s.cores|
    requires forall i :: 0 <= i < |s.cores| ==> t.cores[i].passes == s.cores[i].passes
    requires forall m :: m in add ==> !m.NodeTask? && !m.NodeSync? && !IsOld(s, m)
    ensures Ordered(t)
  {
    forall k | 0 <= k < |t.net|
      ensures TokenFollows(t, k)
    {
      if k >= |s.net| {
        assert t.net[k] == add[k - |s.net|];
      } else {
        assert TokenFollows(s, k);
      }
      if k < |s.net| && IsOld(t, t.net[k]) {
        var j :| k <= j < |s.net| && s.net[j].HasToken() && s.net[j].cause == s.net[k].cause;
        assert t.net[j] == s.net[j];
      }
    }
  }

  /** Taking out a message that is not the token, or a token no older work of its machine precedes. */
  lemma RemoveKeepsOrder(s: State, t: State, d: nat)
    requires Ordered(s) && d < |s.net| && t.net == Remove(s.net, d) && |t.cores| == |s.cores|
    requires forall i :: 0 <= i < |s.cores| ==> t.cores[i].passes == s.cores[i].passes
    requires s.net[d].HasToken() ==> Tokens(s.net) < 2
    requires s.net[d].HasToken() ==> forall j :: 0 <= j < d && s.net[j].IsWork() ==> s.net[j].cause != s.net[d].cause
    ensures Ordered(t)
  {
    InRemove(s.net, d);
    forall k | 0 <= k < |t.net|
      ensures TokenFollows(t, k)
    {
      var k0 := if k < d then k else k + 1;
      assert t.net[k] == s.net[k0];
      assert TokenFollows(s, k0);
      if IsOld(t, t.net[k]) {
        var j :| k0 <= j < |s.net| && s.net[j].HasToken() && s.net[j].cause == s.net[k0].cause;
        if j != d {
          if s.net[d].HasToken() {
            TokenUnique(s.net, if j < d then j else d, if j < d then d else j);
          }
          var j0 := if j < d then j else j - 1;
          assert t.net[j0] == s.net[j];
        }
      }
    }
  }

  /** Passing the token on posts one message, behind all others. */
  lemma VisitPosts(s: State, i: nat) returns (posted: Msg)
    requires Stable(s) && |s.cores| == 2 && Visits(s, Test(i)) && !Terminates(s, i)
    ensures posted.Sync? && posted.HasToken() && posted.cause == i && posted.epoch == s.cores[i].passes
    ensures var t := VisitToken(s, i);
            && t.net == s.net + [posted] && |t.cores| == 2
            && t.cores[i].passes == s.cores[i].passes + 1 && t.cores[1 - i].passes == s.cores[1 - i].passes
  {
    var c := s.cores[i];
    var token := Token((c.tokenIsBlack || c.procIsBlack) && !IsLeader(2, i));
    SyncMsgsOfTwo(i, c, token);
    posted := SyncMsgs(2, i, c, token, 2)[0];
  }

  lemma VisitKeepsFollow(s: State, t: State, i: nat, posted: Msg, k: nat)
    requires Ordered(s) && |s.cores| == |t.cores| == 2 && i < 2 && Tokens(s.net) == 0
    requires t.net == s.net + [posted] && posted.Sync? && posted.HasToken() && posted.cause == i
    requires t.cores[1 - i].passes == s.cores[1 - i].passes && k < |t.net|
    ensures TokenFollows(t, k)
  {
    var m, last := t.net[k], |s.net|;
    assert t.net[last] == posted;
    if k < last {
      assert m == s.net[k] && TokenFollows(s, k);
      if IsOld(t, m) && m.cause != i {
        var j :| k <= j < |s.net| && s.net[j].HasToken() && s.net[j].cause == m.cause;
        TokensAtLeast(s.net, s.net[j]);
        assert false;
      }
    }
  }

  lemma VisitKeepsOrder(s: State, i: nat)
    requires Stable(s) && |s.cores| == 2 && Ordered(s) && Visits(s, Test(i)) && !Terminates(s, i)
    ensures Ordered(VisitToken(s, i))
  {
    var t := VisitToken(s, i);
    var posted := VisitPosts(s, i);
    assert Tokens(s.net) == 0;
    forall k | 0 <= k < |t.net|
      ensures TokenFollows(t, k)
    {
      VisitKeepsFollow(s, t, i, posted, k);
    }
  }

  lemma SyncMsgsOfTwo(i: nat, c: Core, token: Token)
    requires i < 2 == |c.unsent|
    ensures SyncMsgs(2, i, c, token, 2) == [Sync(i, c.passes, 1 - i, c.unsent[1 - i], token)]
  {
    assert SyncMsgs(2, i, c, token, 0) == [];
    assert SyncMsgs(2, i, c, token, 1) == if i == 0 then [] else [Sync(1, c.passes, 0, c.unsent[0], token)];
  }

  lemma StepKeepsOrder(s: State, a: Action)
    requires Stable(s) && |s.cores| == 2 && Ordered(s) && Enabled(s, a) && InOrder(s, a, false)
    ensures Ordered(Apply(s, a))
  {
    var t := Apply(s, a);
    match a
    case Start(i) => AppendKeepsOrder(s, t, []);
    case Deliver(k, cands) => DeliverKeepsOrder(s, k, cands);
    case RunTask(k) => TaskKeepsOrder(s, k);
    case RunNodeTask(k, out) =>
      NothingForHelpers(s, k);
      assert false;
    case RunBalance(k) => RemoveKeepsOrder(s, t, k);
    case Resume(i, accepted, cands) => AppendKeepsOrder(s, t, []);
    case Expand(i, group, issued, found) => ExpandKeepsOrder(s, i, group, issued, found);
    case Test(i) =>
      if Visits(s, a) && !Terminates(s, i) {
        VisitKeepsOrder(s, i);
      } else {
        TestKeepsOrder(s, i);
      }
  }

  lemma TaskKeepsOrder(s: State, k: nat)
    requires Ordered(s) && Enabled(s, RunTask(k))
    ensures Ordered(Apply(s, RunTask(k)))
  {
    var mid := s.(net := Remove(s.net, k));
    RemoveKeepsOrder(s, mid, k);
    AppendKeepsOrder(mid, Apply(s, RunTask(k)), [Result(s.net[k].owner, s.net[k].core, s.net[k].nocore)]);
  }

  lemma ExpandKeepsOrder(s: State, i: nat, group: nat, issued: seq<Msg>, found: seq<nat>)
    requires Ordered(s) && Enabled(s, Expand(i, group, issued, found)) && NodeTask(i) !in issued
    ensures Ordered(ExpandGroup(s, i, group, issued, found))
  {
    var n := |s.cores|;
    var c1 := Expanded(s.cores[i], group, issued, found);
    SyncMsgsFacts(n, i, c1, NoToken, n);
    var add := issued + if c1.syncStep >= SYNC_BAR then SyncMsgs(n, i, c1, NoToken, n) else [];
    var t := ExpandGroup(s, i, group, issued, found);
    assert t.net == s.net + add;
    AppendKeepsOrder(s, t, add);
  }

  lemma TestKeepsOrder(s: State, i: nat)
    requires |s.cores| == 2 && Ordered(s) && Enabled(s, Test(i))
    requires Visits(s, Test(i)) ==> Terminates(s, i)
    ensures Ordered(Apply(s, Test(i)))
  {
    var t := Apply(s, Test(i));
    assert t.net == s.net + [];
    AppendKeepsOrder(s, t, []);
  }

  lemma DeliverKeepsOrder(s: State, k: nat, cands: nat)
    requires Stable(s) && |s.cores| == 2 && Ordered(s) && Enabled(s, Deliver(k, cands)) && InOrder(s, Deliver(k, cands), false)
    ensures Ordered(Apply(s, Deliver(k, cands)))
  {
    var m := s.net[k];
    if m.HasToken() {
      forall j | 0 <= j < k && s.net[j].IsWork()
        ensures s.net[j].cause != m.cause
      {
        NothingForHelpers(s, j);
        assert s.net[j] in s.net && MsgOk(s, s.net[j]);
        assert m in s.net && MsgOk(s, m);
      }
    }
    RemoveKeepsOrder(s, Apply(s, Deliver(k, cands)), k);
  }

  lemma {:induction false} OrderedRun(s: State, actions: seq<Action>)
    requires Initial(s) && |s.cores| == 2 && AllInOrder(s, actions, false) && Run(s, actions, false).Some?
    ensures Run(s, actions, true) == Run(s, actions, false)
    ensures var t := Run(s, actions, true).value;
            |t.cores| == 2 && Stable(t) && Ordered(t)
    decreases |actions|
  {
    if actions == [] {
      InitialIsStable(s);
    } else {
      var before, a := actions[..|actions| - 1], actions[|actions| - 1];
      OrderedRun(s, before);
      var t := Run(s, before, true).value;
      GuardHolds(t, a);
      StepKeepsStable(t, a);
      StepKeepsOrder(t, a);
      RunKeepsCount(s, actions, true);
    }
  }

  /** With two core machines, FIFO channels and no helpers, ring termination is safe in every run,
      with no assumption on when messages are delivered. */
  lemma TwoCoreFifoSafe(s: State, actions: seq<Action>)
    requires Initial(s) && |s.cores| == 2 && AllInOrder(s, actions, false) && Run(s, actions, false).Some?
    ensures Finished(Run(s, actions, false).value) ==> NothingLeft(Run(s, actions, false).value)
  {
    OrderedRun(s, actions);
    RingTerminationSafe(s, actions);
  }
}
