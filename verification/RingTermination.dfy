/** Why an idle test that succeeds is right, and why two white circuits of the token are enough. */
module RingTermination {
  import opened Options
  import opened SubQueryRing

  // ----- What is claimed

  /** Nothing of the query is left anywhere: only empty SYNCs may still travel. */
  ghost predicate NothingLeft(s: State) {
    && (forall m :: m in s.net ==> m.Sync? && m.work == 0)
    && forall i :: 0 <= i < |s.cores| ==> CoreIdle(s.cores[i])
  }

  ghost predicate CoreIdle(c: Core) {
    && c.cands == 0
    && AllReceived(c)
    && (forall j :: 0 <= j < |c.unsent| ==> c.unsent[j] == 0)
    && (forall m :: m in c.inq ==> m.Sync? && m.work == 0)
  }

  /** Something issued on behalf of machine i's counters is not settled. */
  predicate Outstanding(i: nat, m: Msg) { !m.Sync? && !m.NodeSync? && m.owner == i }

  // ----- Sums

  lemma {:induction false} SumConcat(kind: Kind, i: nat, a: seq<Msg>, b: seq<Msg>)
    ensures Sum(kind, i, a + b) == Sum(kind, i, a) + Sum(kind, i, b)
  {
    if a == [] {
      assert a + b == b;
    } else {
      assert (a + b)[1..] == a[1..] + b;
      SumConcat(kind, i, a[1..], b);
    }
  }

  lemma SumRemove(kind: Kind, i: nat, ms: seq<Msg>, k: nat)
    requires k < |ms|
    ensures Sum(kind, i, Remove(ms, k)) == Sum(kind, i, ms) - Weight(kind, i, ms[k])
  {
    SumConcat(kind, i, ms[..k], ms[k + 1..]);
    SumConcat(kind, i, ms[..k], ms[k..]);
    assert ms == ms[..k] + ms[k..];
    assert ms[k..][1..] == ms[k + 1..];
  }

  lemma {:induction false} SumAtLeast(kind: Kind, i: nat, ms: seq<Msg>, m: Msg)
    requires m in ms
    ensures Weight(kind, i, m) <= Sum(kind, i, ms)
  {
    if ms[0] != m {
      SumAtLeast(kind, i, ms[1..], m);
    }
  }

  lemma {:induction false} SumNone(kind: Kind, i: nat, ms: seq<Msg>)
    requires forall m :: m in ms ==> Weight(kind, i, m) == 0
    ensures Sum(kind, i, ms) == 0
  {
    if ms != [] {
      SumNone(kind, i, ms[1..]);
    }
  }

  lemma {:induction false} SumOnes(kind: Kind, i: nat, ms: seq<Msg>)
    requires forall m :: m in ms ==> Weight(kind, i, m) == 1
    ensures Sum(kind, i, ms) == |ms|
  {
    if ms != [] {
      SumOnes(kind, i, ms[1..]);
    }
  }

  lemma {:induction false} TokensConcat(a: seq<Msg>, b: seq<Msg>)
    ensures Tokens(a + b) == Tokens(a) + Tokens(b)
  {
    if a == [] {
      assert a + b == b;
    } else {
      assert (a + b)[1..] == a[1..] + b;
      TokensConcat(a[1..], b);
    }
  }

  lemma TokensRemove(ms: seq<Msg>, k: nat)
    requires k < |ms|
    ensures Tokens(Remove(ms, k)) == Tokens(ms) - if ms[k].HasToken() then 1 else 0
  {
    TokensConcat(ms[..k], ms[k + 1..]);
    TokensConcat(ms[..k], ms[k..]);
    assert ms == ms[..k] + ms[k..];
    assert ms[k..][1..] == ms[k + 1..];
  }

  lemma {:induction false} TokensAtLeast(ms: seq<Msg>, m: Msg)
    requires m in ms && m.HasToken()
    ensures Tokens(ms) >= 1
  {
    if ms[0] != m {
      TokensAtLeast(ms[1..], m);
    }
  }

  lemma {:induction false} TokensNone(ms: seq<Msg>)
    requires forall m :: m in ms ==> !m.HasToken()
    ensures Tokens(ms) == 0
  {
    if ms != [] {
      TokensNone(ms[1..]);
    }
  }

  lemma InRemove(ms: seq<Msg>, k: nat)
    requires k < |ms|
    ensures forall m :: m in Remove(ms, k) ==> m in ms
  {
  }

  /** What a machine posts carries its whole unsent work, the token at most once, and no credit. */
  lemma {:induction false} SyncMsgsFacts(n: nat, i: nat, c: Core, token: Token, upto: nat)
    requires upto <= n == |c.unsent| && i < n
    ensures forall m :: m in SyncMsgs(n, i, c, token, upto) ==>
              && m.Sync? && m.cause == i && m.epoch == c.passes && m.dst < upto && m.dst != i
              && m.work == c.unsent[m.dst]
              && (m.HasToken() ==> m.token == token && m.dst == Next(n, i))
    ensures token.NoToken? ==> Tokens(SyncMsgs(n, i, c, token, upto)) == 0
    ensures token.Token? && n > 1 ==>
              Tokens(SyncMsgs(n, i, c, token, upto)) == if Next(n, i) < upto then 1 else 0
    decreases upto
  {
    if upto > 0 {
      var j := upto - 1;
      SyncMsgsFacts(n, i, c, token, j);
      var last := if j == i then [] else [Sync(i, c.passes, j, c.unsent[j], if j == Next(n, i) then token else NoToken)];
      assert SyncMsgs(n, i, c, token, upto) == SyncMsgs(n, i, c, token, j) + last;
      TokensConcat(SyncMsgs(n, i, c, token, j), last);
      assert last != [] ==> last[1..] == [];
    }
  }

  // ----- The invariant

  ghost predicate MsgOk(s: State, m: Msg) {
    var n := |s.cores|;
    match m
    case Sync(c, e, d, _, _) => c < n && d < n && c != d && e <= s.cores[c].passes
    case NodeSync(c, e, d, w) => c < n && d < n && e <= s.cores[c].passes && w > 0
    case Task(o, c, k) => o < n && c + k > 0
    case Result(o, c, k) => o < n && c + k > 0
    case Chunk(_) => false
    case _ => m.owner < n
  }

  ghost predicate QueuedOk(n: nat, i: nat, m: Msg) {
    match m
    case Read(o) => o == i
    case Chunk(o) => o == i
    case Result(o, c, k) => o == i && c + k > 0
    case Sync(c, _, _, _, _) => c < n && c != i
    case NodeSync(_, _, _, w) => w > 0
    case _ => false
  }

  ghost predicate Shape(s: State) {
    var n := |s.cores|;
    && s.at < n
    && (forall m :: m in s.net ==> MsgOk(s, m))
    && forall i :: 0 <= i < n ==> CoreShape(s, i)
  }

  ghost predicate CoreShape(s: State, i: nat)
    requires i < |s.cores|
  {
    var c := s.cores[i];
    && |c.unsent| == |s.cores| && c.unsent[i] == 0
    && forall m :: m in c.inq ==> QueuedOk(|s.cores|, i, m)
  }

  /** Exactly one token, held by machine `at` or on its way there. */
  ghost predicate OneToken(s: State)
    requires s.at < |s.cores|
  {
    && Tokens(s.net) + (if s.cores[s.at].hasToken then 1 else 0) == 1
    && (forall m :: m in s.net && m.HasToken() ==> m.dst == s.at)
    && forall i :: 0 <= i < |s.cores| ==>
         (s.cores[i].hasToken ==> i == s.at) && (s.cores[i].tokenIsBlack ==> s.cores[i].hasToken)
  }

  /** The counters of machine i account for everything issued on its behalf. */
  ghost predicate Credit(s: State, i: nat)
    requires i < |s.cores|
  {
    var c := s.cores[i];
    && c.post == c.recv + Sum(CoreCredit, i, s.net) + Sum(CoreCredit, i, c.inq)
    && c.nocorePost + Sum(Announced, i, s.net)
       == c.nocoreRecv + Sum(NocoreCredit, i, s.net) + Sum(NocoreCredit, i, c.inq)
  }

  ghost predicate NoWork(ms: seq<Msg>) { forall m :: m in ms ==> !m.IsWork() }

  /** A white machine has done nothing since it last passed the token. */
  ghost predicate WhiteIsIdle(s: State, i: nat)
    requires i < |s.cores|
  {
    var c := s.cores[i];
    !c.procIsBlack ==>
      && c.cands == 0 && AllReceived(c) && !c.phase.Waiting?
      && (forall j :: 0 <= j < |c.unsent| ==> c.unsent[j] == 0)
      && (c.phase.Select? ==> NoWork(c.inq))
      && forall m :: m in s.net && m.IsWork() && m.cause == i ==> m.epoch != c.passes
  }

  /** While a machine holds the token, none of its older work is undelivered. */
  ghost predicate HolderIsFresh(s: State)
    requires s.at < |s.cores|
  {
    s.cores[s.at].hasToken ==>
      forall m :: m in s.net && m.IsWork() && m.cause == s.at ==> m.epoch == s.cores[s.at].passes
  }

  ghost predicate TokenBlack(s: State) {
    || (exists m :: m in s.net && m.HasToken() && m.token.black)
    || (s.at < |s.cores| && s.cores[s.at].tokenIsBlack)
  }

  /** A machine still to be visited in this circuit is black. */
  ghost predicate BlackAhead(s: State) {
    exists j :: s.at <= j < |s.cores| && s.cores[j].procIsBlack
  }

  /** Every circuit: unless it is bound to fail, the machines visited so far have no work under way
      that is older than their visit. */
  ghost predicate FirstCircuit(s: State) {
    || TokenBlack(s) || BlackAhead(s)
    || forall m :: m in s.net && m.IsWork() && m.cause < s.at && m.cause < |s.cores| ==>
         m.epoch == s.cores[m.cause].passes
  }

  ghost predicate QuietBehind(s: State) {
    && NoWork(s.net)
    && forall i :: 0 <= i < s.at && i < |s.cores| ==> !s.cores[i].procIsBlack && NoWork(s.cores[i].inq)
  }

  /** A circuit after a white one: unless it is bound to fail, no work is under way and the machines
      visited so far are idle for good. */
  ghost predicate SecondCircuit(s: State)
    requires |s.cores| > 0
  {
    s.cores[|s.cores| - 1].lastIsWhite ==> TokenBlack(s) || BlackAhead(s) || QuietBehind(s)
  }

  ghost predicate Finished(s: State) { exists i :: 0 <= i < |s.cores| && s.cores[i].phase.Ended? }

  ghost predicate AllQuiet(s: State) {
    && NoWork(s.net)
    && forall i :: 0 <= i < |s.cores| ==> !s.cores[i].procIsBlack && NoWork(s.cores[i].inq)
  }

  /** The part of the invariant that needs no assumption on delivery. */
  ghost predicate Basic(s: State) {
    && Shape(s)
    && (forall i :: 0 <= i < |s.cores| ==> Credit(s, i))
    && (forall i :: 0 <= i < |s.cores| && s.cores[i].phase.Ended? ==>
          AllReceived(s.cores[i]) && s.cores[i].cands == 0)
  }

  ghost predicate Ring(s: State)
    requires |s.cores| > 0 && s.at < |s.cores|
  {
    && OneToken(s)
    && (forall i :: 0 <= i < |s.cores| ==> WhiteIsIdle(s, i))
    && HolderIsFresh(s)
    && FirstCircuit(s)
    && SecondCircuit(s)
    && (Finished(s) ==> AllQuiet(s))
  }

  // ----- Steps keep the shape and the accounts

  lemma CoreShapeKept(s: State, a: Action, i: nat)
    requires Shape(s) && Enabled(s, a) && i < |s.cores|
    ensures |Apply(s, a).cores| == |s.cores| && CoreShape(Apply(s, a), i)
  {
    assert CoreShape(s, i);
    match a
    case Deliver(k, cands) => ArrivedShape(s, k, cands, i);
    case _ =>
  }

  lemma ArrivedShape(s: State, k: nat, cands: nat, i: nat)
    requires Shape(s) && Enabled(s, Deliver(k, cands)) && i < |s.cores|
    ensures CoreShape(Apply(s, Deliver(k, cands)), i)
  {
    assert CoreShape(s, i) && s.net[k] in s.net && MsgOk(s, s.net[k]);
  }

  lemma ShapeKept(s: State, a: Action)
    requires Shape(s) && Enabled(s, a)
    ensures Shape(Apply(s, a))
  {
    var t := Apply(s, a);
    forall i | 0 <= i < |s.cores|
      ensures |t.cores| == |s.cores| && CoreShape(t, i)
    {
      CoreShapeKept(s, a, i);
    }
    forall m | m in t.net
      ensures MsgOk(t, m)
    {
      NewMessages(s, a, m);
    }
  }

  /** Taking one message out and putting others in. */
  lemma MessageStaysOk(s: State, t: State, k: nat, m: Msg)
    requires Shape(s) && k < |s.net| && m in Remove(s.net, k) && |t.cores| == |s.cores|
    requires forall i :: 0 <= i < |s.cores| ==> t.cores[i].passes == s.cores[i].passes
    ensures MsgOk(t, m)
  {
    InRemove(s.net, k);
    assert MsgOk(s, m);
  }

  lemma HelperMessages(s: State, a: Action, m: Msg)
    requires Shape(s) && Enabled(s, a) && (a.RunTask? || a.RunNodeTask?) && m in Apply(s, a).net
    ensures MsgOk(Apply(s, a), m)
  {
    var t := Apply(s, a);
    assert MsgOk(s, s.net[a.k]);
    if m in Remove(s.net, a.k) {
      MessageStaysOk(s, t, a.k, m);
    }
  }

  /** What is under way after a step is well formed. */
  lemma NewMessages(s: State, a: Action, m: Msg)
    requires Shape(s) && Enabled(s, a) && m in Apply(s, a).net
    ensures MsgOk(Apply(s, a), m)
  {
    var t := Apply(s, a);
    match a
    case Start(i) =>
    case Deliver(k, cands) => MessageStaysOk(s, t, k, m);
    case RunTask(k) => HelperMessages(s, a, m);
    case RunNodeTask(k, out) => HelperMessages(s, a, m);
    case RunBalance(k) => MessageStaysOk(s, t, k, m);
    case Resume(i, accepted, cands) =>
    case Expand(i, group, issued, found) =>
      ExpandMessages(s, i, group, issued, found, m);
    case Test(i) =>
      if t.net != s.net {
        VisitMessages(s, i, m);
      }
  }

  lemma ExpandMessages(s: State, i: nat, group: nat, issued: seq<Msg>, found: seq<nat>, m: Msg)
    requires i < |s.cores| == |found| == |s.cores[i].unsent| && group <= s.cores[i].cands
    requires m in ExpandGroup(s, i, group, issued, found).net
    ensures || m in s.net || m in issued
            || (m.Sync? && m.cause == i && m.epoch == s.cores[i].passes && m.dst < |s.cores| && m.dst != i
                && m.token.NoToken?)
  {
    SyncMsgsFacts(|s.cores|, i, Expanded(s.cores[i], group, issued, found), NoToken, |s.cores|);
  }

  lemma VisitMessages(s: State, i: nat, m: Msg)
    requires i < |s.cores| == |s.cores[i].unsent|
    requires m in VisitToken(s, i).net
    ensures || m in s.net
            || (m.Sync? && m.cause == i && m.epoch == s.cores[i].passes && m.dst < |s.cores| && m.dst != i
                && m.work == s.cores[i].unsent[m.dst] && (m.HasToken() ==> m.dst == Next(|s.cores|, i)))
  {
    var failed := s.cores[i].tokenIsBlack || s.cores[i].procIsBlack;
    SyncMsgsFacts(|s.cores|, i, s.cores[i], Token(failed && !IsLeader(|s.cores|, i)), |s.cores|);
  }

  lemma SumOne(kind: Kind, i: nat, m: Msg)
    ensures Sum(kind, i, [m]) == Weight(kind, i, m)
  {
    assert [m][1..] == [];
  }

  lemma SumReplace(kind: Kind, i: nat, ms: seq<Msg>, k: nat, add: seq<Msg>)
    requires k < |ms|
    ensures Sum(kind, i, Remove(ms, k) + add) == Sum(kind, i, ms) - Weight(kind, i, ms[k]) + Sum(kind, i, add)
  {
    SumRemove(kind, i, ms, k);
    SumConcat(kind, i, Remove(ms, k), add);
  }

  lemma CreditKept(s: State, a: Action, j: nat)
    requires Shape(s) && Enabled(s, a) && j < |s.cores| && Credit(s, j)
    ensures Credit(Apply(s, a), j)
  {
    match a
    case Start(i) =>
    case Deliver(k, cands) => DeliverKeepsCredit(s, k, cands, j);
    case RunTask(k) => TaskKeepsCredit(s, k, j);
    case RunNodeTask(k, out) => NodeTaskKeepsCredit(s, k, out, j);
    case RunBalance(k) => BalanceKeepsCredit(s, k, j);
    case Resume(i, accepted, cands) =>
    case Expand(i, group, issued, found) => ExpandKeepsCredit(s, i, group, issued, found, j);
    case Test(i) => TestKeepsCredit(s, i, j);
  }

  lemma TestKeepsCredit(s: State, i: nat, j: nat)
    requires Shape(s) && Enabled(s, Test(i)) && j < |s.cores| && Credit(s, j)
    ensures Credit(Apply(s, Test(i)), j)
  {
    var c, t := s.cores[i], Apply(s, Test(i));
    if AllReceived(c) && |s.cores| > 1 && c.hasToken {
      VisitKeepsCredit(s, i, j);
    } else {
      assert t.net == s.net;
      assert t.cores[j] == s.cores[j].(phase := t.cores[j].phase);
    }
  }

  lemma TaskKeepsCredit(s: State, k: nat, j: nat)
    requires Enabled(s, RunTask(k)) && j < |s.cores| && Credit(s, j)
    ensures Credit(Apply(s, RunTask(k)), j)
  {
    var r := Result(s.net[k].owner, s.net[k].core, s.net[k].nocore);
    forall kind: Kind
      ensures Sum(kind, j, Remove(s.net, k) + [r]) == Sum(kind, j, s.net)
    {
      SumReplace(kind, j, s.net, k, [r]);
      SumOne(kind, j, r);
    }
  }

  lemma BalanceKeepsCredit(s: State, k: nat, j: nat)
    requires Enabled(s, RunBalance(k)) && j < |s.cores| && Credit(s, j)
    ensures Credit(Apply(s, RunBalance(k)), j)
  {
    var i := s.net[k].owner;
    forall kind: Kind
      ensures Sum(kind, j, Remove(s.net, k)) == Sum(kind, j, s.net) - Weight(kind, j, s.net[k])
      ensures Sum(kind, j, s.cores[i].inq + [Chunk(i)]) == Sum(kind, j, s.cores[i].inq) + Weight(kind, j, Chunk(i))
    {
      SumRemove(kind, j, s.net, k);
      SumConcat(kind, j, s.cores[i].inq, [Chunk(i)]);
      SumOne(kind, j, Chunk(i));
    }
  }

  lemma DeliverKeepsCredit(s: State, k: nat, cands: nat, j: nat)
    requires Shape(s) && Enabled(s, Deliver(k, cands)) && j < |s.cores| && Credit(s, j)
    ensures Credit(Apply(s, Deliver(k, cands)), j)
  {
    var m := s.net[k];
    assert m in s.net && MsgOk(s, m);
    if j == Home(m) {
      ArrivalCredit(s, k, cands, j);
    } else {
      forall kind: Kind
        ensures Sum(kind, j, Remove(s.net, k)) == Sum(kind, j, s.net)
      {
        SumRemove(kind, j, s.net, k);
      }
    }
  }

  lemma ArrivalCredit(s: State, k: nat, cands: nat, j: nat)
    requires Shape(s) && Enabled(s, Deliver(k, cands)) && j == Home(s.net[k]) && Credit(s, j)
    ensures Credit(Apply(s, Deliver(k, cands)), j)
  {
    var m, inq := s.net[k], s.cores[j].inq;
    var arrived := if m.NodeResult? then Result(m.owner, 1, 0) else m;
    var t := Apply(s, Deliver(k, cands));
    assert t.cores[j].inq == inq + [arrived] && t.net == Remove(s.net, k);
    forall kind: Kind
      ensures Sum(kind, j, t.net) == Sum(kind, j, s.net) - Weight(kind, j, m)
      ensures Sum(kind, j, t.cores[j].inq) == Sum(kind, j, inq) + Weight(kind, j, arrived)
    {
      SumRemove(kind, j, s.net, k);
      SumConcat(kind, j, inq, [arrived]);
      SumOne(kind, j, arrived);
    }
  }

  lemma NodeTaskKeepsCredit(s: State, k: nat, out: seq<Msg>, j: nat)
    requires Shape(s) && Enabled(s, RunNodeTask(k, out)) && j < |s.cores| && Credit(s, j)
    ensures Credit(Apply(s, RunNodeTask(k, out)), j)
  {
    var i := s.net[k].owner;
    var r := NodeResult(i, Sum(NocoreCredit, i, out));
    assert Apply(s, RunNodeTask(k, out)).net == Remove(s.net, k) + ([r] + out);
    forall kind: Kind
      ensures Sum(kind, j, Remove(s.net, k) + ([r] + out))
           == Sum(kind, j, s.net) - Weight(kind, j, s.net[k]) + Weight(kind, j, r) + Sum(kind, j, out)
    {
      SumReplace(kind, j, s.net, k, [r] + out);
      SumConcat(kind, j, [r], out);
      SumOne(kind, j, r);
    }
    SumNone(CoreCredit, j, out);
    SumNone(Announced, j, out);
    if j != i {
      SumNone(NocoreCredit, j, out);
    }
  }

  lemma ExpandSums(s: State, issued: seq<Msg>, posted: seq<Msg>, kind: Kind, j: nat)
    requires forall m :: m in posted ==> m.Sync?
    ensures Sum(kind, j, s.net + issued + posted) == Sum(kind, j, s.net) + Sum(kind, j, issued)
  {
    SumConcat(kind, j, s.net + issued, posted);
    SumConcat(kind, j, s.net, issued);
    SumNone(kind, j, posted);
  }

  lemma IssuedSums(i: nat, j: nat, issued: seq<Msg>)
    requires forall m :: m in issued ==> m == Read(i) || m == Balance(i) || m == Task(i, 1, 0) || m == NodeTask(i)
    ensures Sum(NocoreCredit, j, issued) == 0 && Sum(Announced, j, issued) == 0
    ensures Sum(CoreCredit, j, issued) == if j == i then |issued| else 0
  {
    SumNone(NocoreCredit, j, issued);
    SumNone(Announced, j, issued);
    if j == i {
      SumOnes(CoreCredit, j, issued);
    } else {
      SumNone(CoreCredit, j, issued);
    }
  }

  lemma ExpandKeepsCredit(s: State, i: nat, group: nat, issued: seq<Msg>, found: seq<nat>, j: nat)
    requires Shape(s) && Enabled(s, Expand(i, group, issued, found)) && j < |s.cores| && Credit(s, j)
    ensures Credit(ExpandGroup(s, i, group, issued, found), j)
  {
    var n := |s.cores|;
    var c1 := Expanded(s.cores[i], group, issued, found);
    var posted := if c1.syncStep >= SYNC_BAR then SyncMsgs(n, i, c1, NoToken, n) else [];
    SyncMsgsFacts(n, i, c1, NoToken, n);
    var net := s.net + issued + posted;
    assert s.net + issued + [] == s.net + issued;
    ExpandSums(s, issued, posted, CoreCredit, j);
    ExpandSums(s, issued, posted, NocoreCredit, j);
    ExpandSums(s, issued, posted, Announced, j);
    IssuedSums(i, j, issued);
  }

  lemma VisitKeepsCredit(s: State, i: nat, j: nat)
    requires i < |s.cores| == |s.cores[i].unsent| && j < |s.cores| && Credit(s, j)
    ensures Credit(VisitToken(s, i), j)
  {
    var n := |s.cores|;
    var failed := s.cores[i].tokenIsBlack || s.cores[i].procIsBlack;
    var posted := SyncMsgs(n, i, s.cores[i], Token(failed && !IsLeader(n, i)), n);
    SyncMsgsFacts(n, i, s.cores[i], Token(failed && !IsLeader(n, i)), n);
    forall kind: Kind
      ensures Sum(kind, j, s.net + posted) == Sum(kind, j, s.net)
    {
      SumConcat(kind, j, s.net, posted);
      SumNone(kind, j, posted);
    }
  }

  /** Exactness of the idle test: the counters agree if and only if nothing issued on behalf of
      machine i is unsettled anywhere, however messages were reordered. */
  lemma IdleTestExact(s: State, i: nat)
    requires Basic(s) && i < |s.cores|
    ensures AllReceived(s.cores[i]) <==>
            forall m :: (m in s.net || m in s.cores[i].inq) ==> !Outstanding(i, m)
  {
    var c := s.cores[i];
    assert Credit(s, i) && CoreShape(s, i);
    if AllReceived(c) {
      forall m | m in s.net
        ensures Weight(Announced, i, m) == 0
      {
        SumAtLeast(CoreCredit, i, s.net, m);
      }
      SumNone(Announced, i, s.net);
      forall m | m in s.net
        ensures !Outstanding(i, m)
      {
        assert MsgOk(s, m);
        SumAtLeast(CoreCredit, i, s.net, m);
        SumAtLeast(NocoreCredit, i, s.net, m);
      }
      forall m | m in c.inq
        ensures !Outstanding(i, m)
      {
        assert QueuedOk(|s.cores|, i, m);
        SumAtLeast(CoreCredit, i, c.inq, m);
        SumAtLeast(NocoreCredit, i, c.inq, m);
      }
    } else if forall m :: (m in s.net || m in c.inq) ==> !Outstanding(i, m) {
      forall kind: Kind
        ensures Sum(kind, i, s.net) == Sum(kind, i, c.inq) == 0
      {
        SumNone(kind, i, s.net);
        SumNone(kind, i, c.inq);
      }
    }
  }

  // ----- Steps that do not pass the token on

  predicate Visits(s: State, a: Action) {
    && a.Test? && Enabled(s, a)
    && AllReceived(s.cores[a.i]) && |s.cores| > 1 && s.cores[a.i].hasToken
  }

  ghost predicate Stable(s: State) {
    && |s.cores| > 1 && Basic(s) && Ring(s)
  }

  lemma WhiteHasNoPayload(s: State, i: nat)
    requires Stable(s) && i < |s.cores| && !s.cores[i].procIsBlack
    requires NoWork(s.cores[i].inq)
    ensures forall m :: m in s.cores[i].inq ==> !Payload(m)
  {
    assert WhiteIsIdle(s, i) && CoreShape(s, i);
    IdleTestExact(s, i);
    assert forall m :: m in s.cores[i].inq ==> QueuedOk(|s.cores|, i, m);
  }

  lemma OwnerIsBlack(s: State, m: Msg)
    requires Stable(s) && m in s.net && !m.Sync? && !m.NodeSync? && m.owner < |s.cores|
    ensures s.cores[m.owner].procIsBlack
  {
    assert WhiteIsIdle(s, m.owner);
    IdleTestExact(s, m.owner);
  }

  /** Work is only ever caused by a machine that is black. */
  lemma WorkComesFromBlack(s: State, a: Action, m: Msg)
    requires Stable(s) && Enabled(s, a)
    requires m in Apply(s, a).net && m.IsWork()
    ensures || m in s.net
            || (m.cause < |s.cores| && s.cores[m.cause].procIsBlack && m.epoch == s.cores[m.cause].passes)
  {
    match a
    case Start(i) =>
    case Deliver(k, cands) => InRemove(s.net, k);
    case RunTask(k) => InRemove(s.net, k);
    case RunNodeTask(k, out) =>
      InRemove(s.net, k);
      OwnerIsBlack(s, s.net[k]);
    case RunBalance(k) => InRemove(s.net, k);
    case Resume(i, accepted, cands) =>
    case Expand(i, group, issued, found) =>
      ExpandMessages(s, i, group, issued, found, m);
      assert WhiteIsIdle(s, i);
    case Test(i) =>
      if Apply(s, a).net != s.net {
        VisitMessages(s, i, m);
        assert WhiteIsIdle(s, i);
      }
  }

  /** What such a step does to machine i. */
  ghost predicate LocalChange(s: State, a: Action, i: nat, c: Core, d: Core) {
    && d.passes == c.passes && d.lastIsWhite == c.lastIsWhite && (d.phase.Ended? == c.phase.Ended?)
    && (c.procIsBlack ==> d.procIsBlack)
    && (d.procIsBlack && !c.procIsBlack ==> a.Resume? && a.i == i && a.accepted)
    && forall m :: m in d.inq && m.IsWork() ==> m in c.inq || m in s.net
  }

  lemma DeliverEffect(s: State, k: nat, cands: nat, i: nat)
    requires Enabled(s, Deliver(k, cands)) && i < |s.cores|
    ensures LocalChange(s, Deliver(k, cands), i, s.cores[i], Apply(s, Deliver(k, cands)).cores[i])
  {
    assert s.net[k] in s.net;
  }

  lemma TestEffect(s: State, t: nat, i: nat)
    requires Stable(s) && Enabled(s, Test(t)) && !Visits(s, Test(t)) && i < |s.cores|
    ensures LocalChange(s, Test(t), i, s.cores[i], Apply(s, Test(t)).cores[i])
  {
  }

  lemma LocalEffect(s: State, a: Action, i: nat)
    requires Stable(s) && Enabled(s, a) && !Visits(s, a) && i < |s.cores|
    ensures Apply(s, a).at == s.at && |Apply(s, a).cores| == |s.cores|
    ensures LocalChange(s, a, i, s.cores[i], Apply(s, a).cores[i])
  {
    match a
    case Deliver(k, cands) => DeliverEffect(s, k, cands, i);
    case Test(t) => TestEffect(s, t, i);
    case _ =>
  }

  lemma DeliverTokens(s: State, k: nat, cands: nat)
    requires Stable(s) && Enabled(s, Deliver(k, cands))
    ensures OneToken(Apply(s, Deliver(k, cands)))
    ensures TokenBlack(s) ==> TokenBlack(Apply(s, Deliver(k, cands)))
  {
    if s.net[k].HasToken() {
      TokenArrives(s, k, cands);
    } else {
      TokenlessArrives(s, k, cands);
    }
  }

  lemma TokenArrives(s: State, k: nat, cands: nat)
    requires Stable(s) && Enabled(s, Deliver(k, cands)) && s.net[k].HasToken()
    ensures OneToken(Apply(s, Deliver(k, cands)))
    ensures TokenBlack(s) ==> TokenBlack(Apply(s, Deliver(k, cands)))
  {
    var m, t := s.net[k], Apply(s, Deliver(k, cands));
    assert m in s.net;
    TokensRemove(s.net, k);
    TokensAtLeast(s.net, m);
    assert t.cores[s.at].hasToken && t.cores[s.at].tokenIsBlack == m.token.black;
    forall x | x in t.net
      ensures !x.HasToken()
    {
      if x.HasToken() {
        TokensAtLeast(t.net, x);
      }
    }
    OnlyToken(s, k, m);
  }

  /** There is no other token under way than the one found. */
  lemma OnlyToken(s: State, k: nat, m: Msg)
    requires Stable(s) && k < |s.net| && s.net[k] == m && m.HasToken()
    ensures forall x :: x in s.net && x.HasToken() ==> x == m
    ensures !s.cores[s.at].hasToken
  {
    TokensRemove(s.net, k);
    assert m in s.net;
    TokensAtLeast(s.net, m);
    forall x | x in s.net && x.HasToken()
      ensures x == m
    {
      if x != m {
        var j :| 0 <= j < |s.net| && s.net[j] == x;
        assert x == Remove(s.net, k)[if j < k then j else j - 1];
        TokensAtLeast(Remove(s.net, k), x);
      }
    }
  }

  lemma TokenlessArrives(s: State, k: nat, cands: nat)
    requires Stable(s) && Enabled(s, Deliver(k, cands)) && !s.net[k].HasToken()
    ensures OneToken(Apply(s, Deliver(k, cands)))
    ensures TokenBlack(s) ==> TokenBlack(Apply(s, Deliver(k, cands)))
  {
    var t := Apply(s, Deliver(k, cands));
    TokensRemove(s.net, k);
    InRemove(s.net, k);
    if x :| x in s.net && x.HasToken() && x.token.black {
      assert x in t.net;
    }
  }

  /** Adding messages that carry no token. */
  lemma AddTokenless(s: State, t: State, kept: seq<Msg>, add: seq<Msg>)
    requires |s.cores| > 1 && s.at < |s.cores| && OneToken(s)
    requires t.at == s.at && |t.cores| == |s.cores| && t.net == kept + add
    requires Tokens(kept) == Tokens(s.net)
    requires forall m :: m in s.net && m.HasToken() ==> m in kept
    requires forall m :: m in kept ==> m in s.net
    requires forall m :: m in add ==> !m.HasToken()
    requires forall i :: 0 <= i < |s.cores| ==>
               t.cores[i].hasToken == s.cores[i].hasToken && t.cores[i].tokenIsBlack == s.cores[i].tokenIsBlack
    ensures OneToken(t) && (TokenBlack(s) ==> TokenBlack(t))
  {
    TokensConcat(kept, add);
    TokensNone(add);
    if exists m :: m in s.net && m.HasToken() && m.token.black {
      var m :| m in s.net && m.HasToken() && m.token.black;
      assert m in t.net;
    }
  }

  lemma RemovedTokenless(ms: seq<Msg>, k: nat)
    requires k < |ms| && !ms[k].HasToken()
    ensures Tokens(Remove(ms, k)) == Tokens(ms)
    ensures forall m :: m in Remove(ms, k) ==> m in ms
    ensures forall m :: m in ms && m.HasToken() ==> m in Remove(ms, k)
  {
    TokensRemove(ms, k);
    forall m | m in ms && m.HasToken()
      ensures m in Remove(ms, k)
    {
      var j :| 0 <= j < |ms| && ms[j] == m;
      assert j < k || ms[k + 1..][j - k - 1] == m;
    }
  }

  lemma FlagsKept(s: State, a: Action)
    requires Enabled(s, a) && !Visits(s, a) && !a.Deliver?
    ensures Apply(s, a).at == s.at && |Apply(s, a).cores| == |s.cores|
    ensures forall i :: 0 <= i < |s.cores| ==>
              && Apply(s, a).cores[i].hasToken == s.cores[i].hasToken
              && Apply(s, a).cores[i].tokenIsBlack == s.cores[i].tokenIsBlack
  {
    match a case _ =>
  }

  lemma TokenKept(s: State, a: Action)
    requires Stable(s) && Enabled(s, a) && !Visits(s, a)
    ensures OneToken(Apply(s, a)) && (TokenBlack(s) ==> TokenBlack(Apply(s, a)))
  {
    if a.Deliver? {
      DeliverTokens(s, a.k, a.cands);
    } else {
      FlagsKept(s, a);
      var kept, add := NetParts(s, a);
      AddTokenless(s, Apply(s, a), kept, add);
    }
  }

  /** The messages after a step: those kept and those added, none of which carries the token. */
  lemma NetParts(s: State, a: Action) returns (kept: seq<Msg>, add: seq<Msg>)
    requires Enabled(s, a) && !Visits(s, a) && !a.Deliver?
    ensures Apply(s, a).net == kept + add
    ensures Tokens(kept) == Tokens(s.net)
    ensures forall m :: m in s.net && m.HasToken() ==> m in kept
    ensures forall m :: m in kept ==> m in s.net
    ensures forall m :: m in add ==> !m.HasToken()
  {
    kept, add := s.net, [];
    match a
    case RunTask(k) =>
      RemovedTokenless(s.net, k);
      kept, add := Remove(s.net, k), [Result(s.net[k].owner, s.net[k].core, s.net[k].nocore)];
    case RunNodeTask(k, out) =>
      RemovedTokenless(s.net, k);
      kept, add := Remove(s.net, k), [NodeResult(s.net[k].owner, Sum(NocoreCredit, s.net[k].owner, out))] + out;
    case RunBalance(k) =>
      RemovedTokenless(s.net, k);
      kept := Remove(s.net, k);
    case Expand(i, group, issued, found) =>
      add := ExpandParts(s, i, group, issued, found);
    case _ =>
  }

  lemma ExpandParts(s: State, i: nat, group: nat, issued: seq<Msg>, found: seq<nat>) returns (add: seq<Msg>)
    requires Enabled(s, Expand(i, group, issued, found))
    ensures ExpandGroup(s, i, group, issued, found).net == s.net + add
    ensures forall m :: m in add ==> !m.HasToken()
  {
    var n := |s.cores|;
    var c1 := Expanded(s.cores[i], group, issued, found);
    SyncMsgsFacts(n, i, c1, NoToken, n);
    add := issued + if c1.syncStep >= SYNC_BAR then SyncMsgs(n, i, c1, NoToken, n) else [];
  }

  lemma WhiteIsIdleKept(s: State, a: Action, i: nat)
    requires Stable(s) && Enabled(s, a) && !Visits(s, a) && i < |s.cores|
    ensures |Apply(s, a).cores| == |s.cores| && WhiteIsIdle(Apply(s, a), i)
  {
    var t := Apply(s, a);
    LocalEffect(s, a, i);
    if !t.cores[i].procIsBlack {
      assert WhiteIsIdle(s, i) && CoreShape(s, i) && Credit(s, i);
      IdleTestExact(s, i);
      forall m | m in t.net && m.IsWork() && m.cause == i
        ensures m.epoch != t.cores[i].passes
      {
        WorkComesFromBlack(s, a, m);
      }
      WhiteStaysIdle(s, a, i);
    }
  }

  lemma WhiteStaysIdle(s: State, a: Action, i: nat)
    requires Stable(s) && Enabled(s, a) && !Visits(s, a) && i < |s.cores|
    requires !s.cores[i].procIsBlack && !Apply(s, a).cores[i].procIsBlack
    ensures var c := Apply(s, a).cores[i];
            && c.cands == 0 && AllReceived(c) && !c.phase.Waiting?
            && (forall j :: 0 <= j < |c.unsent| ==> c.unsent[j] == 0)
            && (c.phase.Select? ==> NoWork(c.inq))
  {
    assert WhiteIsIdle(s, i) && CoreShape(s, i) && Credit(s, i);
    IdleTestExact(s, i);
    match a
    case Deliver(k, cands) => DeliverToWhite(s, k, cands, i);
    case RunBalance(k) => assert s.net[k] in s.net;
    case Resume(j, accepted, cands) =>
      if j == i {
        ResumeWhite(s, i, cands);
      }
    case _ =>
  }

  lemma DeliverToWhite(s: State, k: nat, cands: nat, i: nat)
    requires Stable(s) && Enabled(s, Deliver(k, cands)) && i < |s.cores| && !s.cores[i].procIsBlack
    ensures var c, d := s.cores[i], Apply(s, Deliver(k, cands)).cores[i];
            && d.cands == 0 && AllReceived(d) && d.unsent == c.unsent
            && !d.phase.Waiting? && (d.phase.Select? ==> d.inq == c.inq && c.phase.Select?)
  {
    assert WhiteIsIdle(s, i);
    var m := s.net[k];
    assert m in s.net && MsgOk(s, m);
    IdleTestExact(s, i);
  }

  lemma ResumeWhite(s: State, i: nat, cands: nat)
    requires Stable(s) && Enabled(s, Resume(i, false, cands)) && !s.cores[i].procIsBlack
    ensures var d := Drained(i, s.cores[i], false, cands);
            d.cands == 0 && AllReceived(d) && d.unsent == s.cores[i].unsent
  {
    assert WhiteIsIdle(s, i);
    IdleTestExact(s, i);
    SumNone(CoreCredit, i, s.cores[i].inq);
    SumNone(NocoreCredit, i, s.cores[i].inq);
  }

  lemma HolderIsFreshKept(s: State, a: Action)
    requires Stable(s) && Enabled(s, a) && !Visits(s, a) && DeliveryGuard(s, a)
    ensures Apply(s, a).at < |Apply(s, a).cores| && HolderIsFresh(Apply(s, a))
  {
    var t := Apply(s, a);
    LocalEffect(s, a, s.at);
    if t.cores[s.at].hasToken {
      forall m | m in t.net && m.IsWork() && m.cause == s.at
        ensures m.epoch == t.cores[s.at].passes
      {
        WorkComesFromBlack(s, a, m);
        assert a.Deliver? ==> s.net[a.k] in s.net;
      }
    }
  }

  lemma BlackAheadKept(s: State, a: Action)
    requires Stable(s) && Enabled(s, a) && !Visits(s, a)
    ensures BlackAhead(s) ==> BlackAhead(Apply(s, a))
  {
    if BlackAhead(s) {
      var j :| s.at <= j < |s.cores| && s.cores[j].procIsBlack;
      LocalEffect(s, a, j);
      assert Apply(s, a).cores[j].procIsBlack;
    }
  }

  lemma FirstCircuitKept(s: State, a: Action)
    requires Stable(s) && Enabled(s, a) && !Visits(s, a)
    ensures FirstCircuit(Apply(s, a))
  {
    var t := Apply(s, a);
    TokenKept(s, a);
    BlackAheadKept(s, a);
    if !TokenBlack(s) && !BlackAhead(s) {
      forall m | m in t.net && m.IsWork() && m.cause < t.at && m.cause < |t.cores|
        ensures m.epoch == t.cores[m.cause].passes
      {
        WorkComesFromBlack(s, a, m);
        LocalEffect(s, a, m.cause);
      }
    }
  }

  /** Machines that are white with no work in their queues stay so while no work travels. */
  lemma QuietKept(s: State, a: Action)
    requires Stable(s) && Enabled(s, a) && !Visits(s, a)
    requires NoWork(s.net) && forall i :: 0 <= i < |s.cores| ==> !s.cores[i].procIsBlack
    ensures NoWork(Apply(s, a).net)
    ensures forall i :: 0 <= i < |s.cores| && NoWork(s.cores[i].inq) ==>
              !Apply(s, a).cores[i].procIsBlack && NoWork(Apply(s, a).cores[i].inq)
  {
    forall m | m in Apply(s, a).net
      ensures !m.IsWork()
    {
      if m.IsWork() {
        WorkComesFromBlack(s, a, m);
      }
    }
    forall i | 0 <= i < |s.cores| && NoWork(s.cores[i].inq)
      ensures !Apply(s, a).cores[i].procIsBlack && NoWork(Apply(s, a).cores[i].inq)
    {
      LocalEffect(s, a, i);
      WhiteHasNoPayload(s, i);
    }
  }

  lemma SecondCircuitKept(s: State, a: Action)
    requires Stable(s) && Enabled(s, a) && !Visits(s, a)
    ensures |Apply(s, a).cores| > 0 && SecondCircuit(Apply(s, a))
  {
    LocalEffect(s, a, |s.cores| - 1);
    TokenKept(s, a);
    BlackAheadKept(s, a);
    if s.cores[|s.cores| - 1].lastIsWhite && !TokenBlack(s) && !BlackAhead(s) {
      assert QuietBehind(s);
      assert forall i :: 0 <= i < |s.cores| ==> !s.cores[i].procIsBlack;
      QuietKept(s, a);
    }
  }

  lemma FinishedKept(s: State, a: Action)
    requires Stable(s) && Enabled(s, a) && !Visits(s, a)
    ensures Finished(Apply(s, a)) ==> AllQuiet(Apply(s, a))
  {
    forall i | 0 <= i < |s.cores|
      ensures Apply(s, a).cores[i].phase.Ended? == s.cores[i].phase.Ended?
      ensures |Apply(s, a).cores| == |s.cores|
    {
      LocalEffect(s, a, i);
    }
    LocalEffect(s, a, 0);
    if Finished(s) {
      QuietKept(s, a);
    }
  }

  // ----- The token's visits

  /** A visit after which nothing is left to do, or the leader's token goes round once more. */
  predicate Terminates(s: State, i: nat)
    requires i < |s.cores|
  {
    IsLeader(|s.cores|, i) && s.cores[i].lastIsWhite && !s.cores[i].tokenIsBlack && !s.cores[i].procIsBlack
  }

  /** A white machine visited by the token has no work under way. */
  lemma VisitedWhiteHasNoWork(s: State, i: nat, m: Msg)
    requires Stable(s) && Visits(s, Test(i)) && !s.cores[i].procIsBlack
    requires m in s.net && m.IsWork()
    ensures m.cause != i
  {
    assert WhiteIsIdle(s, i) && HolderIsFresh(s);
  }

  /** The second white circuit: at this test nothing is left. */
  lemma TerminationIsQuiet(s: State, i: nat)
    requires Stable(s) && Visits(s, Test(i)) && Terminates(s, i)
    ensures AllQuiet(s)
  {
    assert s.at == i && !BlackAhead(s);
    assert WhiteIsIdle(s, i);
    if exists m :: m in s.net && m.HasToken() && m.token.black {
      var m :| m in s.net && m.HasToken() && m.token.black;
      TokensAtLeast(s.net, m);
      assert false;
    }
    assert QuietBehind(s);
  }

  lemma VisitWork(s: State, i: nat, m: Msg)
    requires Stable(s) && Visits(s, Test(i)) && !Terminates(s, i)
    requires m in VisitToken(s, i).net && m.IsWork()
    ensures || m in s.net
            || (s.cores[i].procIsBlack && m.cause == i && m.epoch == s.cores[i].passes)
  {
    VisitMessages(s, i, m);
    assert WhiteIsIdle(s, i);
  }

  lemma VisitTokens(s: State, i: nat)
    requires Stable(s) && Visits(s, Test(i)) && !Terminates(s, i)
    ensures OneToken(VisitToken(s, i))
    ensures (s.cores[i].procIsBlack || s.cores[i].tokenIsBlack) && !IsLeader(|s.cores|, i) ==> TokenBlack(VisitToken(s, i))
  {
    var n, c, t := |s.cores|, s.cores[i], VisitToken(s, i);
    var token := Token((c.tokenIsBlack || c.procIsBlack) && !IsLeader(n, i));
    var posted := SyncMsgs(n, i, c, token, n);
    SyncMsgsFacts(n, i, c, token, n);
    TokensConcat(s.net, posted);
    forall m | m in s.net
      ensures !m.HasToken()
    {
      if m.HasToken() {
        TokensAtLeast(s.net, m);
      }
    }
    if forall m :: m in posted ==> !m.HasToken() {
      TokensNone(posted);
    }
    var m :| m in posted && m.HasToken();
    assert m in t.net;
  }

  lemma VisitWhiteIsIdle(s: State, i: nat, j: nat)
    requires Stable(s) && Visits(s, Test(i)) && !Terminates(s, i) && j < |s.cores|
    ensures WhiteIsIdle(VisitToken(s, i), j)
  {
    var t := VisitToken(s, i);
    assert WhiteIsIdle(s, j) && CoreShape(s, j);
    forall m | m in t.net && m.IsWork() && m.cause == j && !t.cores[j].procIsBlack
      ensures m.epoch != t.cores[j].passes
    {
      VisitWork(s, i, m);
      if m in s.net {
        assert MsgOk(s, m);
      }
    }
  }

  lemma VisitFirstCircuit(s: State, i: nat)
    requires Stable(s) && Visits(s, Test(i)) && !Terminates(s, i)
    ensures FirstCircuit(VisitToken(s, i))
  {
    var t := VisitToken(s, i);
    VisitTokens(s, i);
    if !IsLeader(|s.cores|, i) && !s.cores[i].procIsBlack && !s.cores[i].tokenIsBlack {
      VisitTokenWasWhite(s, i);
      if BlackAhead(s) {
        var j :| s.at <= j < |s.cores| && s.cores[j].procIsBlack;
        assert t.cores[j].procIsBlack;
      } else {
        forall m | m in t.net && m.IsWork() && m.cause < t.at
          ensures m.epoch == t.cores[m.cause].passes
        {
          VisitWork(s, i, m);
          VisitedWhiteHasNoWork(s, i, m);
        }
      }
    }
  }

  lemma VisitTokenWasWhite(s: State, i: nat)
    requires Stable(s) && Visits(s, Test(i)) && !s.cores[i].tokenIsBlack
    ensures !TokenBlack(s)
  {
    if TokenBlack(s) {
      var m :| m in s.net && m.HasToken() && m.token.black;
      TokensAtLeast(s.net, m);
    }
  }

  lemma VisitSecondCircuit(s: State, i: nat)
    requires Stable(s) && Visits(s, Test(i)) && !Terminates(s, i)
    ensures SecondCircuit(VisitToken(s, i))
  {
    var n, t := |s.cores|, VisitToken(s, i);
    VisitTokens(s, i);
    if !s.cores[i].procIsBlack && !s.cores[i].tokenIsBlack {
      VisitTokenWasWhite(s, i);
      if BlackAhead(s) {
        var j :| s.at <= j < |s.cores| && s.cores[j].procIsBlack;
        assert t.cores[j].procIsBlack;
      } else if IsLeader(n, i) {
        if m :| m in t.net && m.IsWork() {
          LeftoverWorkHasBlackCause(s, i, m);
          assert t.cores[m.cause].procIsBlack;
        }
      } else if s.cores[n - 1].lastIsWhite {
        assert QuietBehind(s) && WhiteIsIdle(s, i);
        forall m | m in t.net
          ensures !m.IsWork()
        {
          if m.IsWork() {
            VisitWork(s, i, m);
          }
        }
        assert t.at == i + 1;
        assert QuietBehind(t);
      }
    }
  }

  /** After one white circuit, work still under way was caused by a machine that is black again. */
  lemma LeftoverWorkHasBlackCause(s: State, i: nat, m: Msg)
    requires Stable(s) && Visits(s, Test(i)) && !Terminates(s, i) && IsLeader(|s.cores|, i)
    requires !s.cores[i].procIsBlack && !TokenBlack(s) && !BlackAhead(s)
    requires m in VisitToken(s, i).net && m.IsWork()
    ensures m.cause < i && s.cores[m.cause].procIsBlack
  {
    VisitWork(s, i, m);
    assert MsgOk(s, m);
    VisitedWhiteHasNoWork(s, i, m);
    assert WhiteIsIdle(s, m.cause);
  }

  lemma NotFinishedBefore(s: State, i: nat)
    requires Stable(s) && Visits(s, Test(i)) && !Terminates(s, i)
    ensures Finished(VisitToken(s, i)) ==> AllQuiet(VisitToken(s, i))
  {
    var t := VisitToken(s, i);
    if Finished(t) {
      assert Finished(s);
      forall m | m in t.net
        ensures !m.IsWork()
      {
        if m.IsWork() {
          VisitWork(s, i, m);
        }
      }
    }
  }

  lemma VisitKeepsRing(s: State, i: nat)
    requires Stable(s) && Visits(s, Test(i)) && !Terminates(s, i)
    ensures |s.cores| == |VisitToken(s, i).cores| && VisitToken(s, i).at < |s.cores| && Ring(VisitToken(s, i))
  {
    var t := VisitToken(s, i);
    VisitTokens(s, i);
    forall j | 0 <= j < |s.cores|
      ensures WhiteIsIdle(t, j)
    {
      VisitWhiteIsIdle(s, i, j);
    }
    VisitFirstCircuit(s, i);
    VisitSecondCircuit(s, i);
    NotFinishedBefore(s, i);
  }

  // ----- Every run

  lemma EndedStaysSettled(s: State, a: Action, i: nat)
    requires Basic(s) && Enabled(s, a) && i < |s.cores|
    ensures |Apply(s, a).cores| == |s.cores|
    ensures Apply(s, a).cores[i].phase.Ended? ==>
              AllReceived(Apply(s, a).cores[i]) && Apply(s, a).cores[i].cands == 0
  {
    match a
    case Deliver(k, cands) => ArrivalKeepsSettled(s, k, cands, i);
    case RunBalance(k) =>
      IdleTestExact(s, i);
      assert s.net[k] in s.net;
    case _ =>
  }

  lemma ArrivalKeepsSettled(s: State, k: nat, cands: nat, i: nat)
    requires Basic(s) && Enabled(s, Deliver(k, cands)) && i < |s.cores|
    ensures var c := Apply(s, Deliver(k, cands)).cores[i];
            c.phase.Ended? ==> AllReceived(c) && c.cands == 0
  {
    IdleTestExact(s, i);
    assert s.net[k] in s.net;
  }

  lemma StepKeepsBasic(s: State, a: Action)
    requires Basic(s) && Enabled(s, a)
    ensures Basic(Apply(s, a))
  {
    ShapeKept(s, a);
    forall i | 0 <= i < |s.cores|
      ensures |Apply(s, a).cores| == |s.cores| && Credit(Apply(s, a), i)
      ensures Apply(s, a).cores[i].phase.Ended? ==>
              AllReceived(Apply(s, a).cores[i]) && Apply(s, a).cores[i].cands == 0
    {
      CreditKept(s, a, i);
      EndedStaysSettled(s, a, i);
    }
    assert |s.cores| > 0;
    EndedStaysSettled(s, a, 0);
  }

  lemma TerminatingStep(s: State, i: nat)
    requires Stable(s) && Visits(s, Test(i)) && Terminates(s, i)
    ensures Stable(Apply(s, Test(i)))
  {
    var t := Apply(s, Test(i));
    TerminationIsQuiet(s, i);
    StepKeepsBasic(s, Test(i));
    forall j | 0 <= j < |t.cores|
      ensures WhiteIsIdle(t, j)
    {
      assert WhiteIsIdle(s, j);
    }
  }

  lemma StepKeepsStable(s: State, a: Action)
    requires Stable(s) && Enabled(s, a) && DeliveryGuard(s, a)
    ensures Stable(Apply(s, a))
  {
    StepKeepsBasic(s, a);
    if !Visits(s, a) {
      LocalEffect(s, a, 0);
      TokenKept(s, a);
      forall i | 0 <= i < |s.cores|
        ensures WhiteIsIdle(Apply(s, a), i)
      {
        WhiteIsIdleKept(s, a, i);
      }
      HolderIsFreshKept(s, a);
      FirstCircuitKept(s, a);
      SecondCircuitKept(s, a);
      FinishedKept(s, a);
    } else if Terminates(s, a.i) {
      TerminatingStep(s, a.i);
    } else {
      VisitKeepsRing(s, a.i);
    }
  }

  lemma InitialIsBasic(s: State)
    requires Initial(s)
    ensures Basic(s)
  {
  }

  lemma InitialIsStable(s: State)
    requires Initial(s) && |s.cores| > 1
    ensures Stable(s)
  {
    var n := |s.cores|;
    InitialIsBasic(s);
    assert s.cores[n - 1].hasToken;
    assert s.cores[n - 1].procIsBlack;
  }

  lemma {:induction false} RunKeepsBasic(s: State, actions: seq<Action>, assuming: bool)
    requires Initial(s) && Run(s, actions, assuming).Some?
    ensures Basic(Run(s, actions, assuming).value)
    decreases |actions|
  {
    if actions == [] {
      InitialIsBasic(s);
    } else {
      var before := actions[..|actions| - 1];
      RunKeepsBasic(s, before, assuming);
      StepKeepsBasic(Run(s, before, assuming).value, actions[|actions| - 1]);
    }
  }

  lemma {:induction false} RunKeepsStable(s: State, actions: seq<Action>)
    requires Initial(s) && |s.cores| > 1 && Run(s, actions, true).Some?
    ensures Stable(Run(s, actions, true).value)
    decreases |actions|
  {
    if actions == [] {
      InitialIsStable(s);
    } else {
      var before := actions[..|actions| - 1];
      RunKeepsStable(s, before);
      StepKeepsStable(Run(s, before, true).value, actions[|actions| - 1]);
    }
  }

  // ----- Main results

  /** In every run, with messages reordered at will, the counter test of every machine succeeds
      exactly when no task, read, result, forwarded task or chunk of it is unsettled. */
  lemma CreditCountingExact(s: State, actions: seq<Action>, i: nat)
    requires Initial(s) && Run(s, actions, false).Some? && i < |Run(s, actions, false).value.cores|
    ensures var t := Run(s, actions, false).value;
            AllReceived(t.cores[i]) <==>
              forall m :: (m in t.net || m in t.cores[i].inq) ==> !Outstanding(i, m)
  {
    RunKeepsBasic(s, actions, false);
    IdleTestExact(Run(s, actions, false).value, i);
  }

  /** In every run no result of any kind ever reaches a query that has ended: the aborts for that
      case are unreachable. */
  lemma NoResultMeetsEndedQuery(s: State, actions: seq<Action>, m: Msg)
    requires Initial(s) && Run(s, actions, false).Some?
    requires m in Run(s, actions, false).value.net && !m.Sync? && !m.NodeSync?
    ensures m.owner < |Run(s, actions, false).value.cores|
    ensures !Run(s, actions, false).value.cores[m.owner].phase.Ended?
  {
    RunKeepsBasic(s, actions, false);
    var t := Run(s, actions, false).value;
    assert MsgOk(t, m);
    IdleTestExact(t, m.owner);
  }

  /** Ring termination is safe: in every run that meets the delivery assumption there is exactly one
      token, held or travelling, and once any machine has ended the query nothing of it is left. */
  lemma RingTerminationSafe(s: State, actions: seq<Action>)
    requires Initial(s) && |s.cores| > 1 && Run(s, actions, true).Some?
    ensures var t := Run(s, actions, true).value;
            && t.at < |t.cores|
            && Tokens(t.net) + (if t.cores[t.at].hasToken then 1 else 0) == 1
            && (forall j :: 0 <= j < |t.cores| && t.cores[j].hasToken ==> j == t.at)
            && (Finished(t) ==> NothingLeft(t))
  {
    RunKeepsStable(s, actions);
    var t := Run(s, actions, true).value;
    if Finished(t) {
      FinishedIsClean(t);
    }
  }

  lemma FinishedIsClean(t: State)
    requires Stable(t) && Finished(t)
    ensures NothingLeft(t)
  {
    forall m | m in t.net
      ensures m.Sync? && m.work == 0
    {
      assert MsgOk(t, m);
      if !m.Sync? && !m.NodeSync? {
        OwnerIsBlack(t, m);
      }
    }
    forall i | 0 <= i < |t.cores|
      ensures CoreIdle(t.cores[i])
    {
      assert WhiteIsIdle(t, i) && CoreShape(t, i);
      IdleTestExact(t, i);
      assert forall m :: m in t.cores[i].inq ==> QueuedOk(|t.cores|, i, m);
    }
  }

  /** With a single core machine no counter covers a NODE_SYNC from a helper; nothing else is left at the
      end. */
  lemma SingleCoreLeftovers(t: State)
    requires Basic(t) && |t.cores| == 1 && t.cores[0].phase.Ended?
    ensures forall m :: (m in t.net || m in t.cores[0].inq) ==> m.NodeSync?
    ensures NothingLeft(t) <==> forall m :: (m in t.net || m in t.cores[0].inq) ==> !m.NodeSync?
  {
    IdleTestExact(t, 0);
    assert CoreShape(t, 0);
    forall m | m in t.net
      ensures m.NodeSync?
    {
      assert MsgOk(t, m);
    }
    forall m | m in t.cores[0].inq
      ensures m.NodeSync?
    {
      assert QueuedOk(1, 0, m);
    }
  }

  lemma StepKeepsCount(s: State, a: Action)
    requires Enabled(s, a)
    ensures |Apply(s, a).cores| == |s.cores|
  {
  }

  lemma {:induction false} RunKeepsCount(s: State, actions: seq<Action>, assuming: bool)
    requires Run(s, actions, assuming).Some?
    ensures |Run(s, actions, assuming).value.cores| == |s.cores|
    decreases |actions|
  {
    if actions != [] {
      RunKeepsCount(s, actions[..|actions| - 1], assuming);
      StepKeepsCount(Run(s, actions[..|actions| - 1], assuming).value, actions[|actions| - 1]);
    }
  }
}
