/** What the safety of the ring rests on, shown by runs that lack one ingredient each. */
module RingTightness {
  import opened Options
  import opened SubQueryRing
  import opened RingFifo
  import opened RingTermination

  /** One more action on a run. */
  lemma Extend(s: State, actions: seq<Action>, a: Action, assuming: bool)
    requires Run(s, actions, assuming).Some?
    requires Enabled(Run(s, actions, assuming).value, a)
    requires assuming ==> DeliveryGuard(Run(s, actions, assuming).value, a)
    ensures Run(s, actions + [a], assuming) == Some(Apply(Run(s, actions, assuming).value, a))
  {
    assert (actions + [a])[..|actions|] == actions;
  }

  lemma {:induction false} RunWithoutAssumption(s: State, actions: seq<Action>)
    requires Run(s, actions, true).Some?
    ensures Run(s, actions, false) == Run(s, actions, true)
    decreases |actions|
  {
    if actions != [] {
      RunWithoutAssumption(s, actions[..|actions| - 1]);
    }
  }

  /** One more action that keeps to the order of the channels. */
  lemma OrderMore(s: State, actions: seq<Action>, a: Action, assuming: bool, helpers: bool)
    requires AllInOrder(s, actions, helpers) && Run(s, actions, assuming).Some?
    requires InOrder(Run(s, actions, assuming).value, a, helpers)
    ensures AllInOrder(s, actions + [a], helpers)
  {
    if assuming {
      RunWithoutAssumption(s, actions);
    }
    assert (actions + [a])[..|actions|] == actions;
  }

  // ----- Runs in the order of the channels

  /** A number of machines, and whether vertices go to helpers: enough of them for neighbour work to leave the
      ring. */
  datatype Case = Case(n: nat, helpers: bool) {
    predicate Valid() { n >= 3 || (n == 2 && helpers) }

    /** The one machine with a candidate. */
    function Worker(): nat { if helpers then 0 else 1 }

    /** Its one neighbour: sent by a helper to the leader, or off the ring to machine 0. */
    function Stray(): Msg
      requires Valid()
    {
      if helpers then NodeSync(0, 0, n - 1, 1) else Sync(1, 0, 0, 1, NoToken)
    }

    function FirstCore(i: nat): Core {
      Core(Waiting, if i == Worker() then 1 else 0, [], 0, 0, 0, 0, Zeros(n), 0, IsLeader(n, i), false, true, true, 0)
    }

    function First(): State
      requires Valid()
    {
      State(seq(n, i requires 0 <= i < n => FirstCore(i)), [], n - 1)
    }
  }

  /** The run has come to state t. */
  ghost predicate At(c: Case, assuming: bool, actions: seq<Action>, t: State) {
    && c.Valid() && Run(c.First(), actions, assuming) == Some(t) && AllInOrder(c.First(), actions, c.helpers)
    && |t.cores| == c.n
  }

  ghost predicate Allowed(c: Case, assuming: bool, s: State, a: Action) {
    Enabled(s, a) && (assuming ==> DeliveryGuard(s, a)) && InOrder(s, a, c.helpers)
  }

  lemma Do(c: Case, assuming: bool, actions: seq<Action>, s: State, a: Action) returns (more: seq<Action>, t: State)
    requires At(c, assuming, actions, s) && Allowed(c, assuming, s, a)
    ensures t == Apply(s, a) && At(c, assuming, more, t)
  {
    Extend(c.First(), actions, a, assuming);
    OrderMore(c.First(), actions, a, assuming, c.helpers);
    StepKeepsCount(s, a);
    more, t := actions + [a], Apply(s, a);
  }

  // ----- The token's channels

  /** Channels to the next machine on the ring are empty. */
  ghost predicate EmptyLanes(n: nat, ms: seq<Msg>) {
    && Tokens(ms) == 0
    && forall m :: m in ms && m.Sync? ==> m.dst != Next(n, m.cause)
  }

  /** They carry nothing but the one token. */
  ghost predicate Lanes(n: nat, ms: seq<Msg>) {
    && Tokens(ms) == 1
    && forall m :: m in ms && m.Sync? ==> m.HasToken() == (m.dst == Next(n, m.cause))
  }

  /** On such channels the token is never out of order. */
  lemma TokenInOrder(s: State, k: nat, cands: nat, helpers: bool)
    requires Lanes(|s.cores|, s.net) && k < |s.net| && s.net[k].HasToken()
    ensures InOrder(s, Deliver(k, cands), helpers)
  {
    forall j | 0 <= j < k && s.net[j].Sync?
      ensures s.net[j].cause != s.net[k].cause || s.net[j].dst != s.net[k].dst
    {
      assert s.net[j] in s.net && s.net[k] in s.net;
      if s.net[j].cause == s.net[k].cause && s.net[j].dst == s.net[k].dst {
        TokenUnique(s.net, j, k);
      }
    }
  }

  lemma LanesEmptied(n: nat, ms: seq<Msg>, k: nat)
    requires Lanes(n, ms) && k < |ms| && ms[k].HasToken()
    ensures EmptyLanes(n, Remove(ms, k))
  {
    TokensRemove(ms, k);
    InRemove(ms, k);
    forall m | m in Remove(ms, k) && m.HasToken()
      ensures false
    {
      TokensAtLeast(Remove(ms, k), m);
    }
  }

  /** What the token's holder posts keeps to the lanes. */
  lemma {:induction false} PostedLanes(n: nat, i: nat, c: Core, token: Token, upto: nat)
    requires upto <= n == |c.unsent| && i < n && token.Token?
    ensures forall m :: m in SyncMsgs(n, i, c, token, upto) ==>
              m.Sync? && m.cause == i && m.HasToken() == (m.dst == Next(n, i))
    decreases upto
  {
    if upto > 0 {
      PostedLanes(n, i, c, token, upto - 1);
    }
  }

  lemma LanesFilled(n: nat, ms: seq<Msg>, i: nat, c: Core, token: Token)
    requires EmptyLanes(n, ms) && 1 < n == |c.unsent| && i < n && token.Token?
    ensures Lanes(n, ms + SyncMsgs(n, i, c, token, n))
  {
    var posted := SyncMsgs(n, i, c, token, n);
    PostedLanes(n, i, c, token, n);
    SyncMsgsFacts(n, i, c, token, n);
    TokensConcat(ms, posted);
    forall m | m in ms && m.Sync?
      ensures !m.HasToken()
    {
      if m.HasToken() {
        TokensAtLeast(ms, m);
      }
    }
  }

  /** The token is on its way to p. */
  ghost predicate TokenComing(ms: seq<Msg>, p: nat, black: bool) {
    exists k :: 0 <= k < |ms| && ms[k].HasToken() && ms[k].token.black == black && ms[k].work == 0 && ms[k].dst == p
  }

  lemma TokenPosted(n: nat, ms: seq<Msg>, i: nat, c: Core, token: Token)
    requires 1 < n == |c.unsent| && i < n && token.Token? && c.unsent[Next(n, i)] == 0
    ensures TokenComing(ms + SyncMsgs(n, i, c, token, n), Next(n, i), token.black)
  {
    var posted := SyncMsgs(n, i, c, token, n);
    SyncMsgsFacts(n, i, c, token, n);
    if forall m :: m in posted ==> !m.HasToken() {
      TokensNone(posted);
    }
    var j :| 0 <= j < |posted| && posted[j].HasToken();
    assert (ms + posted)[|ms| + j] == posted[j] && posted[j] in posted;
  }

  // ----- The neighbour that is left behind

  /** Neither work nor ahead of the stray message on its channel. */
  predicate Harmless(c: Case, m: Msg) { !m.IsWork() && (m.Sync? && !c.helpers ==> m.cause != 1 || m.dst != 0) }

  predicate AllHarmless(c: Case, ms: seq<Msg>) { forall j :: 0 <= j < |ms| ==> Harmless(c, ms[j]) }

  predicate StrayAt(c: Case, ms: seq<Msg>, k: nat)
    requires c.Valid()
  {
    k < |ms| && ms[k] == c.Stray() && forall j :: 0 <= j < |ms| && j != k ==> Harmless(c, ms[j])
  }

  /** It is under way, and no other work. */
  ghost predicate OneStray(c: Case, ms: seq<Msg>)
    requires c.Valid()
  {
    exists k: nat :: StrayAt(c, ms, k)
  }

  lemma HarmlessRemoved(c: Case, ms: seq<Msg>, k: nat)
    requires AllHarmless(c, ms) && k < |ms|
    ensures AllHarmless(c, Remove(ms, k))
  {
  }

  lemma StrayStays(c: Case, ms: seq<Msg>, k: nat)
    requires c.Valid() && OneStray(c, ms) && k < |ms| && Harmless(c, ms[k])
    ensures OneStray(c, Remove(ms, k))
  {
    var j: nat :| StrayAt(c, ms, j);
    assert StrayAt(c, Remove(ms, k), if j < k then j else j - 1);
  }

  lemma StrayWithMore(c: Case, ms: seq<Msg>, more: seq<Msg>)
    requires c.Valid() && OneStray(c, ms) && AllHarmless(c, more)
    ensures OneStray(c, ms + more)
  {
    var k: nat :| StrayAt(c, ms, k);
    assert StrayAt(c, ms + more, k);
  }

  lemma StrayPosted(c: Case, ms: seq<Msg>, more: seq<Msg>)
    requires c.Valid() && AllHarmless(c, ms) && OneStray(c, more)
    ensures OneStray(c, ms + more)
  {
    var k: nat :| StrayAt(c, more, k);
    assert StrayAt(c, ms + more, |ms| + k);
  }

  /** What a machine without neighbours to send posts. */
  lemma {:induction false} PostedHarmless(c: Case, i: nat, d: Core, token: Token, upto: nat)
    requires upto <= c.n == |d.unsent| && i < c.n && (i != 1 || c.helpers) && d.unsent == Zeros(c.n)
    ensures AllHarmless(c, SyncMsgs(c.n, i, d, token, upto))
    decreases upto
  {
    if upto > 0 {
      PostedHarmless(c, i, d, token, upto - 1);
    }
  }

  /** What the worker posts. */
  lemma {:induction false} PostedStray(c: Case, d: Core, token: Token, upto: nat)
    requires c.Valid() && !c.helpers && 0 < upto <= c.n == |d.unsent|
    requires d.unsent == Zeros(c.n)[0 := 1] && d.passes == 0
    ensures OneStray(c, SyncMsgs(c.n, 1, d, token, upto))
    decreases upto
  {
    var j := upto - 1;
    var last := if j == 1 then [] else [Sync(1, 0, j, d.unsent[j], if j == Next(c.n, 1) then token else NoToken)];
    if j == 0 {
      assert SyncMsgs(c.n, 1, d, token, 0) == [];
      assert SyncMsgs(c.n, 1, d, token, 1) == last;
      assert StrayAt(c, last, 0);
    } else {
      PostedStray(c, d, token, j);
      StrayWithMore(c, SyncMsgs(c.n, 1, d, token, j), last);
    }
  }

  // ----- One visit of the token

  /** A machine that waits for messages with nothing to do. */
  predicate Resting(s: State, i: nat) {
    && i < |s.cores|
    && var c := s.cores[i];
       && c.phase.Paused? && c.cands == 0 && AllReceived(c) && c.unsent == Zeros(|s.cores|)
       && !c.hasToken && !c.tokenIsBlack && !c.procIsBlack
       && forall m :: m in c.inq ==> m.Sync? && m.work == 0
  }

  /** A machine about to look at the token, with nothing else to do; all it has to send is `unsent`. */
  predicate Looking(s: State, i: nat, unsent: seq<nat>) {
    && i < |s.cores| && |s.cores| > 1
    && var c := s.cores[i];
       && c.phase.Select? && c.cands == 0 && AllReceived(c) && c.hasToken && c.unsent == unsent && |unsent| == |s.cores|
       && forall m :: m in c.inq ==> m.Sync? && m.work == 0
  }

  predicate Failing(s: State, i: nat)
    requires i < |s.cores|
  {
    s.cores[i].tokenIsBlack || s.cores[i].procIsBlack
  }

  /** It hands the token on and rests. */
  lemma HandsOn(s: State, i: nat, unsent: seq<nat>)
    requires Looking(s, i, unsent) && !Terminates(s, i) && unsent[Next(|s.cores|, i)] == 0
    requires EmptyLanes(|s.cores|, s.net)
    ensures Enabled(s, Test(i))
    ensures var n, t, black := |s.cores|, Apply(s, Test(i)), Failing(s, i) && !IsLeader(|s.cores|, i);
            && Resting(t, i) && |t.cores| == n
            && (forall j :: 0 <= j < n && j != i ==> t.cores[j] == s.cores[j])
            && t.cores[i].inq == s.cores[i].inq && t.cores[i].passes == s.cores[i].passes + 1
            && t.cores[i].lastIsWhite == (if IsLeader(n, i) then !Failing(s, i) else s.cores[i].lastIsWhite)
            && t.net == s.net + SyncMsgs(n, i, s.cores[i], Token(black), n)
            && Lanes(n, t.net) && TokenComing(t.net, Next(n, i), black)
  {
    var n, c := |s.cores|, s.cores[i];
    var token := Token(Failing(s, i) && !IsLeader(n, i));
    assert Apply(s, Test(i)) == VisitToken(s, i);
    LanesFilled(n, s.net, i, c, token);
    TokenPosted(n, s.net, i, c, token);
  }

  /** The token reaches a resting machine, which resumes. */
  lemma Reach(c: Case, assuming: bool, actions: seq<Action>, s: State, k: nat) returns (more: seq<Action>, t: State)
    requires At(c, assuming, actions, s) && Lanes(c.n, s.net)
    requires k < |s.net| && s.net[k].HasToken() && s.net[k].work == 0 && Resting(s, s.net[k].dst)
    requires assuming ==> DeliveryGuard(s, Deliver(k, 0))
    ensures At(c, assuming, more, t) && t.net == Remove(s.net, k)
    ensures var p := s.net[k].dst;
            t.cores == s.cores[p := s.cores[p].(phase := Select, inq := [], hasToken := true,
                                                tokenIsBlack := s.net[k].token.black)]
  {
    var p := s.net[k].dst;
    TokenInOrder(s, k, 0, c.helpers);
    more, t := Do(c, assuming, actions, s, Deliver(k, 0));
    Drains(t, p);
    more, t := Do(c, assuming, more, t, Resume(p, false, 0));
  }

  lemma Drains(s: State, i: nat)
    requires i < |s.cores| && forall m :: m in s.cores[i].inq ==> m.Sync?
    ensures Drained(i, s.cores[i], false, s.cores[i].cands) == s.cores[i].(phase := Select, inq := [])
  {
    SumNone(CoreCredit, i, s.cores[i].inq);
    SumNone(NocoreCredit, i, s.cores[i].inq);
  }

  /** What a machine with nothing to send posts. */
  ghost predicate PostedBy(c: Case, p: nat, posted: seq<Msg>) {
    exists d: Core, token :: |d.unsent| == c.n && d.unsent == Zeros(c.n) && posted == SyncMsgs(c.n, p, d, token, c.n)
  }

  /** The token has passed p and only p. */
  ghost predicate Hopped(c: Case, s: State, t: State, p: nat, black: bool, k: nat, posted: seq<Msg>) {
    && |s.cores| == |t.cores| == c.n && p < c.n
    && Lanes(c.n, t.net) && Resting(t, p) && TokenComing(t.net, Next(c.n, p), black && !IsLeader(c.n, p))
    && (forall j :: 0 <= j < c.n && j != p ==> t.cores[j] == s.cores[j])
    && t.cores[p].lastIsWhite == (if IsLeader(c.n, p) then !black else s.cores[p].lastIsWhite)
    && k < |s.net| && s.net[k].HasToken() && s.net[k].work == 0
    && PostedBy(c, p, posted) && t.net == Remove(s.net, k) + posted
  }

  /** A token passes through a resting machine: it arrives, the machine resumes, tests and hands it on. */
  lemma Hop(c: Case, assuming: bool, actions: seq<Action>, s: State, p: nat, black: bool)
    returns (more: seq<Action>, t: State, k: nat, posted: seq<Msg>)
    requires At(c, assuming, actions, s) && Lanes(c.n, s.net) && TokenComing(s.net, p, black) && Resting(s, p)
    requires assuming ==> forall m :: m in s.net && m.IsWork() ==> m.cause != p
    requires black || !IsLeader(c.n, p) || !s.cores[p].lastIsWhite
    ensures At(c, assuming, more, t) && Hopped(c, s, t, p, black, k, posted)
  {
    k :| 0 <= k < |s.net| && s.net[k].HasToken() && s.net[k].token.black == black && s.net[k].work == 0 && s.net[k].dst == p;
    LanesEmptied(c.n, s.net, k);
    var u;
    more, u := Reach(c, assuming, actions, s, k);
    HandsOn(u, p, Zeros(c.n));
    more, t := Do(c, assuming, more, u, Test(p));
    posted := SyncMsgs(c.n, p, u.cores[p], Token(Failing(u, p) && !IsLeader(c.n, p)), c.n);
  }

  // ----- The first two circuits

  /** The second circuit has come to p: the machines before rest, those behind have not started, the worker has
      left its stray message. */
  ghost predicate Second(c: Case, t: State, p: nat) {
    && c.Valid() && |t.cores| == c.n && p < c.n
    && (forall i :: 0 <= i < p ==> Resting(t, i))
    && (forall i :: p <= i < c.n - 1 ==> t.cores[i] == c.FirstCore(i))
    && Resting(t, c.n - 1) && !t.cores[c.n - 1].lastIsWhite
    && Lanes(c.n, t.net) && TokenComing(t.net, p, p > 0)
    && if p <= c.Worker() then AllHarmless(c, t.net) else OneStray(c, t.net)
  }

  lemma FirstCircuit(c: Case) returns (actions: seq<Action>, t: State)
    requires c.Valid()
    ensures At(c, true, actions, t) && Second(c, t, 0)
  {
    var leader := c.n - 1;
    actions, t := Do(c, true, [], c.First(), Start(leader));
    var u := t;
    assert Looking(u, leader, Zeros(c.n));
    HandsOn(u, leader, Zeros(c.n));
    actions, t := Do(c, true, actions, u, Test(leader));
    PostedHarmless(c, leader, u.cores[leader], Token(false), c.n);
  }

  /** What the token finds when it comes to p, and what p is when it looks at it. */
  ghost predicate Taken(c: Case, s: State, p: nat, k: nat, u: State) {
    && c.Valid() && |u.cores| == |s.cores| == c.n && k < |s.net| && p < c.n
    && (forall j :: 0 <= j < c.n && j != p ==> u.cores[j] == s.cores[j])
    && var unsent := if p == c.Worker() && !c.helpers then Zeros(c.n)[0 := 1] else Zeros(c.n);
       && Looking(u, p, unsent) && Failing(u, p) && u.cores[p].lastIsWhite && u.cores[p].passes == 0
       && u.net == Remove(s.net, k) + if p == c.Worker() && c.helpers then [c.Stray()] else []
  }

  lemma TokenFound(c: Case, s: State, p: nat) returns (k: nat)
    requires Second(c, s, p) && p < c.n - 1
    ensures k < |s.net| && s.net[k].HasToken() && s.net[k].work == 0 && s.net[k].dst == p && Harmless(c, s.net[k])
    ensures Allowed(c, true, s, Deliver(k, s.cores[p].cands))
  {
    k :| 0 <= k < |s.net| && s.net[k].HasToken() && s.net[k].token.black == (p > 0) && s.net[k].work == 0 && s.net[k].dst == p;
    assert s.net[k] in s.net;
    TokenInOrder(s, k, s.cores[p].cands, c.helpers);
    forall m | m in s.net && m.IsWork()
      ensures m.cause != p
    {
      WorkIsStray(c, s.net, p > c.Worker(), m);
    }
    if p > c.Worker() && !Harmless(c, s.net[k]) {
      assert false;
    }
  }

  lemma WorkIsStray(c: Case, ms: seq<Msg>, sent: bool, m: Msg)
    requires c.Valid() && (if sent then OneStray(c, ms) else AllHarmless(c, ms)) && m in ms && m.IsWork()
    ensures sent && m == c.Stray() && m.cause == c.Worker()
  {
    var j :| 0 <= j < |ms| && ms[j] == m;
    if sent {
      var k: nat :| StrayAt(c, ms, k);
    }
  }

  /** An ordinary machine gets the token and starts. */
  lemma OrdinaryTakes(c: Case, actions: seq<Action>, s: State, p: nat) returns (more: seq<Action>, u: State, k: nat)
    requires At(c, true, actions, s) && Second(c, s, p) && p < c.n - 1 && p != c.Worker()
    ensures At(c, true, more, u) && Taken(c, s, p, k, u) && s.net[k].HasToken() && Harmless(c, s.net[k])
  {
    k := TokenFound(c, s, p);
    more, u := Do(c, true, actions, s, Deliver(k, s.cores[p].cands));
    more, u := Do(c, true, more, u, Start(p));
  }

  /** The worker is about to expand its candidate. */
  ghost predicate Expanding(c: Case, s: State, u: State) {
    && c.Valid() && |u.cores| == |s.cores| == c.n
    && (forall j :: 0 <= j < c.n && j != c.Worker() ==> u.cores[j] == s.cores[j])
    && var d := u.cores[c.Worker()];
       && d == c.FirstCore(c.Worker()).(phase := Select, inq := d.inq, hasToken := true, tokenIsBlack := d.tokenIsBlack)
       && forall m :: m in d.inq ==> m.Sync? && m.work == 0
  }

  /** The worker gets the token, starts, expands its candidate ... */
  lemma WorkerStarts(c: Case, actions: seq<Action>, s: State) returns (more: seq<Action>, u: State, k: nat)
    requires At(c, true, actions, s) && Second(c, s, c.Worker())
    ensures At(c, true, more, u) && k < |s.net| && s.net[k].HasToken() && Harmless(c, s.net[k])
    ensures u.net == Remove(s.net, k) && AllHarmless(c, u.net)
    ensures Expanding(c, s, u)
  {
    var w := c.Worker();
    k := TokenFound(c, s, w);
    more, u := Do(c, true, actions, s, Deliver(k, 1));
    assert u.cores[w].inq == [s.net[k]];
    more, u := Do(c, true, more, u, Start(w));
  }

  /** ... itself: a neighbour for machine 0. */
  lemma WorkerFinds(c: Case, actions: seq<Action>, s: State, p: nat, k: nat, u: State) returns (more: seq<Action>, t: State)
    requires At(c, true, actions, u) && !c.helpers && p == 1 && |s.cores| == c.n && k < |s.net| && u.net == Remove(s.net, k)
    requires Expanding(c, s, u)
    ensures At(c, true, more, t) && Taken(c, s, p, k, t)
  {
    var found := Zeros(c.n)[0 := 1];
    assert Plus(Zeros(c.n), found) == found;
    assert u.net + [] == u.net;
    more, t := Do(c, true, actions, u, Expand(1, 1, [], found));
    Drains(t, 1);
    more, t := Do(c, true, more, t, Resume(1, false, 0));
  }

  /** ... by a helper, which finds a neighbour for the leader and answers first. */
  lemma WorkerAsks(c: Case, actions: seq<Action>, s: State, p: nat, k: nat, u: State) returns (more: seq<Action>, t: State)
    requires At(c, true, actions, u) && c.helpers && p == 0 && |s.cores| == c.n && k < |s.net| && u.net == Remove(s.net, k)
    requires Expanding(c, s, u)
    ensures At(c, true, more, t) && Taken(c, s, p, k, t)
  {
    more, t := HelperExpands(c, actions, s, u);
    var ms, v := u.net, t;
    assert v.net[|ms|] == NodeResult(0, 0) && Remove(v.net, |ms|) == ms + [c.Stray()];
    more, t := Do(c, true, more, v, Deliver(|ms|, 0));
    var d, inq := u.cores[0], u.cores[0].inq;
    assert t.cores == u.cores[0 := d.(phase := Yielded, cands := 0, post := 1, syncStep := 1, inq := inq + [Result(0, 1, 0)])];
    AnswerDrained(d, inq);
    more, t := Do(c, true, more, t, Resume(0, false, 0));
  }

  lemma AnswerDrained(d: Core, inq: seq<Msg>)
    requires (forall m :: m in inq ==> m.Sync?) && d.post == d.recv == d.nocorePost == d.nocoreRecv == 0
    ensures var e := d.(phase := Yielded, cands := 0, post := 1, syncStep := 1, inq := inq + [Result(0, 1, 0)]);
            Drained(0, e, false, 0) == d.(phase := Select, cands := 0, post := 1, recv := 1, syncStep := 1, inq := [])
  {
    AnswerCounts(inq);
  }

  lemma HelperExpands(c: Case, actions: seq<Action>, s: State, u: State) returns (more: seq<Action>, t: State)
    requires At(c, true, actions, u) && c.helpers && Expanding(c, s, u)
    ensures At(c, true, more, t) && t.net == u.net + [NodeResult(0, 0), c.Stray()]
    ensures t.cores == u.cores[0 := u.cores[0].(phase := Yielded, cands := 0, post := 1, syncStep := 1)]
  {
    var ms := u.net;
    assert Plus(Zeros(c.n), Zeros(c.n)) == Zeros(c.n);
    more, t := Do(c, true, actions, u, Expand(0, 1, [NodeTask(0)], Zeros(c.n)));
    assert t.net == ms + [NodeTask(0)] && t.net[|ms|] == NodeTask(0) && Remove(t.net, |ms|) == ms;
    SumNone(NocoreCredit, 0, [c.Stray()]);
    more, t := Do(c, true, more, t, RunNodeTask(|ms|, [c.Stray()]));
  }

  lemma AnswerCounts(ms: seq<Msg>)
    requires forall m :: m in ms ==> m.Sync?
    ensures Sum(CoreCredit, 0, ms + [Result(0, 1, 0)]) == 1 && Sum(NocoreCredit, 0, ms + [Result(0, 1, 0)]) == 0
  {
    SumNone(CoreCredit, 0, ms);
    SumNone(NocoreCredit, 0, ms);
    SumConcat(CoreCredit, 0, ms, [Result(0, 1, 0)]);
    SumConcat(NocoreCredit, 0, ms, [Result(0, 1, 0)]);
    SumOne(CoreCredit, 0, Result(0, 1, 0));
    SumOne(NocoreCredit, 0, Result(0, 1, 0));
  }

  lemma Takes(c: Case, actions: seq<Action>, s: State, p: nat) returns (more: seq<Action>, u: State, k: nat)
    requires At(c, true, actions, s) && Second(c, s, p) && p < c.n - 1
    ensures At(c, true, more, u) && Taken(c, s, p, k, u) && s.net[k].HasToken() && Harmless(c, s.net[k])
  {
    if p != c.Worker() {
      more, u, k := OrdinaryTakes(c, actions, s, p);
    } else {
      more, u, k := WorkerStarts(c, actions, s);
      if c.helpers {
        more, u := WorkerAsks(c, more, s, p, k, u);
      } else {
        more, u := WorkerFinds(c, more, s, p, k, u);
      }
    }
  }

  /** What is under way when p has handed the token on. */
  lemma StrayAfter(c: Case, s: State, p: nat, k: nat, u: State, posted: seq<Msg>, token: Token)
    requires Second(c, s, p) && p < c.n - 1 && Taken(c, s, p, k, u) && Harmless(c, s.net[k])
    requires posted == SyncMsgs(c.n, p, u.cores[p], token, c.n)
    ensures if p + 1 <= c.Worker() then AllHarmless(c, u.net + posted) else OneStray(c, u.net + posted)
  {
    if p == c.Worker() && !c.helpers {
      HarmlessRemoved(c, s.net, k);
      PostedStray(c, u.cores[p], token, c.n);
      assert Remove(s.net, k) + [] == Remove(s.net, k);
      StrayPosted(c, u.net, posted);
    } else {
      PostedHarmless(c, p, u.cores[p], token, c.n);
      if p == c.Worker() {
        HarmlessRemoved(c, s.net, k);
        assert StrayAt(c, [c.Stray()], 0);
        StrayPosted(c, Remove(s.net, k), [c.Stray()]);
        StrayWithMore(c, u.net, posted);
      } else {
        assert Remove(s.net, k) + [] == Remove(s.net, k);
        if p < c.Worker() {
          HarmlessRemoved(c, s.net, k);
        } else {
          StrayStays(c, s.net, k);
          StrayWithMore(c, u.net, posted);
        }
      }
    }
  }

  lemma SecondHop(c: Case, actions: seq<Action>, s: State, p: nat) returns (more: seq<Action>, t: State)
    requires At(c, true, actions, s) && Second(c, s, p) && p < c.n - 1
    ensures At(c, true, more, t) && Second(c, t, p + 1)
  {
    var u, k;
    more, u, k := Takes(c, actions, s, p);
    LanesEmptied(c.n, s.net, k);
    EmptyBeside(c, s, p, k, u);
    HandsOn(u, p, u.cores[p].unsent);
    more, t := Do(c, true, more, u, Test(p));
    StrayAfter(c, s, p, k, u, SyncMsgs(c.n, p, u.cores[p], Token(true), c.n), Token(true));
    SecondKept(c, s, p, u, t);
  }

  lemma EmptyBeside(c: Case, s: State, p: nat, k: nat, u: State)
    requires Taken(c, s, p, k, u) && EmptyLanes(c.n, Remove(s.net, k))
    ensures EmptyLanes(c.n, u.net)
  {
    var more := if p == c.Worker() && c.helpers then [c.Stray()] else [];
    TokensConcat(Remove(s.net, k), more);
    TokensNone(more);
  }

  lemma SecondKept(c: Case, s: State, p: nat, u: State, t: State)
    requires Second(c, s, p) && p < c.n - 1 && |t.cores| == |u.cores| == c.n && Resting(t, p)
    requires forall j :: 0 <= j < c.n && j != p ==> t.cores[j] == u.cores[j] == s.cores[j]
    requires Lanes(c.n, t.net) && TokenComing(t.net, p + 1, true)
    requires if p + 1 <= c.Worker() then AllHarmless(c, t.net) else OneStray(c, t.net)
    ensures Second(c, t, p + 1)
  {
    forall i | 0 <= i < c.n && i != p && Resting(s, i)
      ensures Resting(t, i)
    {
    }
  }

  /** The machines from `low` on rest and a white token is on its way to p. */
  ghost predicate Circling(c: Case, t: State, low: nat, p: nat, last: bool) {
    && c.Valid() && |t.cores| == c.n && p < c.n
    && (forall i :: low <= i < c.n ==> Resting(t, i)) && t.cores[c.n - 1].lastIsWhite == last
    && Lanes(c.n, t.net) && TokenComing(t.net, p, false)
  }

  /** The second circuit up to the leader. */
  lemma {:induction false} SecondCircuit(c: Case, actions: seq<Action>, s: State, p: nat) returns (more: seq<Action>, t: State)
    requires At(c, true, actions, s) && Second(c, s, p)
    ensures At(c, true, more, t) && Second(c, t, c.n - 1)
    decreases c.n - p
  {
    if p == c.n - 1 {
      more, t := actions, s;
    } else {
      more, t := SecondHop(c, actions, s, p);
      more, t := SecondCircuit(c, more, t, p + 1);
    }
  }

  /** The leader sees that the second circuit has failed. */
  lemma LeaderFails(c: Case, actions: seq<Action>, s: State) returns (more: seq<Action>, t: State)
    requires At(c, true, actions, s) && Second(c, s, c.n - 1)
    ensures At(c, true, more, t) && Circling(c, t, 0, 0, false) && OneStray(c, t.net)
  {
    forall m | m in s.net && m.IsWork()
      ensures m.cause != c.n - 1
    {
      WorkIsStray(c, s.net, true, m);
    }
    var k, posted;
    more, t, k, posted := Hop(c, true, actions, s, c.n - 1, true);
    StrayPasses(c, s.net, c.n - 1, k, posted);
    AllRest(c, s, t, 0, c.n - 1);
  }

  lemma AllRest(c: Case, s: State, t: State, low: nat, p: nat)
    requires |s.cores| == |t.cores| == c.n && p < c.n && Resting(t, p)
    requires forall j :: 0 <= j < c.n && j != p ==> t.cores[j] == s.cores[j]
    requires forall i :: low <= i < c.n && i != p ==> Resting(s, i)
    ensures forall i :: low <= i < c.n ==> Resting(t, i)
  {
    forall i | low <= i < c.n
      ensures Resting(t, i)
    {
      assert i != p ==> Resting(s, i);
    }
  }

  /** After the first two circuits everybody rests, the token is white again, and the stray message is
      still under way. */
  lemma TwoCircuits(c: Case) returns (actions: seq<Action>, t: State)
    requires c.Valid()
    ensures At(c, true, actions, t) && Circling(c, t, 0, 0, false) && OneStray(c, t.net)
  {
    actions, t := FirstCircuit(c);
    actions, t := SecondCircuit(c, actions, t, 0);
    actions, t := LeaderFails(c, actions, t);
  }

  lemma StrayPasses(c: Case, ms: seq<Msg>, p: nat, k: nat, posted: seq<Msg>)
    requires c.Valid() && OneStray(c, ms) && k < |ms| && ms[k].HasToken() && ms[k].work == 0 && p < c.n
    requires Lanes(c.n, ms) && (p != 1 || c.helpers) && PostedBy(c, p, posted)
    ensures OneStray(c, Remove(ms, k) + posted)
  {
    var d: Core, token :| |d.unsent| == c.n && d.unsent == Zeros(c.n) && posted == SyncMsgs(c.n, p, d, token, c.n);
    assert ms[k] in ms;
    StrayStays(c, ms, k);
    PostedHarmless(c, p, d, token, c.n);
    StrayWithMore(c, Remove(ms, k), posted);
  }

  // ----- White circuits

  lemma WhiteHop(c: Case, assuming: bool, actions: seq<Action>, s: State, low: nat, p: nat, last: bool)
    returns (more: seq<Action>, t: State, k: nat, posted: seq<Msg>)
    requires At(c, assuming, actions, s) && Circling(c, s, low, p, last) && low <= p && (p < c.n - 1 || !last)
    requires assuming ==> forall m :: m in s.net && m.IsWork() ==> m.cause != p
    ensures At(c, assuming, more, t) && Circling(c, t, low, Next(c.n, p), last || p == c.n - 1)
    ensures (NoWork(s.net) ==> NoWork(t.net)) && (c.Stray() in s.net ==> c.Stray() in t.net)
    ensures Hopped(c, s, t, p, false, k, posted)
  {
    more, t, k, posted := Hop(c, assuming, actions, s, p, false);
    CirclesOn(c, s, t, low, p, last, k, posted);
  }

  lemma CirclesOn(c: Case, s: State, t: State, low: nat, p: nat, last: bool, k: nat, posted: seq<Msg>)
    requires Circling(c, s, low, p, last) && low <= p && (p < c.n - 1 || !last) && Hopped(c, s, t, p, false, k, posted)
    ensures Circling(c, t, low, Next(c.n, p), last || p == c.n - 1)
    ensures (NoWork(s.net) ==> NoWork(t.net)) && (c.Stray() in s.net ==> c.Stray() in t.net)
  {
    AllRest(c, s, t, low, p);
    NetAfter(c, s.net, k, p, posted);
  }

  lemma StrayLeft(c: Case, ms: seq<Msg>, k: nat)
    requires c.Valid() && k < |ms| && ms[k].HasToken() && ms[k].work == 0 && c.Stray() in ms
    ensures c.Stray() in Remove(ms, k)
  {
    var j :| 0 <= j < |ms| && ms[j] == c.Stray();
    assert Remove(ms, k)[if j < k then j else j - 1] == c.Stray();
  }

  lemma NetAfter(c: Case, ms: seq<Msg>, k: nat, p: nat, posted: seq<Msg>)
    requires c.Valid() && k < |ms| && ms[k].HasToken() && ms[k].work == 0 && p < c.n && PostedBy(c, p, posted)
    ensures NoWork(ms) ==> NoWork(Remove(ms, k) + posted)
    ensures c.Stray() in ms ==> c.Stray() in Remove(ms, k) + posted
  {
    var d: Core, token :| |d.unsent| == c.n && d.unsent == Zeros(c.n) && posted == SyncMsgs(c.n, p, d, token, c.n);
    SyncMsgsFacts(c.n, p, d, token, c.n);
    InRemove(ms, k);
    if c.Stray() in ms {
      StrayLeft(c, ms, k);
    }
  }

  lemma TokenIndex(ms: seq<Msg>, p: nat, black: bool) returns (k: nat)
    requires TokenComing(ms, p, black)
    ensures k < |ms| && ms[k].HasToken() && ms[k].token.black == black && ms[k].work == 0 && ms[k].dst == p
  {
    k :| 0 <= k < |ms| && ms[k].HasToken() && ms[k].token.black == black && ms[k].work == 0 && ms[k].dst == p;
  }

  /** A success after a success ends the query. */
  lemma Ends(c: Case, assuming: bool, actions: seq<Action>, s: State) returns (more: seq<Action>, t: State)
    requires At(c, assuming, actions, s) && Circling(c, s, c.n - 1, c.n - 1, true)
    requires assuming ==> NoWork(s.net)
    ensures At(c, assuming, more, t) && t.cores[c.n - 1].phase.Ended? && (c.Stray() in s.net ==> c.Stray() in t.net)
  {
    var leader := c.n - 1;
    var k := TokenIndex(s.net, leader, false);
    var u;
    assert Resting(s, leader);
    more, u := Reach(c, assuming, actions, s, k);
    if c.Stray() in s.net {
      StrayLeft(c, s.net, k);
    }
    EndsAt(u, leader);
    more, t := Do(c, assuming, more, u, Test(leader));
  }

  lemma EndsAt(u: State, leader: nat)
    requires Looking(u, leader, Zeros(|u.cores|)) && Terminates(u, leader)
    ensures Enabled(u, Test(leader)) && Apply(u, Test(leader)).net == u.net
    ensures Apply(u, Test(leader)).cores[leader].phase.Ended?
  {
    assert Apply(u, Test(leader)) == VisitToken(u, leader);
  }

  /** From p on to the leader: it sees a success, and ends the query if it is the second one. */
  lemma {:induction false} WhiteCircuit(c: Case, assuming: bool, actions: seq<Action>, s: State, low: nat, p: nat, last: bool)
    returns (more: seq<Action>, t: State)
    requires At(c, assuming, actions, s) && Circling(c, s, low, p, last) && low <= p && low <= 1
    requires assuming ==> NoWork(s.net)
    ensures At(c, assuming, more, t) && (c.Stray() in s.net ==> c.Stray() in t.net)
    ensures if last then t.cores[c.n - 1].phase.Ended?
            else Circling(c, t, low, 0, true) && (NoWork(s.net) ==> NoWork(t.net)) && (low > 0 ==> t.cores[0] == s.cores[0])
    decreases c.n - p
  {
    var k, posted;
    if p < c.n - 1 {
      more, t, k, posted := WhiteHop(c, assuming, actions, s, low, p, last);
      more, t := WhiteCircuit(c, assuming, more, t, low, p + 1, last);
    } else if last {
      more, t := Ends(c, assuming, actions, s);
    } else {
      more, t, k, posted := WhiteHop(c, assuming, actions, s, low, p, last);
    }
  }

  // ----- The delivery assumption cannot be dropped

  /** Without the delivery assumption the ring is not safe, even if every channel keeps its messages in order: on
      every ring of three or more machines, or of two with helpers, a run ends the query while a neighbour is
      still on its way. */
  lemma AssumptionNeeded(c: Case) returns (actions: seq<Action>)
    requires c.Valid()
    ensures Initial(c.First()) && |c.First().cores| == c.n && AllInOrder(c.First(), actions, c.helpers)
    ensures Run(c.First(), actions, false).Some?
    ensures var t := Run(c.First(), actions, false).value; Finished(t) && c.Stray() in t.net && !NothingLeft(t)
  {
    var t;
    actions, t := TwoCircuits(c);
    RunWithoutAssumption(c.First(), actions);
    var k: nat :| StrayAt(c, t.net, k);
    assert t.net[k] in t.net;
    actions, t := WhiteCircuit(c, false, actions, t, 0, 0, false);
    actions, t := WhiteCircuit(c, false, actions, t, 0, 0, true);
  }

  // ----- One white circuit is not enough

  /** The stray message reaches machine 0 behind the token. */
  lemma StrayArrives(c: Case, actions: seq<Action>, s: State) returns (more: seq<Action>, t: State)
    requires At(c, true, actions, s) && !c.helpers && Circling(c, s, 0, 1, false) && OneStray(c, s.net)
    ensures At(c, true, more, t) && Circling(c, t, 1, 1, false) && NoWork(t.net)
    ensures t.cores[0] == s.cores[0].(phase := Yielded, inq := s.cores[0].inq + [c.Stray()])
  {
    var k: nat :| StrayAt(c, s.net, k);
    assert Resting(s, 0);
    more, t := Do(c, true, actions, s, Deliver(k, 0));
    StrayGone(c, s.net, k);
    forall i | 1 <= i < c.n
      ensures Resting(t, i)
    {
      assert Resting(s, i);
    }
  }

  lemma StrayGone(c: Case, ms: seq<Msg>, k: nat)
    requires c.Valid() && !c.helpers && StrayAt(c, ms, k) && Lanes(c.n, ms) && TokenComing(ms, 1, false)
    ensures NoWork(Remove(ms, k)) && Lanes(c.n, Remove(ms, k)) && TokenComing(Remove(ms, k), 1, false)
  {
    TokensRemove(ms, k);
    InRemove(ms, k);
    var j :| 0 <= j < |ms| && ms[j].HasToken() && !ms[j].token.black && ms[j].work == 0 && ms[j].dst == 1;
    assert Remove(ms, k)[if j < k then j else j - 1] == ms[j];
  }

  /** One white circuit is not enough, even under the delivery assumption: on every ring of three or more machines
      the leader can see its first success while machine 0 still has a neighbour to process. */
  lemma OneWhiteCircuitNotEnough(c: Case) returns (actions: seq<Action>, t: State)
    requires c.Valid() && !c.helpers
    ensures At(c, true, actions, t) && Circling(c, t, 1, 0, true) && NoWork(t.net)
    ensures c.Stray() in t.cores[0].inq && !NothingLeft(t) && t.cores[0].phase.Yielded?
    ensures t.cores[0].unsent == Zeros(c.n) && t.cores[0].cands == 0 && AllReceived(t.cores[0]) && !t.cores[0].hasToken
    ensures !t.cores[0].tokenIsBlack && !t.cores[0].procIsBlack && forall m :: m in t.cores[0].inq ==> m.Sync?
  {
    var s, k, posted;
    actions, s := TwoCircuits(c);
    forall m | m in s.net && m.IsWork()
      ensures m.cause != 0
    {
      WorkIsStray(c, s.net, true, m);
    }
    actions, t, k, posted := WhiteHop(c, true, actions, s, 0, 0, false);
    StrayPasses(c, s.net, 0, k, posted);
    s := t;
    assert Resting(s, 0);
    actions, t := StrayArrives(c, actions, s);
    s := t;
    actions, t := WhiteCircuit(c, true, actions, s, 1, 1, false);
    assert c.Stray() in t.cores[0].inq && !CoreIdle(t.cores[0]);
  }

  /** The run of OneWhiteCircuitNotEnough continued: machine 0 processes the neighbour, a second white
      circuit follows, and the query ends. */
  lemma TerminationReachable(c: Case) returns (actions: seq<Action>, t: State)
    requires c.Valid() && !c.helpers
    ensures At(c, true, actions, t) && Finished(t)
  {
    actions, t := OneWhiteCircuitNotEnough(c);
    var s := t;
    Drains(s, 0);
    actions, t := Do(c, true, actions, s, Resume(0, false, 0));
    actions, t := Do(c, true, actions, t, Test(0));
    AllRest(c, s, t, 0, 0);
    actions, t := WhiteCircuit(c, true, actions, t, 0, 0, true);
  }

  // ----- The initial colours

  /** As Initial, but with every machine white. */
  predicate InitialButWhite(s: State) {
    var n := |s.cores|;
    && n > 0 && s.net == [] && s.at == n - 1
    && forall i :: 0 <= i < n ==>
         var c := s.cores[i];
         c == Core(Waiting, c.cands, [], 0, 0, 0, 0, Zeros(n), 0, IsLeader(n, i), false, false, true, 0)
  }

  /** Were the machines white at first, a leader without candidates would end the query at its first
      test, whatever the others have to do. */
  lemma InitialBlackNeeded(s: State)
    requires InitialButWhite(s) && |s.cores| > 1
    requires s.cores[|s.cores| - 1].cands == 0
    requires exists i :: 0 <= i < |s.cores| && s.cores[i].cands > 0
    ensures var leader := |s.cores| - 1;
            var run := Run(s, [Start(leader), Test(leader)], true);
            run.Some? && Finished(run.value) && !NothingLeft(run.value)
  {
    var leader := |s.cores| - 1;
    var i :| 0 <= i < |s.cores| && s.cores[i].cands > 0;
    Extend(s, [], Start(leader), true);
    assert [] + [Start(leader)] == [Start(leader)];
    var s1 := Apply(s, Start(leader));
    Extend(s, [Start(leader)], Test(leader), true);
    assert [Start(leader)] + [Test(leader)] == [Start(leader), Test(leader)];
    var s2 := Apply(s1, Test(leader));
    assert s2 == VisitToken(s1, leader);
    assert s2.cores[leader].phase.Ended?;
    assert !CoreIdle(s2.cores[i]);
  }

  // ----- A single core machine

  const LOST := NodeSync(0, 0, 0, 1)

  /** No SYNC is delivered, so their order does not matter. */
  ghost predicate Moves(s: State, a: Action, t: State) {
    Enabled(s, a) && DeliveryGuard(s, a) && InOrder(s, a, true) && Apply(s, a) == t
  }

  const U0 := State([Core(Waiting, 1, [], 0, 0, 0, 0, [0], 0, true, false, true, true, 0)], [], 0)
  const U1 := State([Core(Select, 1, [], 0, 0, 0, 0, [0], 0, true, false, true, true, 0)], [], 0)
  const U2 := State([Core(Yielded, 0, [], 1, 0, 0, 0, [0], 1, true, false, true, true, 0)], [NodeTask(0)], 0)
  const U3 := State([Core(Yielded, 0, [], 1, 0, 0, 0, [0], 1, true, false, true, true, 0)], [NodeResult(0, 0), LOST], 0)
  const U4 := State([Core(Yielded, 0, [Result(0, 1, 0)], 1, 0, 0, 0, [0], 1, true, false, true, true, 0)], [LOST], 0)
  const U5 := State([Core(Select, 0, [], 1, 1, 0, 0, [0], 1, true, false, true, true, 0)], [LOST], 0)
  const U6 := State([Core(Ended, 0, [], 1, 1, 0, 0, [0], 1, true, false, true, true, 0)], [LOST], 0)

  lemma SingleCoreSteps()
    ensures Initial(U0)
    ensures Moves(U0, Start(0), U1)
    ensures Moves(U1, Expand(0, 1, [NodeTask(0)], [0]), U2)
    ensures Moves(U2, RunNodeTask(0, [LOST]), U3)
  {
    assert Zeros(1) == [0];
    assert Plus([0], [0]) == [0];
    assert [] + [NodeTask(0)] == [NodeTask(0)];
    assert Remove(U2.net, 0) == [];
    SumNone(NocoreCredit, 0, [LOST]);
    assert [] + [NodeResult(0, 0)] + [LOST] == U3.net;
  }

  lemma Receives(s: State, k: nat, t: State)
    requires k < |s.net| && s.net[k].NodeResult? && s.net[k].owner < |s.cores|
    requires var i := s.net[k].owner;
             && s.cores[i].phase.Yielded?
             && t == State(s.cores[i := Arrive(s.cores[i], s.net[k], s.cores[i].cands)], Remove(s.net, k), s.at)
    ensures Moves(s, Deliver(k, s.cores[s.net[k].owner].cands), t)
  {
  }

  lemma ResultComesBack(c: Core, d: Core)
    requires c.phase == Yielded && c.inq == [] && c.nocorePost == 0 && c.cands == 0
    requires d == c.(inq := [Result(0, 1, 0)])
    ensures Moves(State([c], [NodeResult(0, 0), LOST], 0), Deliver(0, 0), State([d], [LOST], 0))
  {
    var s, t := State([c], [NodeResult(0, 0), LOST], 0), State([d], [LOST], 0);
    assert [] + [Result(0, 1, 0)] == [Result(0, 1, 0)];
    assert Arrive(c, NodeResult(0, 0), 0) == d;
    assert Remove(s.net, 0) == [LOST];
    Receives(s, 0, t);
  }

  lemma SingleCoreResult()
    ensures Moves(U3, Deliver(0, 0), U4)
  {
    ResultComesBack(U3.cores[0], U4.cores[0]);
  }

  lemma SingleCoreEnd()
    ensures Moves(U4, Resume(0, false, 0), U5)
    ensures Moves(U5, Test(0), U6)
  {
    SumOne(CoreCredit, 0, Result(0, 1, 0));
    SumOne(NocoreCredit, 0, Result(0, 1, 0));
  }

  lemma DoAlone(actions: seq<Action>, s: State, a: Action, t: State) returns (more: seq<Action>)
    requires Run(U0, actions, true) == Some(s) && Moves(s, a, t) && AllInOrder(U0, actions, true)
    ensures more == actions + [a] && Run(U0, more, true) == Some(t) && AllInOrder(U0, more, true)
  {
    Extend(U0, actions, a, true);
    OrderMore(U0, actions, a, true, true);
    more := actions + [a];
  }

  /** With a single core machine the query can end while a helper's NODE_SYNC is still on its way. */
  lemma SingleCoreLosesNodeSync() returns (actions: seq<Action>)
    ensures Initial(U0) && |U0.cores| == 1 && Run(U0, actions, true).Some? && AllInOrder(U0, actions, true)
    ensures var t := Run(U0, actions, true).value; Finished(t) && LOST in t.net && !NothingLeft(t)
  {
    SingleCoreSteps();
    SingleCoreResult();
    SingleCoreEnd();
    actions := DoAlone([], U0, Start(0), U1);
    actions := DoAlone(actions, U1, Expand(0, 1, [NodeTask(0)], [0]), U2);
    actions := DoAlone(actions, U2, RunNodeTask(0, [LOST]), U3);
    actions := DoAlone(actions, U3, Deliver(0, 0), U4);
    actions := DoAlone(actions, U4, Resume(0, false, 0), U5);
    actions := DoAlone(actions, U5, Test(0), U6);
    assert LOST in U6.net;
    assert U6.cores[0].phase.Ended?;
  }
}
