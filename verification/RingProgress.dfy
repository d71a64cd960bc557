/** The delivery assumption never blocks the ring: whatever has happened, some continuation that meets it ends
    the query. */
module RingProgress {
  import opened Options
  import opened SubQueryRing
  import opened RingTermination
  import opened RingLiveness

  // ----- What is left to do

  function Total(ns: seq<nat>): nat { if ns == [] then 0 else Total(ns[..|ns| - 1]) + ns[|ns| - 1] }

  lemma {:induction false} TotalOne(a: seq<nat>, b: seq<nat>, i: nat)
    requires i < |a| == |b| && forall j :: 0 <= j < |a| && j != i ==> a[j] == b[j]
    ensures Total(b) + a[i] == Total(a) + b[i]
  {
    var n := |a| - 1;
    if i < n {
      TotalOne(a[..n], b[..n], i);
    } else {
      assert a[..n] == b[..n];
    }
  }

  lemma {:induction false} TotalFalls(a: seq<nat>, b: seq<nat>)
    requires |a| == |b| && forall j :: 0 <= j < |a| ==> b[j] <= a[j]
    ensures Total(b) <= Total(a) && ((exists j :: 0 <= j < |a| && b[j] < a[j]) ==> Total(b) < Total(a))
  {
    if a != [] {
      var n := |a| - 1;
      TotalFalls(a[..n], b[..n]);
      if j :| 0 <= j < |a| && b[j] < a[j] && j < n {
        assert b[..n][j] < a[..n][j];
      }
    }
  }

  /** Steps a message under way still needs. */
  function Steps(m: Msg): nat {
    match m
    case Task(_, _, _) => 4
    case NodeTask(_) => 4
    case Sync(_, _, _, w, _) => if w > 0 then 2 else 0
    case _ => 2
  }

  /** ... and one in a queue. */
  function QueueSteps(m: Msg): nat { if m.Sync? && m.work == 0 then 0 else 1 }

  function InNet(ms: seq<Msg>): nat { if ms == [] then 0 else Steps(ms[0]) + InNet(ms[1..]) }

  function InQueue(ms: seq<Msg>): nat { if ms == [] then 0 else InQueue(ms[..|ms| - 1]) + QueueSteps(ms[|ms| - 1]) }

  predicate Laden(c: Core) { exists j :: 0 <= j < |c.unsent| && c.unsent[j] > 0 }

  /** Asleep although its queues are not empty, as a machine can be that got a SYNC before it started. */
  predicate Asleep(c: Core) { c.phase.Paused? && InQueue(c.inq) > 0 }

  /** Started with queues that it has not looked at. */
  predicate Fresh(c: Core) { c.phase.Select? && exists m :: m in c.inq && !m.Chunk? && QueueSteps(m) > 0 }

  function Flag(b: bool): nat { if b then 1 else 0 }

  function Rank(c: Core): nat { if c.phase.Select? then 1 else if c.phase.Yielded? && c.cands > 0 then 2 else 0 }

  /** Hops of the token from machine `at` to machine j. */
  function Hops(n: nat, at: nat, j: nat): nat { if j >= at then j - at else if n + j >= at then n + j - at else 0 }

  /** The shares of the machines in what is left to do. */
  datatype Part = Cands | Waits | Freshly | Load | Queue | Ranks | Far

  function Share(part: Part, n: nat, at: nat, i: nat, c: Core): nat {
    match part
    case Cands => c.cands
    case Waits => Flag(c.phase.Waiting?)
    case Freshly => Flag(Fresh(c))
    case Load => Flag(Laden(c))
    case Queue => InQueue(c.inq)
    case Ranks => if i == at then 0 else Rank(c)
    case Far => if Laden(c) || Asleep(c) then Hops(n, at, i) else 0
  }

  function Shares(s: State, part: Part): (r: seq<nat>)
    ensures |r| == |s.cores|
  {
    seq(|s.cores|, i requires 0 <= i < |s.cores| => Share(part, |s.cores|, s.at, i, s.cores[i]))
  }

  function Left(s: State, part: Part): nat { Total(Shares(s, part)) }

  /** Some machine has to be visited by the token. */
  predicate Needed(s: State) { exists i :: 0 <= i < |s.cores| && (Laden(s.cores[i]) || Asleep(s.cores[i])) }

  /** How near the machine the token is with or comes to is to passing it on. */
  function Nearness(c: Core): nat {
    if c.cands > 0 then if c.phase.Select? then 7 else 8
    else if !c.hasToken then if c.phase.Select? then 6 else 5
    else if !AllReceived(c) then if c.phase.Select? then 4 else 3
    else if c.phase.Select? then 1 else 2
  }

  datatype Measure = Measure(cands: nat, waits: nat, news: nat, load: nat, pending: nat, ranks: nat, far: nat, near: nat) {
    predicate Less(m: Measure) {
      || cands < m.cands
      || (cands == m.cands && waits < m.waits)
      || (cands == m.cands && waits == m.waits && news < m.news)
      || (cands == m.cands && waits == m.waits && news == m.news && load < m.load)
      || (cands == m.cands && waits == m.waits && news == m.news && load == m.load && LessRest(m))
    }

    predicate LessRest(m: Measure) {
      || pending < m.pending
      || (pending == m.pending && ranks < m.ranks)
      || (pending == m.pending && ranks == m.ranks && far < m.far)
      || (pending == m.pending && ranks == m.ranks && far == m.far && near < m.near)
    }
  }

  function MeasureOf(s: State): Measure
    requires s.at < |s.cores|
  {
    Measure(Left(s, Cands), Left(s, Waits), Left(s, Freshly), Left(s, Load), InNet(s.net) + Left(s, Queue),
            Left(s, Ranks), if Needed(s) then 2 + Left(s, Far) else Flag(s.cores[s.at].hasToken),
            Nearness(s.cores[s.at]))
  }

  /** One machine changes. */
  ghost predicate Only(s: State, t: State, i: nat) {
    i < |s.cores| == |t.cores| && forall j :: 0 <= j < |s.cores| && j != i ==> t.cores[j] == s.cores[j]
  }

  lemma OneChanges(s: State, t: State, i: nat, part: Part)
    requires Only(s, t, i) && (s.at == t.at || (part != Ranks && part != Far))
    ensures Left(t, part) + Share(part, |s.cores|, s.at, i, s.cores[i]) ==
            Left(s, part) + Share(part, |s.cores|, t.at, i, t.cores[i])
  {
    TotalOne(Shares(s, part), Shares(t, part), i);
  }

  // ----- Where machines sleep

  /** A sleeping machine waits for nothing. */
  ghost predicate Tidy(c: Core) { c.phase.Paused? ==> c.cands == 0 && AllReceived(c) }

  ghost predicate Live(s: State) { Stable(s) && Holding(s) && forall i :: 0 <= i < |s.cores| ==> Tidy(s.cores[i]) }

  lemma TidyKept(s: State, a: Action, i: nat)
    requires Live(s) && Enabled(s, a) && i < |s.cores|
    ensures |Apply(s, a).cores| == |s.cores| && Tidy(Apply(s, a).cores[i])
  {
    assert Tidy(s.cores[i]);
  }

  lemma StepStaysLive(s: State, a: Action)
    requires Live(s) && Enabled(s, a) && DeliveryGuard(s, a)
    ensures Live(Apply(s, a)) && |Apply(s, a).cores| == |s.cores|
  {
    StepKeepsStable(s, a);
    StepKeepsHolding(s, a);
    forall i | 0 <= i < |s.cores|
      ensures |Apply(s, a).cores| == |s.cores| && Tidy(Apply(s, a).cores[i])
    {
      TidyKept(s, a, i);
    }
    TidyKept(s, a, 0);
  }

  lemma {:induction false} RunStaysLive(s: State, actions: seq<Action>)
    requires Initial(s) && |s.cores| > 1 && Run(s, actions, true).Some?
    ensures Live(Run(s, actions, true).value)
    decreases |actions|
  {
    if actions == [] {
      InitialIsStable(s);
    } else {
      var front := actions[..|actions| - 1];
      RunStaysLive(s, front);
      StepStaysLive(Run(s, front, true).value, actions[|actions| - 1]);
    }
  }

  // ----- Sums over messages

  lemma {:induction false} NetConcat(a: seq<Msg>, b: seq<Msg>)
    ensures InNet(a + b) == InNet(a) + InNet(b)
  {
    if a == [] {
      assert a + b == b;
    } else {
      assert (a + b)[1..] == a[1..] + b;
      NetConcat(a[1..], b);
    }
  }

  lemma NetOne(m: Msg)
    ensures InNet([m]) == Steps(m)
  {
    assert [m][1..] == [];
  }

  lemma NetRemove(ms: seq<Msg>, k: nat)
    requires k < |ms|
    ensures InNet(ms) == InNet(Remove(ms, k)) + Steps(ms[k])
  {
    NetConcat(ms[..k], ms[k + 1..]);
    NetConcat(ms[..k], ms[k..]);
    assert ms == ms[..k] + ms[k..];
    assert ms[k..][1..] == ms[k + 1..];
  }

  lemma {:induction false} NetNone(ms: seq<Msg>)
    requires forall m :: m in ms ==> Steps(m) == 0
    ensures InNet(ms) == 0
  {
    if ms != [] {
      NetNone(ms[1..]);
    }
  }

  lemma QueueAppend(ms: seq<Msg>, m: Msg)
    ensures InQueue(ms + [m]) == InQueue(ms) + QueueSteps(m)
  {
    assert (ms + [m])[..|ms|] == ms;
  }

  lemma {:induction false} QueueNone(ms: seq<Msg>)
    requires forall m :: m in ms ==> QueueSteps(m) == 0
    ensures InQueue(ms) == 0
  {
    if ms != [] {
      QueueNone(ms[..|ms| - 1]);
    }
  }

  lemma {:induction false} QueueSome(ms: seq<Msg>, m: Msg)
    requires m in ms
    ensures QueueSteps(m) <= InQueue(ms)
  {
    if m != ms[|ms| - 1] {
      assert m in ms[..|ms| - 1];
      QueueSome(ms[..|ms| - 1], m);
    }
  }

  // ----- Steps that lead on

  ghost predicate Leads(s: State, a: Action) {
    && Enabled(s, a) && DeliveryGuard(s, a) && s.at < |s.cores|
    && Apply(s, a).at < |Apply(s, a).cores|
    && (Finished(Apply(s, a)) || MeasureOf(Apply(s, a)).Less(MeasureOf(s)))
  }

  /** One machine has fewer candidates, or as many and has started, or ... */
  predicate CoreFalls(c: Core, d: Core) {
    || d.cands < c.cands
    || (d.cands == c.cands && Flag(d.phase.Waiting?) < Flag(c.phase.Waiting?))
    || (d.cands == c.cands && d.phase.Waiting? == c.phase.Waiting? && Flag(Fresh(d)) < Flag(Fresh(c)))
    || (CoreKept(c, d) && Flag(Laden(d)) < Flag(Laden(c)))
  }

  predicate CoreKept(c: Core, d: Core) {
    d.cands == c.cands && d.phase.Waiting? == c.phase.Waiting? && Fresh(d) == Fresh(c)
  }

  lemma FallsAt(s: State, t: State, i: nat)
    requires Only(s, t, i) && s.at < |s.cores| && t.at < |s.cores| && CoreFalls(s.cores[i], t.cores[i])
    ensures MeasureOf(t).Less(MeasureOf(s))
  {
    OneChanges(s, t, i, Cands);
    OneChanges(s, t, i, Waits);
    OneChanges(s, t, i, Freshly);
    OneChanges(s, t, i, Load);
  }

  predicate SameFirst(m: Measure, m1: Measure) {
    m1.cands == m.cands && m1.waits == m.waits && m1.news == m.news && m1.load == m.load
  }

  lemma FirstKept(s: State, t: State, i: nat)
    requires Only(s, t, i) && s.at < |s.cores| && t.at < |s.cores|
    requires CoreKept(s.cores[i], t.cores[i]) && Laden(t.cores[i]) == Laden(s.cores[i])
    ensures SameFirst(MeasureOf(s), MeasureOf(t))
  {
    OneChanges(s, t, i, Cands);
    OneChanges(s, t, i, Waits);
    OneChanges(s, t, i, Freshly);
    OneChanges(s, t, i, Load);
  }

  /** The same in these respects, and the rest is less. */
  lemma FallsLater(s: State, t: State, i: nat)
    requires Only(s, t, i) && s.at < |s.cores| && t.at < |s.cores|
    requires CoreKept(s.cores[i], t.cores[i]) && Laden(t.cores[i]) == Laden(s.cores[i])
    requires MeasureOf(t).LessRest(MeasureOf(s))
    ensures MeasureOf(t).Less(MeasureOf(s))
  {
    FirstKept(s, t, i);
    var m, m1 := MeasureOf(s), MeasureOf(t);
    assert SameFirst(m, m1) && m1.LessRest(m);
  }

  lemma SameNeeded(s: State, t: State, i: nat)
    requires Only(s, t, i) && Laden(t.cores[i]) == Laden(s.cores[i]) && Asleep(t.cores[i]) == Asleep(s.cores[i])
    ensures Needed(t) <==> Needed(s)
  {
    if j :| 0 <= j < |s.cores| && (Laden(s.cores[j]) || Asleep(s.cores[j])) {
      assert Laden(t.cores[j]) || Asleep(t.cores[j]);
    }
    if j :| 0 <= j < |t.cores| && (Laden(t.cores[j]) || Asleep(t.cores[j])) {
      assert Laden(s.cores[j]) || Asleep(s.cores[j]);
    }
  }

  /** Nothing changes but phases: messages, loads and the token stay. */
  lemma PhaseChanges(s: State, t: State, i: nat)
    requires Only(s, t, i) && t.at == s.at < |s.cores| && InNet(t.net) == InNet(s.net)
    requires var c, d := s.cores[i], t.cores[i];
             InQueue(d.inq) == InQueue(c.inq) && Laden(d) == Laden(c) && Asleep(d) == Asleep(c) && d.hasToken == c.hasToken
    ensures MeasureOf(t).pending == MeasureOf(s).pending && MeasureOf(t).far == MeasureOf(s).far
  {
    OneChanges(s, t, i, Queue);
    OneChanges(s, t, i, Far);
    SameNeeded(s, t, i);
  }

  /** ... so it counts who has less to do before the next rest. */
  lemma RankFalls(s: State, t: State, i: nat)
    requires Only(s, t, i) && t.at == s.at < |s.cores| && InNet(t.net) == InNet(s.net)
    requires var c, d := s.cores[i], t.cores[i];
             && InQueue(d.inq) == InQueue(c.inq) && Laden(d) == Laden(c) && Asleep(d) == Asleep(c)
             && d.hasToken == c.hasToken && CoreKept(c, d)
             && (if i == s.at then Nearness(d) < Nearness(c) else Rank(d) < Rank(c))
    ensures MeasureOf(t).Less(MeasureOf(s))
  {
    PhaseChanges(s, t, i);
    OneChanges(s, t, i, Ranks);
    FallsLater(s, t, i);
  }

  lemma StartLeads(s: State, i: nat)
    requires Live(s) && i < |s.cores| && s.cores[i].phase.Waiting?
    ensures Leads(s, Start(i))
  {
    FallsAt(s, Apply(s, Start(i)), i);
  }

  lemma ExpandLeads(s: State, i: nat) returns (a: Action)
    requires Live(s) && i < |s.cores| && s.cores[i].phase.Select? && s.cores[i].cands > 0
    ensures Leads(s, a)
  {
    assert CoreShape(s, i);
    var c := s.cores[i];
    var group := if c.cands < CAND_GROUP_SIZE then c.cands else CAND_GROUP_SIZE;
    a := Expand(i, group, [], Zeros(|s.cores|));
    ExpandedCore(s, i, group);
    FallsAt(s, Apply(s, a), i);
  }

  lemma ExpandedCore(s: State, i: nat, group: nat)
    requires Enabled(s, Expand(i, group, [], Zeros(|s.cores|)))
    ensures var t := Apply(s, Expand(i, group, [], Zeros(|s.cores|)));
            Only(s, t, i) && t.at == s.at && t.cores[i].cands < s.cores[i].cands
  {
  }

  /** A test leaves the candidates, of which there are none, and Select. */
  lemma TestedCore(s: State, i: nat)
    requires Live(s) && Enabled(s, Test(i))
    ensures var t := Apply(s, Test(i));
            && Only(s, t, i) && t.at < |t.cores| && t.cores[i].cands == 0 && !t.cores[i].phase.Select?
            && !t.cores[i].phase.Waiting? && t.cores[i].inq == s.cores[i].inq
  {
  }

  lemma FreshLeads(s: State, i: nat)
    requires Live(s) && i < |s.cores| && s.cores[i].phase.Select? && s.cores[i].cands == 0 && Fresh(s.cores[i])
    ensures Leads(s, Test(i))
  {
    assert CoreShape(s, i);
    TestedCore(s, i);
    FallsAt(s, Apply(s, Test(i)), i);
  }

  /** A machine that has received everything and is not fresh has nothing in its queues. */
  lemma NothingQueued(s: State, i: nat)
    requires Live(s) && i < |s.cores| && s.cores[i].phase.Select? && AllReceived(s.cores[i]) && !Fresh(s.cores[i])
    ensures InQueue(s.cores[i].inq) == 0
  {
    IdleTestExact(s, i);
    forall m | m in s.cores[i].inq
      ensures QueueSteps(m) == 0
    {
      assert CoreShape(s, i) && QueuedOk(|s.cores|, i, m);
      assert m.Chunk? ==> Outstanding(i, m);
    }
    QueueNone(s.cores[i].inq);
  }

  /** What a visit does to the machine. */
  lemma VisitedCore(s: State, i: nat)
    requires Live(s) && Visits(s, Test(i)) && !Terminates(s, i)
    ensures var t := Apply(s, Test(i));
            && i == s.at && t.at == Next(|s.cores|, i) && t.cores[i].phase.Paused? && !t.cores[i].hasToken
            && !Laden(t.cores[i])
  {
  }

  lemma LadenLeads(s: State, i: nat)
    requires Live(s) && i < |s.cores| && s.cores[i].cands == 0 && !Fresh(s.cores[i])
    requires Visits(s, Test(i)) && !Terminates(s, i) && Laden(s.cores[i])
    ensures Leads(s, Test(i))
  {
    TestedCore(s, i);
    VisitedCore(s, i);
    FallsAt(s, Apply(s, Test(i)), i);
  }

  lemma PostedNeedsNothing(s: State, i: nat, token: Token)
    requires i < |s.cores| == |s.cores[i].unsent| && !Laden(s.cores[i])
    ensures InNet(SyncMsgs(|s.cores|, i, s.cores[i], token, |s.cores|)) == 0
  {
    SyncMsgsFacts(|s.cores|, i, s.cores[i], token, |s.cores|);
    NetNone(SyncMsgs(|s.cores|, i, s.cores[i], token, |s.cores|));
  }

  lemma VisitNet(s: State, i: nat)
    requires Live(s) && Visits(s, Test(i)) && !Terminates(s, i) && !Laden(s.cores[i])
    ensures InNet(Apply(s, Test(i)).net) == InNet(s.net)
  {
    assert CoreShape(s, i);
    var n, c := |s.cores|, s.cores[i];
    var token := Token((c.tokenIsBlack || c.procIsBlack) && !IsLeader(n, i));
    PostedNeedsNothing(s, i, token);
    NetConcat(s.net, SyncMsgs(n, i, c, token, n));
  }

  /** The token moves on: every machine it has still to come to is one hop nearer. */
  lemma HopsFall(s: State, t: State, i: nat)
    requires Only(s, t, i) && i == s.at && t.at == Next(|s.cores|, i) && |s.cores| > 1
    requires !Laden(s.cores[i]) && !Laden(t.cores[i]) && !Asleep(s.cores[i]) && !Asleep(t.cores[i])
    ensures Needed(t) <==> Needed(s)
    ensures Needed(s) ==> Left(t, Far) < Left(s, Far)
  {
    var a, b := Shares(s, Far), Shares(t, Far);
    assert forall j :: 0 <= j < |a| && j != i ==> t.cores[j] == s.cores[j];
    TotalFalls(a, b);
    if j :| 0 <= j < |s.cores| && (Laden(s.cores[j]) || Asleep(s.cores[j])) {
      assert j != i && t.cores[j] == s.cores[j];
      assert b[j] < a[j];
    }
  }

  lemma RanksFall(s: State, t: State, i: nat)
    requires Only(s, t, i) && i == s.at && Rank(t.cores[i]) == 0
    ensures Left(t, Ranks) <= Left(s, Ranks)
  {
    TotalFalls(Shares(s, Ranks), Shares(t, Ranks));
  }

  lemma UnladenLeads(s: State, i: nat)
    requires Live(s) && i < |s.cores| && s.cores[i].cands == 0 && !Fresh(s.cores[i])
    requires Visits(s, Test(i)) && !Terminates(s, i) && !Laden(s.cores[i])
    ensures Leads(s, Test(i))
  {
    var t := Apply(s, Test(i));
    TestedCore(s, i);
    VisitedCore(s, i);
    NothingQueued(s, i);
    VisitNet(s, i);
    Passes(s, t, i);
  }

  lemma Passes(s: State, t: State, i: nat)
    requires Only(s, t, i) && |s.cores| > 1 && i == s.at && t.at == Next(|s.cores|, i) && InNet(t.net) == InNet(s.net)
    requires var c, d := s.cores[i], t.cores[i];
             && CoreKept(c, d) && !Laden(c) && !Laden(d) && c.inq == d.inq && InQueue(c.inq) == 0
             && d.cands == 0 && !d.phase.Select? && c.hasToken && !t.cores[t.at].hasToken
    ensures MeasureOf(t).Less(MeasureOf(s))
  {
    OneChanges(s, t, i, Queue);
    HopsFall(s, t, i);
    RanksFall(s, t, i);
    FallsLater(s, t, i);
  }

  /** A test that ends with nothing but leaving Select. */
  lemma TestOnly(s: State, t: State, i: nat)
    requires Only(s, t, i) && t.at == s.at < |s.cores| && t.net == s.net
    requires var c, d := s.cores[i], t.cores[i];
             && c.phase.Select? && c.cands == 0 && !Fresh(c) && (d.phase.Yielded? || d.phase.Paused?)
             && d == c.(phase := d.phase) && (d.phase.Paused? ==> InQueue(c.inq) == 0)
             && (c.hasToken ==> !AllReceived(c))
    ensures MeasureOf(t).Less(MeasureOf(s))
  {
    assert Laden(t.cores[i]) == Laden(s.cores[i]);
    RankFalls(s, t, i);
  }

  lemma TestedWithoutVisit(s: State, i: nat)
    requires Live(s) && Enabled(s, Test(i)) && !Visits(s, Test(i))
    ensures var t := Apply(s, Test(i));
            && Only(s, t, i) && t.at == s.at && t.net == s.net && t.cores[i] == s.cores[i].(phase := t.cores[i].phase)
            && (t.cores[i].phase.Yielded? || (t.cores[i].phase.Paused? && AllReceived(s.cores[i])))
            && (s.cores[i].hasToken ==> !AllReceived(s.cores[i]))
  {
  }

  lemma TestLeads(s: State, i: nat)
    requires Live(s) && i < |s.cores| && s.cores[i].phase.Select? && s.cores[i].cands == 0
    ensures Leads(s, Test(i))
  {
    assert CoreShape(s, i);
    if Fresh(s.cores[i]) {
      FreshLeads(s, i);
    } else if !Visits(s, Test(i)) {
      TestedWithoutVisit(s, i);
      if AllReceived(s.cores[i]) {
        NothingQueued(s, i);
      }
      TestOnly(s, Apply(s, Test(i)), i);
    } else if Terminates(s, i) {
      EndSeen(Apply(s, Test(i)), i);
    } else if Laden(s.cores[i]) {
      LadenLeads(s, i);
    } else {
      UnladenLeads(s, i);
    }
  }

  // ----- Messages and queues

  ghost predicate NoneSelects(s: State) { forall i :: 0 <= i < |s.cores| ==> !s.cores[i].phase.Select? }

  /** Something arrives, or is computed by a helper. */
  lemma PendingFalls(s: State, t: State, i: nat)
    requires Only(s, t, i) && t.at == s.at < |s.cores| && !s.cores[i].phase.Select?
    requires InNet(t.net) + InQueue(t.cores[i].inq) < InNet(s.net) + InQueue(s.cores[i].inq)
    requires var c, d := s.cores[i], t.cores[i];
             d.cands == c.cands && d.phase.Waiting? == c.phase.Waiting? && Laden(d) == Laden(c) && !Fresh(d)
    ensures MeasureOf(t).Less(MeasureOf(s))
  {
    OneChanges(s, t, i, Queue);
    FallsLater(s, t, i);
  }

  lemma ArrivedCore(s: State, k: nat)
    requires Live(s) && k < |s.net| && Home(s.net[k]) < |s.cores|
    requires Enabled(s, Deliver(k, s.cores[Home(s.net[k])].cands))
    ensures var i := Home(s.net[k]);
            var t, c := Apply(s, Deliver(k, s.cores[i].cands)), s.cores[i];
            var m := if s.net[k].NodeResult? then Result(s.net[k].owner, 1, 0) else s.net[k];
            && Only(s, t, i) && t.at == s.at && t.net == Remove(s.net, k) && t.cores[i].inq == c.inq + [m]
            && t.cores[i].cands == c.cands && t.cores[i].unsent == c.unsent && t.cores[i].phase == Woken(c.phase)
  {
  }

  lemma DeliverLeads(s: State, k: nat)
    requires Live(s) && NoneSelects(s) && k < |s.net| && Steps(s.net[k]) > 0 && Home(s.net[k]) < |s.cores|
    requires Enabled(s, Deliver(k, s.cores[Home(s.net[k])].cands))
    requires DeliveryGuard(s, Deliver(k, s.cores[Home(s.net[k])].cands))
    ensures Leads(s, Deliver(k, s.cores[Home(s.net[k])].cands))
  {
    var i := Home(s.net[k]);
    var m := if s.net[k].NodeResult? then Result(s.net[k].owner, 1, 0) else s.net[k];
    ArrivedCore(s, k);
    NetRemove(s.net, k);
    QueueAppend(s.cores[i].inq, m);
    PendingFalls(s, Apply(s, Deliver(k, s.cores[i].cands)), i);
  }

  lemma HelperLeads(s: State, k: nat, a: Action, answer: Msg)
    requires Live(s) && NoneSelects(s) && k < |s.net|
    requires (a == RunTask(k) && s.net[k].Task? && answer == Result(s.net[k].owner, s.net[k].core, s.net[k].nocore)) ||
             (a == RunNodeTask(k, []) && s.net[k].NodeTask? && answer == NodeResult(s.net[k].owner, 0))
    ensures Leads(s, a)
  {
    assert s.net[k] in s.net && MsgOk(s, s.net[k]);
    var t := Apply(s, a);
    assert t.net == Remove(s.net, k) + [answer];
    NetRemove(s.net, k);
    NetConcat(Remove(s.net, k), [answer]);
    NetOne(answer);
    assert t.cores == s.cores;
    PendingFalls(s, t, 0);
  }

  lemma BalanceLeads(s: State, k: nat)
    requires Live(s) && NoneSelects(s) && k < |s.net| && s.net[k].Balance?
    ensures Leads(s, RunBalance(k))
  {
    assert s.net[k] in s.net && MsgOk(s, s.net[k]);
    var i := s.net[k].owner;
    NetRemove(s.net, k);
    QueueAppend(s.cores[i].inq, Chunk(i));
    PendingFalls(s, Apply(s, RunBalance(k)), i);
  }

  /** A message other than the token is settled further. */
  lemma SettleLeads(s: State, k: nat) returns (a: Action)
    requires Live(s) && NoneSelects(s) && k < |s.net| && Steps(s.net[k]) > 0 && !s.net[k].HasToken()
    ensures Leads(s, a)
  {
    var m := s.net[k];
    assert m in s.net && MsgOk(s, m);
    if m.Task? {
      a := RunTask(k);
      HelperLeads(s, k, a, Result(m.owner, m.core, m.nocore));
    } else if m.NodeTask? {
      a := RunNodeTask(k, []);
      HelperLeads(s, k, a, NodeResult(m.owner, 0));
    } else if m.Balance? {
      a := RunBalance(k);
      BalanceLeads(s, k);
    } else {
      a := Deliver(k, s.cores[Home(m)].cands);
      DeliverLeads(s, k);
    }
  }

  /** Where all other work has arrived the token may. */
  lemma TokenMay(s: State, k: nat, cands: nat)
    requires Live(s) && k < |s.net| && s.net[k].HasToken()
    requires forall j :: 0 <= j < |s.net| && Steps(s.net[j]) > 0 ==> s.net[j].HasToken()
    ensures DeliveryGuard(s, Deliver(k, cands)) && s.net[k].dst == s.at
  {
    assert s.net[k] in s.net;
    forall m | m in s.net && m.IsWork()
      ensures m.cause != s.net[k].dst
    {
      assert MsgOk(s, m);
      var j :| 0 <= j < |s.net| && s.net[j] == m;
      assert Steps(s.net[j]) > 0;
    }
  }

  lemma ResumedCore(s: State, i: nat)
    requires Live(s) && i < |s.cores| && s.cores[i].phase.Yielded?
    ensures Enabled(s, Resume(i, false, s.cores[i].cands))
    ensures var t, c := Apply(s, Resume(i, false, s.cores[i].cands)), s.cores[i];
            var d := t.cores[i];
            && Only(s, t, i) && t.at == s.at && t.net == s.net && d.phase.Select? && d.inq == [] && d.cands == c.cands
            && d.unsent == c.unsent && d.hasToken == c.hasToken && InQueue(d.inq) == 0 && !Fresh(d)
            && Laden(d) == Laden(c)
  {
  }

  /** A machine with something in its queues, or candidates, resumes. */
  lemma ResumeLeads(s: State, i: nat)
    requires Live(s) && i < |s.cores| && s.cores[i].phase.Yielded? && (InQueue(s.cores[i].inq) > 0 || s.cores[i].cands > 0)
    ensures Leads(s, Resume(i, false, s.cores[i].cands))
  {
    ResumedCore(s, i);
    var t := Apply(s, Resume(i, false, s.cores[i].cands));
    if InQueue(s.cores[i].inq) > 0 {
      PendingFalls(s, t, i);
    } else {
      RankFalls(s, t, i);
    }
  }

  // ----- Nothing else to do than to pass the token

  ghost predicate Calm(s: State) {
    && Live(s) && !Finished(s) && Started(s) && NoneSelects(s)
    && (forall k :: 0 <= k < |s.net| ==> Steps(s.net[k]) == 0)
    && forall i :: 0 <= i < |s.cores| && s.cores[i].phase.Yielded? ==> InQueue(s.cores[i].inq) == 0 && s.cores[i].cands == 0
  }

  lemma CalmCore(s: State, i: nat)
    requires Calm(s) && i < |s.cores|
    ensures var c := s.cores[i];
            && (c.phase.Yielded? || c.phase.Paused?) && c.cands == 0 && AllReceived(c)
            && (InQueue(c.inq) == 0 ==> forall m :: m in c.inq ==> m.Sync? && m.work == 0)
  {
    var c := s.cores[i];
    EndSeen(s, i);
    assert Tidy(c);
    forall m | m in c.inq && InQueue(c.inq) == 0
      ensures m.Sync? && m.work == 0
    {
      QueueSome(c.inq, m);
    }
    IdleTestExact(s, i);
    forall m | m in s.net
      ensures !Outstanding(i, m)
    {
      var k :| 0 <= k < |s.net| && s.net[k] == m;
    }
  }

  lemma CalmIsIdle(s: State)
    requires Calm(s) && !Needed(s)
    ensures Idle(s)
  {
    forall i | 0 <= i < |s.cores|
      ensures CoreIdle(s.cores[i])
    {
      CalmCore(s, i);
      assert !Laden(s.cores[i]) && !Asleep(s.cores[i]);
    }
    forall m | m in s.net
      ensures m.Sync? && m.work == 0
    {
      var k :| 0 <= k < |s.net| && s.net[k] == m;
    }
  }

  /** The holder of the token resumes, and will pass it on. */
  lemma HolderLeads(s: State)
    requires Calm(s) && s.cores[s.at].hasToken
    ensures Leads(s, Resume(s.at, false, 0))
  {
    var i, c := s.at, s.cores[s.at];
    CalmCore(s, i);
    ResumedCore(s, i);
    ResumedReceived(s, i);
    RankFalls(s, Apply(s, Resume(i, false, 0)), i);
  }

  lemma ResumedReceived(s: State, i: nat)
    requires Calm(s) && i < |s.cores| && s.cores[i].phase.Yielded? && Enabled(s, Resume(i, false, 0))
    ensures AllReceived(Apply(s, Resume(i, false, 0)).cores[i])
  {
    CalmCore(s, i);
    SumNone(CoreCredit, i, s.cores[i].inq);
    SumNone(NocoreCredit, i, s.cores[i].inq);
  }

  /** The token arrives. */
  lemma TokenLeads(s: State) returns (a: Action)
    requires Calm(s) && Needed(s) && !s.cores[s.at].hasToken
    ensures Leads(s, a)
  {
    var x := SomeToken(s.net);
    var k :| 0 <= k < |s.net| && s.net[k] == x;
    CalmCore(s, s.at);
    TokenMay(s, k, 0);
    a := Deliver(k, 0);
    TokenCore(s, k);
    TokenArrived(s, Apply(s, a));
  }

  lemma TokenCore(s: State, k: nat)
    requires Calm(s) && k < |s.net| && s.net[k].HasToken() && s.net[k].dst == s.at && !s.cores[s.at].hasToken
    ensures s.cores[s.at].cands == 0 && Enabled(s, Deliver(k, 0))
    ensures var t, c := Apply(s, Deliver(k, 0)), s.cores[s.at];
            var d := t.cores[s.at];
            && Only(s, t, s.at) && t.at == s.at && InNet(t.net) == InNet(s.net)
            && InQueue(d.inq) == InQueue(c.inq) && CoreKept(c, d) && Laden(d) == Laden(c) && d.cands == 0
            && !c.phase.Select? && d.hasToken && d.phase.Yielded? && AllReceived(d)
  {
    CalmCore(s, s.at);
    NetRemove(s.net, k);
    QueueAppend(s.cores[s.at].inq, s.net[k]);
    ArrivedCore(s, k);
  }

  lemma TokenArrived(s: State, t: State)
    requires s.at == t.at && Only(s, t, s.at) && Needed(s) && InNet(t.net) == InNet(s.net)
    requires var c, d := s.cores[s.at], t.cores[s.at];
             && InQueue(d.inq) == InQueue(c.inq) && CoreKept(c, d) && Laden(d) == Laden(c) && d.cands == 0
             && !c.hasToken && !c.phase.Select? && d.hasToken && d.phase.Yielded? && AllReceived(d)
    ensures MeasureOf(t).Less(MeasureOf(s))
  {
    OneChanges(s, t, s.at, Queue);
    OneChanges(s, t, s.at, Ranks);
    TokenIsFar(s, t);
    assert Nearness(t.cores[s.at]) < Nearness(s.cores[s.at]);
    FallsLater(s, t, s.at);
  }

  lemma TokenIsFar(s: State, t: State)
    requires s.at == t.at && Only(s, t, s.at) && Needed(s)
    ensures MeasureOf(t).far <= MeasureOf(s).far
  {
    OneChanges(s, t, s.at, Far);
  }

  // ----- All together

  lemma NextLeads(s: State) returns (a: Action)
    requires Live(s) && !Finished(s) && !Idle(s)
    ensures Leads(s, a)
  {
    if i :| 0 <= i < |s.cores| && s.cores[i].phase.Waiting? {
      a := Start(i);
      StartLeads(s, i);
    } else if i :| 0 <= i < |s.cores| && s.cores[i].phase.Select? {
      if s.cores[i].cands > 0 {
        a := ExpandLeads(s, i);
      } else {
        a := Test(i);
        TestLeads(s, i);
      }
    } else if k :| 0 <= k < |s.net| && Steps(s.net[k]) > 0 && !s.net[k].HasToken() {
      a := SettleLeads(s, k);
    } else if k :| 0 <= k < |s.net| && Steps(s.net[k]) > 0 {
      TokenMay(s, k, s.cores[s.at].cands);
      a := Deliver(k, s.cores[s.at].cands);
      DeliverLeads(s, k);
    } else if i :| 0 <= i < |s.cores| && s.cores[i].phase.Yielded? && (InQueue(s.cores[i].inq) > 0 || s.cores[i].cands > 0) {
      a := Resume(i, false, s.cores[i].cands);
      ResumeLeads(s, i);
    } else {
      assert Calm(s);
      if !Needed(s) {
        CalmIsIdle(s);
      }
      if s.cores[s.at].hasToken {
        a := Resume(s.at, false, 0);
        HolderLeads(s);
      } else {
        a := TokenLeads(s);
      }
    }
  }

  lemma {:induction false} IdleRunMeets(s: State, more: seq<Action>)
    requires Idle(s) && Run(s, more, false).Some?
    ensures Run(s, more, true) == Run(s, more, false)
    decreases |more|
  {
    if more != [] {
      var front := more[..|more| - 1];
      IdleRunMeets(s, front);
      VisitsToTheEnd(s, front);
      IdleActions(Run(s, front, false).value, more[|more| - 1]);
    }
  }

  /** From every state in which the invariants hold the query can be ended. */
  lemma {:induction false} CanEnd(s: State) returns (more: seq<Action>)
    requires Live(s)
    ensures Run(s, more, true).Some? && Finished(Run(s, more, true).value)
    decreases MeasureOf(s).cands, MeasureOf(s).waits, MeasureOf(s).news, MeasureOf(s).load,
              MeasureOf(s).pending, MeasureOf(s).ranks, MeasureOf(s).far, MeasureOf(s).near
  {
    if Finished(s) {
      more := [];
    } else if Idle(s) {
      more := IdleRingCanEnd(s);
      IdleRunMeets(s, more);
    } else {
      var a := NextLeads(s);
      StepStaysLive(s, a);
      var t := Apply(s, a);
      var rest := [];
      if !Finished(t) {
        rest := CanEnd(t);
      }
      RunFromFirst(s, a, rest, true);
      more := [a] + rest;
    }
  }

  /** The delivery assumption never blocks the ring: whatever a run that meets it has done, some continuation
      that meets it ends the query, with nothing left. */
  lemma RingCanAlwaysEnd(s: State, actions: seq<Action>) returns (more: seq<Action>)
    requires Initial(s) && |s.cores| > 1 && Run(s, actions, true).Some?
    ensures var t := Run(s, actions, true).value;
            && Run(t, more, true).Some? && Finished(Run(t, more, true).value) && NothingLeft(Run(t, more, true).value)
  {
    RunStaysLive(s, actions);
    var t := Run(s, actions, true).value;
    more := CanEnd(t);
    LiveToTheEnd(t, more);
  }

  lemma {:induction false} LiveToTheEnd(t: State, more: seq<Action>)
    requires Live(t) && Run(t, more, true).Some?
    ensures Live(Run(t, more, true).value)
    ensures Finished(Run(t, more, true).value) ==> NothingLeft(Run(t, more, true).value)
    decreases |more|
  {
    if more != [] {
      var front := more[..|more| - 1];
      LiveToTheEnd(t, front);
      StepStaysLive(Run(t, front, true).value, more[|more| - 1]);
    }
    if Finished(Run(t, more, true).value) {
      FinishedIsClean(Run(t, more, true).value);
    }
  }
}
