/**
 One query searched by a ring of core machines.

 Core machines are numbered by their place in the ring, the leader last (number N-1), so the token
 leaves the leader for machine 0.  A state holds every core machine's share of the query and the
 messages that have been issued and not yet handled.  The messages form a sequence from which any
 element may be taken next: delivery order is arbitrary.  An `Action` is one atomic step of one
 machine; a run is any sequence of enabled actions.

 Neighbour work is counted, not named: `work` is the number of neighbour entries a message carries.
 Each work message remembers the machine whose expansion caused it and how often that machine had
 passed the token by then.
 */
module SubQueryRing {
  import opened Options

  const CAND_GROUP_SIZE := 4
  const SYNC_BAR := 4

  datatype Token = NoToken | Token(black: bool)

  datatype Msg =
    | Read(owner: nat)                                  // one-sided vector read, issued or completed
    | Balance(owner: nat)                               // task in the shared balance queue
    | Chunk(owner: nat)                                 // its computed result in con_task_queue
    | Task(owner: nat, core: nat, nocore: nat)          // ComputeTask at a non-core machine
    | Result(owner: nat, core: nat, nocore: nat)        // ResultMsg
    | NodeTask(owner: nat)                              // vertex to be expanded by a non-core machine
    | NodeResult(owner: nat, forwarded: nat)            // its answer: post_cnt tasks went elsewhere
    | Sync(cause: nat, epoch: nat, dst: nat, work: nat, token: Token)  // SYNC
    | NodeSync(cause: nat, epoch: nat, dst: nat, work: nat)            // NODE_SYNC
  {
    predicate IsWork() { (Sync? || NodeSync?) && work > 0 }

    predicate HasToken() { Sync? && token.Token? }
  }

  datatype Phase =
    | Waiting    // the forked sub-query has not started
    | Select     // running: local queues drained, about to look at candidate_set
    | Yielded    // POST_STAGE, queued to resume
    | Paused     // PAUSE: resumes only when a message arrives
    | Ended      // END: global_term was set

  /** One machine's QueryMsg.  `cands` counts the candidates no farther than lowerBound, `inq` holds
      what arrived since the coroutine last ran, `unsent` is sync_msg by destination.  `passes` counts
      how often the machine has passed the token on; the code does not store it. */
  datatype Core = Core(
    phase: Phase, cands: nat, inq: seq<Msg>,
    post: nat, recv: nat, nocorePost: nat, nocoreRecv: nat,
    unsent: seq<nat>, syncStep: nat,
    hasToken: bool, tokenIsBlack: bool, procIsBlack: bool, lastIsWhite: bool,
    passes: nat)

  /** `at` is the machine that has the token or will receive it next. */
  datatype State = State(cores: seq<Core>, net: seq<Msg>, at: nat)

  datatype Action =
    | Start(i: nat)
    | Deliver(k: nat, cands: nat)             // net[k] arrives; better bounds may leave only cands
    | RunTask(k: nat)                         // a non-core machine computes task net[k]
    | RunNodeTask(k: nat, out: seq<Msg>)      // ... or expands vertex net[k], issuing out
    | RunBalance(k: nat)                      // any local thread computes balance task net[k]
    | Resume(i: nat, accepted: bool, cands: nat)  // the coroutine resumes and drains its local queues
    | Expand(i: nat, group: nat, issued: seq<Msg>, found: seq<nat>)
    | Test(i: nat)                            // no candidate left: idle test and token handling

  // ----- Sums over messages

  datatype Kind = CoreCredit | NocoreCredit | Announced

  /** What m stands for in machine i's counters. */
  function Weight(kind: Kind, i: nat, m: Msg): nat {
    match kind
    case CoreCredit =>
      (match m
       case Read(o) => if o == i then 1 else 0
       case Balance(o) => if o == i then 1 else 0
       case Chunk(o) => if o == i then 1 else 0
       case NodeTask(o) => if o == i then 1 else 0
       case NodeResult(o, _) => if o == i then 1 else 0
       case Task(o, c, _) => if o == i then c else 0
       case Result(o, c, _) => if o == i then c else 0
       case _ => 0)
    case NocoreCredit =>
      (match m
       case Task(o, _, n) => if o == i then n else 0
       case Result(o, _, n) => if o == i then n else 0
       case _ => 0)
    case Announced =>
      (match m
       case NodeResult(o, f) => if o == i then f else 0
       case _ => 0)
  }

  function Sum(kind: Kind, i: nat, ms: seq<Msg>): nat {
    if ms == [] then 0 else Weight(kind, i, ms[0]) + Sum(kind, i, ms[1..])
  }

  function Tokens(ms: seq<Msg>): nat {
    if ms == [] then 0 else (if ms[0].HasToken() then 1 else 0) + Tokens(ms[1..])
  }

  function Remove(ms: seq<Msg>, k: nat): seq<Msg>
    requires k < |ms|
  {
    ms[..k] + ms[k + 1..]
  }

  // ----- Transitions

  function Zeros(n: nat): seq<nat> { seq(n, _ => 0) }

  /** post_subquery_sync: one SYNC to every other core machine, the token to the next one only. */
  function SyncMsgs(n: nat, i: nat, c: Core, token: Token, upto: nat): seq<Msg>
    requires upto <= n == |c.unsent|
  {
    if upto == 0 then []
    else
      var j := upto - 1;
      SyncMsgs(n, i, c, token, j) +
      if j == i then [] else [Sync(i, c.passes, j, c.unsent[j], if j == Next(n, i) then token else NoToken)]
  }

  function Next(n: nat, i: nat): nat { if i + 1 < n then i + 1 else 0 }

  predicate IsLeader(n: nat, i: nat) { i + 1 == n }

  /** Something the coroutine could accept a candidate from. */
  predicate Payload(m: Msg) { m.Read? || m.Chunk? || m.Result? || m.IsWork() }

  /** A message is handled by machine m.owner or m.dst. */
  function Home(m: Msg): nat {
    match m
    case Sync(_, _, d, _, _) => d
    case NodeSync(_, _, d, _) => d
    case _ => m.owner
  }

  function Woken(p: Phase): Phase { if p.Paused? then Yielded else p }

  /** poll_task_result and scala_sub_proc_v5 putting an arrived message into the query. */
  function Arrive(c: Core, m: Msg, cands: nat): Core {
    match m
    case NodeResult(o, f) =>
      c.(nocorePost := c.nocorePost + f, inq := c.inq + [Result(o, 1, 0)], phase := Woken(c.phase))
    case Sync(_, _, _, _, t) =>
      var c1 := c.(inq := c.inq + [m], cands := cands, phase := Woken(c.phase));
      if t.Token? then c1.(hasToken := true, tokenIsBlack := t.black) else c1
    case _ => c.(inq := c.inq + [m], phase := Woken(c.phase))
  }

  /** The coroutine after co_yield: every local queue is emptied, counters advance; accepting a
      candidate turns the machine black. */
  function Drained(i: nat, c: Core, accepted: bool, cands: nat): Core {
    c.(phase := Select, inq := [], cands := cands,
       recv := c.recv + Sum(CoreCredit, i, c.inq),
       nocoreRecv := c.nocoreRecv + Sum(NocoreCredit, i, c.inq),
       procIsBlack := c.procIsBlack || accepted)
  }

  predicate AllReceived(c: Core) { c.recv == c.post && c.nocorePost == c.nocoreRecv }

  function Plus(a: seq<nat>, b: seq<nat>): seq<nat>
    requires |a| == |b|
  {
    seq(|a|, j requires 0 <= j < |a| => a[j] + b[j])
  }

  predicate Enabled(s: State, a: Action) {
    var n := |s.cores|;
    match a
    case Start(i) => i < n && s.cores[i].phase.Waiting?
    case Deliver(k, cands) =>
      && k < |s.net|
      && var m := s.net[k];
         && (m.Read? || m.Result? || m.NodeResult? || m.Sync? || m.NodeSync?)
         && Home(m) < n
         && !s.cores[Home(m)].phase.Select?
         && cands <= s.cores[Home(m)].cands
    case RunTask(k) => k < |s.net| && s.net[k].Task?
    case RunNodeTask(k, out) =>
      && k < |s.net| && s.net[k].NodeTask?
      && s.net[k].owner < n
      && forall m :: m in out ==>
           || m == Task(s.net[k].owner, 0, 1)
           || (m.NodeSync? && m.cause == s.net[k].owner && m.epoch == s.cores[s.net[k].owner].passes
               && m.dst < n && m.work > 0)
    case RunBalance(k) => k < |s.net| && s.net[k].Balance? && s.net[k].owner < n
    case Resume(i, accepted, cands) =>
      && i < n && s.cores[i].phase.Yielded?
      && (cands != s.cores[i].cands ==> accepted)
      && (accepted ==> exists m :: m in s.cores[i].inq && Payload(m))
    case Expand(i, group, issued, found) =>
      && i < n && s.cores[i].phase.Select?
      && 0 < group <= CAND_GROUP_SIZE && group <= s.cores[i].cands
      && (group < CAND_GROUP_SIZE ==> group == s.cores[i].cands)
      && |found| == n == |s.cores[i].unsent| && found[i] == 0
      && forall m :: m in issued ==> m == Read(i) || m == Balance(i) || m == Task(i, 1, 0) || m == NodeTask(i)
    case Test(i) =>
      i < n && s.cores[i].phase.Select? && s.cores[i].cands == 0 && |s.cores[i].unsent| == n
  }

  function Apply(s: State, a: Action): State
    requires Enabled(s, a)
  {
    match a
    case Start(i) => s.(cores := s.cores[i := s.cores[i].(phase := Select)])
    case Deliver(k, cands) =>
      var m := s.net[k];
      s.(cores := s.cores[Home(m) := Arrive(s.cores[Home(m)], m, cands)], net := Remove(s.net, k))
    case RunTask(k) =>
      var m := s.net[k];
      s.(net := Remove(s.net, k) + [Result(m.owner, m.core, m.nocore)])
    case RunNodeTask(k, out) =>
      var i := s.net[k].owner;
      s.(net := Remove(s.net, k) + [NodeResult(i, Sum(NocoreCredit, i, out))] + out)
    case RunBalance(k) =>
      var i := s.net[k].owner;
      s.(cores := s.cores[i := s.cores[i].(inq := s.cores[i].inq + [Chunk(i)])], net := Remove(s.net, k))
    case Resume(i, accepted, cands) => s.(cores := s.cores[i := Drained(i, s.cores[i], accepted, cands)])
    case Expand(i, group, issued, found) => ExpandGroup(s, i, group, issued, found)
    case Test(i) =>
      var c := s.cores[i];
      if !AllReceived(c) then s.(cores := s.cores[i := c.(phase := Yielded)])
      else if |s.cores| == 1 then s.(cores := s.cores[i := c.(phase := Ended)])
      else if c.hasToken then VisitToken(s, i)
      else s.(cores := s.cores[i := c.(phase := Paused)])
  }

  /** A group of candidates leaves candidate_set; their neighbours become counted tasks or unsent work. */
  function Expanded(c: Core, group: nat, issued: seq<Msg>, found: seq<nat>): Core
    requires |found| == |c.unsent| && group <= c.cands
  {
    c.(phase := Yielded, cands := c.cands - group, post := c.post + |issued|,
       unsent := Plus(c.unsent, found), syncStep := c.syncStep + 1)
  }

  /** Every SYNC_BAR-th group the accumulated sync_msg goes out. */
  function ExpandGroup(s: State, i: nat, group: nat, issued: seq<Msg>, found: seq<nat>): State
    requires i < |s.cores| == |found| == |s.cores[i].unsent| && group <= s.cores[i].cands
  {
    var c1 := Expanded(s.cores[i], group, issued, found);
    if c1.syncStep >= SYNC_BAR then
      s.(cores := s.cores[i := c1.(unsent := Zeros(|s.cores|), syncStep := 0)],
         net := s.net + issued + SyncMsgs(|s.cores|, i, c1, NoToken, |s.cores|))
    else s.(cores := s.cores[i := c1], net := s.net + issued)
  }

  /** An idle machine holding the token: the leader may terminate, everybody else passes it on. */
  function VisitToken(s: State, i: nat): State
    requires i < |s.cores| == |s.cores[i].unsent|
  {
    var n, c := |s.cores|, s.cores[i];
    var failed := c.tokenIsBlack || c.procIsBlack;
    if IsLeader(n, i) && c.lastIsWhite && !failed then
      s.(cores := s.cores[i := c.(phase := Ended, tokenIsBlack := false, procIsBlack := false)])
    else
      var taint := failed && !IsLeader(n, i);
      s.(cores := s.cores[i := c.(phase := Paused, unsent := Zeros(n), syncStep := 0,
                                  hasToken := false, tokenIsBlack := false, procIsBlack := false,
                                  lastIsWhite := if IsLeader(n, i) then !failed else c.lastIsWhite,
                                  passes := c.passes + 1)],
         net := s.net + SyncMsgs(n, i, c, Token(taint), n),
         at := Next(n, i))
  }

  /** Before the run: every machine is black, the leader holds the token, last_is_white is set. */
  predicate Initial(s: State) {
    var n := |s.cores|;
    && n > 0 && s.net == [] && s.at == n - 1
    && forall i :: 0 <= i < n ==>
         var c := s.cores[i];
         c == Core(Waiting, c.cands, [], 0, 0, 0, 0, Zeros(n), 0, IsLeader(n, i), false, true, true, 0)
  }

  /** The delivery assumption, as a guard on the arrival of the token: all work that the receiving
      machine's expansions caused before it last passed the token has been delivered. */
  predicate DeliveryGuard(s: State, a: Action) {
    a.Deliver? && a.k < |s.net| && s.net[a.k].HasToken() && s.net[a.k].dst < |s.cores| ==>
      forall m :: m in s.net && m.IsWork() && m.cause == s.net[a.k].dst ==>
        m.epoch == s.cores[s.net[a.k].dst].passes
  }

  // ----- Runs

  /** The state after the actions, if each is enabled in its turn; with `assuming`, each must meet the
      delivery assumption as well. */
  function Run(s: State, actions: seq<Action>, assuming: bool): Option<State> {
    if actions == [] then Some(s)
    else
      match Run(s, actions[..|actions| - 1], assuming)
      case None => None
      case Some(t) =>
        var a := actions[|actions| - 1];
        if Enabled(t, a) && (assuming ==> DeliveryGuard(t, a)) then Some(Apply(t, a)) else None
  }

  /** A run can be taken apart behind its first action. */
  lemma {:induction false} RunFromFirst(s: State, a: Action, more: seq<Action>, assuming: bool)
    requires Enabled(s, a) && (assuming ==> DeliveryGuard(s, a)) && Run(Apply(s, a), more, assuming).Some?
    ensures Run(s, [a] + more, assuming) == Run(Apply(s, a), more, assuming)
    decreases |more|
  {
    var whole := [a] + more;
    assert whole[|whole| - 1] == if more == [] then a else more[|more| - 1];
    if more == [] {
      assert whole[..0] == [];
      assert Run(s, [], assuming) == Some(s);
    } else {
      var front := more[..|more| - 1];
      RunFromFirst(s, a, front, assuming);
      assert whole[..|whole| - 1] == [a] + front;
      LastStep(s, whole, [a] + front, assuming);
      LastStep(Apply(s, a), more, front, assuming);
    }
  }

  lemma LastStep(s: State, actions: seq<Action>, front: seq<Action>, assuming: bool)
    requires actions != [] && front == actions[..|actions| - 1] && Run(s, front, assuming).Some?
    ensures var t, a := Run(s, front, assuming).value, actions[|actions| - 1];
            Run(s, actions, assuming) ==
              if Enabled(t, a) && (assuming ==> DeliveryGuard(t, a)) then Some(Apply(t, a)) else None
  {
  }
}
