/** The code of one core machine: the fields of QueryMsg updated in place, each method proved to be
    the step that the ring model takes. */
module QueryMsgCode {
  import opened SubQueryRing
  import opened RingTermination
  import opened SyncMerge
  import opened MessageContents
  import opened Multiplicity

  /** What expanding one candidate issues: a task for the machine that owns it, or, for an own vertex, reads,
      tasks and local tasks and the neighbours found for the other core machines. */
  datatype Expansion = Elsewhere | Here(fetches: seq<int>, tasks: nat, balance: nat, found: seq<Load>) {
    predicate For(n: nat, i: nat) { Here? ==> |found| == n && i < n && found[i] == NOTHING }

    function PostCnt(): nat { if Elsewhere? then 1 else |fetches| + tasks + balance }
  }

  function Issued(i: nat, e: Expansion): (r: seq<Msg>)
    ensures |r| == e.PostCnt()
  {
    if e.Elsewhere? then [NodeTask(i)]
    else seq(|e.fetches|, _ => Read(i)) + seq(e.tasks, _ => Task(i, 1, 0)) + seq(e.balance, _ => Balance(i))
  }

  /** A read carries the vertex that is read; what tasks carry is left to those who compute them. */
  function IssuedContents(e: Expansion): (r: seq<Content>)
    ensures |r| == e.PostCnt()
  {
    if e.Elsewhere? then [EMPTY]
    else
      seq(|e.fetches|, k requires 0 <= k < |e.fetches| => Content([], Load([], [e.fetches[k]]), [])) +
      seq(e.tasks, _ => EMPTY) + seq(e.balance, _ => EMPTY)
  }

  lemma IssuedFit(i: nat, e: Expansion)
    ensures AllFit(Issued(i, e), IssuedContents(e))
  {
  }

  lemma {:induction false} ReadsCarry(i: nat, ids: seq<int>, n: nat, u: int)
    requires n <= |ids|
    ensures ReadsIn(seq(n, _ => Read(i)), seq(n, k requires 0 <= k < n => Content([], Load([], [ids[k]]), [])), u) ==
            Times(ids[..n], u)
  {
    if n > 0 {
      var j := n - 1;
      ReadsCarry(i, ids, j, u);
      assert seq(n, _ => Read(i))[..j] == seq(j, _ => Read(i));
      assert seq(n, k requires 0 <= k < n => Content([], Load([], [ids[k]]), []))[..j] ==
             seq(j, k requires 0 <= k < j => Content([], Load([], [ids[k]]), []));
      TimesFront(ids[..n], u);
      assert ids[..n][..j] == ids[..j];
    }
  }

  /** How often vertex u is to be read for these expansions. */
  function FetchedFor(es: seq<Expansion>, u: int): nat {
    if es == [] then 0
    else
      var e := es[|es| - 1];
      FetchedFor(es[..|es| - 1], u) + if e.Here? then Times(e.fetches, u) else 0
  }

  lemma IssuedReads(i: nat, e: Expansion, u: int)
    ensures ReadsIn(Issued(i, e), IssuedContents(e), u) == if e.Here? then Times(e.fetches, u) else 0
  {
    if e.Here? {
      var n := |e.fetches|;
      var asked := seq(n, _ => Read(i));
      var vectors := seq(n, k requires 0 <= k < n => Content([], Load([], [e.fetches[k]]), []));
      var rest := seq(e.tasks, _ => Task(i, 1, 0)) + seq(e.balance, _ => Balance(i));
      var empty := seq(e.tasks, _ => EMPTY) + seq(e.balance, _ => EMPTY);
      ReadsCarry(i, e.fetches, n, u);
      assert e.fetches[..n] == e.fetches;
      NothingRead(rest, empty, u);
      ReadsConcat(asked, vectors, rest, empty, u);
      assert Issued(i, e) == asked + rest && IssuedContents(e) == vectors + empty;
    } else {
      NothingRead(Issued(i, e), IssuedContents(e), u);
    }
  }

  function IssuedAll(i: nat, es: seq<Expansion>): seq<Msg> {
    if es == [] then [] else IssuedAll(i, es[..|es| - 1]) + Issued(i, es[|es| - 1])
  }

  function ContentsOfAll(es: seq<Expansion>): seq<Content> {
    if es == [] then [] else ContentsOfAll(es[..|es| - 1]) + IssuedContents(es[|es| - 1])
  }

  /** Exactly the vertices the expansions have to read are read. */
  lemma {:induction false} AllReads(i: nat, es: seq<Expansion>, u: int)
    ensures |IssuedAll(i, es)| == |ContentsOfAll(es)|
    ensures ReadsIn(IssuedAll(i, es), ContentsOfAll(es), u) == FetchedFor(es, u)
  {
    if es != [] {
      var front, e := es[..|es| - 1], es[|es| - 1];
      AllReads(i, front, u);
      IssuedReads(i, e, u);
      ReadsConcat(IssuedAll(i, front), ContentsOfAll(front), Issued(i, e), IssuedContents(e), u);
    }
  }

  ghost predicate ReadsFor(issued: seq<Msg>, vectors: seq<Content>, es: seq<Expansion>) {
    |vectors| == |issued| && forall u :: ReadsIn(issued, vectors, u) == FetchedFor(es, u)
  }

  lemma ReadsForAll(i: nat, es: seq<Expansion>)
    ensures ReadsFor(IssuedAll(i, es), ContentsOfAll(es), es)
  {
    AllReads(i, es, 0);
    forall u
      ensures ReadsIn(IssuedAll(i, es), ContentsOfAll(es), u) == FetchedFor(es, u)
    {
      AllReads(i, es, u);
    }
  }

  /** How many of a kind the expansions ask for. */
  function Amount(es: seq<Expansion>, of: Expansion -> nat): nat {
    if es == [] then 0 else Amount(es[..|es| - 1], of) + of(es[|es| - 1])
  }

  const READS := (e: Expansion) => if e.Here? then |e.fetches| else 0
  const TASKS := (e: Expansion) => if e.Here? then e.tasks else 0
  const BALANCES := (e: Expansion) => if e.Here? then e.balance else 0
  const NODE_TASKS := (e: Expansion) => if e.Elsewhere? then 1 else 0

  lemma {:induction false} Copies(n: nat, x: Msg, m: Msg)
    ensures multiset(seq(n, _ => x))[m] == if m == x then n else 0
  {
    if n > 0 {
      Copies(n - 1, x, m);
      assert seq(n, _ => x) == seq(n - 1, _ => x) + [x];
    }
  }

  lemma IssuedCounts(i: nat, e: Expansion, m: Msg)
    ensures multiset(Issued(i, e))[m] ==
            if m == Read(i) then READS(e) else if m == Task(i, 1, 0) then TASKS(e)
            else if m == Balance(i) then BALANCES(e) else if m == NodeTask(i) then NODE_TASKS(e) else 0
  {
    if e.Here? {
      Copies(|e.fetches|, Read(i), m);
      Copies(e.tasks, Task(i, 1, 0), m);
      Copies(e.balance, Balance(i), m);
    }
  }

  /** As many messages of each kind are issued as the expansions ask for, and no others. */
  lemma {:induction false} IssuedExactly(i: nat, es: seq<Expansion>, m: Msg)
    ensures multiset(IssuedAll(i, es))[m] ==
            if m == Read(i) then Amount(es, READS) else if m == Task(i, 1, 0) then Amount(es, TASKS)
            else if m == Balance(i) then Amount(es, BALANCES) else if m == NodeTask(i) then Amount(es, NODE_TASKS) else 0
  {
    if es != [] {
      IssuedExactly(i, es[..|es| - 1], m);
      IssuedCounts(i, es[|es| - 1], m);
    }
  }

  predicate AllFor(es: seq<Expansion>, n: nat, i: nat) { forall k :: 0 <= k < |es| ==> es[k].For(n, i) }

  /** sync_msg with what the expansions found. */
  function Joined(start: seq<Load>, es: seq<Expansion>): (r: seq<Load>)
    requires forall k :: 0 <= k < |es| && es[k].Here? ==> |es[k].found| == |start|
    ensures |r| == |start|
  {
    if es == [] then start
    else
      var front, e := Joined(start, es[..|es| - 1]), es[|es| - 1];
      if e.Elsewhere? then front else JoinAll(front, e.found)
  }

  /** How often they found vertex u for machine j. */
  function FoundOf(es: seq<Expansion>, j: nat, u: int): nat
    requires forall k :: 0 <= k < |es| && es[k].Here? ==> j < |es[k].found|
  {
    if es == [] then 0
    else
      var e := es[|es| - 1];
      FoundOf(es[..|es| - 1], j, u) + if e.Here? then InLoad(e.found[j], u) else 0
  }

  /** Whatever was in sync_msg for a machine is still there, with what the expansions found for it. */
  lemma {:induction false} JoinedCarries(start: seq<Load>, es: seq<Expansion>, j: nat, u: int)
    requires (forall k :: 0 <= k < |es| && es[k].Here? ==> |es[k].found| == |start|) && j < |start|
    ensures InLoad(Joined(start, es)[j], u) == InLoad(start[j], u) + FoundOf(es, j, u)
    decreases |es|
  {
    if es != [] {
      var front, e := es[..|es| - 1], es[|es| - 1];
      JoinedCarries(start, front, j, u);
      if e.Here? {
        InJoin(Joined(start, front)[j], e.found[j], u);
      }
    }
  }

  /** The loads are those of before and what the expansions found. */
  ghost predicate Carries(loads: seq<Load>, before: seq<Load>, es: seq<Expansion>)
  {
    && |loads| == |before| && (forall k :: 0 <= k < |es| && es[k].Here? ==> |es[k].found| == |before|)
    && forall j, u :: 0 <= j < |loads| ==> InLoad(loads[j], u) == InLoad(before[j], u) + FoundOf(es, j, u)
  }

  lemma CarriesAll(before: seq<Load>, es: seq<Expansion>, n: nat, i: nat)
    requires AllFor(es, n, i) && |before| == n
    ensures Carries(Joined(before, es), before, es)
  {
    forall j, u | 0 <= j < n
      ensures InLoad(Joined(before, es)[j], u) == InLoad(before[j], u) + FoundOf(es, j, u)
    {
      JoinedCarries(before, es, j, u);
    }
  }

  /** How much they found for each machine. */
  function FoundAll(n: nat, i: nat, es: seq<Expansion>): (r: seq<nat>)
    requires AllFor(es, n, i)
    ensures |r| == n
  {
    Counts(Joined(NoLoads(n), es))
  }

  lemma {:induction false} FoundNoneAtHome(n: nat, i: nat, es: seq<Expansion>)
    requires AllFor(es, n, i) && i < n
    ensures FoundAll(n, i, es)[i] == 0
  {
    if es != [] {
      var front, e := es[..|es| - 1], es[|es| - 1];
      FoundNoneAtHome(n, i, front);
      if e.Here? {
        JoinCounts(Joined(NoLoads(n), front), e.found);
      }
    }
  }

  lemma {:induction false} JoinedIsPlus(start: seq<Load>, es: seq<Expansion>)
    requires forall k :: 0 <= k < |es| && es[k].Here? ==> |es[k].found| == |start|
    ensures Counts(Joined(start, es)) == Plus(Counts(start), Counts(Joined(NoLoads(|start|), es)))
    decreases |es|
  {
    var none := NoLoads(|start|);
    if es == [] {
      assert Plus(Counts(start), Zeros(|start|)) == Counts(start);
    } else {
      var front, e := es[..|es| - 1], es[|es| - 1];
      JoinedIsPlus(start, front);
      if e.Here? {
        JoinCounts(Joined(start, front), e.found);
        JoinCounts(Joined(none, front), e.found);
        PlusTwice(Counts(start), Counts(Joined(none, front)), Counts(e.found));
      }
    }
  }

  lemma PlusTwice(a: seq<nat>, b: seq<nat>, c: seq<nat>)
    requires |a| == |b| == |c|
    ensures Plus(Plus(a, b), c) == Plus(a, Plus(b, c))
  {
  }

  lemma {:induction false} IssuedAreCounted(i: nat, es: seq<Expansion>, m: Msg)
    requires m in IssuedAll(i, es)
    ensures m == Read(i) || m == Balance(i) || m == Task(i, 1, 0) || m == NodeTask(i)
  {
    if m !in Issued(i, es[|es| - 1]) {
      IssuedAreCounted(i, es[..|es| - 1], m);
    }
  }

  /** Messages issued and not yet handled, and what they carry. */
  class Channel {
    var msgs: seq<Msg>
    var contents: seq<Content>

    /** Every message carries what it says. */
    ghost predicate Fit()
      reads this
    {
      AllFit(msgs, contents)
    }

    constructor ()
      ensures msgs == [] && contents == [] && Fit()
    {
      msgs, contents := [], [];
    }

    method Post(m: Msg, c: Content)
      modifies this
      ensures msgs == old(msgs) + [m] && contents == old(contents) + [c]
    {
      msgs, contents := msgs + [m], contents + [c];
    }
  }

  class QueryMsg {
    const machineId: nat
    const machines: nat
    var state: Phase
    var heaps: Heaps
    var visited: set<int>
    var arrived: seq<Msg>
    var brought: seq<Content>     // what the arrived messages carry
    var postCnt: nat
    var recvCnt: nat
    var nocorePost: nat
    var nocoreRecv: nat
    var syncMsg: seq<Load>
    var addCand: seq<int>
    var syncBound: int
    var syncStep: nat
    var hasToken: bool
    var tokenIsBlack: bool
    var procIsBlack: bool
    var lastIsWhite: bool
    var passes: nat   // history: how often the token was passed on; no code depends on it

    ghost function View(): Core
      reads this
    {
      Core(state, heaps.Cands(), arrived, postCnt, recvCnt, nocorePost, nocoreRecv, Counts(syncMsg), syncStep,
           hasToken, tokenIsBlack, procIsBlack, lastIsWhite, passes)
    }

    ghost predicate Shaped()
      reads this
    {
      machineId < machines == |syncMsg|
    }

    /** The queues carry what their messages say. */
    ghost predicate QueuesFit()
      reads this
    {
      AllFit(arrived, brought) && forall m :: m in arrived ==> !m.NodeResult?
    }

    ghost predicate Valid()
      reads this
    {
      Shaped() && heaps.Valid() && QueuesFit()
    }

    /** A forked sub-query: black, and the leader (last in the ring) holds the token. */
    constructor (machineId: nat, machines: nat, heaps: Heaps, bound: int)
      requires machineId < machines && heaps.Valid()
      ensures Valid() && this.machineId == machineId && this.machines == machines && this.heaps == heaps
      ensures visited == {} && addCand == [] && syncMsg == NoLoads(machines)
      ensures View() == Core(Waiting, heaps.Cands(), [], 0, 0, 0, 0, Zeros(machines), 0,
                             IsLeader(machines, machineId), false, true, true, 0)
    {
      this.machineId, this.machines := machineId, machines;
      state, this.heaps, visited, arrived, brought := Waiting, heaps, {}, [], [];
      postCnt, recvCnt, nocorePost, nocoreRecv := 0, 0, 0, 0;
      syncMsg, addCand, syncBound, syncStep := NoLoads(machines), [], bound, 0;
      hasToken := machineId + 1 == machines;
      tokenIsBlack, procIsBlack, lastIsWhite := false, true, true;
      passes := 0;
    }

    /** deserialize_sync with update_sub_query: token, the other machine's results, then work, then the
        wake-up. */
    method DealSync(m: Msg, c: Content)
      requires Valid() && m.Sync? && Fits(m, c)
      modifies this
      ensures Valid() && heaps == Merged(old(heaps), c.adds) && heaps.Cands() <= old(heaps.Cands())
      ensures Joins(old(heaps), heaps, c.adds)
      ensures View() == Arrive(old(View()), m, heaps.Cands()) && brought == old(brought) + [c]
      ensures visited == old(visited)
    {
      ReceiveToken(m.token);
      var merged := UpdateSubQuery(heaps, c.adds);
      heaps := merged;
      Enqueue(m, c);
    }

    /** A message joins the queues; a paused query wakes up. */
    method Enqueue(m: Msg, c: Content)
      requires QueuesFit() && Fits(m, c) && !m.NodeResult?
      modifies `arrived, `brought, `state
      ensures QueuesFit() && arrived == old(arrived) + [m] && brought == old(brought) + [c] && state == Woken(old(state))
    {
      arrived, brought := arrived + [m], brought + [c];
      WakeUp();
    }

    /** A vector that was read, a task's result or a helper's neighbours. */
    method DealMessage(m: Msg, c: Content)
      requires Valid() && (m.Read? || m.Result? || m.NodeSync?) && Fits(m, c)
      modifies this
      ensures Valid() && View() == Arrive(old(View()), m, heaps.Cands()) && brought == old(brought) + [c]
      ensures heaps == old(heaps) && visited == old(visited)
    {
      Enqueue(m, c);
    }

    method ReceiveToken(t: Token)
      modifies `hasToken, `tokenIsBlack
      ensures hasToken == (old(hasToken) || t.Token?) && tokenIsBlack == if t.Token? then t.black else old(tokenIsBlack)
    {
      if t.Token? {
        hasToken := true;
        tokenIsBlack := t.black;
      }
    }

    method WakeUp()
      modifies `state
      ensures state == Woken(old(state))
    {
      if state == Paused {
        state := Yielded;
      }
    }

    /** A NodeResult announces forwarded tasks and counts as one result. */
    method DealNodeResult(m: Msg, c: Content)
      requires Valid() && m.NodeResult? && Fits(m, c)
      modifies this
      ensures Valid() && View() == Arrive(old(View()), m, heaps.Cands()) && brought == old(brought) + [c]
      ensures heaps == old(heaps) && visited == old(visited)
    {
      nocorePost := nocorePost + m.forwarded;
      Enqueue(Result(m.owner, 1, 0), c);
    }

    /** Every queue is walked once, the counters advance per element. */
    method CountReceived()
      modifies `recvCnt, `nocoreRecv
      ensures recvCnt == old(recvCnt) + Sum(CoreCredit, machineId, arrived)
      ensures nocoreRecv == old(nocoreRecv) + Sum(NocoreCredit, machineId, arrived)
    {
      for i := 0 to |arrived|
        invariant recvCnt + Sum(CoreCredit, machineId, arrived[i..]) ==
                  old(recvCnt) + Sum(CoreCredit, machineId, arrived)
        invariant nocoreRecv + Sum(NocoreCredit, machineId, arrived[i..]) ==
                  old(nocoreRecv) + Sum(NocoreCredit, machineId, arrived)
      {
        SumHead(CoreCredit, machineId, arrived, i);
        SumHead(NocoreCredit, machineId, arrived, i);
        recvCnt := recvCnt + Weight(CoreCredit, machineId, arrived[i]);
        nocoreRecv := nocoreRecv + Weight(NocoreCredit, machineId, arrived[i]);
      }
    }

    ghost function Worked(): Work
      reads this
    {
      Work(heaps, addCand, procIsBlack)
    }

    /** Computed distances are considered one after the other. */
    method ProcessDists(dists: seq<int>)
      requires heaps.Valid()
      modifies `heaps, `procIsBlack, `addCand
      ensures heaps.Valid() && Worked() == Done(old(Worked()), dists)
    {
      for i := 0 to |dists|
        invariant heaps.Valid() && Worked() == Done(old(Worked()), dists[..i])
      {
        assert dists[..i + 1] == dists[..i] + [dists[i]];
        DoneNext(old(Worked()), dists[..i], dists[i]);
        Consider(dists[i]);
      }
      assert dists[..|dists|] == dists;
    }

    /** post_proc_candidate. */
    method Consider(dist: int)
      requires heaps.Valid()
      modifies `heaps, `procIsBlack, `addCand
      ensures heaps.Valid() && Worked() == One(old(Worked()), dist)
    {
      var h, accepted := PostProcCandidate(heaps, dist);
      heaps := h;
      if accepted {
        addCand := addCand + [dist];
        procIsBlack := true;
      }
    }

    /** Vertices are visited at most once. */
    method ProcessVertices(ids: seq<int>, dist: int -> int)
      requires heaps.Valid()
      modifies `heaps, `procIsBlack, `addCand, `visited
      ensures heaps.Valid() && visited == old(visited) + Vertices(ids)
      ensures Worked() == Done(old(Worked()), FreshDists(ids, old(visited), dist))
    {
      for i := 0 to |ids|
        invariant heaps.Valid() && visited == old(visited) + Vertices(ids[..i])
        invariant Worked() == Done(old(Worked()), FreshDists(ids[..i], old(visited), dist))
      {
        FreshNext(ids, i, i + 1, old(visited), dist, old(Worked()));
        if ids[i] !in visited {
          visited := visited + {ids[i]};
          Consider(dist(ids[i]));
        }
      }
      assert ids[..|ids|] == ids;
    }

    /** One kind of queue. */
    method GatherQueue(q: Queue) returns (r: seq<int>)
      requires QueuesFit()
      ensures r == Gather(q, arrived, brought)
    {
      r := [];
      for k := 0 to |arrived|
        invariant r == Gather(q, arrived[..k], brought[..k])
      {
        assert arrived[..k + 1][..k] == arrived[..k] && brought[..k + 1][..k] == brought[..k];
        r := r + Part(q, arrived[k], brought[k]);
      }
      assert arrived[..|arrived|] == arrived && brought[..|arrived|] == brought;
    }

    /** What the queues held, in turn. */
    method ProcessInTurn(lists: seq<int>, chunks: seq<int>, micro: seq<int>, vectors: seq<int>, answers: seq<int>,
                         dist: int -> int)
      requires heaps.Valid()
      modifies `heaps, `procIsBlack, `addCand, `visited
      ensures heaps.Valid() && visited == old(visited) + Vertices(lists) + Vertices(micro) + Vertices(vectors)
      ensures var v1 := old(visited) + Vertices(lists);
              var v2 := v1 + Vertices(micro);
              Worked() == Done(old(Worked()), FreshDists(lists, old(visited), dist) + chunks +
                               FreshDists(micro, v1, dist) + FreshDists(vectors, v2, dist) + answers)
    {
      ghost var v0, w0 := visited, Worked();
      ProcessVertices(lists, dist);
      ProcessDists(chunks);
      ghost var v1 := visited;
      ProcessVertices(micro, dist);
      ghost var v2 := visited;
      ProcessVertices(vectors, dist);
      ProcessDists(answers);
      DoneInTurn(w0, FreshDists(lists, v0, dist), chunks, FreshDists(micro, v1, dist), FreshDists(vectors, v2, dist), answers);
    }

    /** The distances of what is in the queues and has not been visited, in the order of the queues, and the
        vertices visited when they are empty. */
    ghost predicate Brings(dist: int -> int, dists: seq<int>, seen: set<int>)
      requires QueuesFit()
      reads this
    {
      dists == Brought(arrived, brought, visited, dist) && seen == VisitedThen(arrived, brought, visited)
    }

    /** The queues are walked in turn; `dists` and `seen` are what they bring and leave visited. */
    method Walk(dist: int -> int, ghost dists: seq<int>, ghost seen: set<int>)
      requires heaps.Valid() && QueuesFit() && Brings(dist, dists, seen)
      modifies `heaps, `procIsBlack, `addCand, `visited
      ensures heaps.Valid() && visited == seen
      ensures Worked() == Done(old(Worked()), dists)
      ensures View() == old(View()).(cands := heaps.Cands(), procIsBlack := procIsBlack)
    {
      var lists := GatherQueue(Lists);
      var chunks := GatherQueue(Chunks);
      var micro := GatherQueue(Micro);
      var vectors := GatherQueue(Reads);
      var answers := GatherQueue(Answers);
      ProcessInTurn(lists, chunks, micro, vectors, answers, dist);
    }

    /** What the walk means for the ring: the colour tells whether anything was accepted. */
    method ProcessQueues(dist: int -> int, ghost dists: seq<int>, ghost seen: set<int>) returns (ghost accepted: bool)
      requires heaps.Valid() && QueuesFit() && Brings(dist, dists, seen)
      modifies `heaps, `procIsBlack, `addCand, `visited
      ensures heaps.Valid() && visited == seen
      ensures Worked() == Done(old(Worked()), dists)
      ensures accepted == (|addCand| > |old(addCand)|) && procIsBlack == (old(procIsBlack) || accepted)
      ensures heaps != old(heaps) ==> accepted
      ensures accepted ==> SomePayload(arrived)
      ensures View() == Considered(old(View()), accepted, heaps.Cands())
    {
      ghost var w := Worked();
      Walk(dist, dists, seen);
      accepted := |addCand| > |w.adds|;
      Judged(w, arrived, brought, old(visited), dist, dists, accepted);
    }

    lemma Judged(w: Work, ms: seq<Msg>, cs: seq<Content>, seen: set<int>, dist: int -> int, dists: seq<int>, accepted: bool)
      requires AllFit(ms, cs) && (forall m :: m in ms ==> !m.NodeResult?) && dists == Brought(ms, cs, seen, dist)
      requires accepted == (|Done(w, dists).adds| > |w.adds|)
      ensures Done(w, dists).black == (w.black || accepted) && (Done(w, dists).heaps != w.heaps ==> accepted)
      ensures accepted ==> SomePayload(ms)
    {
      DoneFacts(w, dists);
      BroughtSome(ms, cs, seen, dist);
    }

    /** The counters advance, the queues are empty, the coroutine looks for candidates next. */
    method EmptyQueues()
      requires Shaped()
      modifies `recvCnt, `nocoreRecv, `arrived, `brought, `state
      ensures QueuesFit() && arrived == [] && brought == []
      ensures View() == Emptied(machineId, old(View()))
    {
      CountReceived();
      arrived, brought := [], [];
      state := Select;
    }

    /** The coroutine resumes and empties its queues; accepting a candidate turns the machine black. */
    method DrainQueues(dist: int -> int) returns (ghost accepted: bool, ghost dists: seq<int>)
      requires Valid()
      modifies this
      ensures Valid() && arrived == [] && brought == []
      ensures BroughtBy(old(brought), old(visited), visited, dist, dists)
      ensures old(addCand) <= addCand && Evaluated(old(heaps), heaps, addCand[|old(addCand)|..], dists)
      ensures View() == Drained(machineId, old(View()), accepted, heaps.Cands())
      ensures accepted == (|addCand| > |old(addCand)|) && (heaps.Cands() != old(heaps.Cands()) ==> accepted)
      ensures accepted ==> SomePayload(old(arrived))
    {
      ghost var c, w := View(), Worked();
      ghost var seen := VisitedThen(arrived, brought, visited);
      dists := Brought(arrived, brought, visited, dist);
      NothingLeftOut(arrived, brought, visited, dist);
      DoneEvaluates(w, dists);
      accepted := ProcessQueues(dist, dists, seen);
      EmptyQueues();
      DrainedIs(c, machineId, accepted, heaps.Cands());
    }

    /** Accepted candidates beyond the bound are not sent. */
    method FilterAdds() returns (r: seq<int>)
      ensures r == Kept(addCand, syncBound)
    {
      r := [];
      for k := 0 to |addCand|
        invariant r == Kept(addCand[..k], syncBound)
      {
        assert addCand[..k + 1][..k] == addCand[..k];
        if addCand[k] <= syncBound {
          r := r + [addCand[k]];
        }
      }
      assert addCand[..|addCand|] == addCand;
    }

    /** One SYNC, with the token or without. */
    method PostSyncTo(net: Channel, m: nat, adds: seq<int>, giveToken: bool, taint: bool)
      requires Shaped() && m < machines
      modifies `hasToken, net
      ensures hasToken == (old(hasToken) && !giveToken)
      ensures net.msgs == old(net.msgs) +
                [Sync(machineId, passes, m, syncMsg[m].Size(), if giveToken then Token(taint) else NoToken)]
      ensures net.contents == old(net.contents) + [Content(adds, syncMsg[m], [])]
    {
      var content := Content(adds, syncMsg[m], []);
      if giveToken {
        net.Post(Sync(machineId, passes, m, syncMsg[m].Size(), Token(taint)), content);
        hasToken := false;
      } else {
        net.Post(Sync(machineId, passes, m, syncMsg[m].Size(), NoToken), content);
      }
    }

    /** post_subquery_sync: walks the core machines, skipping this one; the token goes to the next. */
    method PostSyncs(net: Channel, propToken: bool, taint: bool)
      requires Shaped() && (propToken ==> hasToken)
      requires net.Fit()
      modifies this`hasToken, net
      ensures Shaped()
      ensures net.msgs == old(net.msgs) +
                SyncMsgs(machines, machineId, old(View()), if propToken then Token(taint) else NoToken, machines)
      ensures net.contents == old(net.contents) + SyncContents(machines, machineId, syncMsg, Kept(addCand, syncBound), machines)
      ensures hasToken == (old(hasToken) && !(propToken && machines > 1))
      ensures net.Fit()
    {
      var next := if machineId + 1 < machines then machineId + 1 else 0;
      var adds := FilterAdds();
      ghost var token := if propToken then Token(taint) else NoToken;
      ghost var c, msgs, contents := View(), net.msgs, net.contents;
      for m := 0 to machines
        invariant net.msgs == old(net.msgs) + SyncMsgs(machines, machineId, c, token, m)
        invariant net.contents == old(net.contents) + SyncContents(machines, machineId, syncMsg, adds, m)
        invariant hasToken == (old(hasToken) && !(propToken && next < m && next != machineId))
      {
        if m != machineId {
          PostSyncTo(net, m, adds, propToken && next == m && hasToken, taint);
        }
      }
      SyncsFit(machines, machineId, c, token, syncMsg, adds, machines);
      FitMore(msgs, contents, SyncMsgs(machines, machineId, c, token, machines),
              SyncContents(machines, machineId, syncMsg, adds, machines));
    }

    /** Nobody is left out, and each machine gets what there is for it. */
    method PostSubQuerySync(net: Channel, propToken: bool, taint: bool) returns (ghost ms: seq<Msg>, ghost cs: seq<Content>)
      requires Shaped() && (propToken ==> hasToken)
      requires net.Fit()
      modifies this`hasToken, net
      ensures Shaped() && net.Fit() && hasToken == (old(hasToken) && !(propToken && machines > 1))
      ensures net.msgs == old(net.msgs) + ms && net.contents == old(net.contents) + cs
      ensures SyncToAll(machines, machineId, ms, cs, syncMsg, addCand, syncBound, if propToken then Token(taint) else NoToken)
      ensures ms == SyncMsgs(machines, machineId, old(View()), if propToken then Token(taint) else NoToken, machines)
      ensures cs == SyncContents(machines, machineId, syncMsg, Kept(addCand, syncBound), machines)
    {
      ghost var token := if propToken then Token(taint) else NoToken;
      ms := SyncMsgs(machines, machineId, View(), token, machines);
      cs := SyncContents(machines, machineId, syncMsg, Kept(addCand, syncBound), machines);
      EveryoneGetsSync(machines, machineId, View(), token, syncMsg, addCand, syncBound);
      PostSyncs(net, propToken, taint);
    }

    method ClearSyncMsg()
      requires Shaped()
      modifies this`syncMsg, this`addCand, this`syncStep
      ensures Shaped() && syncMsg == NoLoads(machines) && addCand == [] && syncStep == 0
    {
      syncMsg, addCand := NoLoads(machines), [];
      syncStep := 0;
    }

    /** One candidate of a group: post_cnt is raised once for every counted message issued, neighbours at core
        machines join sync_msg. */
    method PostExpansion(net: Channel, e: Expansion)
      requires Shaped() && e.For(machines, machineId)
      requires net.Fit()
      modifies this`postCnt, this`syncMsg, net
      ensures Shaped() && net.msgs == old(net.msgs) + Issued(machineId, e) && postCnt == old(postCnt) + e.PostCnt()
      ensures net.contents == old(net.contents) + IssuedContents(e)
      ensures syncMsg == if e.Elsewhere? then old(syncMsg) else JoinAll(old(syncMsg), e.found)
      ensures net.Fit()
    {
      ghost var msgs, contents := net.msgs, net.contents;
      if e.Elsewhere? {
        net.Post(NodeTask(machineId), EMPTY);
        postCnt := postCnt + 1;
      } else {
        PostReads(net, e.fetches);
        PostMany(net, Task(machineId, 1, 0), e.tasks);
        PostMany(net, Balance(machineId), e.balance);
        syncMsg := JoinAll(syncMsg, e.found);
        assert net.msgs == msgs + Issued(machineId, e) && net.contents == contents + IssuedContents(e);
      }
      IssuedFit(machineId, e);
      FitMore(msgs, contents, Issued(machineId, e), IssuedContents(e));
    }

    method PostReads(net: Channel, ids: seq<int>)
      modifies this`postCnt, net
      ensures net.msgs == old(net.msgs) + seq(|ids|, _ => Read(machineId)) && postCnt == old(postCnt) + |ids|
      ensures net.contents == old(net.contents) + seq(|ids|, k requires 0 <= k < |ids| => Content([], Load([], [ids[k]]), []))
    {
      for k := 0 to |ids|
        invariant net.msgs == old(net.msgs) + seq(k, _ => Read(machineId)) && postCnt == old(postCnt) + k
        invariant net.contents == old(net.contents) + seq(k, j requires 0 <= j < k => Content([], Load([], [ids[j]]), []))
      {
        net.Post(Read(machineId), Content([], Load([], [ids[k]]), []));
        postCnt := postCnt + 1;
      }
    }

    method PostMany(net: Channel, m: Msg, count: nat)
      modifies this`postCnt, net
      ensures net.msgs == old(net.msgs) + seq(count, _ => m) && postCnt == old(postCnt) + count
      ensures net.contents == old(net.contents) + seq(count, _ => EMPTY)
    {
      for k := 0 to count
        invariant net.msgs == old(net.msgs) + seq(k, _ => m) && postCnt == old(postCnt) + k
        invariant net.contents == old(net.contents) + seq(k, _ => EMPTY)
      {
        net.Post(m, EMPTY);
        postCnt := postCnt + 1;
      }
    }

    method PostGroup(net: Channel, es: seq<Expansion>)
      requires Shaped() && AllFor(es, machines, machineId)
      requires net.Fit()
      modifies this`postCnt, this`syncMsg, net
      ensures Shaped() && net.msgs == old(net.msgs) + IssuedAll(machineId, es)
      ensures postCnt == old(postCnt) + |IssuedAll(machineId, es)|
      ensures syncMsg == Joined(old(syncMsg), es) && net.contents == old(net.contents) + ContentsOfAll(es)
      ensures net.Fit()
    {
      ghost var msgs, contents, count, loads := net.msgs, net.contents, postCnt, syncMsg;
      for k := 0 to |es|
        invariant Shaped() && net.Fit() && Posted(net, es[..k], msgs, contents, count, loads)
      {
        PostNext(net, es, k, k + 1, msgs, contents, count, loads);
      }
      assert es[..|es|] == es;
    }

    ghost predicate Posted(net: Channel, es: seq<Expansion>, msgs: seq<Msg>, contents: seq<Content>, count: nat,
                           loads: seq<Load>)
      reads this, net
    {
      && AllFor(es, machines, machineId) && |loads| == machines
      && net.msgs == msgs + IssuedAll(machineId, es) && postCnt == count + |IssuedAll(machineId, es)|
      && syncMsg == Joined(loads, es) && net.contents == contents + ContentsOfAll(es)
    }

    method PostNext(net: Channel, es: seq<Expansion>, k: nat, ghost next: nat, ghost msgs: seq<Msg>,
                    ghost contents: seq<Content>, ghost count: nat, ghost loads: seq<Load>)
      requires Shaped() && AllFor(es, machines, machineId) && k < |es| && next == k + 1
      requires Posted(net, es[..k], msgs, contents, count, loads)
      requires net.Fit()
      modifies this`postCnt, this`syncMsg, net
      ensures Shaped() && Posted(net, es[..next], msgs, contents, count, loads)
      ensures net.Fit()
    {
      GroupNext(machines, machineId, es, k, next, loads);
      PostExpansion(net, es[k]);
    }

    /** A group of candidates is expanded, and every SYNC_BAR-th time sync_msg goes out, with all there has been
        in it and all that was found. */
    method ExpandCandidates(net: Channel, es: seq<Expansion>)
      returns (ghost group: seq<int>, ghost loads: seq<Load>, ghost vectors: seq<Content>, ghost ms: seq<Msg>,
               ghost cs: seq<Content>)
      requires Valid() && |es| == GroupSize(heaps, CAND_GROUP_SIZE) && AllFor(es, machines, machineId)
      requires net.Fit()
      modifies this, net
      ensures Valid() && |es| == |group| && Popped(old(heaps), heaps, group)
      ensures forall x, y :: x in group && y in heaps.candidates ==> x <= y
      ensures Carries(loads, old(syncMsg), es)
      ensures var issued, found := IssuedAll(machineId, es), FoundAll(machines, machineId, es);
              var c1 := Expanded(old(View()), |es|, issued, found);
              && net.msgs == old(net.msgs) + issued + ms && net.contents == old(net.contents) + vectors + cs
              && ReadsFor(issued, vectors, es) && Flushed(c1, loads, old(addCand), ms, cs)
      ensures net.Fit()
    {
      group := ExpandGroup(net, es);
      loads, vectors := syncMsg, ContentsOfAll(es);
      CarriesAll(old(syncMsg), es, machines, machineId);
      ReadsForAll(machineId, es);
      ms, cs := FlushSync(net);
    }

    /** The nearest candidates leave, what they issue is posted. */
    method ExpandGroup(net: Channel, es: seq<Expansion>) returns (ghost group: seq<int>)
      requires Valid() && |es| == GroupSize(heaps, CAND_GROUP_SIZE) && AllFor(es, machines, machineId)
      requires net.Fit()
      modifies this, net
      ensures Valid() && |es| == |group| && Popped(old(heaps), heaps, group)
      ensures forall x, y :: x in group && y in heaps.candidates ==> x <= y
      ensures View() == Expanded(old(View()), |es|, IssuedAll(machineId, es), FoundAll(machines, machineId, es))
      ensures net.msgs == old(net.msgs) + IssuedAll(machineId, es)
      ensures net.contents == old(net.contents) + ContentsOfAll(es)
      ensures syncMsg == Joined(old(syncMsg), es) && addCand == old(addCand)
      ensures net.Fit()
    {
      group := TakeGroup(|es|);
      PostAndYield(net, es);
    }

    method TakeGroup(ghost size: nat) returns (ghost group: seq<int>)
      requires Valid() && size == GroupSize(heaps, CAND_GROUP_SIZE)
      modifies `heaps
      ensures Valid() && size == |group| && Popped(old(heaps), heaps, group)
      ensures forall x, y :: x in group && y in heaps.candidates ==> x <= y
      ensures heaps.Cands() == old(heaps.Cands()) - size
    {
      var h, g := PopGroup(heaps, CAND_GROUP_SIZE);
      heaps := h;
      group := g;
    }

    method PostAndYield(net: Channel, es: seq<Expansion>)
      requires Shaped() && AllFor(es, machines, machineId)
      requires net.Fit()
      modifies this`postCnt, this`syncMsg, this`syncStep, this`state, net
      ensures Shaped() && net.msgs == old(net.msgs) + IssuedAll(machineId, es)
      ensures View() == old(View()).(phase := Yielded, post := old(postCnt) + |IssuedAll(machineId, es)|,
                                     unsent := Plus(Counts(old(syncMsg)), FoundAll(machines, machineId, es)),
                                     syncStep := old(syncStep) + 1)
      ensures net.contents == old(net.contents) + ContentsOfAll(es) && syncMsg == Joined(old(syncMsg), es)
      ensures net.Fit()
    {
      PostGroup(net, es);
      JoinedIsPlus(old(syncMsg), es);
      syncStep := syncStep + 1;
      state := Yielded;
    }

    method FlushNow(net: Channel) returns (ghost ms: seq<Msg>, ghost cs: seq<Content>)
      requires Shaped()
      requires net.Fit()
      modifies this`hasToken, this`syncMsg, this`addCand, this`syncBound, this`syncStep, net
      ensures Shaped() && View() == old(View()).(unsent := Zeros(machines), syncStep := 0)
      ensures syncMsg == NoLoads(machines) && addCand == []
      ensures net.msgs == old(net.msgs) + ms && net.contents == old(net.contents) + cs
      ensures SyncToAll(machines, machineId, ms, cs, old(syncMsg), old(addCand), heaps.lowerBound, NoToken)
      ensures ms == SyncMsgs(machines, machineId, old(View()), NoToken, machines)
      ensures net.Fit()
    {
      syncBound := heaps.lowerBound;
      ms, cs := PostSubQuerySync(net, false, false);
      ClearSyncMsg();
    }

    /** If it was time all that was in sync_msg has gone to everybody, else nothing has happened. */
    ghost predicate Flushed(c: Core, loads: seq<Load>, adds: seq<int>, ms: seq<Msg>, cs: seq<Content>)
      requires machines == |c.unsent|
      reads this
    {
      if c.syncStep >= SYNC_BAR then
        && View() == c.(unsent := Zeros(machines), syncStep := 0) && syncMsg == NoLoads(machines) && addCand == []
        && SyncToAll(machines, machineId, ms, cs, loads, adds, heaps.lowerBound, NoToken)
        && ms == SyncMsgs(machines, machineId, c, NoToken, machines)
      else View() == c && syncMsg == loads && addCand == adds && ms == [] && cs == []
    }

    /** sync_msg goes out when it is time. */
    method FlushSync(net: Channel) returns (ghost ms: seq<Msg>, ghost cs: seq<Content>)
      requires Shaped()
      requires net.Fit()
      modifies this`hasToken, this`syncMsg, this`addCand, this`syncBound, this`syncStep, net
      ensures Shaped() && net.msgs == old(net.msgs) + ms && net.contents == old(net.contents) + cs
      ensures Flushed(old(View()), old(syncMsg), old(addCand), ms, cs)
      ensures net.Fit()
    {
      ms, cs := [], [];
      if syncStep >= SYNC_BAR {
        ms, cs := FlushNow(net);
      }
    }

    /** The leader judges the circuit that just ended; true when this was the second success. */
    method JudgeCircuit() returns (over: bool)
      requires Shaped()
      modifies this`tokenIsBlack, this`procIsBlack, this`lastIsWhite
      ensures over == (old(lastIsWhite) && !old(tokenIsBlack) && !old(procIsBlack))
      ensures !tokenIsBlack && !procIsBlack
      ensures !over ==> lastIsWhite == !(old(tokenIsBlack) || old(procIsBlack))
      ensures over ==> lastIsWhite == old(lastIsWhite)
    {
      var failed := tokenIsBlack || procIsBlack;
      tokenIsBlack, procIsBlack := false, false;
      if lastIsWhite && !failed {
        return true;
      }
      lastIsWhite := !failed;
      return false;
    }

    /** Flush sync_msg with the token in it, coloured by this machine, and pause. */
    method PassTokenOn(net: Channel)
      requires Shaped() && machines > 1 && hasToken
      requires net.Fit()
      modifies this`state, this`syncMsg, this`addCand, this`syncStep, this`hasToken, this`tokenIsBlack,
               this`procIsBlack, this`passes, net
      ensures Shaped()
      ensures View() == old(View()).(phase := Paused, unsent := Zeros(machines), syncStep := 0, hasToken := false,
                                     tokenIsBlack := false, procIsBlack := false, passes := old(passes) + 1)
      ensures net.msgs == old(net.msgs) +
                SyncMsgs(machines, machineId, old(View()), Token(old(procIsBlack) || old(tokenIsBlack)), machines)
      ensures net.contents == old(net.contents) +
                SyncContents(machines, machineId, old(syncMsg), Kept(old(addCand), old(syncBound)), machines)
      ensures net.Fit()
    {
      var taint := procIsBlack || tokenIsBlack;
      ghost var c := View();
      procIsBlack, tokenIsBlack := false, false;
      SameMessages(machines, machineId, View(), c, Token(taint), machines);
      FlushWithToken(net, taint);
      state := Paused;
      passes := passes + 1;
    }

    method FlushWithToken(net: Channel, taint: bool)
      requires Shaped() && machines > 1 && hasToken
      requires net.Fit()
      modifies this`syncMsg, this`addCand, this`syncStep, this`hasToken, net
      ensures Shaped() && View() == old(View()).(unsent := Zeros(machines), syncStep := 0, hasToken := false)
      ensures net.msgs == old(net.msgs) + SyncMsgs(machines, machineId, old(View()), Token(taint), machines)
      ensures net.contents == old(net.contents) +
                SyncContents(machines, machineId, old(syncMsg), Kept(old(addCand), syncBound), machines)
      ensures net.Fit()
    {
      ghost var ms, cs := PostSubQuerySync(net, true, taint);
      ClearSyncMsg();
    }

    /** An idle machine with the token: the leader judges the circuit, then the token moves on unless
        this was the second success. */
    method VisitWithToken(net: Channel, ghost s: State) returns (ghost at: nat)
      requires Shaped() && machineId < |s.cores| == machines && s.cores[machineId] == View() && s.net == net.msgs
      requires machines > 1 && hasToken
      requires net.Fit()
      modifies this, net
      ensures Shaped() && heaps == old(heaps) && brought == old(brought)
      ensures VisitToken(s, machineId) == State(s.cores[machineId := View()], net.msgs, at)
      ensures net.Fit()
    {
      at := s.at;
      if machineId + 1 == machines {
        var over := JudgeCircuit();
        if over {
          state := Ended;
          return;
        }
      }
      ghost var c := View();
      PassTokenOn(net);
      SameMessages(machines, machineId, c, s.cores[machineId], Token(c.procIsBlack || c.tokenIsBlack), machines);
      at := Next(machines, machineId);
    }

    /** The end of the coroutine's loop: the counter test, then the token.  END is set only where the
        code sets global_term. */
    method TestAndPassToken(net: Channel, ghost s: State) returns (ghost at: nat)
      requires Shaped() && machineId < |s.cores| == machines && s.cores[machineId] == View() && s.net == net.msgs
      requires Enabled(s, Test(machineId))
      requires net.Fit()
      modifies this, net
      ensures Shaped() && heaps == old(heaps) && brought == old(brought)
      ensures Apply(s, Test(machineId)) == State(s.cores[machineId := View()], net.msgs, at)
      ensures net.Fit()
    {
      at := s.at;
      if !(recvCnt == postCnt && nocorePost == nocoreRecv) {
        state := Yielded;
      } else if machines <= 1 {
        state := Ended;
      } else if hasToken {
        at := VisitWithToken(net, s);
      } else {
        state := Paused;
      }
    }
  }

  function Considered(c: Core, accepted: bool, cands: nat): Core {
    c.(cands := cands, procIsBlack := c.procIsBlack || accepted)
  }

  function Emptied(i: nat, c: Core): Core {
    c.(phase := Select, inq := [], recv := c.recv + Sum(CoreCredit, i, c.inq),
       nocoreRecv := c.nocoreRecv + Sum(NocoreCredit, i, c.inq))
  }

  lemma DrainedIs(c: Core, i: nat, accepted: bool, cands: nat)
    ensures Emptied(i, Considered(c, accepted, cands)) == Drained(i, c, accepted, cands)
  {
  }

  lemma GroupNext(n: nat, i: nat, es: seq<Expansion>, k: nat, next: nat, start: seq<Load>)
    requires AllFor(es, n, i) && n == |start| && k < |es| && next == k + 1
    ensures forall ms: seq<Msg> :: ms + IssuedAll(i, es[..next]) == ms + IssuedAll(i, es[..k]) + Issued(i, es[k])
    ensures forall cs: seq<Content> :: cs + ContentsOfAll(es[..next]) == cs + ContentsOfAll(es[..k]) + IssuedContents(es[k])
    ensures |IssuedAll(i, es[..next])| == |IssuedAll(i, es[..k])| + es[k].PostCnt()
    ensures var joined := Joined(start, es[..k]);
            Joined(start, es[..next]) == if es[k].Elsewhere? then joined else JoinAll(joined, es[k].found)
  {
    assert es[..next][..k] == es[..k] && es[..next][k] == es[k];
  }

  /** The group a machine expands is one the ring model allows. */
  lemma GroupIsEnabled(s: State, i: nat, h: Heaps, es: seq<Expansion>)
    requires i < |s.cores| == |s.cores[i].unsent| && s.cores[i].phase.Select? && s.cores[i].cands == h.Cands()
    requires |es| == GroupSize(h, CAND_GROUP_SIZE) > 0 && AllFor(es, |s.cores|, i)
    ensures Enabled(s, Expand(i, |es|, IssuedAll(i, es), FoundAll(|s.cores|, i, es)))
  {
    FoundNoneAtHome(|s.cores|, i, es);
    forall m | m in IssuedAll(i, es)
      ensures m == Read(i) || m == Balance(i) || m == Task(i, 1, 0) || m == NodeTask(i)
    {
      IssuedAreCounted(i, es, m);
    }
  }

  lemma SumHead(kind: Kind, i: nat, ms: seq<Msg>, k: nat)
    requires k < |ms|
    ensures Sum(kind, i, ms[k..]) == Weight(kind, i, ms[k]) + Sum(kind, i, ms[k + 1..])
  {
    assert ms[k..][1..] == ms[k + 1..];
  }

  /** What is posted depends on sync_msg only. */
  lemma {:induction false} SameMessages(n: nat, i: nat, c: Core, d: Core, token: Token, upto: nat)
    requires upto <= n == |c.unsent| && c.unsent == d.unsent && c.passes == d.passes
    ensures SyncMsgs(n, i, c, token, upto) == SyncMsgs(n, i, d, token, upto)
    decreases upto
  {
    if upto > 0 {
      SameMessages(n, i, c, d, token, upto - 1);
    }
  }
}
