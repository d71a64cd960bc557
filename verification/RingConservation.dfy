/** No neighbour is lost: whatever is found for a machine is unsent, under way, queued there or has been processed. */
module RingConservation {
  import opened Options
  import opened SubQueryRing
  import opened RingTermination
  import opened RingProgress

  // ----- Neighbour entries for machine j

  function Entries(m: Msg, j: nat): nat {
    match m
    case Sync(_, _, d, w, _) => if d == j then w else 0
    case NodeSync(_, _, d, w) => if d == j then w else 0
    case _ => 0
  }

  function EntriesIn(ms: seq<Msg>, j: nat): nat {
    if ms == [] then 0 else EntriesIn(ms[..|ms| - 1], j) + Entries(ms[|ms| - 1], j)
  }

  lemma {:induction false} EntriesConcat(a: seq<Msg>, b: seq<Msg>, j: nat)
    ensures EntriesIn(a + b, j) == EntriesIn(a, j) + EntriesIn(b, j)
    decreases |b|
  {
    if b == [] {
      assert a + b == a;
    } else {
      assert (a + b)[..|a + b| - 1] == a + b[..|b| - 1];
      EntriesConcat(a, b[..|b| - 1], j);
    }
  }

  lemma EntriesOfOne(m: Msg, j: nat)
    ensures EntriesIn([m], j) == Entries(m, j)
  {
    assert [m][..0] == [];
  }

  lemma EntriesRemove(ms: seq<Msg>, k: nat, j: nat)
    requires k < |ms|
    ensures EntriesIn(Remove(ms, k), j) == EntriesIn(ms, j) - Entries(ms[k], j)
  {
    EntriesConcat(ms[..k], ms[k + 1..], j);
    EntriesConcat(ms[..k], [ms[k]] + ms[k + 1..], j);
    EntriesConcat([ms[k]], ms[k + 1..], j);
    EntriesOfOne(ms[k], j);
    assert ms == ms[..k] + ([ms[k]] + ms[k + 1..]);
  }

  lemma {:induction false} NoEntries(ms: seq<Msg>, j: nat)
    requires forall m :: m in ms ==> Entries(m, j) == 0
    ensures EntriesIn(ms, j) == 0
  {
    if ms != [] {
      NoEntries(ms[..|ms| - 1], j);
    }
  }

  lemma PostedToOne(n: nat, i: nat, c: Core, token: Token, d: nat, j: nat)
    requires d < n == |c.unsent| && i < n && c.unsent[i] == 0
    ensures EntriesIn(SyncMsgs(n, i, c, token, d + 1), j) ==
            EntriesIn(SyncMsgs(n, i, c, token, d), j) + if d == j then c.unsent[j] else 0
  {
    if d != i {
      var m := Sync(i, c.passes, d, c.unsent[d], if d == Next(n, i) then token else NoToken);
      EntriesConcat(SyncMsgs(n, i, c, token, d), [m], j);
      EntriesOfOne(m, j);
    } else {
      assert SyncMsgs(n, i, c, token, d) + [] == SyncMsgs(n, i, c, token, d);
    }
  }

  /** What a machine posts for j is what it has for j. */
  lemma {:induction false} EntriesPosted(n: nat, i: nat, c: Core, token: Token, upto: nat, j: nat)
    requires upto <= n == |c.unsent| && i < n && c.unsent[i] == 0 && j < n
    ensures EntriesIn(SyncMsgs(n, i, c, token, upto), j) == if j < upto then c.unsent[j] else 0
    decreases upto
  {
    if upto > 0 {
      var d := upto - 1;
      EntriesPosted(n, i, c, token, d, j);
      PostedToOne(n, i, c, token, d, j);
    }
  }

  /** What all machines have for j in their sync_msg. */
  function UnsentOf(c: Core, j: nat): nat { if j < |c.unsent| then c.unsent[j] else 0 }

  function UnsentFor(s: State, j: nat): (r: seq<nat>)
    ensures |r| == |s.cores|
  {
    seq(|s.cores|, i requires 0 <= i < |s.cores| => UnsentOf(s.cores[i], j))
  }

  /** Found for j and not processed yet. */
  function Unprocessed(s: State, j: nat): nat
    requires j < |s.cores|
  {
    Total(UnsentFor(s, j)) + EntriesIn(s.net, j) + EntriesIn(s.cores[j].inq, j)
  }

  /** What a step finds for j. */
  function FoundNow(a: Action, j: nat): nat {
    match a
    case Expand(_, _, _, found) => if j < |found| then found[j] else 0
    case RunNodeTask(_, out) => EntriesIn(out, j)
    case _ => 0
  }

  /** What machine j processes in a step. */
  function ProcessedNow(s: State, a: Action, j: nat): nat
    requires j < |s.cores|
  {
    if a.Resume? && a.i == j then EntriesIn(s.cores[j].inq, j) else 0
  }

  // ----- One step

  lemma LeftAt(s: State, t: State, i: nat, j: nat)
    requires Only(s, t, i) && j < |s.cores|
    ensures Total(UnsentFor(t, j)) + UnsentOf(s.cores[i], j) == Total(UnsentFor(s, j)) + UnsentOf(t.cores[i], j)
    ensures i != j ==> t.cores[j] == s.cores[j]
  {
    TotalOne(UnsentFor(s, j), UnsentFor(t, j), i);
  }

  lemma ArrivedEntries(c: Core, m: Msg, cands: nat, j: nat)
    requires !m.Task? && !m.NodeTask? && !m.Balance? && !m.Chunk?
    ensures var c1 := Arrive(c, m, cands);
            c1.unsent == c.unsent && EntriesIn(c1.inq, j) == EntriesIn(c.inq, j) + Entries(m, j)
  {
    var queued := if m.NodeResult? then Result(m.owner, 1, 0) else m;
    EntriesConcat(c.inq, [queued], j);
    EntriesOfOne(queued, j);
  }

  lemma DeliverLeaves(s: State, k: nat, cands: nat, j: nat)
    requires Basic(s) && Enabled(s, Deliver(k, cands)) && j < |s.cores|
    ensures Unprocessed(Apply(s, Deliver(k, cands)), j) == Unprocessed(s, j)
  {
    var m, t := s.net[k], Apply(s, Deliver(k, cands));
    var i := Home(m);
    LeftAt(s, t, i, j);
    EntriesRemove(s.net, k, j);
    ArrivedEntries(s.cores[i], m, cands, j);
  }

  lemma HelperLeaves(s: State, a: Action, k: nat, answer: seq<Msg>, j: nat)
    requires (a.RunTask? || a.RunNodeTask?) && Enabled(s, a) && a.k == k && j < |s.cores|
    requires answer == if a.RunTask? then [Result(s.net[k].owner, s.net[k].core, s.net[k].nocore)]
                       else [NodeResult(s.net[k].owner, Sum(NocoreCredit, s.net[k].owner, a.out))] + a.out
    ensures Unprocessed(Apply(s, a), j) == Unprocessed(s, j) + FoundNow(a, j)
  {
    var t := Apply(s, a);
    assert t.net == Remove(s.net, k) + answer;
    EntriesRemove(s.net, k, j);
    EntriesConcat(Remove(s.net, k), answer, j);
    EntriesOfOne(answer[0], j);
    if a.RunNodeTask? {
      EntriesConcat([answer[0]], a.out, j);
    }
    assert UnsentFor(t, j) == UnsentFor(s, j);
  }

  lemma BalanceLeaves(s: State, k: nat, j: nat)
    requires Enabled(s, RunBalance(k)) && j < |s.cores|
    ensures Unprocessed(Apply(s, RunBalance(k)), j) == Unprocessed(s, j)
  {
    var i, t := s.net[k].owner, Apply(s, RunBalance(k));
    LeftAt(s, t, i, j);
    EntriesRemove(s.net, k, j);
    EntriesConcat(s.cores[i].inq, [Chunk(i)], j);
    EntriesOfOne(Chunk(i), j);
  }

  lemma ExpandLeaves(s: State, i: nat, group: nat, issued: seq<Msg>, found: seq<nat>, j: nat)
    requires Basic(s) && Enabled(s, Expand(i, group, issued, found)) && j < |s.cores|
    ensures Unprocessed(Apply(s, Expand(i, group, issued, found)), j) == Unprocessed(s, j) + found[j]
  {
    var n, c1, t := |s.cores|, Expanded(s.cores[i], group, issued, found), Apply(s, Expand(i, group, issued, found));
    assert CoreShape(s, i);
    LeftAt(s, t, i, j);
    NoEntries(issued, j);
    EntriesConcat(s.net, issued, j);
    if c1.syncStep >= SYNC_BAR {
      EntriesPosted(n, i, c1, NoToken, n, j);
      EntriesConcat(s.net + issued, SyncMsgs(n, i, c1, NoToken, n), j);
    }
  }

  /** Passing the token on. */
  lemma PassLeaves(s: State, i: nat, j: nat)
    requires Basic(s) && Enabled(s, Test(i)) && j < |s.cores|
    requires var c := s.cores[i]; !(IsLeader(|s.cores|, i) && c.lastIsWhite && !c.tokenIsBlack && !c.procIsBlack)
    ensures Unprocessed(VisitToken(s, i), j) == Unprocessed(s, j)
  {
    var n, c, t := |s.cores|, s.cores[i], VisitToken(s, i);
    assert CoreShape(s, i);
    LeftAt(s, t, i, j);
    var taint := (c.tokenIsBlack || c.procIsBlack) && !IsLeader(n, i);
    assert t.cores[i].unsent == Zeros(n) && t.cores[i].inq == c.inq;
    EntriesPosted(n, i, c, Token(taint), n, j);
    EntriesConcat(s.net, SyncMsgs(n, i, c, Token(taint), n), j);
  }

  lemma TestLeaves(s: State, i: nat, j: nat)
    requires Basic(s) && Enabled(s, Test(i)) && j < |s.cores|
    ensures Unprocessed(Apply(s, Test(i)), j) == Unprocessed(s, j)
  {
    var n, c, t := |s.cores|, s.cores[i], Apply(s, Test(i));
    if AllReceived(c) && n > 1 && c.hasToken && !(IsLeader(n, i) && c.lastIsWhite && !c.tokenIsBlack && !c.procIsBlack) {
      PassLeaves(s, i, j);
    } else {
      LeftAt(s, t, i, j);
    }
  }

  lemma LocalLeaves(s: State, a: Action, j: nat)
    requires (a.Start? || a.Resume?) && Enabled(s, a) && j < |s.cores|
    ensures Unprocessed(Apply(s, a), j) + ProcessedNow(s, a, j) == Unprocessed(s, j)
  {
    LeftAt(s, Apply(s, a), a.i, j);
  }

  lemma StepConserves(s: State, a: Action, j: nat)
    requires Basic(s) && Enabled(s, a) && j < |s.cores|
    ensures Unprocessed(Apply(s, a), j) + ProcessedNow(s, a, j) == Unprocessed(s, j) + FoundNow(a, j)
  {
    match a
    case Deliver(k, cands) => DeliverLeaves(s, k, cands, j);
    case RunTask(k) => HelperLeaves(s, a, k, [Result(s.net[k].owner, s.net[k].core, s.net[k].nocore)], j);
    case RunNodeTask(k, out) =>
      var i := s.net[k].owner;
      HelperLeaves(s, a, k, [NodeResult(i, Sum(NocoreCredit, i, out))] + out, j);
    case RunBalance(k) => BalanceLeaves(s, k, j);
    case Expand(i, group, issued, found) => ExpandLeaves(s, i, group, issued, found, j);
    case Test(i) => TestLeaves(s, i, j);
    case _ => LocalLeaves(s, a, j);
  }

  // ----- Every run

  /** All that was found for j in a run. */
  ghost function Found(actions: seq<Action>, j: nat): nat {
    if actions == [] then 0 else Found(actions[..|actions| - 1], j) + FoundNow(actions[|actions| - 1], j)
  }

  /** All that machine j has processed. */
  ghost function Processed(s: State, actions: seq<Action>, assuming: bool, j: nat): nat
    requires Run(s, actions, assuming).Some? && j < |Run(s, actions, assuming).value.cores| == |s.cores|
  {
    if actions == [] then 0
    else
      var front, a := actions[..|actions| - 1], actions[|actions| - 1];
      StepKeepsCount(Run(s, front, assuming).value, a);
      Processed(s, front, assuming, j) + ProcessedNow(Run(s, front, assuming).value, a, j)
  }

  /** In every run, whatever the delivery, the neighbour entries found for a machine are those unsent, under way to
      it or queued there, and those it has processed. */
  lemma {:induction false} NeighboursConserved(s: State, actions: seq<Action>, assuming: bool, j: nat)
    requires Initial(s) && Run(s, actions, assuming).Some? && j < |s.cores|
    ensures |Run(s, actions, assuming).value.cores| == |s.cores|
    ensures Found(actions, j) == Unprocessed(Run(s, actions, assuming).value, j) + Processed(s, actions, assuming, j)
    decreases |actions|
  {
    if actions == [] {
      NothingFoundYet(s, j);
    } else {
      var front, a := actions[..|actions| - 1], actions[|actions| - 1];
      NeighboursConserved(s, front, assuming, j);
      RunKeepsBasic(s, front, assuming);
      StepKeepsCount(Run(s, front, assuming).value, a);
      StepConserves(Run(s, front, assuming).value, a, j);
    }
  }

  lemma {:induction false} AllZero(ns: seq<nat>)
    requires forall i :: 0 <= i < |ns| ==> ns[i] == 0
    ensures Total(ns) == 0
  {
    if ns != [] {
      AllZero(ns[..|ns| - 1]);
    }
  }

  lemma NothingFoundYet(s: State, j: nat)
    requires Initial(s) && j < |s.cores|
    ensures Unprocessed(s, j) == 0
  {
    AllZero(UnsentFor(s, j));
  }

  /** In every run that meets the delivery assumption, once the query has ended every machine has processed all
      neighbours that were found for it. */
  lemma EveryNeighbourProcessed(s: State, actions: seq<Action>, j: nat)
    requires Initial(s) && |s.cores| > 1 && Run(s, actions, true).Some? && j < |s.cores|
    requires Finished(Run(s, actions, true).value)
    ensures |Run(s, actions, true).value.cores| == |s.cores|
    ensures Processed(s, actions, true, j) == Found(actions, j)
  {
    NeighboursConserved(s, actions, true, j);
    RingTerminationSafe(s, actions);
    var t := Run(s, actions, true).value;
    AllZero(UnsentFor(t, j));
    NoEntries(t.net, j);
    NoEntries(t.cores[j].inq, j);
  }
}
