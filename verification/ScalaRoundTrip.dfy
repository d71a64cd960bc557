/** Reading back what the writer wrote: either reader hands out exactly a vertex's neighbours, each to
    the partition that owns it. */
module ScalaRoundTrip {
  import opened ScalaLayout
  import opened IndexImage
  import opened ScalaGraph
  import opened ScalaImage
  import opened ScalaReaders
  import opened ScalaWriter
  import opened Multiplicity

  // ----- The neighbours behind a queue entry

  type Buffers = seq<Bytes>

  function ListAt(buf: Bytes, ofs: nat, deg: nat): seq<int> {
    if ofs + 4 * deg <= |buf| then IdsAt(buf, ofs, deg) else []
  }

  /** What the receiver of a task computes on. */
  function TaskList(buf: Bytes, t: Task): seq<int> {
    if t.deg <= INLINE_DEG_BAR then Unpack(t.offset, t.deg) else ListAt(buf, t.offset, t.deg)
  }

  function InStored(buf: Bytes, l: seq<Stored>, u: int): nat {
    if l == [] then 0 else InStored(buf, l[..|l| - 1], u) + Times(ListAt(buf, l[|l| - 1].ofs, l[|l| - 1].deg), u)
  }

  function InFetched(l: seq<Read>, q: nat, u: int): nat {
    if l == [] then 0
    else InFetched(l[..|l| - 1], q, u) + if l[|l| - 1].part == q && l[|l| - 1].vid == u then 1 else 0
  }

  function InTasks(buf: Bytes, l: seq<Task>, u: int): nat {
    if l == [] then 0 else InTasks(buf, l[..|l| - 1], u) + Times(TaskList(buf, l[|l| - 1]), u)
  }

  /** Local tasks name a place in the machine's own buffer, whatever their number of neighbours. */
  function InLocal(buf: Bytes, l: seq<Task>, u: int): nat {
    if l == [] then 0 else InLocal(buf, l[..|l| - 1], u) + Times(ListAt(buf, l[|l| - 1].offset, l[|l| - 1].deg), u)
  }

  function InSyncs(buf: Bytes, l: seq<NodeSync>, u: int): nat {
    if l == [] then 0
    else InSyncs(buf, l[..|l| - 1], u) + Times(l[|l| - 1].micro, u) + InStored(buf, l[|l| - 1].large, u)
  }

  /** How often vertex u is in the queues for partition q. */
  function Handed(b: Box, home: nat, bufs: Buffers, q: nat, u: int): nat
    requires q < |bufs| && b.For(|bufs|)
  {
    Times(b.micro[q], u) + InStored(bufs[q], b.large[q], u) + InFetched(b.fetches, q, u) + InTasks(bufs[q], b.tasks[q], u)
    + if q == home then InLocal(bufs[q], b.local, u) else 0
  }

  /** The same on a non-core machine. */
  function NodeHanded(b: NodeBox, home: nat, bufs: Buffers, q: nat, u: int): nat
    requires q < |bufs| && b.For(|bufs|)
  {
    InSyncs(bufs[q], b.syncs[q], u) + InTasks(bufs[q], b.tasks[q], u)
    + if q == home && b.offset != 0 then Times(ListAt(bufs[q], b.offset, b.deg), u) else 0
  }

  lemma OneMore<T>(l: seq<T>, x: T)
    ensures (l + [x])[..|l|] == l
  {
  }

  lemma FetchMore(l: seq<Read>, part: nat, ids: seq<int>, id: int, first: nat, q: nat, u: int)
    ensures InFetched(l + ReadsOf(part, ids + [id], first), q, u) ==
            InFetched(l + ReadsOf(part, ids, first), q, u) + if part == q && id == u then 1 else 0
  {
    var rs, x := ReadsOf(part, ids, first), Read(part, id, id - first);
    assert l + ReadsOf(part, ids + [id], first) == (l + rs) + [x];
    OneMore(l + rs, x);
  }

  lemma {:induction false} FetchAll(l: seq<Read>, part: nat, ids: seq<int>, first: nat, q: nat, u: int)
    ensures InFetched(l + ReadsOf(part, ids, first), q, u) == InFetched(l, q, u) + if part == q then Times(ids, u) else 0
    decreases |ids|
  {
    if ids == [] {
      assert l + ReadsOf(part, ids, first) == l;
    } else {
      var front, id := ids[..|ids| - 1], ids[|ids| - 1];
      assert ids == front + [id];
      FetchAll(l, part, front, first, q, u);
      FetchMore(l, part, front, id, first, q, u);
    }
  }

  // ----- One group

  /** The group's list is where the group says: behind its header, or in the owner's buffer. */
  ghost predicate ListInPlace(bufs: Buffers, home: nat, gr: Group, at: nat) {
    && home < |bufs| && gr.part < |bufs| && GroupOk(gr) && gr.own == (gr.part == home)
    && (gr.own ==> ListAt(bufs[home], at, |gr.ids|) == gr.ids)
    && (!gr.Inline() ==> ListAt(bufs[gr.part], gr.ofs, |gr.ids|) == gr.ids)
  }

  function TimesFor(gr: Group, q: nat, u: int): nat { if gr.part == q then Times(gr.ids, u) else 0 }

  lemma HandGives(b: Box, rd: Reader, gr: Group, at: nat, bufs: Buffers, q: nat, u: int)
    requires |rd.core| == |bufs| <= |rd.cumu| && b.For(|bufs|) && q < |bufs| && ListInPlace(bufs, rd.home, gr, at)
    ensures Handed(Hand(b, rd, gr, at), rd.home, bufs, q, u) == Handed(b, rd.home, bufs, q, u) + TimesFor(gr, q, u)
  {
    var p := gr.part;
    if gr.own {
      OneMore(b.local, rd.OwnTask(|gr.ids|, at));
    } else if gr.Inline() && rd.core[p] {
    } else if gr.Inline() {
      FetchAll(b.fetches, p, gr.ids, rd.cumu[p], q, u);
    } else if rd.core[p] {
      OneMore(b.large[p], Stored(gr.ofs, |gr.ids|));
    } else {
      OneMore(b.tasks[p], rd.OwnTask(|gr.ids|, gr.ofs));
    }
  }

  lemma InOneStored(buf: Bytes, x: Stored, u: int)
    ensures InStored(buf, [x], u) == Times(ListAt(buf, x.ofs, x.deg), u)
  {
    assert [x][..0] == [];
  }

  lemma AddSync(b: NodeBox, home: nat, bufs: Buffers, p: nat, x: NodeSync, q: nat, u: int)
    requires b.For(|bufs|) && p < |bufs| && q < |bufs|
    ensures NodeHanded(b.(syncs := b.syncs[p := b.syncs[p] + [x]]), home, bufs, q, u) ==
            NodeHanded(b, home, bufs, q, u) + if p == q then Times(x.micro, u) + InStored(bufs[p], x.large, u) else 0
  {
    OneMore(b.syncs[p], x);
  }

  lemma AddTask(b: NodeBox, home: nat, bufs: Buffers, p: nat, t: Task, q: nat, u: int)
    requires b.For(|bufs|) && p < |bufs| && q < |bufs|
    ensures NodeHanded(b.(tasks := b.tasks[p := b.tasks[p] + [t]]), home, bufs, q, u) ==
            NodeHanded(b, home, bufs, q, u) + if p == q then Times(TaskList(bufs[p], t), u) else 0
  {
    OneMore(b.tasks[p], t);
  }

  lemma NodeGives(b: NodeBox, rd: Reader, gr: Group, at: nat, bufs: Buffers, q: nat, u: int)
    requires |rd.core| == |bufs| && b.For(|bufs|) && q < |bufs| && ListInPlace(bufs, rd.home, gr, at)
    requires b.offset == 0 && at > 0
    ensures NodeHanded(HandNode(b, rd, gr, at), rd.home, bufs, q, u) ==
            NodeHanded(b, rd.home, bufs, q, u) + TimesFor(gr, q, u)
  {
    var p := gr.part;
    if gr.own {
    } else if gr.Inline() && rd.core[p] {
      AddSync(b, rd.home, bufs, p, NodeSync(rd.qid, gr.ids, []), q, u);
    } else if gr.Inline() {
      UnpackPack(gr.ids);
      AddTask(b, rd.home, bufs, p, rd.PassedTask(|gr.ids|, Pack(gr.ids)), q, u);
    } else if rd.core[p] {
      AddSync(b, rd.home, bufs, p, NodeSync(rd.qid, [], [Stored(gr.ofs, |gr.ids|)]), q, u);
      InOneStored(bufs[p], Stored(gr.ofs, |gr.ids|), u);
    } else {
      AddTask(b, rd.home, bufs, p, rd.PassedTask(|gr.ids|, gr.ofs), q, u);
    }
  }

  // ----- All groups of a record

  /** How often u is in the first k groups, counting those for partition q. */
  function InGroups(grs: seq<Group>, k: nat, q: nat, u: int): nat
    requires k <= |grs|
  {
    if k == 0 then 0 else InGroups(grs, k - 1, q, u) + TimesFor(grs[k - 1], q, u)
  }

  lemma InGroupsNext(grs: seq<Group>, k: nat, q: nat, u: int)
    requires 0 < k <= |grs|
    ensures InGroups(grs, k, q, u) == InGroups(grs, k - 1, q, u) + TimesFor(grs[k - 1], q, u)
  {
  }

  ghost predicate ListsInPlace(bufs: Buffers, home: nat, grs: seq<Group>, at: seq<nat>) {
    |grs| <= |at| && forall k :: 0 <= k < |grs| ==> ListInPlace(bufs, home, grs[k], at[k] + 2)
  }

  lemma HandStep(b: Box, rd: Reader, grs: seq<Group>, at: seq<nat>, k: nat, bufs: Buffers, q: nat, u: int)
    requires |rd.core| == |bufs| <= |rd.cumu| && b.For(|bufs|) && PartsBelow(grs, |bufs|) && 0 < k <= |grs| && q < |bufs|
    requires ListsInPlace(bufs, rd.home, grs, at)
    ensures Handed(HandAll(b, rd, grs, at, k), rd.home, bufs, q, u) ==
            Handed(HandAll(b, rd, grs, at, k - 1), rd.home, bufs, q, u) + TimesFor(grs[k - 1], q, u)
  {
    var j := k - 1;
    var gr, ofs := grs[j], at[j] + 2;
    assert ListInPlace(bufs, rd.home, gr, ofs);
    var b0 := HandAll(b, rd, grs, at, j);
    HandGives(b0, rd, gr, ofs, bufs, q, u);
    assert HandAll(b, rd, grs, at, k) == Hand(b0, rd, gr, ofs);
  }

  lemma {:induction false} HandAllGives(b: Box, rd: Reader, grs: seq<Group>, at: seq<nat>, k: nat, bufs: Buffers,
                                        q: nat, u: int)
    requires |rd.core| == |bufs| <= |rd.cumu| && b.For(|bufs|) && PartsBelow(grs, |bufs|) && k <= |grs| && q < |bufs|
    requires ListsInPlace(bufs, rd.home, grs, at)
    ensures Handed(HandAll(b, rd, grs, at, k), rd.home, bufs, q, u) ==
            Handed(b, rd.home, bufs, q, u) + InGroups(grs, k, q, u)
  {
    if k > 0 {
      HandAllGives(b, rd, grs, at, k - 1, bufs, q, u);
      HandStep(b, rd, grs, at, k, bufs, q, u);
      InGroupsNext(grs, k, q, u);
    }
  }

  lemma {:induction false} NoOffsetYet(b: NodeBox, rd: Reader, grs: seq<Group>, at: seq<nat>, k: nat)
    requires b.For(|rd.core|) && b.offset == 0 && k < |grs| <= |at| && PartsBelow(grs, |rd.core|) && IsRecord(grs)
    ensures HandNodeAll(b, rd, grs, at, k).offset == 0
  {
    if k > 0 {
      NoOffsetYet(b, rd, grs, at, k - 1);
    }
  }

  lemma NodeStep(b: NodeBox, rd: Reader, grs: seq<Group>, at: seq<nat>, k: nat, bufs: Buffers, q: nat, u: int)
    requires |rd.core| == |bufs| && b.For(|bufs|) && PartsBelow(grs, |bufs|) && 0 < k <= |grs| && q < |bufs|
    requires ListsInPlace(bufs, rd.home, grs, at) && IsRecord(grs) && b.offset == 0
    ensures NodeHanded(HandNodeAll(b, rd, grs, at, k), rd.home, bufs, q, u) ==
            NodeHanded(HandNodeAll(b, rd, grs, at, k - 1), rd.home, bufs, q, u) + TimesFor(grs[k - 1], q, u)
  {
    var j := k - 1;
    var gr, ofs := grs[j], at[j] + 2;
    assert ListInPlace(bufs, rd.home, gr, ofs);
    NoOffsetYet(b, rd, grs, at, j);
    NodeGives(HandNodeAll(b, rd, grs, at, j), rd, gr, ofs, bufs, q, u);
  }

  lemma {:induction false} NodeAllGives(b: NodeBox, rd: Reader, grs: seq<Group>, at: seq<nat>, k: nat, bufs: Buffers,
                                        q: nat, u: int)
    requires |rd.core| == |bufs| && b.For(|bufs|) && PartsBelow(grs, |bufs|) && k <= |grs| && q < |bufs|
    requires ListsInPlace(bufs, rd.home, grs, at) && IsRecord(grs) && b.offset == 0
    ensures NodeHanded(HandNodeAll(b, rd, grs, at, k), rd.home, bufs, q, u) ==
            NodeHanded(b, rd.home, bufs, q, u) + InGroups(grs, k, q, u)
  {
    if k > 0 {
      NodeAllGives(b, rd, grs, at, k - 1, bufs, q, u);
      NodeStep(b, rd, grs, at, k, bufs, q, u);
      InGroupsNext(grs, k, q, u);
    }
  }

  // ----- Each kind of machine has its own kind of queue

  /** Only tasks like this one have been added. */
  ghost predicate TasksAdded(l: seq<Task>, l1: seq<Task>, machine: nat, qid: nat, coreCnt: nat, nocoreCnt: nat) {
    && l <= l1
    && forall i :: |l| <= i < |l1| ==>
         l1[i].machine == machine && l1[i].qid == qid && l1[i].coreCnt == coreCnt && l1[i].nocoreCnt == nocoreCnt
  }

  /** Only vectors of non-core partitions are to be read, each at its place in its partition. */
  ghost predicate FetchesAdded(l: seq<Read>, l1: seq<Read>, rd: Reader)
    requires |rd.core| <= |rd.cumu|
  {
    && l <= l1
    && forall i :: |l| <= i < |l1| ==>
         l1[i].part < |rd.core| && !rd.core[l1[i].part] && l1[i].internal == l1[i].vid - rd.cumu[l1[i].part]
  }

  /** What is for partition q has gone to core queues if q's machine is a core machine, else to tasks; what is
      for the machine itself to neither. */
  ghost predicate RightQueue(b: Box, b1: Box, rd: Reader, q: nat)
    requires q < |rd.core| && b.For(|rd.core|) && b1.For(|rd.core|)
  {
    && TasksAdded(b.tasks[q], b1.tasks[q], rd.home, rd.qid, 1, 0)
    && (rd.core[q] ==> b1.tasks[q] == b.tasks[q])
    && (!rd.core[q] || q == rd.home ==> b1.micro[q] == b.micro[q] && b1.large[q] == b.large[q])
    && (q == rd.home ==> b1.tasks[q] == b.tasks[q])
    && b.micro[q] <= b1.micro[q] && b.large[q] <= b1.large[q]
  }

  ghost predicate RightQueues(b: Box, b1: Box, rd: Reader) {
    && b.For(|rd.core|) && b1.For(|rd.core|) && |rd.core| <= |rd.cumu|
    && FetchesAdded(b.fetches, b1.fetches, rd) && TasksAdded(b.local, b1.local, rd.home, rd.qid, 1, 0)
    && forall q :: 0 <= q < |rd.core| ==> RightQueue(b, b1, rd, q)
  }

  lemma HandRight(b: Box, rd: Reader, gr: Group, at: nat)
    requires b.For(|rd.core|) && gr.part < |rd.core| <= |rd.cumu| && gr.own == (gr.part == rd.home)
    ensures RightQueues(b, Hand(b, rd, gr, at), rd)
  {
    var b1 := Hand(b, rd, gr, at);
    forall q | 0 <= q < |rd.core|
      ensures RightQueue(b, b1, rd, q)
    {
    }
  }

  lemma RightTwice(b: Box, b1: Box, b2: Box, rd: Reader)
    requires RightQueues(b, b1, rd) && RightQueues(b1, b2, rd)
    ensures RightQueues(b, b2, rd)
  {
    forall q | 0 <= q < |rd.core|
      ensures RightQueue(b, b2, rd, q)
    {
      assert RightQueue(b, b1, rd, q) && RightQueue(b1, b2, rd, q);
    }
  }

  predicate OwnAtHome(grs: seq<Group>, home: nat) { forall k :: 0 <= k < |grs| ==> grs[k].own == (grs[k].part == home) }

  lemma OwnIsAtHome(bufs: Buffers, home: nat, grs: seq<Group>, at: seq<nat>)
    requires ListsInPlace(bufs, home, grs, at)
    ensures OwnAtHome(grs, home)
  {
    forall k | 0 <= k < |grs|
      ensures grs[k].own == (grs[k].part == home)
    {
      assert ListInPlace(bufs, home, grs[k], at[k] + 2);
    }
  }

  lemma {:induction false} HandAllRight(b: Box, rd: Reader, grs: seq<Group>, at: seq<nat>, k: nat)
    requires b.For(|rd.core|) && |rd.core| <= |rd.cumu| && PartsBelow(grs, |rd.core|) && k <= |grs| <= |at|
    requires OwnAtHome(grs, rd.home)
    ensures RightQueues(b, HandAll(b, rd, grs, at, k), rd)
  {
    if k == 0 {
      forall q | 0 <= q < |rd.core|
        ensures RightQueue(b, b, rd, q)
      {
      }
    } else {
      var j := k - 1;
      var b1, gr, ofs := HandAll(b, rd, grs, at, j), grs[j], at[j] + 2;
      HandAllRight(b, rd, grs, at, j);
      HandRight(b1, rd, gr, ofs);
      RightTwice(b, b1, Hand(b1, rd, gr, ofs), rd);
    }
  }

  ghost predicate RightNodeQueue(b: NodeBox, b1: NodeBox, rd: Reader, q: nat)
    requires q < |rd.core| && b.For(|rd.core|) && b1.For(|rd.core|)
  {
    && TasksAdded(b.tasks[q], b1.tasks[q], rd.origin, rd.qid, 0, 1)
    && b.syncs[q] <= b1.syncs[q] && (forall i :: |b.syncs[q]| <= i < |b1.syncs[q]| ==> b1.syncs[q][i].qid == rd.qid)
    && (rd.core[q] ==> b1.tasks[q] == b.tasks[q])
    && (!rd.core[q] ==> b1.syncs[q] == b.syncs[q])
  }

  ghost predicate RightNodeQueues(b: NodeBox, b1: NodeBox, rd: Reader) {
    b.For(|rd.core|) && b1.For(|rd.core|) && forall q :: 0 <= q < |rd.core| ==> RightNodeQueue(b, b1, rd, q)
  }

  lemma HandNodeRight(b: NodeBox, rd: Reader, gr: Group, at: nat)
    requires b.For(|rd.core|) && gr.part < |rd.core| && GroupOk(gr)
    ensures RightNodeQueues(b, HandNode(b, rd, gr, at), rd)
  {
    var b1 := HandNode(b, rd, gr, at);
    UnpackPack(gr.ids);
    forall q | 0 <= q < |rd.core|
      ensures RightNodeQueue(b, b1, rd, q)
    {
    }
  }

  lemma RightNodeTwice(b: NodeBox, b1: NodeBox, b2: NodeBox, rd: Reader)
    requires RightNodeQueues(b, b1, rd) && RightNodeQueues(b1, b2, rd)
    ensures RightNodeQueues(b, b2, rd)
  {
    forall q | 0 <= q < |rd.core|
      ensures RightNodeQueue(b, b2, rd, q)
    {
      assert RightNodeQueue(b, b1, rd, q) && RightNodeQueue(b1, b2, rd, q);
    }
  }

  lemma {:induction false} HandNodeAllRight(b: NodeBox, rd: Reader, grs: seq<Group>, at: seq<nat>, k: nat)
    requires b.For(|rd.core|) && PartsBelow(grs, |rd.core|) && k <= |grs| <= |at| && IsRecord(grs)
    ensures RightNodeQueues(b, HandNodeAll(b, rd, grs, at, k), rd)
  {
    if k == 0 {
      forall q | 0 <= q < |rd.core|
        ensures RightNodeQueue(b, b, rd, q)
      {
      }
    } else {
      var j := k - 1;
      var b1, gr, ofs := HandNodeAll(b, rd, grs, at, j), grs[j], at[j] + 2;
      HandNodeAllRight(b, rd, grs, at, j);
      HandNodeRight(b1, rd, gr, ofs);
      RightNodeTwice(b, b1, HandNode(b1, rd, gr, ofs), rd);
    }
  }

  // ----- The groups of a vertex are its buckets

  lemma {:induction false} NoGroupFor(grs: seq<Group>, k: nat, q: nat, u: int)
    requires k <= |grs| && forall i :: 0 <= i < k ==> grs[i].part != q
    ensures InGroups(grs, k, q, u) == 0
  {
    if k > 0 {
      NoGroupFor(grs, k - 1, q, u);
    }
  }

  lemma {:induction false} OneGroupFor(grs: seq<Group>, k: nat, q: nat, u: int, j: nat)
    requires j < k <= |grs| && grs[j].part == q && forall i :: 0 <= i < k && i != j ==> grs[i].part != q
    ensures InGroups(grs, k, q, u) == Times(grs[j].ids, u)
  {
    if k - 1 == j {
      NoGroupFor(grs, j, q, u);
    } else {
      OneGroupFor(grs, k - 1, q, u, j);
    }
  }

  lemma GroupsAreLists(v: Vertex, ofs: seq<nat>, q: nat, u: int)
    requires v.home < |v.lists| == |ofs| && q < |ofs|
    ensures var grs := MakeGroups(v, ofs); InGroups(grs, |grs|, q, u) == Times(v.lists[q], u)
  {
    var grs, parts := MakeGroups(v, ofs), PartIds(v.lists, v.home);
    PartIdsFacts(v.lists, v.home);
    if q in parts {
      var j :| 0 <= j < |parts| && parts[j] == q;
      OneGroupFor(grs, |grs|, q, u, j);
    } else {
      NoGroupFor(grs, |grs|, q, u);
    }
  }

  // ----- The lists are in place in the files

  function DegNgh(img: Image): (r: Buffers)
    ensures |r| == |img|
  {
    seq(|img|, q requires 0 <= q < |img| => if META_LEN <= |img[q]| then img[q][META_LEN..] else [])
  }

  lemma HoldsInBuffer(s: Bytes, a: nat, x: Bytes)
    requires Holds(s, META_LEN + a, x)
    ensures Holds(s[META_LEN..], a, x)
  {
    assert s[META_LEN..][a..a + |x|] == s[META_LEN + a..META_LEN + a + |x|];
  }

  lemma {:induction false} RemoteAreaExtends(tab: Table, q: nat, v: nat, n: nat)
    requires Shaped(tab.Parts(), tab.vs) && q < tab.Parts() && v < n <= |tab.vs|
    ensures var all, before, x := RemoteArea(tab.Parts(), tab.vs, q, n), RemoteArea(tab.Parts(), tab.vs, q, v),
                                  Exported(tab.vs[v], q);
            |before| + |x| <= |all| && all[|before|..|before| + |x|] == x
    decreases n
  {
    if v < n - 1 {
      RemoteAreaExtends(tab, q, v, n - 1);
      var before, x := RemoteArea(tab.Parts(), tab.vs, q, v), Exported(tab.vs[v], q);
      var mid := RemoteArea(tab.Parts(), tab.vs, q, n - 1);
      assert (mid + Exported(tab.vs[n - 1], q))[|before|..|before| + |x|] == mid[|before|..|before| + |x|];
    }
  }

  /** The ids `all` are stored from byte a on, and x among them from byte `ofs` on. */
  ghost predicate IsSublist(buf: Bytes, a: nat, all: seq<nat>, from: nat, x: seq<nat>, ofs: nat) {
    && ofs == a + 4 * from && Holds(buf, a, EncIds(all))
    && from + |x| <= |all| && all[from..from + |x|] == x
  }

  /** A list written inside a longer list can be read by itself. */
  lemma SublistAt(buf: Bytes, a: nat, all: seq<nat>, from: nat, x: seq<nat>, ofs: nat)
    requires IsSublist(buf, a, all, from, x, ofs) && forall i :: 0 <= i < |x| ==> x[i] < TWO_32
    ensures ListAt(buf, ofs, |x|) == x
  {
    assert all == all[..from] + (x + all[from + |x|..]);
    EncIdsConcat(all[..from], x + all[from + |x|..]);
    EncIdsConcat(x, all[from + |x|..]);
    HoldsBack(buf, a, EncIds(all[..from]), EncIds(x + all[from + |x|..]));
    HoldsFront(buf, ofs, EncIds(x), EncIds(all[from + |x|..]));
    IdsReadBack(buf, ofs, x);
  }

  ghost predicate FilesHold(tab: Table, img: Image) {
    tab.Valid() && Sized(PlanOf(tab), img) && Complete(PlanOf(tab), |tab.vs|, img)
  }

  lemma HoldsBehindSlots(pl: Plan, n: nat, img: Image, q: nat, all: seq<nat>)
    requires n <= |pl.pieces| == |pl.home| == |pl.start| && Sized(pl, img) && Complete(pl, n, img) && q < |pl.local|
    requires Remote(pl.pieces, q, n) == EncIds(all)
    ensures Holds(DegNgh(img)[q], pl.local[q], EncIds(all))
  {
    assert RemoteAt(pl, q, EncIds(all), img);
    HoldsInBuffer(img[q], pl.local[q], EncIds(all));
  }

  lemma RemoteBytes(tab: Table, img: Image, q: nat)
    requires FilesHold(tab, img) && q < tab.Parts()
    ensures |img| == tab.Parts()
    ensures Holds(DegNgh(img)[q], tab.LocalSize(q), EncIds(RemoteArea(tab.Parts(), tab.vs, q, |tab.vs|)))
  {
    RemoteIsRemoteArea(tab, q, |tab.vs|);
    HoldsBehindSlots(PlanOf(tab), |tab.vs|, img, q, RemoteArea(tab.Parts(), tab.vs, q, |tab.vs|));
  }

  lemma WhereInArea(tab: Table, v: nat, q: nat) returns (all: seq<nat>, n: nat, x: seq<nat>, a: nat)
    requires tab.Valid() && v < |tab.vs| && q < tab.Parts() && Exported(tab.vs[v], q) != []
    ensures all == RemoteArea(tab.Parts(), tab.vs, q, |tab.vs|) && x == tab.vs[v].lists[q] && a == tab.LocalSize(q)
    ensures tab.Offsets(v)[q] == a + 4 * n && n + |x| <= |all| && all[n..n + |x|] == x
  {
    RemoteAreaExtends(tab, q, v, |tab.vs|);
    all, n := RemoteArea(tab.Parts(), tab.vs, q, |tab.vs|), |RemoteArea(tab.Parts(), tab.vs, q, v)|;
    x, a := tab.vs[v].lists[q], tab.LocalSize(q);
  }

  lemma WhereExported(tab: Table, img: Image, v: nat, q: nat) returns (all: seq<nat>, n: nat, x: seq<nat>, a: nat)
    requires FilesHold(tab, img) && v < |tab.vs| && q < tab.Parts() && Exported(tab.vs[v], q) != []
    ensures |img| == tab.Parts() && x == tab.vs[v].lists[q]
    ensures IsSublist(DegNgh(img)[q], a, all, n, x, tab.Offsets(v)[q])
  {
    all, n, x, a := WhereInArea(tab, v, q);
    RemoteBytes(tab, img, q);
  }

  /** A list that was sent to partition q is found there at the offset its group names. */
  lemma RemoteListAt(tab: Table, img: Image, v: nat, gr: Group)
    requires FilesHold(tab, img) && v < |tab.vs| && gr.part < tab.Parts() && Exported(tab.vs[v], gr.part) != []
    requires GroupOk(gr) && gr.ids == tab.vs[v].lists[gr.part] && gr.ofs == tab.Offsets(v)[gr.part]
    ensures |img| == tab.Parts() && ListAt(DegNgh(img)[gr.part], gr.ofs, |gr.ids|) == gr.ids
  {
    var all, n, x, a := WhereExported(tab, img, v, gr.part);
    SublistAt(DegNgh(img)[gr.part], a, all, n, gr.ids, gr.ofs);
  }

  lemma RecordInSlot(pl: Plan, v: nat, img: Image, ofs: nat)
    requires v < |pl.pieces| == |pl.home| == |pl.start| && RecordAt(pl, v, img) && pl.start[v] == META_LEN + ofs
    ensures Holds(DegNgh(img)[pl.home[v]], ofs, DataOf(pl.pieces[v]))
  {
    HoldsInBuffer(img[pl.home[v]], ofs, DataOf(pl.pieces[v]));
  }

  lemma RecordInFile(tab: Table, img: Image, v: nat)
    requires FilesHold(tab, img) && v < |tab.vs|
    ensures tab.vs[v].home < |img| == tab.Parts()
    ensures Holds(DegNgh(img)[tab.vs[v].home], SlotOffset(tab.vs[v].index, tab.SlotSize()), DataOf(Pieces(tab.Groups(v))))
  {
    assert RecordAt(PlanOf(tab), v, img);
    RecordInSlot(PlanOf(tab), v, img, SlotOffset(tab.vs[v].index, tab.SlotSize()));
  }

  lemma GroupsOk(tab: Table, v: nat)
    requires tab.Valid() && v < |tab.vs|
    ensures IsRecord(tab.Groups(v)) && PartsBelow(tab.Groups(v), tab.Parts())
  {
    var x, grs := tab.vs[v], tab.Groups(v);
    assert tab.VertexOk(v);
    PartIdsFacts(x.lists, x.home);
    forall k | 0 <= k < |grs|
      ensures GroupOk(grs[k])
    {
      DegreeAtLeast(x.lists, grs[k].part, tab.Parts());
      OffsetFits(tab, v, grs[k].part);
    }
    SomeNeighbour(x.lists, tab.Parts());
  }

  lemma {:induction false} SomeNeighbour(lists: seq<seq<nat>>, upto: nat)
    requires upto <= |lists| && Degree(lists, upto) > 0
    ensures exists q :: 0 <= q < upto && lists[q] != []
  {
    if lists[upto - 1] == [] {
      SomeNeighbour(lists, upto - 1);
    }
  }

  lemma GroupInPlace(tab: Table, img: Image, v: nat, k: nat, at: seq<nat>)
    requires FilesHold(tab, img) && v < |tab.vs| && k < |tab.Groups(v)|
    requires IsRecord(tab.Groups(v)) && PartsBelow(tab.Groups(v), tab.Parts())
    requires tab.vs[v].home < |img| && InBuffer(DegNgh(img)[tab.vs[v].home], tab.Groups(v), at)
    ensures ListInPlace(DegNgh(img), tab.vs[v].home, tab.Groups(v)[k], at[k] + 2)
  {
    var bufs, gr, home := DegNgh(img), tab.Groups(v)[k], tab.vs[v].home;
    assert GroupIn(bufs[home], tab.Groups(v), at, k);
    PayloadReadBack(bufs[home], at[k], gr);
    if !gr.Inline() {
      RemoteListAt(tab, img, v, gr);
    }
  }

  /** The record of every vertex can be walked, and every group's list is where the group says. */
  lemma RecordReadable(tab: Table, img: Image, v: nat, start: nat) returns (at: seq<nat>)
    requires FilesHold(tab, img) && v < |tab.vs| && start == SlotOffset(tab.vs[v].index, tab.SlotSize())
    ensures IsRecord(tab.Groups(v)) && PartsBelow(tab.Groups(v), tab.Parts())
    ensures tab.vs[v].home < |img| == tab.Parts() && InBuffer(DegNgh(img)[tab.vs[v].home], tab.Groups(v), at)
    ensures at[0] == start
    ensures ListsInPlace(DegNgh(img), tab.vs[v].home, tab.Groups(v), at)
  {
    var grs, home := tab.Groups(v), tab.vs[v].home;
    GroupsOk(tab, v);
    RecordInFile(tab, img, v);
    at := Positions(grs, start);
    RecordInBuffer(DegNgh(img)[home], start, grs, at);
    forall k | 0 <= k < |grs|
      ensures ListInPlace(DegNgh(img), home, grs[k], at[k] + 2)
    {
      GroupInPlace(tab, img, v, k, at);
    }
    assert Pieces(grs)[..0] == [];
  }

  // ----- The round trip

  /** A reader on the machine of partition `home`, with the prefix sums of the partition sizes. */
  predicate ReaderFor(rd: Reader, sizes: seq<nat>) {
    && rd.home < |sizes| == |rd.core| && |rd.cumu| == |sizes| + 1
    && forall q :: 0 <= q <= |sizes| ==> rd.cumu[q] == Cum(sizes, q)
  }

  /** A bucket holds exactly the neighbours its partition owns. */
  lemma {:induction false} BucketTimes(sizes: seq<nat>, l: seq<nat>, q: nat, u: nat)
    requires Known(sizes, l)
    ensures Times(Bucket(sizes, l, q), u) == if Owns(sizes, q, u) then Times(l, u) else 0
    decreases |l|
  {
    if l != [] {
      var front, w := l[..|l| - 1], l[|l| - 1];
      BucketTimes(sizes, front, q, u);
      assert l == front + [w];
      if Owns(sizes, q, w) {
        OwnerUnique(sizes, w, q, PartOf(sizes, w));
      }
    }
  }

  lemma GroupsHoldNeighbours(g: Graph, v: nat, q: nat, u: nat)
    requires g.Valid() && TableOf(g).Valid() && v < |g.adj| && q < |g.sizes|
    ensures var grs := TableOf(g).Groups(v);
            InGroups(grs, |grs|, q, u) == if Owns(g.sizes, q, u) then Times(g.adj[v], u) else 0
  {
    var tab := TableOf(g);
    assert tab.vs[v] == VertexOf(g.sizes, g.adj[v], v);
    GroupsAreLists(tab.vs[v], tab.Offsets(v), q, u);
    BucketTimes(g.sizes, g.adj[v], q, u);
  }

  lemma HomeOf(g: Graph, home: nat, v: nat)
    requires g.Valid() && v < |g.adj| && Owns(g.sizes, home, v)
    ensures TableOf(g).vs[v].home == home && TableOf(g).vs[v].index == v - Cum(g.sizes, home)
    ensures TableOf(g).SlotSize() == EleSize(g)
  {
    assert TableOf(g).vs[v] == VertexOf(g.sizes, g.adj[v], v);
    OwnerUnique(g.sizes, v, home, PartOf(g.sizes, v));
  }

  lemma HomeStart(g: Graph, home: nat, v: nat, n: nat, start: nat)
    requires g.Valid() && v < |g.adj| && Owns(g.sizes, home, v)
    requires n == v - Cum(g.sizes, home) && start == SlotOffset(n, EleSize(g))
    ensures TableOf(g).vs[v].home == home && start == SlotOffset(TableOf(g).vs[v].index, TableOf(g).SlotSize())
  {
    HomeOf(g, home, v);
  }

  /** The record of v starts at byte `start` of its machine's buffer and can be walked from there. */
  ghost predicate Readable(g: Graph, bufs: Buffers, home: nat, v: nat, start: nat, grs: seq<Group>, at: seq<nat>)
    requires g.Valid() && TableOf(g).Valid() && v < |g.adj|
  {
    && grs == TableOf(g).Groups(v) && home < |bufs| == |g.sizes| && IsRecord(grs) && PartsBelow(grs, |bufs|)
    && InBuffer(bufs[home], grs, at) && at[0] == start && ListsInPlace(bufs, home, grs, at)
  }

  lemma RecordOf(g: Graph, img: Image, home: nat, v: nat, n: nat, start: nat) returns (grs: seq<Group>, at: seq<nat>)
    requires g.Valid() && FilesHold(TableOf(g), img) && v < |g.adj| && Owns(g.sizes, home, v)
    requires n == v - Cum(g.sizes, home) && start == SlotOffset(n, EleSize(g))
    ensures Readable(g, DegNgh(img), home, v, start, grs, at)
  {
    HomeStart(g, home, v, n, start);
    grs := TableOf(g).Groups(v);
    at := RecordReadable(TableOf(g), img, v, start);
  }

  /** From b to b1 every neighbour of v has been added, as often as v lists it, to the queues for the
      partition that owns it, and to no others. */
  ghost predicate Given(g: Graph, v: nat, home: nat, bufs: Buffers, b: Box, b1: Box)
    requires v < |g.adj|
  {
    && b.For(|bufs|) && b1.For(|bufs|) && |bufs| == |g.sizes|
    && forall q, u: nat :: 0 <= q < |bufs| ==>
         Handed(b1, home, bufs, q, u) == Handed(b, home, bufs, q, u) + if Owns(g.sizes, q, u) then Times(g.adj[v], u) else 0
  }

  ghost predicate NodeGiven(g: Graph, v: nat, home: nat, bufs: Buffers, b: NodeBox, b1: NodeBox)
    requires v < |g.adj|
  {
    && b.For(|bufs|) && b1.For(|bufs|) && |bufs| == |g.sizes|
    && forall q, u: nat :: 0 <= q < |bufs| ==>
         NodeHanded(b1, home, bufs, q, u) ==
         NodeHanded(b, home, bufs, q, u) + if Owns(g.sizes, q, u) then Times(g.adj[v], u) else 0
  }

  lemma HandedToOwners(g: Graph, bufs: Buffers, rd: Reader, v: nat, start: nat, grs: seq<Group>, at: seq<nat>, b: Box)
    requires g.Valid() && TableOf(g).Valid() && v < |g.adj| && Readable(g, bufs, rd.home, v, start, grs, at)
    requires ReaderFor(rd, g.sizes) && b.For(|bufs|)
    ensures Given(g, v, rd.home, bufs, b, HandAll(b, rd, grs, at, |grs|))
  {
    var b1 := HandAll(b, rd, grs, at, |grs|);
    forall q, u: nat | 0 <= q < |bufs|
      ensures Handed(b1, rd.home, bufs, q, u) ==
              Handed(b, rd.home, bufs, q, u) + if Owns(g.sizes, q, u) then Times(g.adj[v], u) else 0
    {
      HandAllGives(b, rd, grs, at, |grs|, bufs, q, u);
      GroupsHoldNeighbours(g, v, q, u);
    }
  }

  lemma NodeHandedToOwners(g: Graph, bufs: Buffers, rd: Reader, v: nat, start: nat, grs: seq<Group>, at: seq<nat>,
                           b: NodeBox)
    requires g.Valid() && TableOf(g).Valid() && v < |g.adj| && Readable(g, bufs, rd.home, v, start, grs, at)
    requires ReaderFor(rd, g.sizes) && b.For(|bufs|) && b.offset == 0
    ensures NodeGiven(g, v, rd.home, bufs, b, HandNodeAll(b, rd, grs, at, |grs|))
  {
    var b1 := HandNodeAll(b, rd, grs, at, |grs|);
    forall q, u: nat | 0 <= q < |bufs|
      ensures NodeHanded(b1, rd.home, bufs, q, u) ==
              NodeHanded(b, rd.home, bufs, q, u) + if Owns(g.sizes, q, u) then Times(g.adj[v], u) else 0
    {
      NodeAllGives(b, rd, grs, at, |grs|, bufs, q, u);
      GroupsHoldNeighbours(g, v, q, u);
    }
  }

  /** The reading of one record, from a place where it can be walked. */
  method ReadRecord(ghost g: Graph, ghost bufs: Buffers, degNgh: Bytes, rd: Reader, ghost v: nat, start: nat,
                    queues: TaskQueues, ghost grs: seq<Group>, ghost at: seq<nat>)
    returns (postCnt: nat)
    requires g.Valid() && TableOf(g).Valid() && v < |g.adj| && Readable(g, bufs, rd.home, v, start, grs, at)
    requires ReaderFor(rd, g.sizes) && queues.Contents().For(|bufs|) && degNgh == bufs[rd.home]
    modifies queues
    ensures Expanded(g, v, rd, bufs, old(queues.Contents()), queues.Contents(), postCnt)
  {
    HandedToOwners(g, bufs, rd, v, start, grs, at, queues.Contents());
    OwnIsAtHome(bufs, rd.home, grs, at);
    HandAllRight(queues.Contents(), rd, grs, at, |grs|);
    postCnt := queues.GetSubqueryTasks(rd, degNgh, start, grs, at);
  }

  method ReadRecordForOther(ghost g: Graph, ghost bufs: Buffers, degNgh: Bytes, rd: Reader, ghost v: nat, start: nat,
                            queues: NodeQueues, ghost grs: seq<Group>, ghost at: seq<nat>)
    returns (postCnt: nat)
    requires g.Valid() && TableOf(g).Valid() && v < |g.adj| && Readable(g, bufs, rd.home, v, start, grs, at)
    requires ReaderFor(rd, g.sizes) && queues.Contents().For(|bufs|) && queues.offset == 0 && degNgh == bufs[rd.home]
    modifies queues
    ensures NodeExpanded(g, v, rd, bufs, old(queues.Contents()), queues.Contents(), postCnt)
  {
    NodeHandedToOwners(g, bufs, rd, v, start, grs, at, queues.Contents());
    HandNodeAllRight(queues.Contents(), rd, grs, at, |grs|);
    postCnt := queues.GetNodeTaskMsg(rd, degNgh, start, grs, at);
  }

  /** All of it: what was handed out, in which kind of queue, and how much the query now waits for. */
  ghost predicate Expanded(g: Graph, v: nat, rd: Reader, bufs: Buffers, b: Box, b1: Box, postCnt: nat)
    requires v < |g.adj|
  {
    Given(g, v, rd.home, bufs, b, b1) && RightQueues(b, b1, rd) && Outstanding(b1) == Outstanding(b) + postCnt
  }

  /** Either that, for a vertex of the machine's own partition, or nothing has happened. */
  ghost predicate ExpandedIfOwn(g: Graph, v: nat, rd: Reader, bufs: Buffers, b: Box, b1: Box, ok: bool, postCnt: nat) {
    && ok == Owns(g.sizes, rd.home, v) && (ok ==> v < |g.adj|)
    && if ok then Expanded(g, v, rd, bufs, b, b1, postCnt) else b1 == b && postCnt == 0
  }

  ghost predicate NodeExpanded(g: Graph, v: nat, rd: Reader, bufs: Buffers, b: NodeBox, b1: NodeBox, postCnt: nat)
    requires v < |g.adj|
  {
    && NodeGiven(g, v, rd.home, bufs, b, b1) && RightNodeQueues(b, b1, rd)
    && CountTasks(b1.tasks, |b1.tasks|) == CountTasks(b.tasks, |b.tasks|) + postCnt
  }

  // ----- Loading an index file

  /** What a machine keeps of an index file. */
  datatype Index = Index(part: int, parts: int, vecNum: int, eleSize: int, enterPoint: int, remoteNum: int, degNgh: Bytes)

  lemma FourBack(buf: Bytes, at: nat, n: nat, rest: Bytes)
    requires Holds(buf, at, Le(n, 4) + rest) && n < TWO_32
    ensures at + 4 <= |buf| && UnLe(buf[at..at + 4]) == n && Holds(buf, at + 4, rest)
  {
    FourBytes(n);
    HoldsFront(buf, at, Le(n, 4), rest);
    HoldsBack(buf, at, Le(n, 4), rest);
  }

  lemma EightBack(buf: Bytes, at: nat, n: nat, rest: Bytes)
    requires Holds(buf, at, Le(n, 8) + rest) && n < TWO_32 * TWO_32
    ensures at + 8 <= |buf| && UnLe(buf[at..at + 8]) == n && Holds(buf, at + 8, rest)
  {
    EightBytes(n);
    HoldsFront(buf, at, Le(n, 8), rest);
    HoldsBack(buf, at, Le(n, 8), rest);
  }

  /** The fields of a header are read back. */
  lemma FieldsReadBack(file: Bytes, p: nat, parts: nat, size: nat, eleSize: nat, enterPoint: nat, remoteNum: nat)
    requires Holds(file, 0, FileHeader(p, parts, size, eleSize, enterPoint, remoteNum))
    requires p < TWO_32 && parts < TWO_32 && size < TWO_32 && eleSize < TWO_32
    requires enterPoint < TWO_32 * TWO_32 && remoteNum < TWO_32 * TWO_32
    ensures META_LEN <= |file|
    ensures UnLe(file[0..4]) == p && UnLe(file[4..8]) == parts && UnLe(file[8..12]) == size
    ensures UnLe(file[12..16]) == eleSize && UnLe(file[16..24]) == enterPoint && UnLe(file[24..32]) == remoteNum
  {
    var f := Le(remoteNum, 8);
    var e := Le(enterPoint, 8) + f;
    var d := Le(eleSize, 4) + e;
    var c := Le(size, 4) + d;
    var b := Le(parts, 4) + c;
    FourBack(file, 0, p, b);
    FourBack(file, 4, parts, c);
    FourBack(file, 8, size, d);
    FourBack(file, 12, eleSize, e);
    EightBack(file, 16, enterPoint, f);
    assert f + [] == f;
    EightBack(file, 24, remoteNum, []);
  }

  /** What the header says is the size of the rest. */
  lemma RestOfFile(g: Graph, enterPoint: nat, img: Image, p: nat)
    requires IsIndex(g, enterPoint, img) && p < |img|
    ensures |img[p]| == META_LEN + EleSize(g) * g.sizes[p] + RemoteNum(g, p) * 4
  {
    LayoutPlans(g);
    SizesAgree(g, p);
    SlotOffsetIsProduct(g.sizes[p], EleSize(g));
  }

  lemma FieldsFit(g: Graph, p: nat)
    requires g.Valid() && TableOf(g).Valid() && p < |g.sizes|
    ensures g.sizes[p] < TWO_32 && RemoteNum(g, p) < TWO_32 * TWO_32 && EleSize(g) < TWO_32
  {
    RemoteAreaBound(TableOf(g), p, |g.adj|);
    CumMonotone(g.sizes, p + 1, |g.sizes|);
  }

  lemma IndexReadBack(g: Graph, enterPoint: nat, img: Image, file: Bytes, p: nat)
    requires IsIndex(g, enterPoint, img) && p < |img| && file == img[p] && enterPoint < TWO_32 * TWO_32
    ensures META_LEN <= |file|
    ensures UnLe(file[0..4]) == p && UnLe(file[4..8]) == |g.sizes| && UnLe(file[16..24]) == enterPoint
    ensures UnLe(file[8..12]) == g.sizes[p] && UnLe(file[12..16]) == EleSize(g) && UnLe(file[24..32]) == RemoteNum(g, p)
    ensures META_LEN + (UnLe(file[12..16]) * UnLe(file[8..12]) + UnLe(file[24..32]) * 4) == |file|
    ensures file[META_LEN..] == DegNgh(img)[p]
  {
    RestOfFile(g, enterPoint, img, p);
    FieldsFit(g, p);
    assert HeadIs(p, FileHeader(p, |g.sizes|, g.sizes[p], EleSize(g), enterPoint, RemoteNum(g, p)), img);
    FieldsReadBack(file, p, |g.sizes|, g.sizes[p], EleSize(g), enterPoint, RemoteNum(g, p));
  }

  /** load_index on a file the writer left: header fields and all bytes behind them. */
  method LoadIndex(ghost g: Graph, ghost enterPoint: nat, ghost img: Image, file: Bytes, ghost p: nat) returns (idx: Index)
    requires IsIndex(g, enterPoint, img) && p < |img| && file == img[p] && enterPoint < TWO_32 * TWO_32
    ensures idx == Index(p, |g.sizes|, g.sizes[p], EleSize(g), enterPoint, RemoteNum(g, p), DegNgh(img)[p])
  {
    IndexReadBack(g, enterPoint, img, file, p);
    var part, parts, enter := UnLe(file[0..4]), UnLe(file[4..8]), UnLe(file[16..24]);
    var vecNum, eleSize, remoteNum := UnLe(file[8..12]), UnLe(file[12..16]), UnLe(file[24..32]);
    var end := META_LEN + (eleSize * vecNum + remoteNum * 4);
    UpToEnd(file, META_LEN, end);
    var degNgh := file[META_LEN..end];
    idx := Index(part, parts, vecNum, eleSize, enter, remoteNum, degNgh);
  }

  lemma UpToEnd(s: Bytes, from: nat, end: int)
    requires from <= |s| == end
    ensures s[from..end] == s[from..]
  {
  }

  /** The index of the machine of partition p, as the readers use it. */
  ghost predicate Loaded(g: Graph, img: Image, p: nat, idx: Index) {
    && p < |g.sizes| && p < |img| && idx.degNgh == DegNgh(img)[p]
    && idx.eleSize == EleSize(g) && idx.vecNum == g.sizes[p]
  }

  // ----- Expanding a vertex

  /** The start of the record of the n-th vertex of a partition. */
  method RecordStart(eleSize: nat, n: nat) returns (start: nat)
    ensures start == SlotOffset(n, eleSize)
  {
    SlotOffsetIsProduct(n, eleSize);
    start := n * eleSize;
  }

  /** Expanding vertex v on a core machine.  `ok` is false where the code finds the vertex outside its
      partition and aborts.  Otherwise all neighbours of v go to their owners' queues, of the kind that
      is for core machines or for others, and the query waits for just what was added. */
  method Expand(ghost g: Graph, ghost img: Image, idx: Index, rd: Reader, v: nat, queues: TaskQueues)
    returns (ok: bool, postCnt: nat)
    requires g.Valid() && FilesHold(TableOf(g), img) && Loaded(g, img, rd.home, idx)
    requires ReaderFor(rd, g.sizes) && queues.Contents().For(|g.sizes|)
    modifies queues
    ensures ExpandedIfOwn(g, v, rd, DegNgh(img), old(queues.Contents()), queues.Contents(), ok, postCnt)
  {
    var partitionOfs := rd.cumu[rd.home];
    ok := partitionOfs <= v < partitionOfs + idx.vecNum;
    postCnt := 0;
    if ok {
      OwnedIsKnown(g, rd.home, v);
      postCnt := ExpandOwn(g, img, idx, rd, v, v - partitionOfs, queues);
    }
  }

  lemma OwnedIsKnown(g: Graph, p: nat, v: nat)
    requires g.Valid() && p < |g.sizes| && Owns(g.sizes, p, v)
    ensures v < |g.adj|
  {
    CumMonotone(g.sizes, p + 1, |g.sizes|);
  }

  /** The n-th vertex of the machine's partition. */
  method ExpandOwn(ghost g: Graph, ghost img: Image, idx: Index, rd: Reader, ghost v: nat, n: nat, queues: TaskQueues)
    returns (postCnt: nat)
    requires g.Valid() && FilesHold(TableOf(g), img) && Loaded(g, img, rd.home, idx) && v < |g.adj|
    requires ReaderFor(rd, g.sizes) && queues.Contents().For(|g.sizes|)
    requires Owns(g.sizes, rd.home, v) && n == v - Cum(g.sizes, rd.home)
    modifies queues
    ensures Expanded(g, v, rd, DegNgh(img), old(queues.Contents()), queues.Contents(), postCnt)
  {
    var start := RecordStart(idx.eleSize, n);
    ghost var grs, at := RecordOf(g, img, rd.home, v, n, start);
    postCnt := ReadRecord(g, DegNgh(img), idx.degNgh, rd, v, start, queues, grs, at);
  }

  /** The same on a non-core machine, for a node task whose local part is still empty. */
  method ExpandForOther(ghost g: Graph, ghost img: Image, idx: Index, rd: Reader, v: nat, queues: NodeQueues)
    returns (postCnt: nat)
    requires g.Valid() && FilesHold(TableOf(g), img) && Loaded(g, img, rd.home, idx)
    requires v < |g.adj| && Owns(g.sizes, rd.home, v)
    requires ReaderFor(rd, g.sizes) && queues.Contents().For(|g.sizes|) && queues.offset == 0
    modifies queues
    ensures NodeExpanded(g, v, rd, DegNgh(img), old(queues.Contents()), queues.Contents(), postCnt)
  {
    var n := v - rd.cumu[rd.home];
    var start := RecordStart(idx.eleSize, n);
    ghost var grs, at := RecordOf(g, img, rd.home, v, n, start);
    postCnt := ReadRecordForOther(g, DegNgh(img), idx.degNgh, rd, v, start, queues, grs, at);
  }

  // ----- From the graph to the queues

  /** The index files of a graph are written and one machine loads its own. */
  method WriteAndLoad(g: Graph, enterPoint: nat, p: nat) returns (files: seq<array<Byte>>, idx: Index)
    requires g.Valid() && p < |g.sizes| && enterPoint < TWO_32 * TWO_32
    ensures fresh(files) && FilesHold(TableOf(g), Img(files)) && Loaded(g, Img(files), p, idx)
    ensures idx.part == p && idx.parts == |g.sizes| && idx.enterPoint == enterPoint
  {
    var ok;
    ok, files := TransferB1ToScalaV3(g, enterPoint);
    idx := LoadIndex(g, enterPoint, Img(files), files[p][..], p);
  }

  /** A reader and its queues on one of the machines. */
  ghost predicate Ready(g: Graph, enterPoint: nat, rd: Reader) {
    g.Valid() && enterPoint < TWO_32 * TWO_32 && ReaderFor(rd, g.sizes)
  }

  /** Write, load, expand on a core machine: whatever the graph, all neighbours of the vertex reach the
      queues of the machines that own them. */
  method WriteLoadExpand(g: Graph, enterPoint: nat, rd: Reader, v: nat, queues: TaskQueues)
    returns (files: seq<array<Byte>>, ok: bool, postCnt: nat)
    requires Ready(g, enterPoint, rd) && queues.Contents().For(|g.sizes|)
    modifies queues
    ensures ExpandedIfOwn(g, v, rd, DegNgh(Img(files)), old(queues.Contents()), queues.Contents(), ok, postCnt)
  {
    ghost var b := queues.Contents();
    var idx;
    files, idx := WriteAndLoad(g, enterPoint, rd.home);
    assert queues.Contents() == b;
    ghost var img := Img(files);
    ok, postCnt := Expand(g, img, idx, rd, v, queues);
    assert Img(files) == img;
  }

  /** The same on a non-core machine. */
  method WriteLoadExpandForOther(g: Graph, enterPoint: nat, rd: Reader, v: nat, queues: NodeQueues)
    returns (files: seq<array<Byte>>, postCnt: nat)
    requires Ready(g, enterPoint, rd) && v < |g.adj| && Owns(g.sizes, rd.home, v)
    requires queues.Contents().For(|g.sizes|) && queues.offset == 0
    modifies queues
    ensures NodeExpanded(g, v, rd, DegNgh(Img(files)), old(queues.Contents()), queues.Contents(), postCnt)
  {
    ghost var b := queues.Contents();
    var idx;
    files, idx := WriteAndLoad(g, enterPoint, rd.home);
    assert queues.Contents() == b;
    ghost var img := Img(files);
    postCnt := ExpandForOther(g, img, idx, rd, v, queues);
    assert Img(files) == img;
  }
}
