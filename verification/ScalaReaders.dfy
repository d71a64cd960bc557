/** The two readers of a V3 record: one hands a vertex's neighbours to the queues of a core machine, the
    other does the same on a non-core machine that expands a vertex for someone else. */
module ScalaReaders {
  import opened ScalaLayout
  import opened IndexImage
  import opened ScalaGraph
  import opened ScalaImage

  // ----- Records in a buffer without its file's header

  predicate GroupOk(gr: Group) {
    && gr.part < MAX_PARTS && 0 < |gr.ids| <= MAX_DEG && (gr.own ==> gr.last) && gr.ofs < TWO_32 * TWO_32
    && forall i :: 0 <= i < |gr.ids| ==> gr.ids[i] < TWO_32
  }

  ghost predicate IsRecord(grs: seq<Group>) {
    && 0 < |grs|
    && forall k :: 0 <= k < |grs| ==> GroupOk(grs[k]) && grs[k].last == (k == |grs| - 1)
  }

  function GroupStart(grs: seq<Group>, start: nat, k: nat): nat
    requires k <= |grs|
  {
    start + |DataOf(Pieces(grs)[..k])|
  }

  lemma {:induction false} PieceAt(buf: Bytes, start: nat, ps: seq<Piece>, k: nat)
    requires k < |ps| && Holds(buf, start, DataOf(ps))
    ensures Holds(buf, start + |DataOf(ps[..k])|, ps[k].data)
    ensures |DataOf(ps[..k + 1])| == |DataOf(ps[..k])| + |ps[k].data|
    decreases |ps|
  {
    var front := ps[..|ps| - 1];
    Front(ps, k);
    if k < |front| {
      HoldsFront(buf, start, DataOf(front), ps[|ps| - 1].data);
      PieceAt(buf, start, front, k);
      assert front[..k] == ps[..k];
    } else {
      HoldsBack(buf, start, DataOf(front), ps[k].data);
    }
  }

  lemma HoldsFront(s: Bytes, a: nat, x: Bytes, y: Bytes)
    requires Holds(s, a, x + y)
    ensures Holds(s, a, x)
  {
    assert s[a..a + |x|] == (x + y)[..|x|];
  }

  lemma HoldsBack(s: Bytes, a: nat, x: Bytes, y: Bytes)
    requires Holds(s, a, x + y)
    ensures Holds(s, a + |x|, y)
  {
    assert s[a + |x|..a + |x| + |y|] == (x + y)[|x|..];
  }

  /** Where the groups of a record start, and where it ends. */
  function Positions(grs: seq<Group>, start: nat): (r: seq<nat>)
    ensures |r| == |grs| + 1
  {
    seq(|grs| + 1, k requires 0 <= k <= |grs| => GroupStart(grs, start, k))
  }

  ghost predicate GroupIn(buf: Bytes, grs: seq<Group>, at: seq<nat>, k: nat)
    requires k < |grs| && |at| == |grs| + 1
  {
    Holds(buf, at[k], EncGroup(grs[k])) && at[k + 1] == at[k] + |EncGroup(grs[k])|
  }

  /** The groups lie in the buffer one behind the other, the k-th from at[k] on. */
  ghost predicate InBuffer(buf: Bytes, grs: seq<Group>, at: seq<nat>) {
    |at| == |grs| + 1 && forall k :: 0 <= k < |grs| ==> GroupIn(buf, grs, at, k)
  }

  lemma GroupInBuffer(buf: Bytes, start: nat, grs: seq<Group>, at: seq<nat>, k: nat)
    requires Holds(buf, start, DataOf(Pieces(grs))) && k < |grs| && at == Positions(grs, start)
    ensures GroupIn(buf, grs, at, k)
  {
    var k1 := k + 1;
    assert at[k] == GroupStart(grs, start, k) && at[k1] == GroupStart(grs, start, k1);
    PieceAt(buf, start, Pieces(grs), k);
  }

  lemma RecordInBuffer(buf: Bytes, start: nat, grs: seq<Group>, at: seq<nat>)
    requires Holds(buf, start, DataOf(Pieces(grs))) && at == Positions(grs, start)
    ensures InBuffer(buf, grs, at)
  {
    forall k | 0 <= k < |grs|
      ensures GroupIn(buf, grs, at, k)
    {
      GroupInBuffer(buf, start, grs, at, k);
    }
  }

  lemma HeaderBytes(gr: Group)
    requires GroupOk(gr)
    ensures var word := HeaderWord(gr.part, |gr.ids|, gr.own, gr.last);
            && ByteOf(word, 0) == |gr.ids|
            && ByteOf(word, 1) == (if gr.last then 128 else 0) + (if gr.own then 64 else 0) + gr.part
  {
    var high := (if gr.last then 128 else 0) + (if gr.own then 64 else 0) + gr.part;
    var word := HeaderWord(gr.part, |gr.ids|, gr.own, gr.last);
    assert word == high * 256 + |gr.ids|;
    assert word / 256 == high;
    assert ByteOf(word, 1) == ByteOf(high, 0);
  }

  /** What the flags in a header's second byte say. */
  lemma FlagsReadBack(gr: Group, b: int)
    requires GroupOk(gr) && b == (if gr.last then 128 else 0) + (if gr.own then 64 else 0) + gr.part
    ensures (b >= 128) == gr.last && (b / 64 % 2 == 1) == gr.own && b % 64 == gr.part
  {
  }

  lemma HeaderReadBack(buf: Bytes, at: nat, gr: Group)
    requires GroupOk(gr) && Holds(buf, at, EncGroup(gr))
    ensures at + 2 <= |buf| && buf[at] == |gr.ids|
    ensures var b := buf[at + 1]; (b >= 128) == gr.last && (b / 64 % 2 == 1) == gr.own && b % 64 == gr.part
  {
    var word := HeaderWord(gr.part, |gr.ids|, gr.own, gr.last);
    assert EncGroup(gr)[..2] == Le(word, 2);
    assert buf[at] == EncGroup(gr)[0] == ByteOf(word, 0);
    assert buf[at + 1] == EncGroup(gr)[1] == ByteOf(word, 1);
    HeaderBytes(gr);
    FlagsReadBack(gr, buf[at + 1]);
  }

  lemma InlineReadBack(buf: Bytes, at: nat, gr: Group)
    requires GroupOk(gr) && Holds(buf, at, EncGroup(gr)) && gr.Inline()
    ensures at + 2 + 4 * |gr.ids| <= |buf| && IdsAt(buf, at + 2, |gr.ids|) == gr.ids
  {
    HoldsBack(buf, at, Le(HeaderWord(gr.part, |gr.ids|, gr.own, gr.last), 2), EncIds(gr.ids));
    IdsReadBack(buf, at + 2, gr.ids);
  }

  lemma OffsetReadBack(buf: Bytes, at: nat, gr: Group)
    requires GroupOk(gr) && Holds(buf, at, EncGroup(gr)) && !gr.Inline()
    ensures at + 10 <= |buf| && UnLe(buf[at + 2..at + 10]) == gr.ofs
  {
    HoldsBack(buf, at, Le(HeaderWord(gr.part, |gr.ids|, gr.own, gr.last), 2), Le(gr.ofs, 8));
    EightBytes(gr.ofs);
  }

  lemma PayloadReadBack(buf: Bytes, at: nat, gr: Group)
    requires GroupOk(gr) && Holds(buf, at, EncGroup(gr))
    ensures gr.Inline() ==> at + 2 + 4 * |gr.ids| <= |buf| && IdsAt(buf, at + 2, |gr.ids|) == gr.ids
    ensures !gr.Inline() ==> at + 10 <= |buf| && UnLe(buf[at + 2..at + 10]) == gr.ofs
  {
    if gr.Inline() {
      InlineReadBack(buf, at, gr);
    } else {
      OffsetReadBack(buf, at, gr);
    }
  }

  // ----- What is handed out

  /** A list of `deg` neighbours stored from byte `ofs` of the owner's buffer on. */
  datatype Stored = Stored(ofs: nat, deg: nat)

  /** A compute task: where its result goes, the neighbours, by offset into the receiver's buffer, and
      what the result counts in the two kinds of credits. */
  datatype Task = Task(machine: nat, qid: nat, deg: nat, offset: nat, coreCnt: nat, nocoreCnt: nat)

  /** One vector to fetch from partition `part`. */
  datatype Read = Read(part: nat, vid: int, internal: int)

  /** The queues of a core machine: neighbours to be sent to core machines, vectors to be read, tasks for
      other machines, tasks for the machine's own threads. */
  datatype Box = Box(micro: seq<seq<int>>, large: seq<seq<Stored>>, fetches: seq<Read>, tasks: seq<seq<Task>>,
                     local: seq<Task>) {
    predicate For(n: nat) { |micro| == |large| == |tasks| == n }
  }

  /** Who reads: the machine, the one the query is expanded for, the query, which machines are its core
      machines, the prefix sums. */
  datatype Reader = Reader(home: nat, origin: nat, qid: nat, core: seq<bool>, cumu: seq<nat>) {
    /** A task of the query's own machine. */
    function OwnTask(deg: nat, offset: nat): Task { Task(home, qid, deg, offset, 1, 0) }

    /** A task passed on for the query's machine. */
    function PassedTask(deg: nat, offset: nat): Task { Task(origin, qid, deg, offset, 0, 1) }
  }

  function ReadsOf(part: nat, ids: seq<int>, first: nat): (r: seq<Read>)
    ensures |r| == |ids|
  {
    seq(|ids|, d requires 0 <= d < |ids| => Read(part, ids[d], ids[d] - first))
  }

  /** One group goes to the queues; `at` is where its payload starts. */
  function Hand(b: Box, rd: Reader, gr: Group, at: nat): (r: Box)
    requires b.For(|rd.core|) && gr.part < |rd.core| <= |rd.cumu|
    ensures r.For(|rd.core|)
  {
    var q := gr.part;
    if gr.own then b.(local := b.local + [rd.OwnTask(|gr.ids|, at)])
    else if gr.Inline() && rd.core[q] then b.(micro := b.micro[q := b.micro[q] + gr.ids])
    else if gr.Inline() then b.(fetches := b.fetches + ReadsOf(q, gr.ids, rd.cumu[q]))
    else if rd.core[q] then b.(large := b.large[q := b.large[q] + [Stored(gr.ofs, |gr.ids|)]])
    else b.(tasks := b.tasks[q := b.tasks[q] + [rd.OwnTask(|gr.ids|, gr.ofs)]])
  }

  predicate PartsBelow(grs: seq<Group>, n: nat) { forall k :: 0 <= k < |grs| ==> grs[k].part < n }

  /** The first k groups, from at[0], at[1], ... on, go to the queues. */
  function HandAll(b: Box, rd: Reader, grs: seq<Group>, at: seq<nat>, k: nat): (r: Box)
    requires b.For(|rd.core|) && |rd.core| <= |rd.cumu| && PartsBelow(grs, |rd.core|) && k <= |grs| <= |at|
    ensures r.For(|rd.core|)
  {
    if k == 0 then b else Hand(HandAll(b, rd, grs, at, k - 1), rd, grs[k - 1], at[k - 1] + 2)
  }

  function CountTasks(tasks: seq<seq<Task>>, n: nat): nat
    requires n <= |tasks|
  {
    if n == 0 then 0 else CountTasks(tasks, n - 1) + |tasks[n - 1]|
  }

  lemma {:induction false} CountTasksStep(tasks: seq<seq<Task>>, q: nat, t: Task, n: nat)
    requires q < |tasks| && n <= |tasks|
    ensures CountTasks(tasks[q := tasks[q] + [t]], n) == CountTasks(tasks, n) + if q < n then 1 else 0
  {
    if n > 0 {
      CountTasksStep(tasks, q, t, n - 1);
    }
  }

  /** What the query waits for: its reads, its tasks on other machines, its local tasks. */
  function Outstanding(b: Box): nat { |b.fetches| + CountTasks(b.tasks, |b.tasks|) + |b.local| }

  // ----- The reader on a core machine

  class TaskQueues {
    var micro: seq<seq<int>>
    var large: seq<seq<Stored>>
    var fetches: seq<Read>
    var tasks: seq<seq<Task>>
    var local: seq<Task>

    ghost function Contents(): Box
      reads this
    {
      Box(micro, large, fetches, tasks, local)
    }

    method PushMicro(degNgh: Bytes, ofs: nat, q: nat, deg: nat)
      requires ofs + 4 * deg <= |degNgh| && q < |micro|
      modifies `micro
      ensures micro == old(micro)[q := old(micro[q]) + IdsAt(degNgh, ofs, deg)]
    {
      for d := 0 to deg
        invariant |micro| == |old(micro)| && micro[q] == old(micro[q]) + IdsAt(degNgh, ofs, deg)[..d]
        invariant forall j :: 0 <= j < |micro| && j != q ==> micro[j] == old(micro[j])
      {
        Front(IdsAt(degNgh, ofs, deg), d);
        micro := micro[q := micro[q] + [UnLe(degNgh[ofs + 4 * d..ofs + 4 * d + 4])]];
      }
      assert IdsAt(degNgh, ofs, deg)[..deg] == IdsAt(degNgh, ofs, deg);
    }

    method PushReads(degNgh: Bytes, ofs: nat, q: nat, deg: nat, first: nat) returns (postCnt: nat)
      requires ofs + 4 * deg <= |degNgh|
      modifies `fetches
      ensures fetches == old(fetches) + ReadsOf(q, IdsAt(degNgh, ofs, deg), first) && postCnt == deg
    {
      ghost var rs := ReadsOf(q, IdsAt(degNgh, ofs, deg), first);
      postCnt := 0;
      for d := 0 to deg
        invariant postCnt == d && fetches == old(fetches) + rs[..d]
      {
        Front(rs, d);
        var vid := UnLe(degNgh[ofs + 4 * d..ofs + 4 * d + 4]);
        fetches := fetches + [Read(q, vid, vid - first)];
        postCnt := postCnt + 1;
      }
      assert rs[..deg] == rs;
    }

    /** One group: header, then payload. */
    method HandGroup(rd: Reader, degNgh: Bytes, at: nat, ghost gr: Group)
      returns (next: nat, stop: bool, postCnt: nat)
      requires GroupOk(gr) && Holds(degNgh, at, EncGroup(gr))
      requires Contents().For(|rd.core|) && gr.part < |rd.core| <= |rd.cumu|
      modifies this
      ensures Contents() == Hand(old(Contents()), rd, gr, at + 2)
      ensures stop == gr.last && (!stop ==> next == at + |EncGroup(gr)|)
      ensures Outstanding(Contents()) == Outstanding(old(Contents())) + postCnt
    {
      HeaderReadBack(degNgh, at, gr);
      PayloadReadBack(degNgh, at, gr);
      var endFlag, localFlag, pid, deg := degNgh[at + 1] >= 128, degNgh[at + 1] / 64 % 2 == 1, degNgh[at + 1] % 64, degNgh[at];
      var ofs := at + 2;
      postCnt := 0;
      if localFlag {
        local := local + [Task(rd.home, rd.qid, deg, ofs, 1, 0)];
        return ofs, true, 1;
      }
      if deg <= INLINE_DEG_BAR {
        if rd.core[pid] {
          PushMicro(degNgh, ofs, pid, deg);
        } else {
          postCnt := PushReads(degNgh, ofs, pid, deg, rd.cumu[pid]);
        }
        ofs := ofs + deg * 4;
      } else {
        var relative := UnLe(degNgh[ofs..ofs + 8]);
        if rd.core[pid] {
          large := large[pid := large[pid] + [Stored(relative, deg)]];
        } else {
          CountTasksStep(tasks, pid, Task(rd.home, rd.qid, deg, relative, 1, 0), |tasks|);
          tasks := tasks[pid := tasks[pid] + [Task(rd.home, rd.qid, deg, relative, 1, 0)]];
          postCnt := 1;
        }
        ofs := ofs + 8;
      }
      return ofs, endFlag, postCnt;
    }

    /** scala_graph_v3_get_subquery_task_lb on a record: group by group until the end flag. */
    method GetSubqueryTasks(rd: Reader, degNgh: Bytes, start: nat, ghost grs: seq<Group>, ghost at: seq<nat>)
      returns (postCnt: nat)
      requires IsRecord(grs) && PartsBelow(grs, |rd.core|) && InBuffer(degNgh, grs, at) && at[0] == start
      requires Contents().For(|rd.core|) && |rd.core| <= |rd.cumu|
      modifies this
      ensures Contents() == HandAll(old(Contents()), rd, grs, at, |grs|)
      ensures Outstanding(Contents()) == Outstanding(old(Contents())) + postCnt
    {
      ghost var b, k := Contents(), 0;
      var ofs, stop := start, false;
      postCnt := 0;
      while !stop
        invariant k <= |grs| && stop == (k == |grs|) && (!stop ==> ofs == at[k])
        invariant Contents() == HandAll(b, rd, grs, at, k)
        invariant Outstanding(Contents()) == Outstanding(b) + postCnt
        decreases |grs| - k
      {
        ghost var next := k + 1;
        var more;
        ofs, stop, more := HandNext(rd, degNgh, ofs, grs, at, k, next, b);
        postCnt := postCnt + more;
        k := next;
      }
    }

    /** One turn of the walk. */
    method HandNext(rd: Reader, degNgh: Bytes, ofs: nat, ghost grs: seq<Group>, ghost at: seq<nat>, ghost k: nat,
                    ghost next: nat, ghost b: Box)
      returns (end: nat, stop: bool, postCnt: nat)
      requires IsRecord(grs) && PartsBelow(grs, |rd.core|) && InBuffer(degNgh, grs, at)
      requires k < |grs| && next == k + 1 && ofs == at[k] && b.For(|rd.core|) && |rd.core| <= |rd.cumu|
      requires Contents() == HandAll(b, rd, grs, at, k)
      modifies this
      ensures Contents() == HandAll(b, rd, grs, at, next)
      ensures stop == (next == |grs|) && (!stop ==> end == at[next])
      ensures Outstanding(Contents()) == Outstanding(old(Contents())) + postCnt
    {
      ghost var gr, payload := grs[k], at[k] + 2;
      assert GroupIn(degNgh, grs, at, k) && GroupOk(gr);
      end, stop, postCnt := HandGroup(rd, degNgh, ofs, gr);
    }
  }

  // ----- The reader on a non-core machine

  /** Neighbours for a core machine, from outside its ring. */
  datatype NodeSync = NodeSync(qid: nat, micro: seq<int>, large: seq<Stored>)

  /** NODE_SYNC messages and tasks per machine, and the local part of the node task: its own neighbours,
      none as long as `offset` is zero. */
  datatype NodeBox = NodeBox(syncs: seq<seq<NodeSync>>, tasks: seq<seq<Task>>, deg: nat, offset: nat) {
    predicate For(n: nat) { |syncs| == |tasks| == n }
  }

  /** Ids side by side in one number, 32 bits each, the first lowest. */
  function Pack(ids: seq<int>): int {
    if ids == [] then 0 else ids[0] + TWO_32 * Pack(ids[1..])
  }

  /** What the receiver of a task sees when it takes the offset itself for the list. */
  function Unpack(n: int, deg: nat): (r: seq<int>)
    ensures |r| == deg
    decreases deg
  {
    if deg == 0 then [] else [n % TWO_32] + Unpack(n / TWO_32, deg - 1)
  }

  lemma {:induction false} UnpackPack(ids: seq<nat>)
    requires forall i :: 0 <= i < |ids| ==> ids[i] < TWO_32
    ensures Pack(ids) >= 0 && Unpack(Pack(ids), |ids|) == ids
  {
    if ids != [] {
      UnpackPack(ids[1..]);
    }
  }

  /** Shifted into place and or-ed in, an id is behind those before it. */
  lemma PackNext(ids: seq<int>, d: nat)
    requires d < |ids| <= INLINE_DEG_BAR && forall i :: 0 <= i < |ids| ==> 0 <= ids[i] < TWO_32
    ensures Pack(ids[..d]) >= 0
    ensures Or(Pack(ids[..d]), Shl(ids[d], 32 * d)) == Pack(ids[..d + 1])
  {
    if d == 0 {
      assert ids[..1] == [ids[0]] && [ids[0]][1..] == [];
    } else {
      assert ids[..1] == [ids[0]] && [ids[0]][1..] == [];
      assert ids[..2] == [ids[0], ids[1]] && [ids[0], ids[1]][1..] == [ids[1]] && [ids[1]][1..] == [];
      ShlBy32(1);
      ShlBy32(ids[1]);
      OrIsSum(ids[1], 32, ids[0]);
      OrSwap(Shl(ids[1], 32), ids[0]);
    }
  }

  /** One group goes to the queues of a non-core machine. */
  function HandNode(b: NodeBox, rd: Reader, gr: Group, at: nat): (r: NodeBox)
    requires b.For(|rd.core|) && gr.part < |rd.core| && GroupOk(gr)
    ensures r.For(|rd.core|)
  {
    var q := gr.part;
    if gr.own then b.(deg := |gr.ids|, offset := at)
    else if gr.Inline() && rd.core[q] then b.(syncs := b.syncs[q := b.syncs[q] + [NodeSync(rd.qid, gr.ids, [])]])
    else if gr.Inline() then
      UnpackPack(gr.ids);
      b.(tasks := b.tasks[q := b.tasks[q] + [rd.PassedTask(|gr.ids|, Pack(gr.ids))]])
    else if rd.core[q] then
      b.(syncs := b.syncs[q := b.syncs[q] + [NodeSync(rd.qid, [], [Stored(gr.ofs, |gr.ids|)])]])
    else b.(tasks := b.tasks[q := b.tasks[q] + [rd.PassedTask(|gr.ids|, gr.ofs)]])
  }

  function HandNodeAll(b: NodeBox, rd: Reader, grs: seq<Group>, at: seq<nat>, k: nat): (r: NodeBox)
    requires b.For(|rd.core|) && PartsBelow(grs, |rd.core|) && k <= |grs| <= |at|
    requires forall i :: 0 <= i < |grs| ==> GroupOk(grs[i])
    ensures r.For(|rd.core|)
  {
    if k == 0 then b else HandNode(HandNodeAll(b, rd, grs, at, k - 1), rd, grs[k - 1], at[k - 1] + 2)
  }

  class NodeQueues {
    var syncs: seq<seq<NodeSync>>
    var tasks: seq<seq<Task>>
    var deg: nat
    var offset: nat

    ghost function Contents(): NodeBox
      reads this
    {
      NodeBox(syncs, tasks, deg, offset)
    }

    /** The ids at `ofs` shifted into one 64-bit number. */
    method Combine(degNgh: Bytes, ofs: nat, n: nat) returns (combined: int)
      requires n <= INLINE_DEG_BAR && ofs + 4 * n <= |degNgh|
      requires forall d :: 0 <= d < n ==> 0 <= IdsAt(degNgh, ofs, n)[d] < TWO_32
      ensures combined == Pack(IdsAt(degNgh, ofs, n))
    {
      ghost var ids := IdsAt(degNgh, ofs, n);
      var or: nat := 0;
      for d := 0 to n
        invariant or == Pack(ids[..d])
      {
        var ngh := UnLe(degNgh[ofs + 4 * d..ofs + 4 * d + 4]);
        assert ngh == ids[d];
        PackNext(ids, d);
        or := Or(or, Shl(ngh, 32 * d));
      }
      assert ids[..n] == ids;
      combined := or;
    }

    method HandGroup(rd: Reader, degNgh: Bytes, at: nat, ghost gr: Group)
      returns (next: nat, stop: bool, postCnt: nat)
      requires GroupOk(gr) && Holds(degNgh, at, EncGroup(gr))
      requires Contents().For(|rd.core|) && gr.part < |rd.core|
      modifies this
      ensures Contents() == HandNode(old(Contents()), rd, gr, at + 2)
      ensures stop == gr.last && (!stop ==> next == at + |EncGroup(gr)|)
      ensures CountTasks(tasks, |tasks|) == old(CountTasks(tasks, |tasks|)) + postCnt
    {
      HeaderReadBack(degNgh, at, gr);
      PayloadReadBack(degNgh, at, gr);
      UnpackPack(gr.ids);
      var endFlag, localFlag, pid, n := degNgh[at + 1] >= 128, degNgh[at + 1] / 64 % 2 == 1, degNgh[at + 1] % 64, degNgh[at];
      var ofs := at + 2;
      postCnt := 0;
      if localFlag {
        deg, offset := n, ofs;
        return ofs, true, 0;
      }
      if n <= INLINE_DEG_BAR {
        if rd.core[pid] {
          syncs := syncs[pid := syncs[pid] + [NodeSync(rd.qid, IdsAt(degNgh, ofs, n), [])]];
        } else {
          var combined := Combine(degNgh, ofs, n);
          CountTasksStep(tasks, pid, Task(rd.origin, rd.qid, n, combined, 0, 1), |tasks|);
          tasks := tasks[pid := tasks[pid] + [Task(rd.origin, rd.qid, n, combined, 0, 1)]];
          postCnt := 1;
        }
        ofs := ofs + n * 4;
      } else {
        var relative := UnLe(degNgh[ofs..ofs + 8]);
        if rd.core[pid] {
          syncs := syncs[pid := syncs[pid] + [NodeSync(rd.qid, [], [Stored(relative, n)])]];
        } else {
          CountTasksStep(tasks, pid, Task(rd.origin, rd.qid, n, relative, 0, 1), |tasks|);
          tasks := tasks[pid := tasks[pid] + [Task(rd.origin, rd.qid, n, relative, 0, 1)]];
          postCnt := 1;
        }
        ofs := ofs + 8;
      }
      return ofs, endFlag, postCnt;
    }

    /** scala_graph_v3_get_nodetask_msg on a record. */
    method GetNodeTaskMsg(rd: Reader, degNgh: Bytes, start: nat, ghost grs: seq<Group>, ghost at: seq<nat>)
      returns (postCnt: nat)
      requires IsRecord(grs) && PartsBelow(grs, |rd.core|) && InBuffer(degNgh, grs, at) && at[0] == start
      requires Contents().For(|rd.core|)
      modifies this
      ensures Contents() == HandNodeAll(old(Contents()), rd, grs, at, |grs|)
      ensures CountTasks(tasks, |tasks|) == old(CountTasks(tasks, |tasks|)) + postCnt
    {
      ghost var b, k := Contents(), 0;
      var ofs, stop := start, false;
      postCnt := 0;
      while !stop
        invariant k <= |grs| && stop == (k == |grs|) && (!stop ==> ofs == at[k])
        invariant Contents() == HandNodeAll(b, rd, grs, at, k)
        invariant CountTasks(tasks, |tasks|) == old(CountTasks(tasks, |tasks|)) + postCnt
        decreases |grs| - k
      {
        ghost var gr := grs[k];
        assert GroupIn(degNgh, grs, at, k) && GroupOk(gr);
        var more;
        ofs, stop, more := HandGroup(rd, degNgh, ofs, gr);
        postCnt := postCnt + more;
        k := k + 1;
      }
    }
  }
}
