/**
 Offsets into the per-thread storage: a bump pointer that takes back a block freed at the end, and free
 lists of power-of-two blocks that split a larger block into the one wanted and change.
 */
module PtsBackend {
  import opened Options

  const MIN_SIZE := 7
  const MAX_SIZE := 32
  const CACHE_LINE := 128
  const TWO_32 := 0x1_0000_0000

  /** 32 pages of two megabytes. */
  const PT_ALLOC_SIZE := 0x400_0000

  function Pow2(k: nat): (r: nat)
    ensures r >= 1
  {
    if k == 0 then 1 else 2 * Pow2(k - 1)
  }

  /** Pow2(log) bytes from `offset` on. */
  datatype Block = Block(offset: nat, log: nat) {
    function End(): nat { offset + Pow2(log) }
  }

  /** free[i] holds the offsets of free blocks of Pow2(i) bytes.  `live` are the blocks callers own; `held`
      are those a caller has given back, on their way to a free list; `lost` are the pieces of the address
      range that a bump beyond the end has skipped. */
  datatype Heap = Heap(nextLoc: nat, free: seq<seq<nat>>, live: seq<Block>, held: seq<Block>, lost: seq<Block>)

  function Empty(): Heap { Heap(0, seq(MAX_SIZE, _ => []), [], [], []) }

  // ----- Who covers an address

  function Covers(b: Block, x: nat): nat { if b.offset <= x < b.End() then 1 else 0 }

  function Cover(bs: seq<Block>, x: nat): nat {
    if bs == [] then 0 else Cover(bs[..|bs| - 1], x) + Covers(bs[|bs| - 1], x)
  }

  function CoverList(offsets: seq<nat>, log: nat, x: nat): nat {
    if offsets == [] then 0
    else CoverList(offsets[..|offsets| - 1], log, x) + Covers(Block(offsets[|offsets| - 1], log), x)
  }

  function CoverFree(free: seq<seq<nat>>, n: nat, x: nat): nat
    requires n <= |free|
  {
    if n == 0 then 0 else CoverFree(free, n - 1, x) + CoverList(free[n - 1], n - 1, x)
  }

  /** How many blocks contain address x. */
  function CoverAll(h: Heap, x: nat): nat {
    Cover(h.live, x) + Cover(h.held, x) + Cover(h.lost, x) + CoverFree(h.free, |h.free|, x)
  }

  /** The blocks tile [0, nextLoc): each address is in exactly one of them, and none reaches beyond. */
  ghost predicate Tiled(h: Heap) {
    && |h.free| == MAX_SIZE
    && forall x: nat :: CoverAll(h, x) == if x < h.nextLoc then 1 else 0
  }

  predicate AllBelow(bs: seq<Block>, limit: nat) { forall i :: 0 <= i < |bs| ==> bs[i].End() <= limit }

  predicate FreeBelow(free: seq<seq<nat>>, limit: nat) {
    forall i, j :: 0 <= i < |free| && 0 <= j < |free[i]| ==> Block(free[i][j], i).End() <= limit
  }

  /** No block in use or free reaches beyond the storage. */
  ghost predicate Bounded(h: Heap, limit: nat) {
    AllBelow(h.live, limit) && AllBelow(h.held, limit) && FreeBelow(h.free, limit)
  }

  lemma Drop<T>(l: seq<T>, x: T)
    ensures (l + [x])[..|l|] == l
  {
  }

  lemma {:induction false} CoverRemove(bs: seq<Block>, k: nat, x: nat)
    requires k < |bs|
    ensures Cover(bs, x) == Cover(bs[..k] + bs[k + 1..], x) + Covers(bs[k], x)
    decreases |bs|
  {
    var front, last := bs[..|bs| - 1], bs[|bs| - 1];
    if k < |front| {
      CoverRemove(front, k, x);
      assert bs[..k] + bs[k + 1..] == (front[..k] + front[k + 1..]) + [last];
      Drop(front[..k] + front[k + 1..], last);
    } else {
      assert bs[..k] + bs[k + 1..] == front;
    }
  }

  lemma {:induction false} CoverFreeSame(free: seq<seq<nat>>, free1: seq<seq<nat>>, n: nat, x: nat)
    requires n <= |free| == |free1| && forall i :: 0 <= i < n ==> free[i] == free1[i]
    ensures CoverFree(free, n, x) == CoverFree(free1, n, x)
  {
    if n > 0 {
      CoverFreeSame(free, free1, n - 1, x);
    }
  }

  /** One more free block. */
  lemma {:induction false} CoverPush(free: seq<seq<nat>>, i: nat, o: nat, n: nat, x: nat)
    requires i < n <= |free|
    ensures CoverFree(free[i := free[i] + [o]], n, x) == CoverFree(free, n, x) + Covers(Block(o, i), x)
  {
    if i < n - 1 {
      CoverPush(free, i, o, n - 1, x);
    } else {
      CoverFreeSame(free, free[i := free[i] + [o]], i, x);
      Drop(free[i], o);
    }
  }

  function Pop(free: seq<seq<nat>>, i: nat): seq<seq<nat>>
    requires i < |free| && free[i] != []
  {
    free[i := free[i][..|free[i]| - 1]]
  }

  function Top(free: seq<seq<nat>>, i: nat): nat
    requires i < |free| && free[i] != []
  {
    free[i][|free[i]| - 1]
  }

  lemma CoverPop(free: seq<seq<nat>>, i: nat, n: nat, x: nat)
    requires i < n <= |free| && free[i] != []
    ensures CoverFree(free, n, x) == CoverFree(Pop(free, i), n, x) + Covers(Block(Top(free, i), i), x)
  {
    var free1 := Pop(free, i);
    assert free[i] == free1[i] + [Top(free, i)];
    assert free == free1[i := free1[i] + [Top(free, i)]];
    CoverPush(free1, i, Top(free, i), n, x);
  }

  // ----- Change

  /** Free blocks of Pow2(n - 1), Pow2(n - 2), ... down to Pow2(ll) bytes, one behind the other from `start`. */
  function Change(free: seq<seq<nat>>, start: nat, n: nat, ll: nat): (r: seq<seq<nat>>)
    requires n <= |free|
    ensures |r| == |free|
    decreases n
  {
    if n <= ll then free
    else Change(free[n - 1 := free[n - 1] + [start]], start + Pow2(n - 1), n - 1, ll)
  }

  lemma {:induction false} PowGrows(a: nat, b: nat)
    requires a <= b
    ensures Pow2(a) <= Pow2(b)
    decreases b
  {
    if a < b {
      PowGrows(a, b - 1);
    }
  }

  /** Change covers exactly what is left of the larger block. */
  lemma {:induction false} ChangeCovers(free: seq<seq<nat>>, start: nat, n: nat, ll: nat, x: nat)
    requires ll <= n <= |free|
    ensures CoverFree(Change(free, start, n, ll), |free|, x) ==
            CoverFree(free, |free|, x) + if start <= x < start + Pow2(n) - Pow2(ll) then 1 else 0
    decreases n
  {
    if ll < n {
      PowGrows(ll, n - 1);
      var free1 := free[n - 1 := free[n - 1] + [start]];
      CoverPush(free, n - 1, start, |free|, x);
      ChangeCovers(free1, start + Pow2(n - 1), n - 1, ll, x);
    }
  }

  lemma {:induction false} ChangeBelow(free: seq<seq<nat>>, start: nat, n: nat, ll: nat, limit: nat)
    requires ll <= n <= |free| && FreeBelow(free, limit) && start + Pow2(n) - Pow2(ll) <= limit
    ensures FreeBelow(Change(free, start, n, ll), limit)
    decreases n
  {
    if ll < n {
      PowGrows(ll, n - 1);
      ChangeBelow(free[n - 1 := free[n - 1] + [start]], start + Pow2(n - 1), n - 1, ll, limit);
    }
  }

  // ----- Atomic steps

  /** The fetch-and-add: a block of the caller's, unless it reaches beyond the storage. */
  function Bump(h: Heap, ll: nat, limit: nat): Heap {
    var b := Block(h.nextLoc, ll);
    if b.End() <= limit then h.(nextLoc := b.End(), live := h.live + [b])
    else h.(nextLoc := b.End(), lost := h.lost + [b])
  }

  /** The smallest size from i on with a free block, or MAX_SIZE. */
  function FirstFit(free: seq<seq<nat>>, i: nat): (r: nat)
    requires i <= |free|
    ensures i <= r <= |free| && (r < |free| ==> free[r] != []) && forall j :: i <= j < r ==> free[j] == []
    decreases |free| - i
  {
    if i == |free| || free[i] != [] then i else FirstFit(free, i + 1)
  }

  /** Under the lock: the last free block of the smallest size that will do, less the change. */
  function TakeFree(h: Heap, ll: nat): (r: (Heap, Option<nat>))
    requires ll <= |h.free|
  {
    var i := FirstFit(h.free, ll);
    if i == |h.free| then (h, None)
    else
      var o := Top(h.free, i);
      (h.(free := Change(Pop(h.free, i), o + Pow2(ll), i, ll), live := h.live + [Block(o, ll)]), Some(o))
  }

  /** The compare-and-swap: a block that ends at nextLoc is taken back at once. */
  function GiveBack(h: Heap, k: nat): Heap
    requires k < |h.live|
  {
    var b, rest := h.live[k], h.live[..k] + h.live[k + 1..];
    if b.End() == h.nextLoc then h.(nextLoc := b.offset, live := rest)
    else h.(live := rest, held := h.held + [b])
  }

  /** Under the lock: a block that has been given back goes to its free list. */
  function PutFree(h: Heap, k: nat): Heap
    requires k < |h.held| && h.held[k].log < |h.free|
  {
    var b := h.held[k];
    h.(held := h.held[..k] + h.held[k + 1..], free := h.free[b.log := h.free[b.log] + [b.offset]])
  }

  lemma BumpKeeps(h: Heap, ll: nat, limit: nat)
    requires Tiled(h) && Bounded(h, limit)
    ensures Tiled(Bump(h, ll, limit)) && Bounded(Bump(h, ll, limit), limit)
  {
    var b, h1 := Block(h.nextLoc, ll), Bump(h, ll, limit);
    Drop(h.live, b);
    Drop(h.lost, b);
    forall x: nat
      ensures CoverAll(h1, x) == if x < h1.nextLoc then 1 else 0
    {
      assert CoverAll(h1, x) == CoverAll(h, x) + Covers(b, x);
    }
  }

  lemma TakeFreeKeeps(h: Heap, ll: nat, limit: nat)
    requires Tiled(h) && Bounded(h, limit) && ll < MAX_SIZE
    ensures Tiled(TakeFree(h, ll).0) && Bounded(TakeFree(h, ll).0, limit)
  {
    var i, h1 := FirstFit(h.free, ll), TakeFree(h, ll).0;
    if i < MAX_SIZE {
      var o, popped := Top(h.free, i), Pop(h.free, i);
      PowGrows(ll, i);
      Drop(h.live, Block(o, ll));
      forall x: nat
        ensures CoverAll(h1, x) == CoverAll(h, x)
      {
        CoverPop(h.free, i, MAX_SIZE, x);
        ChangeCovers(popped, o + Pow2(ll), i, ll, x);
      }
      assert Block(h.free[i][|h.free[i]| - 1], i).End() <= limit;
      ChangeBelow(popped, o + Pow2(ll), i, ll, limit);
    }
  }

  lemma GiveBackKeeps(h: Heap, k: nat, limit: nat)
    requires Tiled(h) && Bounded(h, limit) && k < |h.live|
    ensures Tiled(GiveBack(h, k)) && Bounded(GiveBack(h, k), limit)
  {
    var b, h1 := h.live[k], GiveBack(h, k);
    Drop(h.held, b);
    forall x: nat
      ensures CoverAll(h1, x) == if x < h1.nextLoc then 1 else 0
    {
      CoverRemove(h.live, k, x);
      assert CoverAll(h, x) == if x < h.nextLoc then 1 else 0;
      assert CoverAll(h1, x) == CoverAll(h, x) - if b.End() == h.nextLoc then Covers(b, x) else 0;
    }
  }

  lemma PutFreeKeeps(h: Heap, k: nat, limit: nat)
    requires Tiled(h) && Bounded(h, limit) && k < |h.held| && h.held[k].log < MAX_SIZE
    ensures Tiled(PutFree(h, k)) && Bounded(PutFree(h, k), limit)
  {
    var b, h1 := h.held[k], PutFree(h, k);
    forall x: nat
      ensures CoverAll(h1, x) == CoverAll(h, x)
    {
      CoverRemove(h.held, k, x);
      CoverPush(h.free, b.log, b.offset, MAX_SIZE, x);
    }
  }

  // ----- Sizes and alignment

  predicate BlockShape(b: Block) { MIN_SIZE <= b.log < MAX_SIZE && b.offset % CACHE_LINE == 0 }

  /** All blocks are cache-line aligned and of an allowed size. */
  ghost predicate Shaped(h: Heap) {
    && |h.free| == MAX_SIZE && h.nextLoc % CACHE_LINE == 0
    && (forall i :: 0 <= i < |h.live| ==> BlockShape(h.live[i]))
    && (forall i :: 0 <= i < |h.held| ==> BlockShape(h.held[i]))
    && FreeShaped(h.free)
  }

  predicate FreeShaped(free: seq<seq<nat>>) {
    forall i, j :: 0 <= i < |free| && 0 <= j < |free[i]| ==> BlockShape(Block(free[i][j], i))
  }

  lemma {:induction false} PowAligned(k: nat)
    requires MIN_SIZE <= k
    ensures Pow2(k) % CACHE_LINE == 0
  {
    if k > MIN_SIZE {
      PowAligned(k - 1);
      assert Pow2(k) == 2 * Pow2(k - 1);
    } else {
      PowByFour(3);
      assert Pow2(3) == 2 * Pow2(2);
    }
  }

  lemma SumAligned(a: nat, b: nat)
    requires a % CACHE_LINE == 0 && b % CACHE_LINE == 0
    ensures (a + b) % CACHE_LINE == 0
  {
  }

  lemma {:induction false} ChangeShaped(free: seq<seq<nat>>, start: nat, n: nat, ll: nat)
    requires MIN_SIZE <= ll <= n <= |free| <= MAX_SIZE && FreeShaped(free) && start % CACHE_LINE == 0
    ensures FreeShaped(Change(free, start, n, ll))
    decreases n
  {
    if ll < n {
      PowAligned(n - 1);
      SumAligned(start, Pow2(n - 1));
      ChangeShaped(free[n - 1 := free[n - 1] + [start]], start + Pow2(n - 1), n - 1, ll);
    }
  }

  // ----- Any interleaving

  /** One atomic access by some thread.  A thread that allocates bumps or takes a free block; one that frees
      gives a block back and then, if it was not at the end, puts it on a free list.  Between any two of
      its accesses other threads may take any number of theirs. */
  datatype Action = DoBump(ll: nat) | DoTakeFree(ll: nat) | DoGiveBack(k: nat) | DoPutFree(k: nat)

  predicate CanTake(h: Heap, a: Action) {
    match a
    case DoBump(ll) => MIN_SIZE <= ll < MAX_SIZE
    case DoTakeFree(ll) => MIN_SIZE <= ll < MAX_SIZE && ll <= |h.free|
    case DoGiveBack(k) => k < |h.live|
    case DoPutFree(k) => k < |h.held| && h.held[k].log < |h.free|
  }

  function Take(h: Heap, a: Action, limit: nat): Heap
    requires CanTake(h, a)
  {
    match a
    case DoBump(ll) => Bump(h, ll, limit)
    case DoTakeFree(ll) => TakeFree(h, ll).0
    case DoGiveBack(k) => GiveBack(h, k)
    case DoPutFree(k) => PutFree(h, k)
  }

  predicate Schedule(actions: seq<Action>, limit: nat)
    decreases |actions|, 0
  {
    actions == [] ||
    var front := actions[..|actions| - 1];
    Schedule(front, limit) && CanTake(After(front, limit), actions[|actions| - 1])
  }

  function After(actions: seq<Action>, limit: nat): Heap
    requires Schedule(actions, limit)
    decreases |actions|, 1
  {
    if actions == [] then Empty() else Take(After(actions[..|actions| - 1], limit), actions[|actions| - 1], limit)
  }

  ghost predicate Good(h: Heap, limit: nat) { Tiled(h) && Bounded(h, limit) && Shaped(h) }

  lemma ShapeKept(h: Heap, a: Action, limit: nat)
    requires Shaped(h) && CanTake(h, a)
    ensures Shaped(Take(h, a, limit))
  {
    match a
    case DoBump(ll) =>
      PowAligned(ll);
      SumAligned(h.nextLoc, Pow2(ll));
    case DoTakeFree(ll) =>
      var i := FirstFit(h.free, ll);
      if i < MAX_SIZE {
        var o := Top(h.free, i);
        assert BlockShape(Block(h.free[i][|h.free[i]| - 1], i));
        PowAligned(ll);
        SumAligned(o, Pow2(ll));
        ChangeShaped(Pop(h.free, i), o + Pow2(ll), i, ll);
      }
    case DoGiveBack(k) =>
      assert BlockShape(h.live[k]);
    case DoPutFree(k) =>
      assert BlockShape(h.held[k]);
  }

  lemma StepKeeps(h: Heap, a: Action, limit: nat)
    requires Good(h, limit) && CanTake(h, a)
    ensures Good(Take(h, a, limit), limit)
  {
    ShapeKept(h, a, limit);
    match a
    case DoBump(ll) => BumpKeeps(h, ll, limit);
    case DoTakeFree(ll) => TakeFreeKeeps(h, ll, limit);
    case DoGiveBack(k) => GiveBackKeeps(h, k, limit);
    case DoPutFree(k) => PutFreeKeeps(h, k, limit);
  }

  lemma {:induction false} EmptyCovers(n: nat, x: nat)
    requires n <= MAX_SIZE
    ensures CoverFree(Empty().free, n, x) == 0
  {
    if n > 0 {
      EmptyCovers(n - 1, x);
    }
  }

  lemma EmptyIsGood(limit: nat)
    ensures Good(Empty(), limit)
  {
    forall x: nat
      ensures CoverAll(Empty(), x) == 0
    {
      EmptyCovers(MAX_SIZE, x);
    }
  }

  /** Over every interleaving the blocks tile the address range up to nextLoc, no block in use or free
      reaches beyond the storage, and all are cache-line aligned. */
  lemma {:induction false} AllocatorSafe(actions: seq<Action>, limit: nat)
    requires Schedule(actions, limit)
    ensures Good(After(actions, limit), limit)
    decreases |actions|
  {
    if actions == [] {
      EmptyIsGood(limit);
    } else {
      AllocatorSafe(actions[..|actions| - 1], limit);
      StepKeeps(After(actions[..|actions| - 1], limit), actions[|actions| - 1], limit);
    }
  }

  // ----- What tiling means

  predicate Disjoint(b: Block, c: Block) { b.End() <= c.offset || c.End() <= b.offset }

  lemma {:induction false} CoverAtLeast(bs: seq<Block>, i: nat, x: nat)
    requires i < |bs|
    ensures Cover(bs, x) >= Covers(bs[i], x)
    decreases |bs|
  {
    if i < |bs| - 1 {
      CoverAtLeast(bs[..|bs| - 1], i, x);
    }
  }

  lemma {:induction false} CoverTwo(bs: seq<Block>, i: nat, j: nat, x: nat)
    requires i < j < |bs|
    ensures Cover(bs, x) >= Covers(bs[i], x) + Covers(bs[j], x)
    decreases |bs|
  {
    if j < |bs| - 1 {
      CoverTwo(bs[..|bs| - 1], i, j, x);
    } else {
      CoverAtLeast(bs[..|bs| - 1], i, x);
    }
  }

  lemma {:induction false} ListAtLeast(offsets: seq<nat>, log: nat, j: nat, x: nat)
    requires j < |offsets|
    ensures CoverList(offsets, log, x) >= Covers(Block(offsets[j], log), x)
    decreases |offsets|
  {
    if j < |offsets| - 1 {
      ListAtLeast(offsets[..|offsets| - 1], log, j, x);
    }
  }

  lemma {:induction false} FreeAtLeast(free: seq<seq<nat>>, n: nat, i: nat, j: nat, x: nat)
    requires i < n <= |free| && j < |free[i]|
    ensures CoverFree(free, n, x) >= Covers(Block(free[i][j], i), x)
  {
    if i < n - 1 {
      FreeAtLeast(free, n - 1, i, j, x);
    } else {
      ListAtLeast(free[i], i, j, x);
    }
  }

  /** Two blocks owned by callers never overlap, nor does one with a free block. */
  lemma OwnedBlocksAreSafe(actions: seq<Action>, limit: nat)
    requires Schedule(actions, limit)
    ensures var h := After(actions, limit);
            && (forall i, j :: 0 <= i < j < |h.live| ==> Disjoint(h.live[i], h.live[j]))
            && (forall i, k, j :: 0 <= i < |h.live| && 0 <= k < |h.free| && 0 <= j < |h.free[k]| ==>
                  Disjoint(h.live[i], Block(h.free[k][j], k)))
            && (forall i :: 0 <= i < |h.live| ==> h.live[i].End() <= limit)
  {
    AllocatorSafe(actions, limit);
    var h := After(actions, limit);
    forall i, j | 0 <= i < j < |h.live|
      ensures Disjoint(h.live[i], h.live[j])
    {
      LiveDisjoint(h, i, j);
    }
    forall i, k, j | 0 <= i < |h.live| && 0 <= k < |h.free| && 0 <= j < |h.free[k]|
      ensures Disjoint(h.live[i], Block(h.free[k][j], k))
    {
      var x := if h.live[i].offset < h.free[k][j] then h.free[k][j] else h.live[i].offset;
      CoverAtLeast(h.live, i, x);
      FreeAtLeast(h.free, |h.free|, k, j, x);
      assert CoverAll(h, x) <= 1;
    }
  }

  // ----- What a caller is given

  /** The offset the step answers with, if it allocates. */
  function Answer(h: Heap, a: Action, limit: nat): Option<nat>
    requires CanTake(h, a)
  {
    match a
    case DoBump(ll) => if h.nextLoc + Pow2(ll) <= limit then Some(h.nextLoc) else None
    case DoTakeFree(ll) => TakeFree(h, ll).1
    case _ => None
  }

  /** The caller is given a block nobody owned: it is inside the storage, and apart from all blocks owned before. */
  ghost predicate NewBlock(before: seq<Block>, after: seq<Block>, b: Block, limit: nat) {
    && after == before + [b] && b.End() <= limit && b.offset % CACHE_LINE == 0
    && forall i :: 0 <= i < |before| ==> Disjoint(before[i], b)
  }

  lemma LiveDisjoint(h: Heap, i: nat, j: nat)
    requires Tiled(h) && i < j < |h.live|
    ensures Disjoint(h.live[i], h.live[j])
  {
    var x := if h.live[i].offset < h.live[j].offset then h.live[j].offset else h.live[i].offset;
    CoverTwo(h.live, i, j, x);
    assert CoverAll(h, x) <= 1;
  }

  lemma LastIsNew(h: Heap, before: seq<Block>, b: Block, limit: nat)
    requires Good(h, limit) && h.live == before + [b]
    ensures NewBlock(before, h.live, b, limit)
  {
    assert h.live[|before|] == b && BlockShape(h.live[|before|]);
    forall i | 0 <= i < |before|
      ensures Disjoint(before[i], b)
    {
      LiveDisjoint(h, i, |before|);
    }
  }

  /** Over every interleaving: an offset is answered exactly if a block has joined those owned, and it is the offset
      of that block. */
  lemma AnswerIsNewBlock(actions: seq<Action>, a: Action, limit: nat)
    requires Schedule(actions, limit) && CanTake(After(actions, limit), a) && (a.DoBump? || a.DoTakeFree?)
    ensures var h := After(actions, limit);
            var h1, answer := Take(h, a, limit), Answer(h, a, limit);
            if answer == None then h1.live == h.live else NewBlock(h.live, h1.live, Block(answer.value, a.ll), limit)
  {
    AllocatorSafe(actions, limit);
    var h := After(actions, limit);
    StepKeeps(h, a, limit);
    if Answer(h, a, limit) != None {
      LastIsNew(Take(h, a, limit), h.live, Block(Answer(h, a, limit).value, a.ll), limit);
    }
  }

  // ----- One thread at a time

  /** allocOffset: bump if there is room, else a free block. */
  function Alloc(h: Heap, ll: nat, limit: nat): (Heap, Option<nat>)
    requires ll <= |h.free|
  {
    if h.nextLoc + Pow2(ll) <= limit then (Bump(h, ll, limit), Some(h.nextLoc)) else TakeFree(h, ll)
  }

  /** deallocOffset of the k-th block. */
  function Dealloc(h: Heap, k: nat): Heap
    requires k < |h.live| && h.live[k].log < |h.free| && h.held == []
  {
    var h1 := GiveBack(h, k);
    if h1.held == [] then h1 else PutFree(h1, 0)
  }

  /** Nothing is in between, nothing has been skipped. */
  ghost predicate Settled(h: Heap, limit: nat) { Good(h, limit) && h.held == [] && h.lost == [] }

  lemma AllocKeeps(h: Heap, ll: nat, limit: nat)
    requires Settled(h, limit) && MIN_SIZE <= ll < MAX_SIZE
    ensures Settled(Alloc(h, ll, limit).0, limit)
  {
    StepKeeps(h, DoBump(ll), limit);
    StepKeeps(h, DoTakeFree(ll), limit);
  }

  lemma TakeFreeGives(h: Heap, ll: nat, limit: nat)
    requires Good(h, limit) && MIN_SIZE <= ll < MAX_SIZE
    ensures var (h1, o) := TakeFree(h, ll);
            if o == None then h1 == h else NewBlock(h.live, h1.live, Block(o.value, ll), limit)
  {
    StepKeeps(h, DoTakeFree(ll), limit);
    var (h1, o) := TakeFree(h, ll);
    if o != None {
      LastIsNew(h1, h.live, Block(o.value, ll), limit);
    }
  }

  lemma AllocGives(h: Heap, ll: nat, limit: nat)
    requires Settled(h, limit) && MIN_SIZE <= ll < MAX_SIZE
    ensures var (h1, o) := Alloc(h, ll, limit);
            if o == None then h1 == h else NewBlock(h.live, h1.live, Block(o.value, ll), limit)
  {
    AllocKeeps(h, ll, limit);
    var (h1, o) := Alloc(h, ll, limit);
    if o != None {
      LastIsNew(h1, h.live, Block(o.value, ll), limit);
    }
  }

  lemma DeallocKeeps(h: Heap, k: nat, limit: nat)
    requires Settled(h, limit) && k < |h.live|
    ensures h.live[k].log < |h.free| && Settled(Dealloc(h, k), limit)
  {
    assert BlockShape(h.live[k]);
    StepKeeps(h, DoGiveBack(k), limit);
    var h1 := GiveBack(h, k);
    if h1.held != [] {
      StepKeeps(h1, DoPutFree(0), limit);
    }
  }

  /** An allocation fails exactly if there is neither room behind nextLoc nor a free block at least as large. */
  lemma AllocFails(h: Heap, ll: nat, limit: nat)
    requires ll <= |h.free|
    ensures Alloc(h, ll, limit).1 == None <==>
            h.nextLoc + Pow2(ll) > limit && forall i :: ll <= i < |h.free| ==> h.free[i] == []
  {
  }

  /** What is given back can be allocated again. */
  lemma FreedIsReused(h: Heap, k: nat, limit: nat)
    requires Settled(h, limit) && k < |h.live|
    ensures h.live[k].log < |h.free| && Alloc(Dealloc(h, k), h.live[k].log, limit).1 != None
  {
    assert BlockShape(h.live[k]) && h.live[k].End() <= limit;
    AllocFails(Dealloc(h, k), h.live[k].log, limit);
  }

  /** Pow2(i) is the smallest allowed size for `size` bytes. */
  predicate IsNextLog(size: nat, i: nat) {
    MIN_SIZE <= i < MAX_SIZE && size <= Pow2(i) && (MIN_SIZE < i ==> Pow2(i - 1) < size)
  }

  lemma NextLogUnique(size: nat, i: nat, j: nat)
    requires IsNextLog(size, i) && IsNextLog(size, j)
    ensures i == j
  {
    if i < j {
      PowGrows(i, j - 1);
    } else if j < i {
      PowGrows(j, i - 1);
    }
  }

  method NextLog2(size: nat) returns (i: nat)
    requires size <= Pow2(MAX_SIZE - 1)
    ensures IsNextLog(size, i)
  {
    i := MIN_SIZE;
    while Pow2(i) < size
      invariant MIN_SIZE <= i < MAX_SIZE && (MIN_SIZE < i ==> Pow2(i - 1) < size)
      decreases MAX_SIZE - i
    {
      i := i + 1;
    }
  }

  lemma PowByFour(k: nat)
    ensures Pow2(k + 4) == 0x10 * Pow2(k)
  {
    assert Pow2(k + 2) == 4 * Pow2(k);
  }

  lemma PowAt31()
    ensures Pow2(31) == 0x8000_0000
  {
    assert Pow2(3) == 2 * Pow2(2);
    PowByFour(3);
    PowByFour(7);
    PowByFour(11);
    PowByFour(15);
    PowByFour(19);
    PowByFour(23);
    PowByFour(27);
  }

  lemma PowBelow32(ll: nat)
    requires ll < MAX_SIZE
    ensures Pow2(ll) <= 0x8000_0000
  {
    PowAt31();
    PowGrows(ll, 31);
  }

  /** Unsigned 32-bit addition. */
  function Add32(a: nat, b: nat): nat { (a + b) % TWO_32 }

  lemma NoWrap(offset: nat, ll: nat)
    requires offset <= PT_ALLOC_SIZE && ll < MAX_SIZE
    ensures Add32(offset, Pow2(ll)) == offset + Pow2(ll)
  {
    PowBelow32(ll);
  }

  /** The exits of the code: out of memory, or used after the end. */
  datatype AllocResult = Offset(offset: nat) | OutOfMemory | AfterDelete

  class PerBackend {
    var nextLoc: nat
    var freeOffsets: seq<seq<nat>>
    var invalid: bool
    ghost var live: seq<Block>

    ghost function Contents(): Heap
      reads this
    {
      Heap(nextLoc, freeOffsets, live, [], [])
    }

    ghost predicate Valid()
      reads this
    {
      Settled(Contents(), PT_ALLOC_SIZE) && nextLoc <= PT_ALLOC_SIZE
    }

    constructor ()
      ensures Valid() && Contents() == Empty() && !invalid
    {
      nextLoc, freeOffsets, invalid, live := 0, seq(MAX_SIZE, _ => []), false, [];
      new;
      EmptyIsGood(PT_ALLOC_SIZE);
    }

    /** Puts the change of a block onto the free lists, largest piece first, until it reaches `end`. */
    method MakeChange(start0: nat, end: nat, index: nat, ghost ll: nat)
      requires ll <= index <= |freeOffsets| && start0 + Pow2(index) == end + Pow2(ll)
      modifies `freeOffsets
      ensures freeOffsets == Change(old(freeOffsets), start0, index, ll)
    {
      var start: nat, n: nat := start0, index;
      while start < end
        invariant ll <= n <= |freeOffsets| && start + Pow2(n) == end + Pow2(ll)
        invariant Change(freeOffsets, start, n, ll) == Change(old(freeOffsets), start0, index, ll)
        decreases n
      {
        n := n - 1;
        PowGrows(ll, n);
        freeOffsets := freeOffsets[n := freeOffsets[n] + [start]];
        start := start + Pow2(n);
      }
      if ll < n {
        PowGrows(ll + 1, n);
      }
    }

    /** The part of allocOffset under the lock. */
    method AllocFree(ll: nat) returns (r: Option<nat>)
      requires Valid() && MIN_SIZE <= ll < MAX_SIZE
      modifies this
      ensures Contents() == TakeFree(old(Contents()), ll).0 && r == TakeFree(old(Contents()), ll).1
      ensures if r == None then live == old(live) else NewBlock(old(live), live, Block(r.value, ll), PT_ALLOC_SIZE)
      ensures invalid == old(invalid)
    {
      TakeFreeGives(Contents(), ll, PT_ALLOC_SIZE);
      var index := ll;
      while index < MAX_SIZE && freeOffsets[index] == []
        invariant ll <= index <= MAX_SIZE && FirstFit(freeOffsets, ll) == FirstFit(freeOffsets, index)
      {
        index := index + 1;
      }
      if index == MAX_SIZE {
        return None;
      }
      var offset := freeOffsets[index][|freeOffsets[index]| - 1];
      freeOffsets := freeOffsets[index := freeOffsets[index][..|freeOffsets[index]| - 1]];
      MakeChange(offset + Pow2(ll), offset + Pow2(index), index, ll);
      live := live + [Block(offset, ll)];
      return Some(offset);
    }

    /** The part of allocOffset without the lock. */
    method AllocEnd(ll: nat) returns (o: Option<nat>)
      requires Valid() && MIN_SIZE <= ll < MAX_SIZE
      modifies `nextLoc, `live
      ensures nextLoc <= PT_ALLOC_SIZE
      ensures o == if old(nextLoc) + Pow2(ll) <= PT_ALLOC_SIZE then Some(old(nextLoc)) else None
      ensures Contents() == if o == None then old(Contents()) else Bump(old(Contents()), ll, PT_ALLOC_SIZE)
    {
      NoWrap(nextLoc, ll);
      var end := Add32(nextLoc, Pow2(ll));
      if end > PT_ALLOC_SIZE {
        return None;
      }
      o := Some(nextLoc);
      live := live + [Block(nextLoc, ll)];
      nextLoc := end;
    }

    /** A block for `sz` bytes.  The code exits the process instead of returning OutOfMemory or AfterDelete. */
    method AllocOffset(sz: nat) returns (r: AllocResult, ghost ll: nat)
      requires Valid() && sz <= Pow2(MAX_SIZE - 1)
      modifies this
      ensures Valid() && invalid == old(invalid) && IsNextLog(sz, ll)
      ensures if r.Offset? then NewBlock(old(live), live, Block(r.offset, ll), PT_ALLOC_SIZE) else Contents() == old(Contents())
      ensures r == AfterDelete <==> invalid && old(nextLoc) + Pow2(ll) > PT_ALLOC_SIZE
      ensures r == OutOfMemory <==>
                && !invalid && old(nextLoc) + Pow2(ll) > PT_ALLOC_SIZE
                && forall i :: ll <= i < |old(freeOffsets)| ==> old(freeOffsets)[i] == []
      ensures var (h, o) := Alloc(old(Contents()), ll, PT_ALLOC_SIZE);
              if r == AfterDelete then Contents() == old(Contents())
              else Contents() == h && r == (if o == None then OutOfMemory else Offset(o.value))
    {
      var log := NextLog2(sz);
      ll := log;
      AllocKeeps(Contents(), ll, PT_ALLOC_SIZE);
      AllocFails(Contents(), ll, PT_ALLOC_SIZE);
      AllocGives(Contents(), ll, PT_ALLOC_SIZE);
      var o := AllocEnd(log);
      if o == None {
        if invalid {
          return AfterDelete, ll;
        }
        o := AllocFree(log);
      }
      return if o == None then OutOfMemory else Offset(o.value), ll;
    }

    /** The k-th block is given back, with the size it was allocated with. */
    method DeallocOffset(offset: nat, sz: nat, ghost k: nat) returns (ok: bool)
      requires Valid() && sz <= Pow2(MAX_SIZE - 1)
      requires k < |live| && live[k].offset == offset && IsNextLog(sz, live[k].log)
      modifies this
      ensures Valid() && invalid == old(invalid)
      ensures Contents() == if ok then Dealloc(old(Contents()), k) else old(Contents())
      ensures ok ==> live == old(live)[..k] + old(live)[k + 1..]
      ensures !ok <==> invalid && old(nextLoc) != old(live)[k].End()
    {
      var ll := NextLog2(sz);
      NextLogUnique(sz, ll, live[k].log);
      DeallocKeeps(Contents(), k, PT_ALLOC_SIZE);
      var end := Add32(offset, Pow2(ll));
      assert live[k].End() <= PT_ALLOC_SIZE;
      NoWrap(offset, ll);
      if nextLoc == end {
        nextLoc := offset;
        live := live[..k] + live[k + 1..];
        return true;
      }
      if invalid {
        return false;
      }
      freeOffsets := freeOffsets[ll := freeOffsets[ll] + [offset]];
      live := live[..k] + live[k + 1..];
      return true;
    }
  }
}
