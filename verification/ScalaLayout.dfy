/**
 The ScalaGraph V3 adjacency layout.

 Vertices are numbered partition by partition.  Partition p's index file holds a fixed-size slot per
 local vertex and, behind the slots, a remote array.  A vertex's slot lists its neighbours grouped by
 partition: remote partitions in ascending order, the vertex's own partition last.  A group is a two
 byte header and a payload: the neighbours themselves for the own partition and for at most
 INLINE_DEG_BAR neighbours, otherwise an eight byte offset into the remote array of the partition that
 owns them.
 */
module ScalaLayout {
  import opened IndexImage

  const INLINE_DEG_BAR := 2
  const MAX_DEG := 48
  const MAX_PARTS := 64
  const TWO_32 := 0x1_0000_0000

  // ----- Little-endian numbers

  function Pow256(k: nat): nat { if k == 0 then 1 else 256 * Pow256(k - 1) }

  /** Shift to the left. */
  function Shl(n: nat, k: nat): nat { if k == 0 then n else 2 * Shl(n, k - 1) }

  lemma ShlByFour(n: nat, k: nat)
    ensures Shl(n, k + 4) == 0x10 * Shl(n, k)
  {
    assert Shl(n, k + 2) == 4 * Shl(n, k);
  }

  lemma ShlValues(n: nat)
    ensures Shl(n, 8) == n * 0x100 && Shl(n, 14) == n * 0x4000 && Shl(n, 15) == n * 0x8000
  {
    ShlByFour(n, 0);
    ShlByFour(n, 4);
    ShlByFour(n, 8);
    assert Shl(n, 14) == 4 * Shl(n, 12);
  }

  lemma ShlBy32(n: nat)
    ensures Shl(n, 32) == n * TWO_32
  {
    ShlValues(n);
    ShlByFour(n, 15);
    ShlByFour(n, 19);
    ShlByFour(n, 23);
    ShlByFour(n, 27);
  }

  /** Bitwise or. */
  function Or(a: nat, b: nat): nat {
    if a == 0 then b
    else if b == 0 then a
    else (if a % 2 == 1 || b % 2 == 1 then 1 else 0) + 2 * Or(a / 2, b / 2)
  }

  /** Parts that share no bits: the or is the sum. */
  lemma {:induction false} OrIsSum(a: nat, k: nat, b: nat)
    requires b < Shl(1, k)
    ensures Or(Shl(a, k), b) == Shl(a, k) + b
  {
    if k > 0 {
      var j := k - 1;
      OrIsSum(a, j, b / 2);
      OrEven(Shl(a, j), b);
    }
  }

  lemma {:induction false} OrSwap(a: nat, b: nat)
    ensures Or(a, b) == Or(b, a)
  {
    if a != 0 && b != 0 {
      OrSwap(a / 2, b / 2);
    }
  }

  lemma OrEven(x: nat, b: nat)
    ensures Or(2 * x, b) == b % 2 + 2 * Or(x, b / 2)
  {
    assert 2 * x / 2 == x;
  }

  /** Byte i of n, the least significant first. */
  function ByteOf(n: nat, i: nat): (b: Byte)
    ensures 0 <= b < 256
  {
    if i == 0 then n % 256 else ByteOf(n / 256, i - 1)
  }

  function Le(n: nat, k: nat): (r: Bytes)
    ensures |r| == k
  {
    seq(k, i requires 0 <= i < k => ByteOf(n, i))
  }

  function UnLe(s: Bytes): int {
    if s == [] then 0 else s[0] + 256 * UnLe(s[1..])
  }

  lemma {:induction false} LeRoundTrip(n: nat, k: nat)
    requires n < Pow256(k)
    ensures UnLe(Le(n, k)) == n
  {
    if k > 0 {
      LeRoundTrip(n / 256, k - 1);
      assert Le(n, k)[1..] == Le(n / 256, k - 1);
    }
  }

  lemma PowValues()
    ensures Pow256(2) == 0x1_0000 && Pow256(4) == TWO_32 && Pow256(8) == 0x1_0000_0000_0000_0000
  {
    assert Pow256(1) == 256 && Pow256(3) == 0x100_0000;
    assert Pow256(5) == 0x100_0000_0000 && Pow256(6) == 0x1_0000_0000_0000 && Pow256(7) == 0x100_0000_0000_0000;
  }

  /** A list of ids, four bytes each. */
  function EncIds(ids: seq<nat>): (r: Bytes)
    ensures |r| == 4 * |ids|
  {
    seq(4 * |ids|, j requires 0 <= j < 4 * |ids| => ByteOf(ids[j / 4], j % 4))
  }

  /** deg ids starting at byte ofs: what a uint32_t pointer into the buffer sees. */
  function IdsAt(s: Bytes, ofs: nat, deg: nat): seq<int>
    requires ofs + 4 * deg <= |s|
  {
    seq(deg, d requires 0 <= d < deg => UnLe(s[ofs + 4 * d..ofs + 4 * d + 4]))
  }

  lemma EncIdsAt(ids: seq<nat>, d: nat)
    requires d < |ids|
    ensures EncIds(ids)[4 * d..4 * d + 4] == Le(ids[d], 4)
  {
  }

  lemma EncIdsConcat(a: seq<nat>, b: seq<nat>)
    ensures EncIds(a + b) == EncIds(a) + EncIds(b)
  {
    var x, y := EncIds(a + b), EncIds(a) + EncIds(b);
    forall j | 0 <= j < |x|
      ensures x[j] == y[j]
    {
      if j < 4 * |a| {
        assert (a + b)[j / 4] == a[j / 4];
      } else {
        assert j / 4 == |a| + (j - 4 * |a|) / 4 && j % 4 == (j - 4 * |a|) % 4;
        assert (a + b)[j / 4] == b[j / 4 - |a|];
      }
    }
  }

  lemma EncIdsOne(n: nat)
    ensures EncIds([n]) == Le(n, 4)
  {
  }

  /** Ids written somewhere in a buffer are read back. */
  lemma IdsReadBack(s: Bytes, ofs: nat, ids: seq<nat>)
    requires ofs + 4 * |ids| <= |s| && s[ofs..ofs + 4 * |ids|] == EncIds(ids)
    requires forall i :: 0 <= i < |ids| ==> ids[i] < TWO_32
    ensures IdsAt(s, ofs, |ids|) == ids
  {
    forall d | 0 <= d < |ids|
      ensures UnLe(s[ofs + 4 * d..ofs + 4 * d + 4]) == ids[d]
    {
      IdReadBack(s, ofs, ids, d);
    }
  }

  lemma IdReadBack(s: Bytes, ofs: nat, ids: seq<nat>, d: nat)
    requires ofs + 4 * |ids| <= |s| && s[ofs..ofs + 4 * |ids|] == EncIds(ids)
    requires d < |ids| && ids[d] < TWO_32
    ensures UnLe(s[ofs + 4 * d..ofs + 4 * d + 4]) == ids[d]
  {
    EncIdsAt(ids, d);
    NumberReadBack(s, ofs, EncIds(ids), 4 * d, ids[d]);
  }

  lemma NumberReadBack(s: Bytes, ofs: nat, whole: Bytes, at: nat, n: nat)
    requires ofs + |whole| <= |s| && s[ofs..ofs + |whole|] == whole
    requires at + 4 <= |whole| && whole[at..at + 4] == Le(n, 4) && n < TWO_32
    ensures UnLe(s[ofs + at..ofs + at + 4]) == n
  {
    FourBytes(n);
    SliceOf(s, ofs, whole, at, Le(n, 4));
  }

  lemma SliceOf(s: Bytes, a: nat, whole: Bytes, b: nat, part: Bytes)
    requires a + |whole| <= |s| && s[a..a + |whole|] == whole
    requires b + |part| <= |whole| && whole[b..b + |part|] == part
    ensures s[a + b..a + b + |part|] == part
  {
    Subslice(s, a, |whole|, b, |part|);
  }

  lemma FourBytes(n: nat)
    requires n < TWO_32
    ensures UnLe(Le(n, 4)) == n
  {
    PowValues();
    LeRoundTrip(n, 4);
  }

  lemma EightBytes(n: nat)
    requires n < TWO_32 * TWO_32
    ensures UnLe(Le(n, 8)) == n
  {
    PowValues();
    LeRoundTrip(n, 8);
  }

  lemma Subslice<T>(s: seq<T>, a: nat, n: nat, b: nat, m: nat)
    requires a + n <= |s| && b + m <= n
    ensures s[a..a + n][b..b + m] == s[a + b..a + b + m]
  {
    var x, y := s[a..a + n][b..b + m], s[a + b..a + b + m];
    assert |x| == |y| && forall i :: 0 <= i < |x| ==> x[i] == y[i];
  }

  // ----- Groups

  /** The neighbours `ids` of a vertex in partition `part`; `ofs` is where partition `part`'s remote
      array holds them when they are not inline. */
  datatype Group = Group(part: nat, ids: seq<nat>, own: bool, last: bool, ofs: nat) {
    predicate Inline() { own || |ids| <= INLINE_DEG_BAR }
  }

  /** The 16-bit header: end flag, own flag, partition, number of neighbours. */
  function HeaderWord(part: nat, count: nat, own: bool, last: bool): nat {
    (if last then 0x8000 + if own then 0x4000 else 0 else 0) + part * 256 + count
  }

  function EncGroup(gr: Group): Bytes {
    Le(HeaderWord(gr.part, |gr.ids|, gr.own, gr.last), 2) + if gr.Inline() then EncIds(gr.ids) else Le(gr.ofs, 8)
  }

  function PieceOf(gr: Group): Piece {
    Piece(EncGroup(gr), gr.part, if gr.Inline() then [] else EncIds(gr.ids), gr.ofs)
  }

  function Pieces(grs: seq<Group>): (r: seq<Piece>)
    ensures |r| == |grs| && forall k :: 0 <= k < |r| ==> r[k] == PieceOf(grs[k])
  {
    seq(|grs|, k requires 0 <= k < |grs| => PieceOf(grs[k]))
  }

  // ----- Vertices with their neighbours sorted by partition

  /** A vertex of partition `home`, the `index`-th there; lists[q] are its neighbours in partition q. */
  datatype Vertex = Vertex(home: nat, index: nat, lists: seq<seq<nat>>)

  /** The partitions below upto, other than p, with a neighbour, ascending. */
  function RemoteParts(lists: seq<seq<nat>>, p: nat, upto: nat): seq<nat>
    requires upto <= |lists|
  {
    if upto == 0 then []
    else RemoteParts(lists, p, upto - 1) + if lists[upto - 1] != [] && upto - 1 != p then [upto - 1] else []
  }

  /** part_ids: the own partition goes last. */
  function PartIds(lists: seq<seq<nat>>, p: nat): seq<nat>
    requires p < |lists|
  {
    RemoteParts(lists, p, |lists|) + if lists[p] != [] then [p] else []
  }

  /** What a vertex puts into the remote array of q: its neighbours there, if too many to be inline. */
  function Exported(v: Vertex, q: nat): seq<nat>
    requires q < |v.lists|
  {
    if v.home != q && |v.lists[q]| > INLINE_DEG_BAR then v.lists[q] else []
  }

  predicate Shaped(parts: nat, vs: seq<Vertex>) {
    forall v :: 0 <= v < |vs| ==> vs[v].home < parts == |vs[v].lists|
  }

  /** What the first n vertices put into the remote array of q. */
  function RemoteArea(parts: nat, vs: seq<Vertex>, q: nat, n: nat): seq<nat>
    requires Shaped(parts, vs) && q < parts && n <= |vs|
  {
    if n == 0 then [] else RemoteArea(parts, vs, q, n - 1) + Exported(vs[n - 1], q)
  }

  lemma {:induction false} RemotePartsFacts(lists: seq<seq<nat>>, p: nat, upto: nat)
    requires upto <= |lists|
    ensures var r := RemoteParts(lists, p, upto);
            && (forall i :: 0 <= i < |r| ==> r[i] < upto && r[i] != p && lists[r[i]] != [])
            && (forall i, j :: 0 <= i < j < |r| ==> r[i] < r[j])
            && |r| + (if p < upto then 1 else 0) <= upto
  {
    if upto > 0 {
      RemotePartsFacts(lists, p, upto - 1);
    }
  }

  lemma {:induction false} RemotePartsAll(lists: seq<seq<nat>>, p: nat, upto: nat, q: nat)
    requires q < upto <= |lists| && q != p && lists[q] != []
    ensures q in RemoteParts(lists, p, upto)
  {
    if q < upto - 1 {
      RemotePartsAll(lists, p, upto - 1, q);
    }
  }

  lemma PartIdsFacts(lists: seq<seq<nat>>, p: nat)
    requires p < |lists|
    ensures var parts := PartIds(lists, p);
            && (forall i :: 0 <= i < |parts| ==>
                  parts[i] < |lists| && lists[parts[i]] != [] && (parts[i] == p ==> i + 1 == |parts|))
            && (forall q :: 0 <= q < |lists| && lists[q] != [] ==> q in parts)
            && (forall i, j :: 0 <= i < j < |parts| ==> parts[i] != parts[j])
            && |parts| <= |lists|
  {
    RemotePartsFacts(lists, p, |lists|);
    forall q | 0 <= q < |lists| && lists[q] != []
      ensures q in PartIds(lists, p)
    {
      if q != p {
        RemotePartsAll(lists, p, |lists|, q);
      }
    }
  }

  /** The groups of a vertex; ofs[q] is the place its list for partition q would take there. */
  function MakeGroups(v: Vertex, ofs: seq<nat>): (r: seq<Group>)
    requires v.home < |v.lists| == |ofs|
    ensures var parts := PartIds(v.lists, v.home);
            && |r| == |parts|
            && forall k :: 0 <= k < |r| ==>
                 && parts[k] < |ofs|
                 && r[k] == Group(parts[k], v.lists[parts[k]], parts[k] == v.home, k + 1 == |parts|, ofs[parts[k]])
  {
    PartIdsFacts(v.lists, v.home);
    var parts := PartIds(v.lists, v.home);
    seq(|parts|, k requires 0 <= k < |parts| =>
      Group(parts[k], v.lists[parts[k]], parts[k] == v.home, k + 1 == |parts|, ofs[parts[k]]))
  }

  /** n slots of the given size, one after the other. */
  function SlotOffset(n: nat, size: nat): nat { if n == 0 then 0 else SlotOffset(n - 1, size) + size }

  lemma {:induction false} SlotOffsetIsProduct(n: nat, size: nat)
    ensures SlotOffset(n, size) == n * size
  {
    if n > 0 {
      SlotOffsetIsProduct(n - 1, size);
    }
  }

  lemma {:induction false} SlotsDisjoint(a: nat, b: nat, size: nat)
    requires a < b
    ensures SlotOffset(a, size) + size <= SlotOffset(b, size)
    decreases b
  {
    if a < b - 1 {
      SlotsDisjoint(a, b - 1, size);
    }
  }

  /** A graph laid out: vertices with bounded lists, and the sizes of the slot areas. */
  datatype Table = Table(sizes: seq<nat>, vs: seq<Vertex>) {
    ghost predicate Valid() {
      && 0 < |sizes| <= MAX_PARTS
      && |vs| <= TWO_32
      && Shaped(|sizes|, vs)
      && (forall q :: 0 <= q < |sizes| ==> sizes[q] <= TWO_32)
      && (forall v :: 0 <= v < |vs| ==> VertexOk(v))
      && (forall v, w :: 0 <= v < w < |vs| && vs[v].home == vs[w].home ==> vs[v].index < vs[w].index)
    }

    ghost predicate VertexOk(v: nat)
      requires v < |vs|
    {
      var x := vs[v];
      && x.home < |sizes| == |x.lists| && x.index < sizes[x.home]
      && 0 < Degree(x.lists, |sizes|) <= MAX_DEG
      && forall q, i :: 0 <= q < |sizes| && 0 <= i < |x.lists[q]| ==> x.lists[q][i] < TWO_32
    }

    function Parts(): nat { |sizes| }

    function SlotSize(): nat { MAX_DEG * 4 + |sizes| * 2 }

    function LocalSize(q: nat): nat
      requires q < |sizes|
    {
      SlotOffset(sizes[q], SlotSize())
    }

    function SlotStart(v: nat): nat
      requires v < |vs|
    {
      META_LEN + SlotOffset(vs[v].index, SlotSize())
    }

    /** The next free place in every remote array when vertex v is written, relative to the header. */
    function Offsets(v: nat): (r: seq<nat>)
      requires Shaped(|sizes|, vs) && v <= |vs|
      ensures |r| == |sizes|
    {
      seq(|sizes|, q requires 0 <= q < |sizes| => LocalSize(q) + 4 * |RemoteArea(|sizes|, vs, q, v)|)
    }

    function Groups(v: nat): seq<Group>
      requires Shaped(|sizes|, vs) && v < |vs|
    {
      MakeGroups(vs[v], Offsets(v))
    }

    function Record(v: nat): Bytes
      requires Shaped(|sizes|, vs) && v < |vs|
    {
      DataOf(Pieces(Groups(v)))
    }
  }

  /** The number of neighbours in the lists below upto. */
  function Degree(lists: seq<seq<nat>>, upto: nat): nat
    requires upto <= |lists|
  {
    if upto == 0 then 0 else Degree(lists, upto - 1) + |lists[upto - 1]|
  }
}
