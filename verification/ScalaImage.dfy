/** The V3 layout is a plan that fits: records fit into their slots, slots do not overlap, and remote
    offsets are where the lists will be. */
module ScalaImage {
  import opened ScalaLayout
  import opened IndexImage

  // ----- Sizes

  lemma GroupSize(gr: Group)
    ensures |EncGroup(gr)| <= 2 + 4 * |gr.ids|
  {
  }

  predicate InRange(lists: seq<seq<nat>>, parts: seq<nat>) {
    forall i :: 0 <= i < |parts| ==> parts[i] < |lists|
  }

  /** The neighbours in the listed partitions, counted. */
  function Lengths(lists: seq<seq<nat>>, parts: seq<nat>): nat
    requires InRange(lists, parts)
  {
    if parts == [] then 0 else Lengths(lists, parts[..|parts| - 1]) + |lists[parts[|parts| - 1]]|
  }

  /** Two bytes per group and four per neighbour bound a record. */
  lemma {:induction false} PiecesSize(ps: seq<Piece>, lists: seq<seq<nat>>, parts: seq<nat>)
    requires |ps| == |parts| && InRange(lists, parts)
    requires forall i :: 0 <= i < |ps| ==> |ps[i].data| <= 2 + 4 * |lists[parts[i]]|
    ensures |DataOf(ps)| <= 2 * |ps| + 4 * Lengths(lists, parts)
    decreases |ps|
  {
    if ps != [] {
      PiecesSize(ps[..|ps| - 1], lists, parts[..|parts| - 1]);
    }
  }

  lemma LengthsStep(lists: seq<seq<nat>>, parts: seq<nat>, q: nat)
    requires InRange(lists, parts) && q < |lists|
    ensures InRange(lists, parts + [q]) && Lengths(lists, parts + [q]) == Lengths(lists, parts) + |lists[q]|
  {
    assert (parts + [q])[..|parts|] == parts;
  }

  lemma RemotePartsStep(lists: seq<seq<nat>>, p: nat, q: nat)
    requires q < |lists|
    ensures RemoteParts(lists, p, q + 1) ==
            if lists[q] != [] && q != p then RemoteParts(lists, p, q) + [q] else RemoteParts(lists, p, q)
  {
  }

  lemma {:induction false} RemoteLengths(lists: seq<seq<nat>>, p: nat, upto: nat)
    requires upto <= |lists| && p < |lists|
    ensures InRange(lists, RemoteParts(lists, p, upto))
    ensures Lengths(lists, RemoteParts(lists, p, upto)) + (if p < upto then |lists[p]| else 0) == Degree(lists, upto)
  {
    if upto > 0 {
      var q := upto - 1;
      RemoteLengths(lists, p, q);
      RemotePartsStep(lists, p, q);
      if lists[q] != [] && q != p {
        LengthsStep(lists, RemoteParts(lists, p, q), q);
      }
    }
  }

  lemma PartLengths(lists: seq<seq<nat>>, p: nat)
    requires p < |lists|
    ensures InRange(lists, PartIds(lists, p)) && Lengths(lists, PartIds(lists, p)) == Degree(lists, |lists|)
  {
    var r := RemoteParts(lists, p, |lists|);
    RemoteLengths(lists, p, |lists|);
    if lists[p] != [] {
      LengthsStep(lists, r, p);
    } else {
      assert PartIds(lists, p) == r;
    }
  }

  /** A record fits into its slot. */
  lemma RecordFits(tab: Table, v: nat)
    requires tab.Valid() && v < |tab.vs|
    ensures |tab.Record(v)| <= tab.SlotSize()
  {
    assert tab.VertexOk(v);
    RecordSize(tab.vs[v], tab.Offsets(v));
  }

  lemma RecordSize(v: Vertex, ofs: seq<nat>)
    requires v.home < |v.lists| == |ofs|
    ensures |DataOf(Pieces(MakeGroups(v, ofs)))| <= 4 * Degree(v.lists, |v.lists|) + 2 * |v.lists|
  {
    PartIdsFacts(v.lists, v.home);
    PartLengths(v.lists, v.home);
    var grs, ps, parts := MakeGroups(v, ofs), Pieces(MakeGroups(v, ofs)), PartIds(v.lists, v.home);
    forall i | 0 <= i < |ps|
      ensures |ps[i].data| <= 2 + 4 * |v.lists[parts[i]]|
    {
      GroupSize(grs[i]);
    }
    PiecesSize(ps, v.lists, parts);
  }

  // ----- Remote arrays

  /** What a vertex sends is the extra data of its only piece for that partition. */
  lemma {:induction false} SentByPiece(ps: seq<Piece>, q: nat, k: nat)
    requires k < |ps| && ps[k].part == q
    requires forall i :: 0 <= i < |ps| && i != k ==> ps[i].part != q
    ensures Sent(ps, q) == ps[k].extra
    decreases |ps|
  {
    var front := ps[..|ps| - 1];
    if k == |front| {
      SentNothingYet(front, q);
    } else {
      SentByPiece(front, q, k);
    }
  }

  lemma SentIsExported(v: Vertex, ofs: seq<nat>, q: nat)
    requires v.home < |v.lists| == |ofs| && q < |ofs|
    ensures Sent(Pieces(MakeGroups(v, ofs)), q) == EncIds(Exported(v, q))
  {
    PartIdsFacts(v.lists, v.home);
    var parts, ps := PartIds(v.lists, v.home), Pieces(MakeGroups(v, ofs));
    forall i | 0 <= i < |ps|
      ensures ps[i].part == parts[i] && ps[i].extra == EncIds(Exported(v, parts[i]))
    {
      ExtraIsExported(v, ofs, i);
    }
    if q in parts {
      var k :| 0 <= k < |parts| && parts[k] == q;
      SentByPiece(ps, q, k);
    } else {
      SentNothingYet(ps, q);
    }
  }

  lemma ExtraIsExported(v: Vertex, ofs: seq<nat>, i: nat)
    requires v.home < |v.lists| == |ofs| && i < |MakeGroups(v, ofs)|
    ensures var x, parts := PieceOf(MakeGroups(v, ofs)[i]), PartIds(v.lists, v.home);
            parts[i] < |v.lists| && x.part == parts[i] && x.extra == EncIds(Exported(v, parts[i]))
  {
    PartIdsFacts(v.lists, v.home);
  }

  function PieceTable(tab: Table): (r: seq<seq<Piece>>)
    requires Shaped(|tab.sizes|, tab.vs)
    ensures |r| == |tab.vs| && forall v :: 0 <= v < |r| ==> r[v] == Pieces(tab.Groups(v))
  {
    seq(|tab.vs|, v requires 0 <= v < |tab.vs| => Pieces(tab.Groups(v)))
  }

  lemma {:induction false} RemoteOfExported(pss: seq<seq<Piece>>, parts: nat, vs: seq<Vertex>, q: nat, n: nat)
    requires Shaped(parts, vs) && n <= |vs| == |pss| && q < parts
    requires forall v :: 0 <= v < n ==> Sent(pss[v], q) == EncIds(Exported(vs[v], q))
    ensures Remote(pss, q, n) == EncIds(RemoteArea(parts, vs, q, n))
  {
    if n > 0 {
      RemoteOfExported(pss, parts, vs, q, n - 1);
      EncIdsConcat(RemoteArea(parts, vs, q, n - 1), Exported(vs[n - 1], q));
    }
  }

  lemma RemoteIsRemoteArea(tab: Table, q: nat, n: nat)
    requires Shaped(|tab.sizes|, tab.vs) && n <= |tab.vs| && q < tab.Parts()
    ensures Remote(PieceTable(tab), q, n) == EncIds(RemoteArea(tab.Parts(), tab.vs, q, n))
  {
    var pss := PieceTable(tab);
    forall v | 0 <= v < n
      ensures Sent(pss[v], q) == EncIds(Exported(tab.vs[v], q))
    {
      SentIsExported(tab.vs[v], tab.Offsets(v), q);
    }
    RemoteOfExported(pss, tab.Parts(), tab.vs, q, n);
  }

  // ----- The plan

  function PlanOf(tab: Table): (pl: Plan)
    requires tab.Valid()
    ensures |pl.local| == tab.Parts() && |pl.home| == |pl.start| == |pl.pieces| == |tab.vs|
    ensures forall q :: 0 <= q < tab.Parts() ==> pl.local[q] == tab.LocalSize(q)
    ensures forall v :: 0 <= v < |tab.vs| ==>
              pl.home[v] == tab.vs[v].home && pl.start[v] == tab.SlotStart(v) && pl.pieces[v] == Pieces(tab.Groups(v))
  {
    Plan(seq(tab.Parts(), q requires 0 <= q < tab.Parts() => tab.LocalSize(q)),
         seq(|tab.vs|, v requires 0 <= v < |tab.vs| => tab.vs[v].home),
         seq(|tab.vs|, v requires 0 <= v < |tab.vs| => tab.SlotStart(v)),
         PieceTable(tab))
  }

  lemma PieceFits(tab: Table, v: nat, k: nat)
    requires tab.Valid() && v < |tab.vs| && k < |tab.Groups(v)|
    ensures PieceOk(PlanOf(tab), v, k)
  {
    var x := tab.vs[v];
    PartIdsFacts(x.lists, x.home);
    var grs, parts, pl := tab.Groups(v), PartIds(x.lists, x.home), PlanOf(tab);
    RemoteIsRemoteArea(tab, parts[k], v);
    assert pl.pieces == PieceTable(tab);
    assert pl.pieces[v][k] == PieceOf(grs[k]);
    forall i | 0 <= i < k
      ensures pl.pieces[v][i].part != parts[k]
    {
      assert pl.pieces[v][i].part == parts[i];
    }
  }

  lemma SlotInside(tab: Table, v: nat)
    requires tab.Valid() && v < |tab.vs|
    ensures tab.vs[v].home < tab.Parts()
    ensures tab.SlotStart(v) + tab.SlotSize() <= META_LEN + tab.LocalSize(tab.vs[v].home)
  {
    assert tab.VertexOk(v);
    SlotsDisjoint(tab.vs[v].index, tab.sizes[tab.vs[v].home], tab.SlotSize());
  }

  lemma VertexRoom(tab: Table, v: nat)
    requires tab.Valid() && v < |tab.vs|
    ensures var pl := PlanOf(tab);
            && pl.home[v] < |pl.local| && META_LEN <= pl.start[v]
            && pl.start[v] + |DataOf(pl.pieces[v])| <= META_LEN + pl.local[pl.home[v]]
  {
    RecordFits(tab, v);
    SlotInside(tab, v);
  }

  lemma VertexFits(tab: Table, v: nat)
    requires tab.Valid() && v < |tab.vs|
    ensures VertexOk(PlanOf(tab), v)
  {
    var pl := PlanOf(tab);
    VertexRoom(tab, v);
    AllPiecesFit(tab, v, pl);
  }

  lemma AllPiecesFit(tab: Table, v: nat, pl: Plan)
    requires tab.Valid() && v < |tab.vs| && pl == PlanOf(tab)
    ensures forall k :: 0 <= k < |pl.pieces[v]| ==> PieceOk(pl, v, k)
  {
    forall k | 0 <= k < |pl.pieces[v]|
      ensures PieceOk(pl, v, k)
    {
      PieceFits(tab, v, k);
    }
  }

  lemma VerticesApart(tab: Table, v: nat, w: nat)
    requires tab.Valid() && v < w < |tab.vs|
    ensures Apart(PlanOf(tab), v, w)
  {
    RecordFits(tab, v);
    if tab.vs[v].home == tab.vs[w].home {
      SlotsDisjoint(tab.vs[v].index, tab.vs[w].index, tab.SlotSize());
    }
  }

  /** No slot overflows, no two slots overlap, and every remote offset is where the list will be. */
  lemma LayoutFits(tab: Table)
    requires tab.Valid()
    ensures Fits(PlanOf(tab))
  {
    var pl := PlanOf(tab);
    forall v | 0 <= v < |pl.pieces|
      ensures VertexOk(pl, v)
    {
      VertexFits(tab, v);
    }
    forall v, w | 0 <= v < w < |pl.pieces|
      ensures Apart(pl, v, w)
    {
      VerticesApart(tab, v, w);
    }
  }

  // ----- Offsets stay in 64 bits

  lemma {:induction false} DegreeAtLeast(lists: seq<seq<nat>>, q: nat, upto: nat)
    requires q < upto <= |lists|
    ensures |lists[q]| <= Degree(lists, upto)
  {
    if q < upto - 1 {
      DegreeAtLeast(lists, q, upto - 1);
    }
  }

  lemma {:induction false} RemoteAreaBound(tab: Table, q: nat, n: nat)
    requires tab.Valid() && q < tab.Parts() && n <= |tab.vs|
    ensures |RemoteArea(tab.Parts(), tab.vs, q, n)| <= MAX_DEG * n
  {
    if n > 0 {
      RemoteAreaBound(tab, q, n - 1);
      assert tab.VertexOk(n - 1);
      DegreeAtLeast(tab.vs[n - 1].lists, q, tab.Parts());
    }
  }

  lemma Product(a: nat, b: nat, c: nat, d: nat)
    requires a <= b && c <= d
    ensures a * c <= b * d
  {
    assert a * c <= a * d && a * d <= b * d;
  }

  lemma OffsetFits(tab: Table, v: nat, q: nat)
    requires tab.Valid() && v < |tab.vs| && q < tab.Parts()
    ensures tab.Offsets(v)[q] < TWO_32 * TWO_32
  {
    RemoteAreaBound(tab, q, v);
    SlotOffsetIsProduct(tab.sizes[q], tab.SlotSize());
    Product(tab.sizes[q], TWO_32, tab.SlotSize(), 320);
  }
}
