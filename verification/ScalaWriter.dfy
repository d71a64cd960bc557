/** The two-pass V3 writer: pass one sizes the remote arrays, pass two fills the index buffers. */
module ScalaWriter {
  import opened ScalaLayout
  import opened IndexImage
  import opened ScalaGraph
  import opened ScalaImage

  // ----- Copies into buffers

  lemma SpliceSplice(s: Bytes, ofs: nat, x: Bytes, y: Bytes)
    requires ofs + |x| + |y| <= |s|
    ensures Splice(Splice(s, ofs, x), ofs + |x|, y) == Splice(s, ofs, x + y)
  {
  }

  lemma SpliceNothing(s: Bytes, ofs: nat)
    requires ofs <= |s|
    ensures Splice(s, ofs, []) == s
  {
  }

  /** memcpy into a buffer. */
  method Put(a: array<Byte>, ofs: nat, data: Bytes)
    requires ofs + |data| <= a.Length
    modifies a
    ensures a[..] == Splice(old(a[..]), ofs, data)
  {
    for i := 0 to |data|
      invariant forall j :: 0 <= j < ofs || ofs + i <= j < a.Length ==> a[j] == old(a[j])
      invariant forall j :: 0 <= j < i ==> a[ofs + j] == data[j]
    {
      a[ofs + i] := data[i];
    }
    assert a[ofs..ofs + |data|] == data;
  }

  lemma OneMoreId(s: Bytes, ofs: nat, ids: seq<nat>, i: nat)
    requires i < |ids| && ofs + 4 * |ids| <= |s|
    ensures Splice(Splice(s, ofs, EncIds(ids[..i])), ofs + 4 * i, Le(ids[i], 4)) == Splice(s, ofs, EncIds(ids[..i + 1]))
  {
    Front(ids, i);
    EncIdsConcat(ids[..i], [ids[i]]);
    EncIdsOne(ids[i]);
    SpliceSplice(s, ofs, EncIds(ids[..i]), Le(ids[i], 4));
  }

  /** A list of ids, four bytes each, at a moving offset. */
  method PutIds(a: array<Byte>, ofs: nat, ids: seq<nat>) returns (end: nat)
    requires ofs + 4 * |ids| <= a.Length
    modifies a
    ensures a[..] == Splice(old(a[..]), ofs, EncIds(ids))
    ensures end == ofs + 4 * |ids|
  {
    end := ofs;
    ghost var s := a[..];
    SpliceNothing(s, ofs);
    for i := 0 to |ids|
      invariant end == ofs + 4 * i
      invariant a[..] == Splice(s, ofs, EncIds(ids[..i]))
    {
      OneMoreId(s, ofs, ids, i);
      Put(a, end, Le(ids[i], 4));
      end := end + 4;
    }
    assert ids[..|ids|] == ids;
  }

  // ----- Sorting a vertex's neighbours

  method BucketNeighbours(sizes: seq<nat>, l: seq<nat>) returns (nghs: seq<seq<nat>>)
    requires Known(sizes, l)
    ensures nghs == Buckets(sizes, l)
  {
    nghs := seq(|sizes|, _ => []);
    for i := 0 to |l|
      invariant nghs == Buckets(sizes, l[..i])
    {
      var q := JudgePartition(sizes, l[i]);
      OwnerUnique(sizes, l[i], q, PartOf(sizes, l[i]));
      BucketsStep(sizes, l[..i], l[i]);
      assert l[..i + 1] == l[..i] + [l[i]];
      nghs := nghs[q := nghs[q] + [l[i]]];
    }
    assert l[..|l|] == l;
  }

  method ListParts(nghs: seq<seq<nat>>, p: nat) returns (partIds: seq<nat>)
    requires p < |nghs|
    ensures partIds == PartIds(nghs, p)
  {
    partIds := [];
    for q := 0 to |nghs|
      invariant partIds == RemoteParts(nghs, p, q)
    {
      RemotePartsStep(nghs, p, q);
      if |nghs[q]| > 0 && q != p {
        partIds := partIds + [q];
      }
    }
    if |nghs[p]| > 0 {
      partIds := partIds + [p];
    }
  }

  // ----- Pass one

  /** cnt: how many of the neighbours each partition has. */
  method CountNeighbours(sizes: seq<nat>, l: seq<nat>) returns (cnt: seq<nat>)
    requires Known(sizes, l)
    ensures |cnt| == |sizes| && forall q :: 0 <= q < |sizes| ==> cnt[q] == |Buckets(sizes, l)[q]|
  {
    cnt := seq(|sizes|, _ => 0);
    for i := 0 to |l|
      invariant |cnt| == |sizes| && forall q :: 0 <= q < |sizes| ==> cnt[q] == |Buckets(sizes, l[..i])[q]|
    {
      var q := JudgePartition(sizes, l[i]);
      OwnerUnique(sizes, l[i], q, PartOf(sizes, l[i]));
      BucketsStep(sizes, l[..i], l[i]);
      assert l[..i + 1] == l[..i] + [l[i]];
      cnt := cnt[q := cnt[q] + 1];
    }
    assert l[..|l|] == l;
  }

  /** A vertex's share of remote_ngh_num: lists too long to be inline, in other partitions. */
  method AddRemote(cnt: seq<nat>, home: nat, num0: seq<nat>, ghost v: Vertex) returns (num: seq<nat>)
    requires |cnt| == |num0| == |v.lists| && home == v.home && forall q :: 0 <= q < |cnt| ==> cnt[q] == |v.lists[q]|
    ensures |num| == |num0| && forall q :: 0 <= q < |num| ==> num[q] == num0[q] + |Exported(v, q)|
  {
    num := num0;
    for p := 0 to |cnt|
      invariant |num| == |num0|
      invariant forall q :: 0 <= q < p ==> num[q] == num0[q] + |Exported(v, q)|
      invariant forall q :: p <= q < |num| ==> num[q] == num0[q]
    {
      if cnt[p] > INLINE_DEG_BAR && p != home {
        num := num[p := num[p] + cnt[p]];
      }
    }
  }

  /** What vertex vid adds. */
  method CountVertex(g: Graph, vid: nat, num0: seq<nat>) returns (num: seq<nat>)
    requires g.Valid() && vid < |g.adj| && |num0| == |g.sizes|
    ensures |num| == |g.sizes|
    ensures forall q :: 0 <= q < |num| ==> num[q] == num0[q] + |Exported(VertexOf(g.sizes, g.adj[vid], vid), q)|
  {
    var home := JudgePartition(g.sizes, vid);
    OwnerUnique(g.sizes, vid, home, PartOf(g.sizes, vid));
    var cnt := CountNeighbours(g.sizes, g.adj[vid]);
    num := AddRemote(cnt, home, num0, VertexOf(g.sizes, g.adj[vid], vid));
  }

  /** num counts what the first n vertices put into the remote arrays. */
  ghost predicate Counted(g: Graph, n: nat, num: seq<nat>)
    requires g.Valid() && n <= |g.adj|
  {
    && |num| == |g.sizes| && Shaped(|g.sizes|, TableOf(g).vs)
    && forall q :: 0 <= q < |num| ==> num[q] == |RemoteArea(|g.sizes|, TableOf(g).vs, q, n)|
  }

  lemma CountedNext(g: Graph, vid: nat, num: seq<nat>, num1: seq<nat>)
    requires g.Valid() && vid < |g.adj| && Counted(g, vid, num) && |num1| == |num|
    requires forall q :: 0 <= q < |num| ==> num1[q] == num[q] + |Exported(VertexOf(g.sizes, g.adj[vid], vid), q)|
    ensures Counted(g, vid + 1, num1)
  {
    var vs, next := TableOf(g).vs, vid + 1;
    forall q | 0 <= q < |num|
      ensures num1[q] == |RemoteArea(|g.sizes|, vs, q, next)|
    {
      assert vs[vid] == VertexOf(g.sizes, g.adj[vid], vid);
    }
  }

  lemma CountedNone(g: Graph, num: seq<nat>)
    requires g.Valid() && |num| == |g.sizes| && forall q :: 0 <= q < |num| ==> num[q] == 0
    ensures Counted(g, 0, num)
  {
  }

  /** remote_ngh_num: the size every remote array will have. */
  method CountRemote(g: Graph) returns (num: seq<nat>)
    requires g.Valid()
    ensures Counted(g, |g.adj|, num)
  {
    num := seq(|g.sizes|, _ => 0);
    CountedNone(g, num);
    for vid := 0 to |g.adj|
      invariant Counted(g, vid, num)
    {
      ghost var before := num;
      num := CountVertex(g, vid, num);
      CountedNext(g, vid, before, num);
    }
  }

  // ----- Pass two

  predicate AllDistinct(files: seq<array<Byte>>) {
    forall i, j :: 0 <= i < j < |files| ==> files[i] != files[j]
  }

  ghost function Img(files: seq<array<Byte>>): (r: Image)
    reads files
    ensures |r| == |files|
  {
    seq(|files|, q requires 0 <= q < |files| reads files => files[q][..])
  }

  /** One write into one of the files. */
  method PutInto(files: seq<array<Byte>>, p: nat, ofs: nat, data: Bytes)
    requires p < |files| && AllDistinct(files) && ofs + |data| <= files[p].Length
    modifies files[p]
    ensures Img(files) == old(Img(files))[p := Splice(old(Img(files)[p]), ofs, data)]
  {
    Put(files[p], ofs, data);
  }

  method PutIdsInto(files: seq<array<Byte>>, p: nat, ofs: nat, ids: seq<nat>) returns (end: nat)
    requires p < |files| && AllDistinct(files) && ofs + 4 * |ids| <= files[p].Length
    modifies files[p]
    ensures Img(files) == old(Img(files))[p := Splice(old(Img(files)[p]), ofs, EncIds(ids))]
    ensures end == ofs + 4 * |ids|
  {
    end := PutIds(files[p], ofs, ids);
  }

  ghost predicate Cursors(pl: Plan, v: nat, k: nat, remoteOfs: seq<nat>)
    requires v < |pl.pieces| && k <= |pl.pieces[v]|
  {
    && |remoteOfs| == |pl.local|
    && forall q :: 0 <= q < |remoteOfs| ==> remoteOfs[q] == META_LEN + pl.local[q] + |SoFar(pl.pieces, q, v, k)|
  }

  lemma CursorsStep(pl: Plan, v: nat, k: nat, ofs: seq<nat>)
    requires v < |pl.pieces| && k < |pl.pieces[v]| && Cursors(pl, v, k, ofs) && pl.pieces[v][k].part < |ofs|
    ensures var x := pl.pieces[v][k];
            Cursors(pl, v, k + 1, ofs[x.part := ofs[x.part] + |x.extra|])
  {
    var x, k1 := pl.pieces[v][k], k + 1;
    forall q | 0 <= q < |ofs|
      ensures |SoFar(pl.pieces, q, v, k1)| == |SoFar(pl.pieces, q, v, k)| + if x.part == q then |x.extra| else 0
    {
      SoFarStep(pl.pieces, q, v, k);
    }
  }

  /** Flags, partition and number share no bits. */
  lemma HeaderParts(e: nat, q: nat, count: nat)
    requires e < 4 && q < MAX_PARTS && count <= MAX_DEG
    ensures Or(Or(Shl(e, 14), Shl(q, 8)), count) == e * 0x4000 + q * 0x100 + count < 0x1_0000
  {
    ShlValues(1);
    ShlValues(e);
    ShlValues(q);
    OrIsSum(e, 14, Shl(q, 8));
    var high := e * 0x40 + q;
    ShlValues(high);
    OrIsSum(high, 8, count);
  }

  /** end_flag. */
  method EndFlags(last: bool, own: bool) returns (endFlag: nat, ghost e: nat)
    ensures e < 4 && endFlag == Shl(e, 14) == (if last then 0x8000 + if own then 0x4000 else 0 else 0)
  {
    endFlag, e := 0, if last then if own then 3 else 2 else 0;
    ShlValues(1);
    ShlValues(e);
    if last {
      endFlag := Shl(1, 15);
      if own {
        OrIsSum(1, 15, Shl(1, 14));
        endFlag := Or(endFlag, Shl(1, 14));
      }
    }
  }

  /** The header word of a group. */
  method HeaderOf(q: nat, p: nat, count: nat, last: bool) returns (word: nat)
    requires q < MAX_PARTS && count <= MAX_DEG
    ensures word == HeaderWord(q, count, q == p, last)
  {
    var endFlag;
    ghost var e;
    endFlag, e := EndFlags(last, q == p);
    ShlValues(e);
    HeaderParts(e, q, count);
    word := Or(Or(endFlag, Shl(q, 8)), count) % 0x1_0000;
  }

  /** A group whose payload is its ids. */
  method WriteInlineGroup(files: seq<array<Byte>>, p: nat, ids: seq<nat>, word: nat, localOfs: nat) returns (end: nat)
    requires p < |files| && AllDistinct(files) && localOfs + 2 + 4 * |ids| <= files[p].Length
    modifies files[p]
    ensures Img(files) == old(Img(files))[p := Splice(old(Img(files)[p]), localOfs, Le(word, 2) + EncIds(ids))]
    ensures end == localOfs + 2 + 4 * |ids|
  {
    ghost var s := Img(files)[p];
    PutInto(files, p, localOfs, Le(word, 2));
    end := PutIdsInto(files, p, localOfs + 2, ids);
    SpliceSplice(s, localOfs, Le(word, 2), EncIds(ids));
  }

  /** One write into each of two files. */
  function TwoSplices(img: Image, p: nat, at: nat, data: Bytes, q: nat, to: nat, extra: Bytes): Image
    requires p < |img| && q < |img| && p != q && at + |data| <= |img[p]| && to + |extra| <= |img[q]|
  {
    img[p := Splice(img[p], at, data)][q := Splice(img[q], to, extra)]
  }

  /** img1 is img with header and offset at `at` of file p and the ids from `to` on in file q. */
  ghost predicate WritesBoth(img: Image, img1: Image, p: nat, q: nat, ids: seq<nat>, word: nat, at: nat, to: nat) {
    && p < |img| && q < |img| && p != q && at + 10 <= |img[p]| && META_LEN <= to && to + 4 * |ids| <= |img[q]|
    && img1 == TwoSplices(img, p, at, Le(word, 2) + Le(to - META_LEN, 8), q, to, EncIds(ids))
  }

  /** A group whose payload is an offset; the ids go behind the slots of file q. */
  method WriteRemoteGroup(files: seq<array<Byte>>, p: nat, q: nat, ids: seq<nat>, word: nat, localOfs: nat,
                          remoteOfs: seq<nat>, ghost img1: Image)
    returns (end: nat, remoteEnd: seq<nat>)
    requires q < |remoteOfs| == |files| && AllDistinct(files)
    requires WritesBoth(Img(files), img1, p, q, ids, word, localOfs, remoteOfs[q])
    modifies files[p], files[q]
    ensures Img(files) == img1
    ensures end == localOfs + 10 && remoteEnd == remoteOfs[q := remoteOfs[q] + 4 * |ids|]
  {
    ghost var s := Img(files)[p];
    var relativeOfs := remoteOfs[q] - META_LEN;
    PutInto(files, p, localOfs, Le(word, 2));
    PutInto(files, p, localOfs + 2, Le(relativeOfs, 8));
    SpliceSplice(s, localOfs, Le(word, 2), Le(relativeOfs, 8));
    end := localOfs + 10;
    var ro := PutIdsInto(files, q, remoteOfs[q], ids);
    remoteEnd := remoteOfs[q := ro];
  }

  // ----- The group written is the plan's piece

  ghost predicate IsGroup(pl: Plan, v: nat, k: nat, gr: Group)
    requires v < |pl.pieces| == |pl.home| && k < |pl.pieces[v]|
  {
    pl.pieces[v][k] == PieceOf(gr) && gr.own == (gr.part == pl.home[v])
  }

  lemma PutInline(pl: Plan, v: nat, k: nat, gr: Group, img: Image, ofs: seq<nat>)
    requires Fits(pl) && v < |pl.pieces| && k < |pl.pieces[v]| && Sized(pl, img)
    requires IsGroup(pl, v, k, gr) && gr.Inline() && Cursors(pl, v, k, ofs)
    ensures var p, at := pl.home[v], PieceStart(pl, v, k);
            && p < |img| && at + 2 + 4 * |gr.ids| == PieceStart(pl, v, k + 1) <= |img[p]|
            && PutPiece(pl, v, k, img) ==
                 img[p := Splice(img[p], at, Le(HeaderWord(gr.part, |gr.ids|, gr.own, gr.last), 2) + EncIds(gr.ids))]
            && gr.part < |ofs| && Cursors(pl, v, k + 1, ofs)
  {
    assert VertexOk(pl, v) && PieceOk(pl, v, k);
    PieceInSlot(pl, v, k);
    CursorsStep(pl, v, k, ofs);
    assert ofs[gr.part := ofs[gr.part]] == ofs;
  }

  lemma RemoteCursor(pl: Plan, v: nat, k: nat, gr: Group, ofs: seq<nat>)
    requires Fits(pl) && v < |pl.pieces| && k < |pl.pieces[v]|
    requires IsGroup(pl, v, k, gr) && !gr.Inline() && Cursors(pl, v, k, ofs)
    ensures gr.part < |pl.local| == |ofs| && gr.part != pl.home[v] && ofs[gr.part] == META_LEN + gr.ofs
    ensures ofs[gr.part] + 4 * |gr.ids| <= FileSize(pl, gr.part)
    ensures pl.pieces[v][k].extra == EncIds(gr.ids) != []
    ensures Cursors(pl, v, k + 1, ofs[gr.part := ofs[gr.part] + 4 * |gr.ids|])
  {
    assert |EncIds(gr.ids)| > 0;
    ExtraInFile(pl, v, k);
    CursorsStep(pl, v, k, ofs);
  }

  /** A piece with extra bytes changes two files. */
  lemma PutTwo(pl: Plan, v: nat, k: nat, img: Image, data: Bytes, q: nat, extra: Bytes, to: nat)
    requires Fits(pl) && v < |pl.pieces| && k < |pl.pieces[v]| && Sized(pl, img)
    requires var x := pl.pieces[v][k]; x.data == data && x.part == q && x.extra == extra != [] && META_LEN + x.ofs == to
    ensures var p, at := pl.home[v], PieceStart(pl, v, k);
            && p < |img| && at + |data| == PieceStart(pl, v, k + 1) <= |img[p]|
            && q < |img| && q != p && to + |extra| <= |img[q]|
            && PutPiece(pl, v, k, img) == img[p := Splice(img[p], at, data)][q := Splice(img[q], to, extra)]
  {
    PieceInSlot(pl, v, k);
    ExtraInFile(pl, v, k);
  }

  lemma PutRemote(pl: Plan, v: nat, k: nat, gr: Group, img: Image, to: nat)
    requires Fits(pl) && v < |pl.pieces| && k < |pl.pieces[v]| && Sized(pl, img)
    requires IsGroup(pl, v, k, gr) && !gr.Inline() && to == META_LEN + gr.ofs
    ensures var p, at := pl.home[v], PieceStart(pl, v, k);
            && p < |img| && at + 10 == PieceStart(pl, v, k + 1) <= |img[p]|
            && gr.part < |img| && gr.part != p && to + 4 * |gr.ids| <= |img[gr.part]|
            && PutPiece(pl, v, k, img) ==
                 TwoSplices(img, p, at, EncGroup(gr), gr.part, to, EncIds(gr.ids))
  {
    var data, extra := Le(HeaderWord(gr.part, |gr.ids|, gr.own, gr.last), 2) + Le(gr.ofs, 8), EncIds(gr.ids);
    assert |extra| > 0;
    PutTwo(pl, v, k, img, data, gr.part, extra, to);
  }

  // ----- The plan of a graph, as far as the writer needs it

  function EleSize(g: Graph): nat { MAX_DEG * 4 + |g.sizes| * 2 }

  ghost predicate PlaceOk(g: Graph, pl: Plan, v: nat)
    requires v < |pl.home| == |pl.start|
  {
    && Owns(g.sizes, pl.home[v], v)
    && pl.start[v] == META_LEN + SlotOffset(v - Cum(g.sizes, pl.home[v]), EleSize(g))
  }

  ghost predicate AreGroups(pl: Plan, v: nat, lists: seq<seq<nat>>, grs: seq<Group>)
    requires v < |pl.pieces| == |pl.home|
  {
    && pl.home[v] < |lists|
    && var parts := PartIds(lists, pl.home[v]);
       && |grs| == |parts| == |pl.pieces[v]|
       && forall k :: 0 <= k < |grs| ==>
            && parts[k] < |lists| && IsGroup(pl, v, k, grs[k])
            && grs[k].part == parts[k] && grs[k].ids == lists[parts[k]] && grs[k].last == (k == |parts| - 1)
  }

  ghost predicate VertexPlanned(g: Graph, pl: Plan, v: nat)
    requires v < |g.adj| == |pl.pieces| == |pl.home| && Known(g.sizes, g.adj[v])
  {
    && |DataOf(pl.pieces[v])| <= EleSize(g)
    && exists grs :: AreGroups(pl, v, Buckets(g.sizes, g.adj[v]), grs)
  }

  ghost predicate Plans(g: Graph, pl: Plan) {
    && g.Valid() && Fits(pl)
    && |pl.local| == |g.sizes| && |pl.pieces| == |g.adj|
    && (forall q :: 0 <= q < |g.sizes| ==> pl.local[q] == SlotOffset(g.sizes[q], EleSize(g)))
    && (forall v :: 0 <= v < |g.adj| ==> PlaceOk(g, pl, v))
    && (forall v :: 0 <= v < |g.adj| ==> VertexPlanned(g, pl, v))
  }

  lemma VertexIsPlanned(g: Graph, v: nat)
    requires g.Valid() && TableOf(g).Valid() && v < |g.adj|
    ensures VertexPlanned(g, PlanOf(TableOf(g)), v)
  {
    var tab := TableOf(g);
    assert tab.vs[v] == VertexOf(g.sizes, g.adj[v], v);
    RecordFits(tab, v);
    assert AreGroups(PlanOf(tab), v, Buckets(g.sizes, g.adj[v]), tab.Groups(v));
  }

  lemma VertexIsPlaced(g: Graph, v: nat)
    requires g.Valid() && TableOf(g).Valid() && v < |g.adj|
    ensures PlaceOk(g, PlanOf(TableOf(g)), v)
  {
    assert TableOf(g).vs[v] == VertexOf(g.sizes, g.adj[v], v);
  }

  lemma LayoutPlans(g: Graph)
    requires g.Valid()
    ensures TableOf(g).Valid() && Plans(g, PlanOf(TableOf(g)))
  {
    TableIsValid(g);
    var pl := PlanOf(TableOf(g));
    LayoutFits(TableOf(g));
    forall v | 0 <= v < |g.adj|
      ensures PlaceOk(g, pl, v) && VertexPlanned(g, pl, v)
    {
      VertexIsPlaced(g, v);
      VertexIsPlanned(g, v);
    }
  }

  lemma BucketsAreSmall(g: Graph, v: nat, q: nat)
    requires g.Valid() && v < |g.adj| && q < |g.sizes|
    ensures q < MAX_PARTS && |Buckets(g.sizes, g.adj[v])[q]| <= MAX_DEG
  {
    TableIsValid(g);
    assert TableOf(g).vs[v] == VertexOf(g.sizes, g.adj[v], v) && TableOf(g).VertexOk(v);
    DegreeAtLeast(Buckets(g.sizes, g.adj[v]), q, |g.sizes|);
  }

  // ----- One vertex

  /** One vertex: sort its neighbours, then write group after group.  `ok` is false where the code
      would find its slot overrun and abort. */
  method WriteVertex(g: Graph, ghost pl: Plan, v: nat, p: nat, files: seq<array<Byte>>,
                     localNghOfs: nat, remoteOfs: seq<nat>)
    returns (ok: bool, remoteEnd: seq<nat>)
    requires Plans(g, pl)
    requires v < |g.adj| && p == pl.home[v] && localNghOfs == pl.start[v]
    requires AllDistinct(files) && Sized(pl, Img(files)) && Cursors(pl, v, 0, remoteOfs)
    modifies files
    ensures ok && Sized(pl, old(Img(files)))
    ensures Img(files) == PutPieces(pl, v, |pl.pieces[v]|, old(Img(files)))
    ensures Cursors(pl, v, |pl.pieces[v]|, remoteEnd)
  {
    assert VertexPlanned(g, pl, v);
    var nghs := BucketNeighbours(g.sizes, g.adj[v]);
    ghost var grs :| AreGroups(pl, v, nghs, grs);
    var partIds := ListParts(nghs, p);
    ghost var img := Img(files);
    var localOfs := localNghOfs;
    remoteEnd := remoteOfs;
    assert pl.pieces[v][..0] == [];
    for i := 0 to |partIds|
      invariant Sized(pl, Img(files)) && Img(files) == PutPieces(pl, v, i, img)
      invariant localOfs == PieceStart(pl, v, i) && Cursors(pl, v, i, remoteEnd)
    {
      var q := partIds[i];
      BucketsAreSmall(g, v, q);
      localOfs, remoteEnd := WriteOneGroup(pl, v, i, grs[i], files, p, q, nghs[q], i == |partIds| - 1, localOfs, remoteEnd);
      PieceInSlot(pl, v, i);
      if localOfs > localNghOfs + MAX_DEG * 4 + |g.sizes| * 2 {
        return false, remoteEnd;
      }
    }
    ok := true;
  }

  /** Header and ids into the slot. */
  method WriteInlinePiece(ghost pl: Plan, ghost v: nat, ghost k: nat, ghost gr: Group, files: seq<array<Byte>>,
                          p: nat, ids: seq<nat>, word: nat, localOfs: nat, ghost remoteOfs: seq<nat>)
    returns (end: nat)
    requires Fits(pl) && v < |pl.pieces| && k < |pl.pieces[v]| && pl.home[v] == p
    requires IsGroup(pl, v, k, gr) && gr.Inline() && gr.ids == ids
    requires word == HeaderWord(gr.part, |ids|, gr.own, gr.last)
    requires AllDistinct(files) && Sized(pl, Img(files))
    requires localOfs == PieceStart(pl, v, k) && Cursors(pl, v, k, remoteOfs)
    modifies files
    ensures Sized(pl, old(Img(files))) && Img(files) == PutPiece(pl, v, k, old(Img(files)))
    ensures end == PieceStart(pl, v, k + 1) && Cursors(pl, v, k + 1, remoteOfs)
  {
    ghost var img := Img(files);
    PutInline(pl, v, k, gr, img, remoteOfs);
    assert |img[p]| == files[p].Length;
    end := WriteInlineGroup(files, p, ids, word, localOfs);
  }

  /** What is written is the piece, and where the cursors are afterwards. */
  lemma RemoteStep(pl: Plan, v: nat, k: nat, gr: Group, at: nat, img: Image, ofs: seq<nat>) returns (to: nat)
    requires Fits(pl) && v < |pl.pieces| && k < |pl.pieces[v]| && Sized(pl, img)
    requires IsGroup(pl, v, k, gr) && !gr.Inline() && at == PieceStart(pl, v, k) && Cursors(pl, v, k, ofs)
    ensures gr.part < |img| == |ofs| && to == ofs[gr.part] && at + 10 == PieceStart(pl, v, k + 1)
    ensures WritesBoth(img, PutPiece(pl, v, k, img), pl.home[v], gr.part, gr.ids,
                       HeaderWord(gr.part, |gr.ids|, gr.own, gr.last), at, to)
    ensures Cursors(pl, v, k + 1, ofs[gr.part := to + 4 * |gr.ids|])
  {
    RemoteCursor(pl, v, k, gr, ofs);
    to := ofs[gr.part];
    PutRemote(pl, v, k, gr, img, to);
    assert EncGroup(gr) == Le(HeaderWord(gr.part, |gr.ids|, gr.own, gr.last), 2) + Le(to - META_LEN, 8);
  }

  /** Header and offset into the slot, the ids behind the slots of their partition's file. */
  method WriteRemotePiece(ghost pl: Plan, ghost v: nat, ghost k: nat, ghost gr: Group, files: seq<array<Byte>>,
                          p: nat, q: nat, ids: seq<nat>, word: nat, localOfs: nat, remoteOfs: seq<nat>)
    returns (end: nat, remoteEnd: seq<nat>)
    requires Fits(pl) && v < |pl.pieces| && k < |pl.pieces[v]| && pl.home[v] == p
    requires IsGroup(pl, v, k, gr) && !gr.Inline() && gr.part == q && gr.ids == ids
    requires word == HeaderWord(q, |ids|, gr.own, gr.last)
    requires AllDistinct(files) && Sized(pl, Img(files))
    requires localOfs == PieceStart(pl, v, k) && Cursors(pl, v, k, remoteOfs)
    modifies files
    ensures Sized(pl, old(Img(files))) && Img(files) == PutPiece(pl, v, k, old(Img(files)))
    ensures end == PieceStart(pl, v, k + 1) && Cursors(pl, v, k + 1, remoteEnd)
  {
    ghost var to := RemoteStep(pl, v, k, gr, localOfs, Img(files), remoteOfs);
    assert remoteOfs[q] == to;
    end, remoteEnd := WriteRemoteGroup(files, p, q, ids, word, localOfs, remoteOfs, PutPiece(pl, v, k, Img(files)));
  }

  /** The next group: the neighbours themselves, or where they are. */
  method WriteOneGroup(ghost pl: Plan, ghost v: nat, ghost k: nat, ghost gr: Group, files: seq<array<Byte>>,
                       p: nat, q: nat, ids: seq<nat>, last: bool, localOfs: nat, remoteOfs: seq<nat>)
    returns (end: nat, remoteEnd: seq<nat>)
    requires Fits(pl) && v < |pl.pieces| && k < |pl.pieces[v]| && pl.home[v] == p
    requires IsGroup(pl, v, k, gr) && gr.part == q < MAX_PARTS && gr.ids == ids && |ids| <= MAX_DEG && gr.last == last
    requires AllDistinct(files) && Sized(pl, Img(files))
    requires localOfs == PieceStart(pl, v, k) && Cursors(pl, v, k, remoteOfs)
    modifies files
    ensures Sized(pl, old(Img(files))) && Img(files) == PutPiece(pl, v, k, old(Img(files)))
    ensures end == PieceStart(pl, v, k + 1) && Cursors(pl, v, k + 1, remoteEnd)
  {
    var word := HeaderOf(q, p, |ids|, last);
    if q != p && |ids| > INLINE_DEG_BAR {
      end, remoteEnd := WriteRemotePiece(pl, v, k, gr, files, p, q, ids, word, localOfs, remoteOfs);
    } else {
      remoteEnd := remoteOfs;
      end := WriteInlinePiece(pl, v, k, gr, files, p, ids, word, localOfs, remoteOfs);
    }
  }

  // ----- The whole graph

  ghost predicate RemoteCursors(pl: Plan, n: nat, ofs: seq<nat>)
    requires n <= |pl.pieces|
  {
    && |ofs| == |pl.local|
    && forall q :: 0 <= q < |ofs| ==> ofs[q] == META_LEN + pl.local[q] + |Remote(pl.pieces, q, n)|
  }

  lemma CursorsNext(pl: Plan, v: nat, ofs: seq<nat>)
    requires v < |pl.pieces| && Cursors(pl, v, |pl.pieces[v]|, ofs)
    ensures RemoteCursors(pl, v + 1, ofs)
  {
    var v1 := v + 1;
    forall q | 0 <= q < |ofs|
      ensures SoFar(pl.pieces, q, v, |pl.pieces[v]|) == Remote(pl.pieces, q, v1)
    {
      SoFarAll(pl.pieces, q, v);
    }
  }

  lemma CursorsStart(pl: Plan, v: nat, ofs: seq<nat>)
    requires v < |pl.pieces| && RemoteCursors(pl, v, ofs)
    ensures Cursors(pl, v, 0, ofs)
  {
    assert pl.pieces[v][..0] == [];
  }

  /** Pass-one sizes are the plan's file sizes. */
  lemma SizesAgree(g: Graph, q: nat)
    requires g.Valid() && TableOf(g).Valid() && q < |g.sizes|
    ensures |Remote(PlanOf(TableOf(g)).pieces, q, |g.adj|)| == 4 * |RemoteArea(|g.sizes|, TableOf(g).vs, q, |g.adj|)|
  {
    RemoteIsRemoteArea(TableOf(g), q, |g.adj|);
  }

  ghost predicate CountsFit(pl: Plan, num: seq<nat>) {
    |num| == |pl.local| && forall q :: 0 <= q < |num| ==> 4 * num[q] == |Remote(pl.pieces, q, |pl.pieces|)|
  }

  /** Pass one, as the plan sees it. */
  method PassOne(g: Graph) returns (num: seq<nat>)
    requires g.Valid() && TableOf(g).Valid()
    ensures CountsFit(PlanOf(TableOf(g)), num)
  {
    num := CountRemote(g);
    forall q | 0 <= q < |num|
      ensures |Remote(PlanOf(TableOf(g)).pieces, q, |g.adj|)| == 4 * num[q]
    {
      SizesAgree(g, q);
    }
  }

  /** The buffers, as large as pass one says, and the first free place behind the slots of each. */
  method Allocate(g: Graph, num: seq<nat>) returns (files: seq<array<Byte>>, remoteOfs: seq<nat>)
    requires |num| == |g.sizes|
    ensures fresh(files) && AllDistinct(files) && |files| == |g.sizes| == |remoteOfs|
    ensures forall q :: 0 <= q < |files| ==>
              && files[q].Length == META_LEN + SlotOffset(g.sizes[q], EleSize(g)) + 4 * num[q]
              && remoteOfs[q] == META_LEN + SlotOffset(g.sizes[q], EleSize(g))
  {
    files, remoteOfs := [], [];
    var eleSize := EleSize(g);
    for p := 0 to |g.sizes|
      invariant fresh(files) && AllDistinct(files) && |files| == p == |remoteOfs|
      invariant forall q :: 0 <= q < p ==>
                  && files[q].Length == META_LEN + SlotOffset(g.sizes[q], eleSize) + 4 * num[q]
                  && remoteOfs[q] == META_LEN + SlotOffset(g.sizes[q], eleSize)
    {
      SlotOffsetIsProduct(g.sizes[p], eleSize);
      var localSize := g.sizes[p] * eleSize;
      var file := new Byte[META_LEN + localSize + 4 * num[p]];
      files, remoteOfs := files + [file], remoteOfs + [META_LEN + localSize];
    }
  }

  /** The header of partition p's file. */
  function FileHeader(p: nat, parts: nat, size: nat, eleSize: nat, enterPoint: nat, remoteNum: nat): (r: Bytes)
    ensures |r| == META_LEN
  {
    Le(p, 4) + (Le(parts, 4) + (Le(size, 4) + (Le(eleSize, 4) + (Le(enterPoint, 8) + Le(remoteNum, 8)))))
  }

  function HeaderFor(g: Graph, enterPoint: nat, num: seq<nat>, p: nat): Bytes
    requires p < |g.sizes| == |num|
  {
    FileHeader(p, |g.sizes|, g.sizes[p], EleSize(g), enterPoint, num[p])
  }

  /** The headers of the first p partitions. */
  function Headers(g: Graph, enterPoint: nat, num: seq<nat>, p: nat): (r: seq<Bytes>)
    requires p <= |g.sizes| == |num|
    ensures |r| == p
  {
    seq(p, q requires 0 <= q < p => HeaderFor(g, enterPoint, num, q))
  }

  ghost predicate HeadsAre(hs: seq<Bytes>, img: Image) { forall q :: 0 <= q < |hs| ==> HeadIs(q, hs[q], img) }

  /** The fields one behind the other. */
  method WriteHeader(files: seq<array<Byte>>, p: nat, parts: nat, size: nat, eleSize: nat, enterPoint: nat, remoteNum: nat)
    returns (end: nat)
    requires p < |files| && AllDistinct(files) && META_LEN <= |Img(files)[p]|
    modifies files[p]
    ensures Img(files) == PutHead(p, FileHeader(p, parts, size, eleSize, enterPoint, remoteNum), old(Img(files)))
    ensures end == META_LEN
  {
    ghost var s := Img(files)[p];
    var a, b, c, d, e, f := Le(p, 4), Le(parts, 4), Le(size, 4), Le(eleSize, 4), Le(enterPoint, 8), Le(remoteNum, 8);
    PutInto(files, p, 0, a);
    PutInto(files, p, 4, b);
    PutInto(files, p, 8, c);
    PutInto(files, p, 12, d);
    PutInto(files, p, 16, e);
    PutInto(files, p, 24, f);
    SixSplices(s, a, b, c, d, e, f);
    end := 32;
  }

  lemma SixSplices(s: Bytes, a: Bytes, b: Bytes, c: Bytes, d: Bytes, e: Bytes, f: Bytes)
    requires |s| >= 32 && |a| == |b| == |c| == |d| == 4 && |e| == |f| == 8
    ensures Splice(Splice(Splice(Splice(Splice(Splice(s, 0, a), 4, b), 8, c), 12, d), 16, e), 24, f) ==
            Splice(s, 0, a + (b + (c + (d + (e + f)))))
  {
    SpliceSplice(s, 0, a, b);
    SpliceSplice(s, 0, a + b, c);
    SpliceSplice(s, 0, a + b + c, d);
    SpliceSplice(s, 0, a + b + c + d, e);
    SpliceSplice(s, 0, a + b + c + d + e, f);
    assert a + b + c + d + e + f == a + (b + (c + (d + (e + f))));
  }

  /** The vertices below n have been written, and the cursors are where they should be. */
  ghost predicate Reached(pl: Plan, n: nat, img: Image, ofs: seq<nat>) {
    Fits(pl) && n <= |pl.pieces| && Sized(pl, img) && Complete(pl, n, img) && RemoteCursors(pl, n, ofs)
  }

  /** The next vertex. */
  method WriteNext(g: Graph, ghost pl: Plan, vid: nat, p: nat, files: seq<array<Byte>>, localNghOfs: nat,
                   remoteOfs: seq<nat>, ghost hs: seq<Bytes>)
    returns (ok: bool, next: nat, remoteEnd: seq<nat>)
    requires Plans(g, pl) && vid < |g.adj| && p == pl.home[vid] && localNghOfs == pl.start[vid]
    requires AllDistinct(files) && Reached(pl, vid, Img(files), remoteOfs) && HeadsAre(hs, Img(files))
    modifies files
    ensures ok && next == vid + 1 && Reached(pl, next, Img(files), remoteEnd) && HeadsAre(hs, Img(files))
  {
    ghost var img := Img(files);
    CursorsStart(pl, vid, remoteOfs);
    ok, remoteEnd := WriteVertex(g, pl, vid, p, files, localNghOfs, remoteOfs);
    next := vid + 1;
    ReachedNext(pl, vid, next, img, Img(files), remoteEnd, hs);
  }

  lemma ReachedNext(pl: Plan, v: nat, next: nat, img: Image, img1: Image, ofs1: seq<nat>, hs: seq<Bytes>)
    requires Fits(pl) && v < |pl.pieces| && next == v + 1 && Sized(pl, img) && Complete(pl, v, img) && HeadsAre(hs, img)
    requires img1 == PutPieces(pl, v, |pl.pieces[v]|, img) && Cursors(pl, v, |pl.pieces[v]|, ofs1)
    ensures Reached(pl, next, img1, ofs1) && HeadsAre(hs, img1)
  {
    CursorsNext(pl, v, ofs1);
    VertexCompletes(pl, v, img);
    forall q | 0 <= q < |hs|
      ensures HeadIs(q, hs[q], img1)
    {
      PutPiecesKeepHead(pl, v, |pl.pieces[v]|, img, q, hs[q]);
    }
  }

  lemma InPartition(sizes: seq<nat>, p: nat, n: nat, vid: nat)
    requires p < |sizes| && n < sizes[p] && vid == Cum(sizes, p) + n
    ensures Owns(sizes, p, vid) && vid < Cum(sizes, |sizes|)
  {
    CumMonotone(sizes, p + 1, |sizes|);
  }

  lemma PlaceOfOwner(g: Graph, pl: Plan, p: nat, n: nat, vid: nat)
    requires vid < |pl.home| == |pl.start| && PlaceOk(g, pl, vid)
    requires Owns(g.sizes, p, vid) && vid == Cum(g.sizes, p) + n
    ensures pl.home[vid] == p && pl.start[vid] == META_LEN + SlotOffset(n, EleSize(g))
  {
    OwnerUnique(g.sizes, vid, p, pl.home[vid]);
  }

  lemma PlaceInPartition(g: Graph, pl: Plan, p: nat, n: nat, vid: nat)
    requires Plans(g, pl) && p < |g.sizes| && n < g.sizes[p] && vid == Cum(g.sizes, p) + n
    ensures vid < |g.adj| && pl.home[vid] == p && pl.start[vid] == META_LEN + SlotOffset(n, EleSize(g))
  {
    InPartition(g.sizes, p, n, vid);
    PlaceOfOwner(g, pl, p, n, vid);
  }

  /** One partition's vertices, slot after slot. */
  method WritePartition(g: Graph, ghost pl: Plan, p: nat, first: nat, files: seq<array<Byte>>, localStart: nat,
                        remoteOfs: seq<nat>, ghost hs: seq<Bytes>)
    returns (ok: bool, vid: nat, remoteEnd: seq<nat>)
    requires Plans(g, pl) && p < |g.sizes| && first == Cum(g.sizes, p) && localStart == META_LEN
    requires AllDistinct(files) && Reached(pl, first, Img(files), remoteOfs) && HeadsAre(hs, Img(files))
    modifies files
    ensures ok && vid == Cum(g.sizes, p + 1) && Reached(pl, vid, Img(files), remoteEnd) && HeadsAre(hs, Img(files))
  {
    var localNghOfs := localStart;
    ok, vid, remoteEnd := true, first, remoteOfs;
    for n := 0 to g.sizes[p]
      invariant ok && vid == first + n && localNghOfs == META_LEN + SlotOffset(n, EleSize(g))
      invariant Reached(pl, vid, Img(files), remoteEnd) && HeadsAre(hs, Img(files))
    {
      PlaceInPartition(g, pl, p, n, vid);
      ok, vid, remoteEnd := WriteNext(g, pl, vid, p, files, localNghOfs, remoteEnd, hs);
      localNghOfs := localNghOfs + EleSize(g);
    }
  }

  lemma HeaderNext(g: Graph, pl: Plan, enterPoint: nat, num: seq<nat>, p: nat, next: nat, n: nat, img: Image, img1: Image,
                   ofs: seq<nat>)
    requires Plans(g, pl) && p < |g.sizes| == |num| && next == p + 1 && Reached(pl, n, img, ofs)
    requires HeadsAre(Headers(g, enterPoint, num, p), img) && |img| == |g.sizes|
    requires PutHead.requires(p, HeaderFor(g, enterPoint, num, p), img)
    requires img1 == PutHead(p, HeaderFor(g, enterPoint, num, p), img)
    ensures Reached(pl, n, img1, ofs) && HeadsAre(Headers(g, enterPoint, num, next), img1)
  {
    PutHeadKeeps(pl, n, p, HeaderFor(g, enterPoint, num, p), img);
    var hs, hs1 := Headers(g, enterPoint, num, p), Headers(g, enterPoint, num, next);
    forall q | 0 <= q < |hs1|
      ensures HeadIs(q, hs1[q], img1)
    {
      if q < p {
        assert HeadIs(q, hs[q], img);
      }
    }
  }

  /** Partitions below p, that is, vertices below n are done. */
  ghost predicate Underway(g: Graph, pl: Plan, enterPoint: nat, num: seq<nat>, p: nat, n: nat, img: Image, ofs: seq<nat>) {
    && p <= |g.sizes| == |num| && n == Cum(g.sizes, p)
    && Reached(pl, n, img, ofs) && HeadsAre(Headers(g, enterPoint, num, p), img)
  }

  /** The header of the next file. */
  method StartFile(g: Graph, ghost pl: Plan, enterPoint: nat, num: seq<nat>, p: nat, ghost next: nat, ghost n: nat,
                   files: seq<array<Byte>>, ghost remoteOfs: seq<nat>)
    returns (end: nat)
    requires Plans(g, pl) && p < |g.sizes| && next == p + 1 && AllDistinct(files)
    requires Underway(g, pl, enterPoint, num, p, n, Img(files), remoteOfs)
    modifies files[p]
    ensures end == META_LEN && Reached(pl, n, Img(files), remoteOfs)
    ensures HeadsAre(Headers(g, enterPoint, num, next), Img(files))
  {
    ghost var img := Img(files);
    assert |img[p]| == FileSize(pl, p);
    end := WriteHeader(files, p, |g.sizes|, g.sizes[p], EleSize(g), enterPoint, num[p]);
    HeaderNext(g, pl, enterPoint, num, p, next, n, img, Img(files), remoteOfs);
  }

  /** One partition: the header, then the vertices. */
  method WriteFile(g: Graph, ghost pl: Plan, enterPoint: nat, num: seq<nat>, p: nat, first: nat,
                   files: seq<array<Byte>>, remoteOfs: seq<nat>)
    returns (ok: bool, vid: nat, remoteEnd: seq<nat>)
    requires Plans(g, pl) && p < |g.sizes| && AllDistinct(files)
    requires Underway(g, pl, enterPoint, num, p, first, Img(files), remoteOfs)
    modifies files
    ensures ok && Underway(g, pl, enterPoint, num, p + 1, vid, Img(files), remoteEnd)
  {
    ghost var next := p + 1;
    var localNghOfs := StartFile(g, pl, enterPoint, num, p, next, first, files, remoteOfs);
    ok, vid, remoteEnd := WritePartition(g, pl, p, first, files, localNghOfs, remoteOfs, Headers(g, enterPoint, num, next));
  }

  /** All partitions in turn. */
  method WriteAll(g: Graph, ghost pl: Plan, enterPoint: nat, num: seq<nat>, files: seq<array<Byte>>, remoteOfs: seq<nat>)
    returns (ok: bool, remoteEnd: seq<nat>)
    requires Plans(g, pl) && AllDistinct(files) && Underway(g, pl, enterPoint, num, 0, 0, Img(files), remoteOfs)
    modifies files
    ensures ok && Underway(g, pl, enterPoint, num, |g.sizes|, |g.adj|, Img(files), remoteEnd)
  {
    var vid := 0;
    assert Cum(g.sizes, 0) == 0;
    ok, remoteEnd := true, remoteOfs;
    for p := 0 to |g.sizes|
      invariant ok && Underway(g, pl, enterPoint, num, p, vid, Img(files), remoteEnd)
    {
      ok, vid, remoteEnd := WriteFile(g, pl, enterPoint, num, p, vid, files, remoteEnd);
    }
  }

  /** The check behind pass two: every cursor at the end of its buffer. */
  method AllFull(files: seq<array<Byte>>, ofs: seq<nat>) returns (ok: bool)
    requires |files| <= |ofs|
    ensures ok <==> forall p :: 0 <= p < |files| ==> ofs[p] == |Img(files)[p]|
  {
    for p := 0 to |files|
      invariant forall q :: 0 <= q < p ==> ofs[q] == |Img(files)[q]|
    {
      if ofs[p] != files[p].Length {
        assert ofs[p] != |Img(files)[p]|;
        return false;
      }
    }
    return true;
  }

  lemma NothingWritten(g: Graph, pl: Plan, enterPoint: nat, num: seq<nat>, img: Image, ofs: seq<nat>)
    requires Fits(pl) && Sized(pl, img) && RemoteCursors(pl, 0, ofs) && |num| == |g.sizes|
    ensures Underway(g, pl, enterPoint, num, 0, 0, img, ofs)
  {
  }

  /** Pass two: the partitions in turn; then every buffer must be full to the byte. */
  method PassTwo(g: Graph, ghost pl: Plan, enterPoint: nat, num: seq<nat>, files: seq<array<Byte>>, remoteOfs: seq<nat>)
    returns (ok: bool)
    requires Plans(g, pl) && |num| == |g.sizes| && AllDistinct(files)
    requires Sized(pl, Img(files)) && RemoteCursors(pl, 0, remoteOfs)
    modifies files
    ensures ok && Sized(pl, Img(files)) && Complete(pl, |g.adj|, Img(files))
    ensures HeadsAre(Headers(g, enterPoint, num, |g.sizes|), Img(files))
  {
    NothingWritten(g, pl, enterPoint, num, Img(files), remoteOfs);
    var ofs;
    ok, ofs := WriteAll(g, pl, enterPoint, num, files, remoteOfs);
    if ok {
      ok := AllFull(files, ofs);
    }
  }

  /** The number of ids behind the slots of partition q. */
  ghost function RemoteNum(g: Graph, q: nat): nat
    requires g.Valid() && TableOf(g).Valid() && q < |g.sizes|
  {
    |RemoteArea(|g.sizes|, TableOf(g).vs, q, |g.adj|)|
  }

  /** What the writer leaves: the whole layout, and in every file a header that describes it. */
  ghost predicate IsIndex(g: Graph, enterPoint: nat, img: Image) {
    && g.Valid() && TableOf(g).Valid()
    && Sized(PlanOf(TableOf(g)), img) && Complete(PlanOf(TableOf(g)), |g.adj|, img)
    && |img| == |g.sizes|
    && forall q :: 0 <= q < |img| ==>
         HeadIs(q, FileHeader(q, |g.sizes|, g.sizes[q], EleSize(g), enterPoint, RemoteNum(g, q)), img)
  }

  /** transfer_b1_to_scala_v3: both passes.  `ok` is false where the code would find a record too long
      or a buffer not filled exactly and abort. */
  method TransferB1ToScalaV3(g: Graph, enterPoint: nat) returns (ok: bool, files: seq<array<Byte>>)
    requires g.Valid()
    ensures ok && fresh(files) && IsIndex(g, enterPoint, Img(files))
  {
    LayoutPlans(g);
    ghost var pl := PlanOf(TableOf(g));
    var num := PassOne(g);
    var remoteOfs;
    files, remoteOfs := Allocate(g, num);
    BuffersFit(g, pl, num, Img(files), remoteOfs);
    ok := PassTwo(g, pl, enterPoint, num, files, remoteOfs);
    HeadersDescribe(g, enterPoint, num, Img(files));
  }

  lemma HeadersDescribe(g: Graph, enterPoint: nat, num: seq<nat>, img: Image)
    requires g.Valid() && TableOf(g).Valid() && CountsFit(PlanOf(TableOf(g)), num) && |num| == |g.sizes| == |img|
    requires HeadsAre(Headers(g, enterPoint, num, |g.sizes|), img)
    ensures forall q :: 0 <= q < |img| ==>
              HeadIs(q, FileHeader(q, |g.sizes|, g.sizes[q], EleSize(g), enterPoint, RemoteNum(g, q)), img)
  {
    var hs := Headers(g, enterPoint, num, |g.sizes|);
    forall q | 0 <= q < |img|
      ensures HeadIs(q, FileHeader(q, |g.sizes|, g.sizes[q], EleSize(g), enterPoint, RemoteNum(g, q)), img)
    {
      SizesAgree(g, q);
      assert HeadIs(q, hs[q], img);
    }
  }

  lemma BuffersFit(g: Graph, pl: Plan, num: seq<nat>, img: Image, remoteOfs: seq<nat>)
    requires Plans(g, pl) && CountsFit(pl, num) && |img| == |g.sizes| == |remoteOfs|
    requires forall q :: 0 <= q < |img| ==>
               && |img[q]| == META_LEN + SlotOffset(g.sizes[q], EleSize(g)) + 4 * num[q]
               && remoteOfs[q] == META_LEN + SlotOffset(g.sizes[q], EleSize(g))
    ensures Sized(pl, img) && RemoteCursors(pl, 0, remoteOfs)
  {
  }
}
