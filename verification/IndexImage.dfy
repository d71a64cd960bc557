/** Index files as byte sequences: pieces of data written into slots, with extra bytes appended behind
    the slots of another file. */
module IndexImage {

  const META_LEN := 32

  type Byte = int
  type Bytes = seq<Byte>

  /** `data` goes into the vertex's slot, `extra` behind the slots of partition `part`, at `ofs`. */
  datatype Piece = Piece(data: Bytes, part: nat, extra: Bytes, ofs: nat)

  /** Vertex v lives in partition home[v]; its pieces are written from byte start[v] on.  Partition q's
      slots take local[q] bytes. */
  datatype Plan = Plan(local: seq<nat>, home: seq<nat>, start: seq<nat>, pieces: seq<seq<Piece>>)

  function DataOf(ps: seq<Piece>): Bytes {
    if ps == [] then [] else DataOf(ps[..|ps| - 1]) + ps[|ps| - 1].data
  }

  // ----- Remote arrays

  function ExtraFor(x: Piece, q: nat): Bytes { if x.part == q then x.extra else [] }

  /** What a vertex with these pieces appends behind the slots of partition q. */
  function Sent(ps: seq<Piece>, q: nat): Bytes {
    if ps == [] then [] else Sent(ps[..|ps| - 1], q) + ExtraFor(ps[|ps| - 1], q)
  }

  /** What the first n vertices append. */
  function Remote(pss: seq<seq<Piece>>, q: nat, n: nat): Bytes
    requires n <= |pss|
  {
    if n == 0 then [] else Remote(pss, q, n - 1) + Sent(pss[n - 1], q)
  }

  /** The same while the first k pieces of vertex v have been written. */
  function SoFar(pss: seq<seq<Piece>>, q: nat, v: nat, k: nat): Bytes
    requires v < |pss| && k <= |pss[v]|
  {
    Remote(pss, q, v) + Sent(pss[v][..k], q)
  }

  lemma {:induction false} RemoteGrows(pss: seq<seq<Piece>>, q: nat, m: nat, n: nat)
    requires m <= n <= |pss|
    ensures |Remote(pss, q, m)| <= |Remote(pss, q, n)|
    decreases n
  {
    if m < n {
      RemoteGrows(pss, q, m, n - 1);
    }
  }

  lemma Front<T>(s: seq<T>, k: nat)
    requires k < |s|
    ensures s[..k + 1][..k] == s[..k] && s[..k + 1] == s[..k] + [s[k]]
  {
  }

  lemma {:induction false} SentGrows(ps: seq<Piece>, q: nat, k: nat)
    requires k <= |ps|
    ensures |Sent(ps[..k], q)| <= |Sent(ps, q)|
    decreases |ps| - k
  {
    if k < |ps| {
      SentGrows(ps, q, k + 1);
      Front(ps, k);
    } else {
      assert ps[..k] == ps;
    }
  }

  lemma {:induction false} SentNothingYet(ps: seq<Piece>, q: nat)
    requires forall i :: 0 <= i < |ps| ==> ps[i].part != q
    ensures Sent(ps, q) == []
    decreases |ps|
  {
    if ps != [] {
      SentNothingYet(ps[..|ps| - 1], q);
    }
  }

  lemma {:induction false} PrefixFits(ps: seq<Piece>, k: nat)
    requires k <= |ps|
    ensures |DataOf(ps[..k])| <= |DataOf(ps)|
    decreases |ps| - k
  {
    if k < |ps| {
      PrefixFits(ps, k + 1);
      Front(ps, k);
    } else {
      assert ps[..k] == ps;
    }
  }

  // ----- Plans that fit

  ghost predicate PieceOk(pl: Plan, v: nat, k: nat)
    requires v < |pl.pieces| == |pl.home| && k < |pl.pieces[v]|
  {
    var x := pl.pieces[v][k];
    && x.part < |pl.local|
    && (x.extra != [] ==> x.part != pl.home[v] && x.ofs == pl.local[x.part] + |Remote(pl.pieces, x.part, v)|)
    && forall i :: 0 <= i < k ==> pl.pieces[v][i].part != x.part
  }

  ghost predicate VertexOk(pl: Plan, v: nat)
    requires v < |pl.pieces| == |pl.home| == |pl.start|
  {
    && pl.home[v] < |pl.local|
    && META_LEN <= pl.start[v] && pl.start[v] + |DataOf(pl.pieces[v])| <= META_LEN + pl.local[pl.home[v]]
    && forall k :: 0 <= k < |pl.pieces[v]| ==> PieceOk(pl, v, k)
  }

  ghost predicate Apart(pl: Plan, v: nat, w: nat)
    requires v < w < |pl.pieces| == |pl.home| == |pl.start|
  {
    pl.home[v] == pl.home[w] ==> pl.start[v] + |DataOf(pl.pieces[v])| <= pl.start[w]
  }

  ghost predicate Fits(pl: Plan) {
    && |pl.pieces| == |pl.home| == |pl.start|
    && (forall v :: 0 <= v < |pl.pieces| ==> VertexOk(pl, v))
    && forall v, w :: 0 <= v < w < |pl.pieces| ==> Apart(pl, v, w)
  }

  // ----- Files

  type Image = seq<Bytes>

  function FileSize(pl: Plan, q: nat): nat
    requires q < |pl.local|
  {
    META_LEN + pl.local[q] + |Remote(pl.pieces, q, |pl.pieces|)|
  }

  predicate Sized(pl: Plan, img: Image) {
    |img| == |pl.local| && forall q :: 0 <= q < |img| ==> |img[q]| == FileSize(pl, q)
  }

  function Splice(s: Bytes, ofs: nat, data: Bytes): (r: Bytes)
    requires ofs + |data| <= |s|
    ensures |r| == |s|
  {
    s[..ofs] + data + s[ofs + |data|..]
  }

  lemma SpliceApart(s: Bytes, ofs: nat, data: Bytes, a: nat, b: nat)
    requires ofs + |data| <= |s| && a <= b <= |s|
    requires b <= ofs || ofs + |data| <= a
    ensures Splice(s, ofs, data)[a..b] == s[a..b]
  {
  }

  lemma SpliceExtends(s: Bytes, a: nat, ofs: nat, data: Bytes)
    requires a <= ofs && ofs + |data| <= |s|
    ensures Splice(s, ofs, data)[a..ofs + |data|] == s[a..ofs] + data
  {
  }

  /** The bytes from a on are x. */
  predicate Holds(s: Bytes, a: nat, x: Bytes) { a + |x| <= |s| && s[a..a + |x|] == x }

  lemma HoldsApart(s: Bytes, a: nat, x: Bytes, ofs: nat, data: Bytes)
    requires Holds(s, a, x) && ofs + |data| <= |s| && (a + |x| <= ofs || ofs + |data| <= a)
    ensures Holds(Splice(s, ofs, data), a, x)
  {
    SpliceApart(s, ofs, data, a, a + |x|);
  }

  lemma HoldsExtended(s: Bytes, a: nat, x: Bytes, data: Bytes)
    requires Holds(s, a, x) && a + |x| + |data| <= |s|
    ensures Holds(Splice(s, a + |x|, data), a, x + data)
  {
    SpliceExtends(s, a, a + |x|, data);
  }

  /** Where piece k of vertex v starts. */
  function PieceStart(pl: Plan, v: nat, k: nat): nat
    requires v < |pl.pieces| == |pl.start| && k <= |pl.pieces[v]|
  {
    pl.start[v] + |DataOf(pl.pieces[v][..k])|
  }

  lemma PieceInSlot(pl: Plan, v: nat, k: nat)
    requires Fits(pl) && v < |pl.pieces| && k < |pl.pieces[v]|
    ensures var x, p := pl.pieces[v][k], pl.home[v];
            && p < |pl.local|
            && PieceStart(pl, v, k) + |x.data| == PieceStart(pl, v, k + 1)
            && PieceStart(pl, v, k + 1) <= pl.start[v] + |DataOf(pl.pieces[v])| <= META_LEN + pl.local[p]
  {
    assert VertexOk(pl, v);
    Front(pl.pieces[v], k);
    PrefixFits(pl.pieces[v], k + 1);
  }

  lemma ExtraInFile(pl: Plan, v: nat, k: nat)
    requires Fits(pl) && v < |pl.pieces| && k < |pl.pieces[v]| && pl.pieces[v][k].extra != []
    ensures var x := pl.pieces[v][k];
            && x.part < |pl.local| && x.part != pl.home[v]
            && x.ofs == pl.local[x.part] + |SoFar(pl.pieces, x.part, v, k)|
            && META_LEN + x.ofs + |x.extra| <= FileSize(pl, x.part)
  {
    assert VertexOk(pl, v) && PieceOk(pl, v, k);
    var ps := pl.pieces[v];
    var q := ps[k].part;
    SentNothingYet(ps[..k], q);
    Front(ps, k);
    SentGrows(ps, q, k + 1);
    RemoteGrows(pl.pieces, q, v + 1, |pl.pieces|);
  }

  /** Piece k of vertex v is written into its slot. */
  function PutData(pl: Plan, v: nat, k: nat, img: Image): (r: Image)
    requires Fits(pl) && v < |pl.pieces| && k < |pl.pieces[v]| && Sized(pl, img)
    ensures Sized(pl, r)
  {
    PieceInSlot(pl, v, k);
    var p := pl.home[v];
    img[p := Splice(img[p], PieceStart(pl, v, k), pl.pieces[v][k].data)]
  }

  /** ... and its extra bytes behind the slots of the other file. */
  function PutPiece(pl: Plan, v: nat, k: nat, img: Image): (r: Image)
    requires Fits(pl) && v < |pl.pieces| && k < |pl.pieces[v]| && Sized(pl, img)
    ensures Sized(pl, r)
  {
    var x, img1 := pl.pieces[v][k], PutData(pl, v, k, img);
    if x.extra == [] then img1
    else
      ExtraInFile(pl, v, k);
      img1[x.part := Splice(img1[x.part], META_LEN + x.ofs, x.extra)]
  }

  function PutPieces(pl: Plan, v: nat, k: nat, img: Image): (r: Image)
    requires Fits(pl) && v < |pl.pieces| && k <= |pl.pieces[v]| && Sized(pl, img)
    ensures Sized(pl, r)
  {
    if k == 0 then img else PutPiece(pl, v, k - 1, PutPieces(pl, v, k - 1, img))
  }

  /** The header of file q is written. */
  function PutHead(q: nat, x: Bytes, img: Image): (r: Image)
    requires q < |img| && |x| <= |img[q]|
  {
    img[q := Splice(img[q], 0, x)]
  }

  // ----- What the files hold

  ghost predicate SlotHolds(pl: Plan, v: nat, x: Bytes, img: Image)
    requires v < |pl.home| == |pl.start|
  {
    pl.home[v] < |img| && Holds(img[pl.home[v]], pl.start[v], x)
  }

  ghost predicate RecordAt(pl: Plan, v: nat, img: Image)
    requires v < |pl.pieces| == |pl.home| == |pl.start|
  {
    SlotHolds(pl, v, DataOf(pl.pieces[v]), img)
  }

  /** The bytes behind the slots of q start with x. */
  ghost predicate RemoteAt(pl: Plan, q: nat, x: Bytes, img: Image) {
    q < |pl.local| && q < |img| && Holds(img[q], META_LEN + pl.local[q], x)
  }

  ghost predicate Progress(pl: Plan, v: nat, k: nat, img: Image)
    requires v < |pl.pieces| == |pl.home| == |pl.start| && k <= |pl.pieces[v]|
  {
    && (forall w :: 0 <= w < v ==> RecordAt(pl, w, img))
    && (forall q :: 0 <= q < |pl.local| ==> RemoteAt(pl, q, SoFar(pl.pieces, q, v, k), img))
    && SlotHolds(pl, v, DataOf(pl.pieces[v][..k]), img)
  }

  ghost predicate Complete(pl: Plan, n: nat, img: Image)
    requires n <= |pl.pieces| == |pl.home| == |pl.start|
  {
    && (forall w :: 0 <= w < n ==> RecordAt(pl, w, img))
    && (forall q :: 0 <= q < |pl.local| ==> RemoteAt(pl, q, Remote(pl.pieces, q, n), img))
  }

  // ----- One piece

  /** A write behind the slots leaves every slot alone. */
  lemma ExtraKeepsSlot(pl: Plan, v: nat, k: nat, img: Image, w: nat, y: Bytes)
    requires Fits(pl) && w < |pl.pieces| && v < |pl.pieces| && k < |pl.pieces[v]| && Sized(pl, img)
    requires SlotHolds(pl, w, y, PutData(pl, v, k, img)) && |y| <= |DataOf(pl.pieces[w])|
    ensures SlotHolds(pl, w, y, PutPiece(pl, v, k, img))
  {
    var x, img1 := pl.pieces[v][k], PutData(pl, v, k, img);
    assert VertexOk(pl, w);
    if x.extra != [] {
      ExtraInFile(pl, v, k);
      if x.part == pl.home[w] {
        HoldsApart(img1[x.part], pl.start[w], y, META_LEN + x.ofs, x.extra);
      }
    }
  }

  /** Writing a piece leaves the records of other vertices alone. */
  lemma PutPieceKeepsRecord(pl: Plan, v: nat, k: nat, img: Image, w: nat)
    requires Fits(pl) && w < v < |pl.pieces| && k < |pl.pieces[v]| && Sized(pl, img)
    requires RecordAt(pl, w, img)
    ensures RecordAt(pl, w, PutPiece(pl, v, k, img))
  {
    PieceInSlot(pl, v, k);
    assert Apart(pl, w, v);
    if pl.home[w] == pl.home[v] {
      HoldsApart(img[pl.home[w]], pl.start[w], DataOf(pl.pieces[w]), PieceStart(pl, v, k), pl.pieces[v][k].data);
    }
    ExtraKeepsSlot(pl, v, k, img, w, DataOf(pl.pieces[w]));
  }

  lemma PutPieceExtendsSlot(pl: Plan, v: nat, k: nat, img: Image)
    requires Fits(pl) && v < |pl.pieces| && k < |pl.pieces[v]| && Sized(pl, img)
    requires SlotHolds(pl, v, DataOf(pl.pieces[v][..k]), img)
    ensures SlotHolds(pl, v, DataOf(pl.pieces[v][..k + 1]), PutPiece(pl, v, k, img))
  {
    PieceInSlot(pl, v, k);
    var ps := pl.pieces[v];
    Front(ps, k);
    HoldsExtended(img[pl.home[v]], pl.start[v], DataOf(ps[..k]), ps[k].data);
    PrefixFits(ps, k + 1);
    ExtraKeepsSlot(pl, v, k, img, v, DataOf(ps[..k + 1]));
  }

  lemma SoFarStep(pss: seq<seq<Piece>>, q: nat, v: nat, k: nat)
    requires v < |pss| && k < |pss[v]|
    ensures SoFar(pss, q, v, k + 1) == SoFar(pss, q, v, k) + ExtraFor(pss[v][k], q)
  {
    Front(pss[v], k);
  }

  /** A write into a slot leaves the bytes behind the slots alone. */
  lemma DataKeepsRemote(pl: Plan, v: nat, k: nat, img: Image, q: nat, y: Bytes)
    requires Fits(pl) && v < |pl.pieces| && k < |pl.pieces[v]| && Sized(pl, img) && RemoteAt(pl, q, y, img)
    ensures RemoteAt(pl, q, y, PutData(pl, v, k, img))
  {
    PieceInSlot(pl, v, k);
    if q == pl.home[v] {
      HoldsApart(img[q], META_LEN + pl.local[q], y, PieceStart(pl, v, k), pl.pieces[v][k].data);
    }
  }

  lemma PutPieceKeepsRemote(pl: Plan, v: nat, k: nat, img: Image, q: nat)
    requires Fits(pl) && v < |pl.pieces| && k < |pl.pieces[v]| && Sized(pl, img)
    requires RemoteAt(pl, q, SoFar(pl.pieces, q, v, k), img)
    ensures RemoteAt(pl, q, SoFar(pl.pieces, q, v, k + 1), PutPiece(pl, v, k, img))
  {
    var x, y, img1 := pl.pieces[v][k], SoFar(pl.pieces, q, v, k), PutData(pl, v, k, img);
    DataKeepsRemote(pl, v, k, img, q, y);
    SoFarStep(pl.pieces, q, v, k);
    assert y + [] == y;
    if x.extra != [] && x.part == q {
      ExtraInFile(pl, v, k);
      HoldsExtended(img1[q], META_LEN + pl.local[q], y, x.extra);
    }
  }

  lemma PutPieceProgress(pl: Plan, v: nat, k: nat, img: Image)
    requires Fits(pl) && v < |pl.pieces| && k < |pl.pieces[v]| && Sized(pl, img)
    requires Progress(pl, v, k, img)
    ensures Progress(pl, v, k + 1, PutPiece(pl, v, k, img))
  {
    var img1, k1 := PutPiece(pl, v, k, img), k + 1;
    forall w | 0 <= w < v
      ensures RecordAt(pl, w, img1)
    {
      PutPieceKeepsRecord(pl, v, k, img, w);
    }
    forall q | 0 <= q < |pl.local|
      ensures RemoteAt(pl, q, SoFar(pl.pieces, q, v, k1), img1)
    {
      PutPieceKeepsRemote(pl, v, k, img, q);
    }
    PutPieceExtendsSlot(pl, v, k, img);
  }

  // ----- All pieces, all vertices

  lemma ProgressStarts(pl: Plan, v: nat, img: Image)
    requires Fits(pl) && v < |pl.pieces| && Sized(pl, img) && Complete(pl, v, img)
    ensures Progress(pl, v, 0, img)
  {
    assert VertexOk(pl, v);
    var none := pl.pieces[v][..0];
    assert none == [];
    forall q | 0 <= q < |pl.local|
      ensures RemoteAt(pl, q, SoFar(pl.pieces, q, v, 0), img)
    {
      assert SoFar(pl.pieces, q, v, 0) == Remote(pl.pieces, q, v) + Sent(none, q);
      assert Remote(pl.pieces, q, v) + [] == Remote(pl.pieces, q, v);
    }
  }

  lemma {:induction false} PutPiecesProgress(pl: Plan, v: nat, k: nat, img: Image)
    requires Fits(pl) && v < |pl.pieces| && k <= |pl.pieces[v]| && Sized(pl, img)
    requires Complete(pl, v, img)
    ensures Progress(pl, v, k, PutPieces(pl, v, k, img))
  {
    if k == 0 {
      ProgressStarts(pl, v, img);
    } else {
      PutPiecesProgress(pl, v, k - 1, img);
      PutPieceProgress(pl, v, k - 1, PutPieces(pl, v, k - 1, img));
    }
  }

  lemma SoFarAll(pss: seq<seq<Piece>>, q: nat, v: nat)
    requires v < |pss|
    ensures SoFar(pss, q, v, |pss[v]|) == Remote(pss, q, v + 1)
  {
    assert pss[v][..|pss[v]|] == pss[v];
  }

  lemma VertexDone(pl: Plan, v: nat, img: Image)
    requires Fits(pl) && v < |pl.pieces| && Progress(pl, v, |pl.pieces[v]|, img)
    ensures Complete(pl, v + 1, img)
  {
    var ps, v1 := pl.pieces[v], v + 1;
    assert ps[..|ps|] == ps;
    assert RecordAt(pl, v, img);
    forall q | 0 <= q < |pl.local|
      ensures RemoteAt(pl, q, Remote(pl.pieces, q, v1), img)
    {
      SoFarAll(pl.pieces, q, v);
    }
  }

  /** Writing the pieces of the next vertex adds its record and its extra bytes to what is complete, whatever
      the buffers held before. */
  lemma VertexCompletes(pl: Plan, v: nat, img: Image)
    requires Fits(pl) && v < |pl.pieces| && Sized(pl, img) && Complete(pl, v, img)
    ensures Complete(pl, v + 1, PutPieces(pl, v, |pl.pieces[v]|, img))
  {
    PutPiecesProgress(pl, v, |pl.pieces[v]|, img);
    VertexDone(pl, v, PutPieces(pl, v, |pl.pieces[v]|, img));
  }

  // ----- Headers

  /** File q starts with x. */
  ghost predicate HeadIs(q: nat, x: Bytes, img: Image) { q < |img| && |x| <= META_LEN && Holds(img[q], 0, x) }

  lemma PutPieceKeepsHead(pl: Plan, v: nat, k: nat, img: Image, q: nat, x: Bytes)
    requires Fits(pl) && v < |pl.pieces| && k < |pl.pieces[v]| && Sized(pl, img) && HeadIs(q, x, img)
    ensures HeadIs(q, x, PutPiece(pl, v, k, img))
  {
    assert VertexOk(pl, v);
    PieceInSlot(pl, v, k);
    var y, img1 := pl.pieces[v][k], PutData(pl, v, k, img);
    if q == pl.home[v] {
      HoldsApart(img[q], 0, x, PieceStart(pl, v, k), y.data);
    }
    if y.extra != [] {
      ExtraInFile(pl, v, k);
      if y.part == q {
        HoldsApart(img1[q], 0, x, META_LEN + y.ofs, y.extra);
      }
    }
  }

  lemma {:induction false} PutPiecesKeepHead(pl: Plan, v: nat, k: nat, img: Image, q: nat, x: Bytes)
    requires Fits(pl) && v < |pl.pieces| && k <= |pl.pieces[v]| && Sized(pl, img) && HeadIs(q, x, img)
    ensures HeadIs(q, x, PutPieces(pl, v, k, img))
  {
    if k > 0 {
      PutPiecesKeepHead(pl, v, k - 1, img, q, x);
      PutPieceKeepsHead(pl, v, k - 1, PutPieces(pl, v, k - 1, img), q, x);
    }
  }

  /** A header leaves what is complete alone. */
  lemma PutHeadKeeps(pl: Plan, n: nat, q: nat, x: Bytes, img: Image)
    requires Fits(pl) && n <= |pl.pieces| && Sized(pl, img) && Complete(pl, n, img) && q < |img| && |x| == META_LEN
    ensures |x| <= |img[q]| && Sized(pl, PutHead(q, x, img)) && Complete(pl, n, PutHead(q, x, img))
    ensures HeadIs(q, x, PutHead(q, x, img))
  {
    var img1 := PutHead(q, x, img);
    forall w | 0 <= w < n
      ensures RecordAt(pl, w, img1)
    {
      assert VertexOk(pl, w) && RecordAt(pl, w, img);
      if pl.home[w] == q {
        HoldsApart(img[q], pl.start[w], DataOf(pl.pieces[w]), 0, x);
      }
    }
    forall r | 0 <= r < |pl.local|
      ensures RemoteAt(pl, r, Remote(pl.pieces, r, n), img1)
    {
      assert RemoteAt(pl, r, Remote(pl.pieces, r, n), img);
      if r == q {
        HoldsApart(img[q], META_LEN + pl.local[q], Remote(pl.pieces, r, n), 0, x);
      }
    }
  }
}
