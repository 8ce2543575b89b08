/**
  The two ad hoc OBJ-like loaders of `Mesh`, over input that is already split
  into tokens.

  `load_vtn` reads a header of `v`, `vn` and `vt` records followed by
  triangular faces whose corners are `a/b/c` index triples (normal, texture
  coordinate, position, all 1-based), and assembles an interleaved buffer of
  eight floats per corner. `load` reads plain `v` records and triangular faces
  of position indices, and produces six floats per vertex plus an index list.
  Both track the bounding box of the positions they read.
 */
module MeshLoaders {
  import opened Glm
  import opened BoundingBox

  // ---------------------------------------------------------------------
  // load_vtn
  // ---------------------------------------------------------------------

  /** A header record: its tag and the floats that follow it. */
  datatype Record = Record(tag: string, values: seq<real>)

  /** One face corner `a/b/c`: normal, texture-coordinate and position indices, 1-based. */
  datatype Corner = Corner(normal: nat, uv: nat, position: nat)

  datatype Face = Face(c0: Corner, c1: Corner, c2: Corner)

  /** The floats per corner in the assembled buffer: 3 position, 3 normal, 2 texture. */
  const Stride: nat := 8

  predicate IsNormal(r: Record) {
    r.tag == "vn"
  }

  predicate IsUv(r: Record) {
    r.tag == "vt"
  }

  /** Every tag other than `vn` and `vt` is read as a position, whatever it says. */
  predicate IsPosition(r: Record) {
    !IsNormal(r) && !IsUv(r)
  }

  /** How many floats follow a tag. */
  function Arity(tag: string): nat {
    if tag == "vn" then 3 else if tag == "vt" then 2 else 3
  }

  /**
    The header the reading loop accepts: records come in groups of three, the
    loop stops at an `f` opening a group, and each record carries as many
    floats as its tag calls for.
   */
  predicate ValidHeader(header: seq<Record>) {
    |header| % 3 == 0
    && (forall i :: 0 <= i < |header| ==> |header[i].values| == Arity(header[i].tag))
    && (forall i :: 0 <= i < |header| && i % 3 == 0 ==> header[i].tag != "f")
  }

  predicate WellSized(header: seq<Record>) {
    forall i :: 0 <= i < |header| ==> |header[i].values| == Arity(header[i].tag)
  }

  /** `tmpVertices`: the floats of the position records, in order. */
  function Positions(header: seq<Record>): seq<real>
    decreases |header|
  {
    if |header| == 0 then []
    else
      var last := header[|header| - 1];
      Positions(header[..|header| - 1]) + (if IsPosition(last) then last.values else [])
  }

  /** `tmpNormals`: the floats of the `vn` records, in order. */
  function Normals(header: seq<Record>): seq<real>
    decreases |header|
  {
    if |header| == 0 then []
    else
      var last := header[|header| - 1];
      Normals(header[..|header| - 1]) + (if IsNormal(last) then last.values else [])
  }

  /** `tmpUVs`: the floats of the `vt` records, in order. */
  function Uvs(header: seq<Record>): seq<real>
    decreases |header|
  {
    if |header| == 0 then []
    else
      var last := header[|header| - 1];
      Uvs(header[..|header| - 1]) + (if IsUv(last) then last.values else [])
  }

  /** The position records as points. */
  function Points(header: seq<Record>): (pts: seq<Vec3>)
    requires WellSized(header)
    decreases |header|
  {
    if |header| == 0 then []
    else
      var last := header[|header| - 1];
      Points(header[..|header| - 1])
      + (if IsPosition(last) then [Vec3(last.values[0], last.values[1], last.values[2])] else [])
  }

  /** The sentinel seed of `load_vtn`'s box: maxima -1, minima 10000. */
  const VtnSeed: Box := Box(Vec3(-1.0, -1.0, -1.0), Vec3(10000.0, 10000.0, 10000.0))

  /** The three buffers a face can index, as `load_vtn` holds them after the header. */
  datatype Tables = Tables(positions: seq<real>, normals: seq<real>, uvs: seq<real>)

  function TablesOf(header: seq<Record>): Tables {
    Tables(Positions(header), Normals(header), Uvs(header))
  }

  /** A corner's 1-based indices all name an existing entry; the source does no bounds checking. */
  predicate CornerInRange(tb: Tables, c: Corner) {
    1 <= c.position && c.position * 3 <= |tb.positions|
    && 1 <= c.normal && c.normal * 3 <= |tb.normals|
    && 1 <= c.uv && c.uv * 2 <= |tb.uvs|
  }

  predicate FaceInRange(tb: Tables, f: Face) {
    CornerInRange(tb, f.c0) && CornerInRange(tb, f.c1) && CornerInRange(tb, f.c2)
  }

  predicate FacesInRange(tb: Tables, faces: seq<Face>) {
    forall i :: 0 <= i < |faces| ==> FaceInRange(tb, faces[i])
  }

  /**
    The eight floats of one corner, pushed one at a time: the position's
    three, the normal's three, the texture coordinate's two, each fetched
    at its 1-based index minus one.
   */
  function CornerFloats(tb: Tables, c: Corner): (v: seq<real>)
    requires CornerInRange(tb, c)
    ensures |v| == Stride
    ensures forall k :: 0 <= k < 3 ==> v[k] == tb.positions[(c.position - 1) * 3 + k]
    ensures forall k :: 3 <= k < 6 ==> v[k] == tb.normals[(c.normal - 1) * 3 + k - 3]
    ensures forall k :: 6 <= k < 8 ==> v[k] == tb.uvs[(c.uv - 1) * 2 + k - 6]
  {
    var p := (c.position - 1) * 3;
    var n := (c.normal - 1) * 3;
    var u := (c.uv - 1) * 2;
    [tb.positions[p], tb.positions[p + 1], tb.positions[p + 2],
     tb.normals[n], tb.normals[n + 1], tb.normals[n + 2],
     tb.uvs[u], tb.uvs[u + 1]]
  }

  function CornerOf(f: Face, j: nat): Corner
    requires j < 3
  {
    if j == 0 then f.c0 else if j == 1 then f.c1 else f.c2
  }

  function FaceFloats(tb: Tables, f: Face): (v: seq<real>)
    requires FaceInRange(tb, f)
    ensures |v| == 3 * Stride
  {
    CornerFloats(tb, f.c0) + CornerFloats(tb, f.c1) + CornerFloats(tb, f.c2)
  }

  /** The interleaved buffer for `faces`, face after face. */
  function Assemble(tb: Tables, faces: seq<Face>): seq<real>
    requires FacesInRange(tb, faces)
    decreases |faces|
  {
    if |faces| == 0 then []
    else Assemble(tb, faces[..|faces| - 1]) + FaceFloats(tb, faces[|faces| - 1])
  }

  /** What `load_vtn` leaves in the mesh. */
  datatype VtnMesh = VtnMesh(vertices: seq<real>, numVertices: nat, box: Box)

  /** The header loop of `load_vtn`: fill the three tables and grow the box from the sentinels. */
  method ReadHeader(header: seq<Record>) returns (tb: Tables, box: Box)
    requires WellSized(header)
    ensures tb == TablesOf(header)
    ensures box == BoxOf(VtnSeed, Points(header))
  {
    var positions: seq<real> := [];
    var normals: seq<real> := [];
    var uvs: seq<real> := [];
    box := VtnSeed;
    var i := 0;
    while i < |header|
      invariant 0 <= i <= |header|
      invariant WellSized(header[..i])
      invariant positions == Positions(header[..i])
      invariant normals == Normals(header[..i])
      invariant uvs == Uvs(header[..i])
      invariant box == BoxOf(VtnSeed, Points(header[..i]))
    {
      var rec := header[i];
      HeaderStep(header, i);
      if rec.tag == "vn" {
        assert Points(header[..i + 1]) == Points(header[..i]) + [] == Points(header[..i]);
        normals := normals + rec.values;
      } else if rec.tag == "vt" {
        assert Points(header[..i + 1]) == Points(header[..i]) + [] == Points(header[..i]);
        uvs := uvs + rec.values;
      } else {
        var p := Vec3(rec.values[0], rec.values[1], rec.values[2]);
        assert Points(header[..i + 1]) == Points(header[..i]) + [p];
        BoxOfAppend(VtnSeed, Points(header[..i]), p);
        positions := positions + rec.values;
        box := Grow(box, p);
      }
      i := i + 1;
    }
    assert header[..i] == header;
    tb := Tables(positions, normals, uvs);
  }

  /** Reading record `i` extends exactly one table, and the points only for a position record. */
  lemma HeaderStep(header: seq<Record>, i: nat)
    requires WellSized(header) && i < |header|
    ensures WellSized(header[..i]) && WellSized(header[..i + 1])
    ensures var r := header[i];
            Positions(header[..i + 1]) == Positions(header[..i]) + (if IsPosition(r) then r.values else [])
            && Normals(header[..i + 1]) == Normals(header[..i]) + (if IsNormal(r) then r.values else [])
            && Uvs(header[..i + 1]) == Uvs(header[..i]) + (if IsUv(r) then r.values else [])
            && Points(header[..i + 1]) == Points(header[..i])
               + (if IsPosition(r) then [Vec3(r.values[0], r.values[1], r.values[2])] else [])
  {
    assert header[..i + 1][..i] == header[..i];
    assert header[..i + 1][i] == header[i];
  }

  /** The face loops of `load_vtn`: append each corner's eight floats. */
  method AssembleFaces(tb: Tables, faces: seq<Face>) returns (vertices: seq<real>)
    requires FacesInRange(tb, faces)
    ensures vertices == Assemble(tb, faces)
    ensures |vertices| == 24 * |faces|
  {
    vertices := [];
    var f := 0;
    while f < |faces|
      invariant 0 <= f <= |faces|
      invariant FacesInRange(tb, faces[..f])
      invariant vertices == Assemble(tb, faces[..f])
      invariant |vertices| == 24 * f
    {
      AssembleStep(tb, faces, f);
      var face := faces[f];
      var block := CornerFloats(tb, face.c0) + CornerFloats(tb, face.c1) + CornerFloats(tb, face.c2);
      vertices := vertices + block;
      f := f + 1;
    }
    assert faces[..f] == faces;
  }

  /** Assembling one more face appends that face's 24 floats. */
  lemma AssembleStep(tb: Tables, faces: seq<Face>, f: nat)
    requires FacesInRange(tb, faces) && f < |faces|
    ensures FacesInRange(tb, faces[..f]) && FacesInRange(tb, faces[..f + 1])
    ensures Assemble(tb, faces[..f + 1]) == Assemble(tb, faces[..f]) + FaceFloats(tb, faces[f])
    ensures |FaceFloats(tb, faces[f])| == 24
  {
    assert faces[..f + 1][..f] == faces[..f];
    assert faces[..f + 1][f] == faces[f];
  }

  /** A whole number of strides divides back exactly. */
  lemma StrideMultiple(q: nat)
    ensures (8 * q) % 8 == 0 && (8 * q) / 8 == q
  {
  }

  /**
    `load_vtn`. The first face is read after the header loop has consumed its
    `f` and the rest in a second loop; both assemble corners the same way, so
    one loop models them. At least one face must follow the header.
   */
  method LoadVtn(header: seq<Record>, faces: seq<Face>) returns (m: VtnMesh)
    requires ValidHeader(header) && 1 <= |faces|
    requires FacesInRange(TablesOf(header), faces)
    ensures m.numVertices == 3 * |faces|
    ensures |m.vertices| == 24 * |faces| && |m.vertices| % 8 == 0
    ensures m.vertices == Assemble(TablesOf(header), faces)
    ensures m.box == BoxOf(VtnSeed, Points(header))
  {
    var tb, box := ReadHeader(header);
    var vertices := AssembleFaces(tb, faces);
    assert |vertices| == 8 * (3 * |faces|);
    StrideMultiple(3 * |faces|);
    m := VtnMesh(vertices, |vertices| / 8, box);
  }

  /** Float `8 j + k` of a face's block is float `k` of its corner `j`. */
  lemma FaceFloatsLayout(tb: Tables, f: Face, j: nat, k: nat)
    requires FaceInRange(tb, f) && j < 3 && k < 8
    ensures FaceFloats(tb, f)[8 * j + k] == CornerFloats(tb, CornerOf(f, j))[k]
  {
    var a := CornerFloats(tb, f.c0);
    var b := CornerFloats(tb, f.c1);
    var c := CornerFloats(tb, f.c2);
    assert FaceFloats(tb, f) == (a + b) + c;
    if j < 2 {
      assert FaceFloats(tb, f)[8 * j + k] == (a + b)[8 * j + k];
    }
  }

  /**
    The interleaved layout: corner `j` of face `f` occupies the eight floats
    from `(3 f + j) * 8`, which hold its position, then its normal, then its
    texture coordinate, each fetched from the 1-based index minus one.
   */
  lemma AssembleLayout(tb: Tables, faces: seq<Face>, f: nat, j: nat, k: nat)
    requires FacesInRange(tb, faces) && f < |faces| && j < 3 && k < 8
    ensures |Assemble(tb, faces)| == 24 * |faces|
    ensures Assemble(tb, faces)[8 * (3 * f + j) + k] == CornerFloats(tb, CornerOf(faces[f], j))[k]
  {
    assert 8 * (3 * f + j) + k == 24 * f + (8 * j + k);
    AssembleFaceBlock(tb, faces, f, 8 * j + k);
    FaceFloatsLayout(tb, faces[f], j, k);
  }

  /** Float `24 f + k` of the buffer is float `k` of face `f`'s block. */
  lemma {:induction false} AssembleFaceBlock(tb: Tables, faces: seq<Face>, f: nat, k: nat)
    requires FacesInRange(tb, faces) && f < |faces| && k < 24
    ensures |Assemble(tb, faces)| == 24 * |faces|
    ensures Assemble(tb, faces)[24 * f + k] == FaceFloats(tb, faces[f])[k]
    decreases |faces|
  {
    var n := |faces| - 1;
    AssembleLength(tb, faces);
    AssembleLength(tb, faces[..n]);
    if f < n {
      AssembleFaceBlock(tb, faces[..n], f, k);
      assert faces[..n][f] == faces[f];
      EarlierFaceBlock(tb, faces, f, k);
    } else {
      assert 24 * f + k == 24 * (|faces| - 1) + k;
      LastFaceBlock(tb, faces, k);
    }
  }

  /** Appending the last face leaves the floats of the earlier faces where they were. */
  lemma EarlierFaceBlock(tb: Tables, faces: seq<Face>, f: nat, k: nat)
    requires FacesInRange(tb, faces) && f + 1 < |faces| && k < 24
    requires FacesInRange(tb, faces[..|faces| - 1])
    requires |Assemble(tb, faces[..|faces| - 1])| == 24 * (|faces| - 1)
    requires Assemble(tb, faces[..|faces| - 1])[24 * f + k] == FaceFloats(tb, faces[f])[k]
    ensures Assemble(tb, faces)[24 * f + k] == FaceFloats(tb, faces[f])[k]
  {
    var prefix := Assemble(tb, faces[..|faces| - 1]);
    var last := FaceFloats(tb, faces[|faces| - 1]);
    assert Assemble(tb, faces) == prefix + last;
    AppendIndexLeft(prefix, last, 24 * f + k);
  }

  /** The last face's floats close the buffer. */
  lemma LastFaceBlock(tb: Tables, faces: seq<Face>, k: nat)
    requires FacesInRange(tb, faces) && 0 < |faces| && k < 24
    requires FacesInRange(tb, faces[..|faces| - 1])
    requires |Assemble(tb, faces[..|faces| - 1])| == 24 * (|faces| - 1)
    ensures Assemble(tb, faces)[24 * (|faces| - 1) + k] == FaceFloats(tb, faces[|faces| - 1])[k]
  {
    var prefix := Assemble(tb, faces[..|faces| - 1]);
    var last := FaceFloats(tb, faces[|faces| - 1]);
    assert Assemble(tb, faces) == prefix + last;
    AppendIndexRight(prefix, last, |faces| - 1, k);
  }

  lemma AppendIndexLeft(a: seq<real>, b: seq<real>, i: nat)
    requires i < |a|
    ensures (a + b)[i] == a[i]
  {
  }

  lemma AppendIndexRight(a: seq<real>, b: seq<real>, n: nat, k: nat)
    requires |a| == 24 * n && k < |b|
    ensures (a + b)[24 * n + k] == b[k]
  {
  }

  lemma {:induction false} AssembleLength(tb: Tables, faces: seq<Face>)
    requires FacesInRange(tb, faces)
    ensures |Assemble(tb, faces)| == 24 * |faces|
    decreases |faces|
  {
    if |faces| > 0 {
      AssembleLength(tb, faces[..|faces| - 1]);
    }
  }

  /**
    The flat position table holds the position records' coordinates in
    order: point `i` is the floats `3 i`, `3 i + 1`, `3 i + 2`.
   */
  lemma {:induction false} PositionsArePoints(header: seq<Record>)
    requires WellSized(header)
    ensures |Positions(header)| == 3 * |Points(header)|
    ensures forall i, k :: 0 <= i < |Points(header)| && 0 <= k < 3 ==>
      Positions(header)[3 * i + k] == Coord(Points(header)[i], k)
    decreases |header|
  {
    if |header| > 0 {
      var front := header[..|header| - 1];
      assert WellSized(front) by {
        forall i | 0 <= i < |front|
          ensures |front[i].values| == Arity(front[i].tag)
        {
          assert front[i] == header[i];
        }
      }
      PositionsArePoints(front);
    }
  }

  /**
    `load_vtn`'s box: each maximum is at least the sentinel -1 and each minimum
    at most 10000; every position lies inside; and each bound is the sentinel
    or is attained by some position.
   */
  lemma VtnBoxIsSentinelExtrema(header: seq<Record>)
    requires WellSized(header)
    ensures var b := BoxOf(VtnSeed, Points(header));
            var pts := Points(header);
            (forall k :: 0 <= k < 3 ==> -1.0 <= Coord(b.hi, k) && Coord(b.lo, k) <= 10000.0)
            && (forall i :: 0 <= i < |pts| ==> Contains(b, pts[i]))
            && (forall k :: 0 <= k < 3 ==>
                 (Coord(b.hi, k) == -1.0 || exists i :: 0 <= i < |pts| && Coord(pts[i], k) == Coord(b.hi, k))
                 && (Coord(b.lo, k) == 10000.0 || exists i :: 0 <= i < |pts| && Coord(pts[i], k) == Coord(b.lo, k)))
  {
    BoxOfContains(VtnSeed, Points(header));
    BoxOfAttained(VtnSeed, Points(header));
    assert forall k :: 0 <= k < 3 ==> Coord(VtnSeed.hi, k) == -1.0 && Coord(VtnSeed.lo, k) == 10000.0;
  }

  /**
    The sentinels leak into the box: a mesh whose x coordinates all lie below
    -1 still gets `xmax == -1`.
   */
  lemma SentinelLeaks()
    ensures var header := [Record("v", [-5.0, 0.0, 0.0]), Record("vn", [0.0, 0.0, 1.0]), Record("vt", [0.0, 0.0])];
            BoxOf(VtnSeed, Points(header)).hi.x == -1.0
  {
    var header := [Record("v", [-5.0, 0.0, 0.0]), Record("vn", [0.0, 0.0, 1.0]), Record("vt", [0.0, 0.0])];
    var p := Vec3(-5.0, 0.0, 0.0);
    assert header[..2][..1] == header[..1];
    assert header[..1][..0] == [];
    assert Points(header[..1]) == [p];
    assert Points(header) == Points(header[..2]) == Points(header[..1]);
    assert BoxOf(VtnSeed, [p]) == Grow(VtnSeed, p) by {
      assert [p][..0] == [];
    }
  }

  // ---------------------------------------------------------------------
  // load
  // ---------------------------------------------------------------------

  /** `unsigned int`. */
  newtype U32 = x: int | 0 <= x < 0x1_0000_0000

  /** A triangle of 1-based position indices as read. */
  datatype Triangle = Triangle(i0: U32, i1: U32, i2: U32)

  /** `tmpu - 1` in unsigned arithmetic: 0 wraps to 0xFFFFFFFF. */
  function IndexOf(u: U32): (v: U32)
    ensures 1 <= u ==> v as int == u as int - 1
    ensures u == 0 ==> v == 0xFFFF_FFFF
  {
    ((u as int - 1) % 0x1_0000_0000) as U32
  }

  /** The six floats of one vertex: its position and a zero normal. */
  function VertexFloats(p: Vec3): seq<real> {
    [p.x, p.y, p.z, 0.0, 0.0, 0.0]
  }

  function VertexBuffer(pts: seq<Vec3>): (buf: seq<real>)
    ensures |buf| == 6 * |pts|
    decreases |pts|
  {
    if |pts| == 0 then [] else VertexBuffer(pts[..|pts| - 1]) + VertexFloats(pts[|pts| - 1])
  }

  function IndexBuffer(faces: seq<Triangle>): seq<U32>
    decreases |faces|
  {
    if |faces| == 0 then []
    else
      var t := faces[|faces| - 1];
      IndexBuffer(faces[..|faces| - 1]) + [IndexOf(t.i0), IndexOf(t.i1), IndexOf(t.i2)]
  }

  // ---------------------------------------------------------------------
  // load's normals: updateNormal and getNormal
  // ---------------------------------------------------------------------

  /** Vertex `v`'s position in a buffer of six floats per vertex. */
  function PositionAt(buf: seq<real>, v: nat): Vec3
    requires 6 * v + 6 <= |buf|
  {
    Vec3(buf[6 * v], buf[6 * v + 1], buf[6 * v + 2])
  }

  /** Vertex `v`'s normal in a buffer of six floats per vertex. */
  function NormalAt(buf: seq<real>, v: nat): Vec3
    requires 6 * v + 6 <= |buf|
  {
    Vec3(buf[6 * v + 3], buf[6 * v + 4], buf[6 * v + 5])
  }

  /** Overwrite the three normal slots of vertex `v`, and nothing else. */
  function SetNormal(buf: seq<real>, v: nat, n: Vec3): (buf': seq<real>)
    requires 6 * v + 6 <= |buf|
    ensures |buf'| == |buf| && NormalAt(buf', v) == n
    ensures forall i :: 0 <= i < |buf| && (i < 6 * v + 3 || 6 * v + 6 <= i) ==> buf'[i] == buf[i]
  {
    buf[6 * v + 3 := n.x][6 * v + 4 := n.y][6 * v + 5 := n.z]
  }

  /**
    `getNormal`: the cross product of the edges AB and BC over its length,
    which is `glm::normalize` of that cross product.
   */
  function FaceNormal(t: Transcendentals, a: Vec3, b: Vec3, c: Vec3): Vec3 {
    Normalize(t, Cross(Sub(b, a), Sub(c, b)))
  }

  /** One corner of `updateNormal`: vertex `v`'s normal becomes the normalised sum of itself and `n`. */
  function Accumulate(t: Transcendentals, buf: seq<real>, v: nat, n: Vec3): (buf': seq<real>)
    requires 6 * v + 6 <= |buf|
    ensures |buf'| == |buf|
  {
    SetNormal(buf, v, Normalize(t, Add(NormalAt(buf, v), n)))
  }

  /** The 1-based index `u` names one of `count` vertices. */
  predicate IndexIn(u: U32, count: nat) {
    1 <= u as int <= count
  }

  predicate TriangleIn(tri: Triangle, count: nat) {
    IndexIn(tri.i0, count) && IndexIn(tri.i1, count) && IndexIn(tri.i2, count)
  }

  predicate TrianglesIn(tris: seq<Triangle>, count: nat) {
    forall i :: 0 <= i < |tris| ==> TriangleIn(tris[i], count)
  }

  /** Face `tri` has 0-based vertex `v` among its corners. */
  predicate Touches(tri: Triangle, v: nat) {
    tri.i0 as int == v + 1 || tri.i1 as int == v + 1 || tri.i2 as int == v + 1
  }

  predicate Referenced(tris: seq<Triangle>, v: nat) {
    exists i :: 0 <= i < |tris| && Touches(tris[i], v)
  }

  /**
    `updateNormal`: the face normal from the three corners' positions, then
    each corner in order adds it to its normal and renormalises.
   */
  function UpdateNormal(t: Transcendentals, buf: seq<real>, tri: Triangle): (buf': seq<real>)
    requires TriangleIn(tri, |buf| / 6)
    ensures |buf'| == |buf|
  {
    var v0, v1, v2 := tri.i0 as nat - 1, tri.i1 as nat - 1, tri.i2 as nat - 1;
    var n := FaceNormal(t, PositionAt(buf, v0), PositionAt(buf, v1), PositionAt(buf, v2));
    Accumulate(t, Accumulate(t, Accumulate(t, buf, v0, n), v1, n), v2, n)
  }

  /** The face loop's normal updates, face after face. */
  function Shade(t: Transcendentals, buf: seq<real>, tris: seq<Triangle>): (buf': seq<real>)
    requires TrianglesIn(tris, |buf| / 6)
    ensures |buf'| == |buf|
    decreases |tris|
  {
    if |tris| == 0 then buf
    else UpdateNormal(t, Shade(t, buf, tris[..|tris| - 1]), tris[|tris| - 1])
  }

  /** Setting one vertex's normal leaves every position and every other vertex's normal alone. */
  lemma SetNormalElsewhere(buf: seq<real>, v: nat, n: Vec3, w: nat)
    requires 6 * v + 6 <= |buf| && 6 * w + 6 <= |buf|
    ensures PositionAt(SetNormal(buf, v, n), w) == PositionAt(buf, w)
    ensures w != v ==> NormalAt(SetNormal(buf, v, n), w) == NormalAt(buf, w)
  {
    var b := SetNormal(buf, v, n);
    assert 6 * w + 2 < 6 * v + 3 || 6 * v + 6 <= 6 * w;
    if w != v {
      assert 6 * w + 5 < 6 * v + 3 || 6 * v + 6 <= 6 * w + 3;
    }
  }

  /** One corner's update keeps every position and every other vertex's normal. */
  lemma AccumulateEffect(t: Transcendentals, buf: seq<real>, v: nat, n: Vec3, w: nat)
    requires 6 * v + 6 <= |buf| && 6 * w + 6 <= |buf|
    ensures PositionAt(Accumulate(t, buf, v, n), w) == PositionAt(buf, w)
    ensures w != v ==> NormalAt(Accumulate(t, buf, v, n), w) == NormalAt(buf, w)
    ensures w == v ==> NormalAt(Accumulate(t, buf, v, n), w) == Normalize(t, Add(NormalAt(buf, v), n))
  {
    SetNormalElsewhere(buf, v, Normalize(t, Add(NormalAt(buf, v), n)), w);
  }

  /**
    One `updateNormal` call keeps every position; a vertex the face does not
    touch keeps its normal; a vertex it touches ends with the normalised sum
    of its previous normal and the face normal.
   */
  lemma UpdateNormalEffect(t: Transcendentals, buf: seq<real>, tri: Triangle, w: nat)
    requires TriangleIn(tri, |buf| / 6) && 6 * w + 6 <= |buf|
    ensures PositionAt(UpdateNormal(t, buf, tri), w) == PositionAt(buf, w)
    ensures !Touches(tri, w) ==> NormalAt(UpdateNormal(t, buf, tri), w) == NormalAt(buf, w)
    ensures Touches(tri, w) ==> exists m :: NormalAt(UpdateNormal(t, buf, tri), w) == Normalize(t, m)
  {
    var v0, v1, v2 := tri.i0 as nat - 1, tri.i1 as nat - 1, tri.i2 as nat - 1;
    var n := FaceNormal(t, PositionAt(buf, v0), PositionAt(buf, v1), PositionAt(buf, v2));
    var b1 := Accumulate(t, buf, v0, n);
    var b2 := Accumulate(t, b1, v1, n);
    assert UpdateNormal(t, buf, tri) == Accumulate(t, b2, v2, n);
    AccumulateEffect(t, buf, v0, n, w);
    AccumulateEffect(t, b1, v1, n, w);
    AccumulateEffect(t, b2, v2, n, w);
    if w == v2 {
      assert NormalAt(UpdateNormal(t, buf, tri), w) == Normalize(t, Add(NormalAt(b2, v2), n));
    } else if w == v1 {
      assert NormalAt(UpdateNormal(t, buf, tri), w) == Normalize(t, Add(NormalAt(b1, v1), n));
    } else if w == v0 {
      assert NormalAt(UpdateNormal(t, buf, tri), w) == Normalize(t, Add(NormalAt(buf, v0), n));
    }
  }

  /** Dropping the last face keeps the faces in range. */
  lemma TrianglesInPrefix(tris: seq<Triangle>, count: nat, k: nat)
    requires TrianglesIn(tris, count) && k <= |tris|
    ensures TrianglesIn(tris[..k], count)
  {
    forall i | 0 <= i < k
      ensures TriangleIn(tris[..k][i], count)
    {
      assert tris[..k][i] == tris[i];
    }
  }

  /** A vertex is referenced by some face exactly when an earlier face or the last one touches it. */
  lemma ReferencedSplit(tris: seq<Triangle>, w: nat)
    requires 0 < |tris|
    ensures Referenced(tris, w) <==> Referenced(tris[..|tris| - 1], w) || Touches(tris[|tris| - 1], w)
  {
    var k := |tris| - 1;
    var front := tris[..k];
    if Referenced(front, w) {
      var i :| 0 <= i < |front| && Touches(front[i], w);
      assert tris[i] == front[i];
    }
    if Referenced(tris, w) && !Touches(tris[k], w) {
      var i :| 0 <= i < |tris| && Touches(tris[i], w);
      assert front[i] == tris[i];
    }
  }

  /**
    The face loop keeps every position; a vertex no face references keeps
    its normal; the normal of a referenced vertex is the result of a
    normalisation.
   */
  lemma {:induction false} ShadeEffect(t: Transcendentals, buf: seq<real>, tris: seq<Triangle>, w: nat)
    requires TrianglesIn(tris, |buf| / 6) && 6 * w + 6 <= |buf|
    ensures PositionAt(Shade(t, buf, tris), w) == PositionAt(buf, w)
    ensures !Referenced(tris, w) ==> NormalAt(Shade(t, buf, tris), w) == NormalAt(buf, w)
    ensures Referenced(tris, w) ==> exists m :: NormalAt(Shade(t, buf, tris), w) == Normalize(t, m)
    decreases |tris|
  {
    if |tris| > 0 {
      var k := |tris| - 1;
      TrianglesInPrefix(tris, |buf| / 6, k);
      ShadeEffect(t, buf, tris[..k], w);
      UpdateNormalEffect(t, Shade(t, buf, tris[..k]), tris[k], w);
      ReferencedSplit(tris, w);
    }
  }

  /** Under the square-root law a normalised vector is a unit vector or, for the zero vector, zero. */
  lemma NormalizedLength(t: Transcendentals, m: Vec3)
    requires SqrtLaw(t)
    ensures Norm2(Normalize(t, m)) == 1.0 || Normalize(t, m) == Zero
  {
    if m != Zero {
      NormalizeUnit(t, m);
    } else {
      NormalizeZero(t, m);
    }
  }

  // ---------------------------------------------------------------------
  // load
  // ---------------------------------------------------------------------

  /** What `load` leaves in the mesh. */
  datatype IndexedMesh = IndexedMesh(vertices: seq<real>, indices: seq<U32>, numIndices: nat, box: Box)

  /**
    `load`: the first vertex seeds both the maxima and the minima; each vertex
    is stored with a zero normal; each face index is stored minus one, and
    each face then updates the normals of its corners. Every face index must
    name a vertex read before it: the source does not check, and any other
    index makes `updateNormal` read and write outside the buffer.
   */
  method Load(t: Transcendentals, first: Vec3, rest: seq<Vec3>, faces: seq<Triangle>) returns (m: IndexedMesh)
    requires TrianglesIn(faces, 1 + |rest|)
    ensures |m.vertices| == 6 * (1 + |rest|)
    ensures m.vertices == Shade(t, VertexBuffer([first] + rest), faces)
    ensures m.indices == IndexBuffer(faces)
    ensures m.numIndices == 3 * |faces| && |m.indices| == m.numIndices
    ensures m.box == BoxOf(Box(first, first), rest)
  {
    var pts := [first] + rest;
    var vertices := VertexFloats(first);
    var box := Box(first, first);
    assert pts[..1] == [first];
    assert pts[..0] == [];
    var i := 0;
    while i < |rest|
      invariant 0 <= i <= |rest|
      invariant vertices == VertexBuffer(pts[..i + 1])
      invariant |vertices| == 6 * (i + 1)
      invariant box == BoxOf(Box(first, first), rest[..i])
    {
      assert pts[..i + 2][..i + 1] == pts[..i + 1];
      assert rest[..i + 1][..i] == rest[..i];
      vertices := vertices + VertexFloats(rest[i]);
      box := Grow(box, rest[i]);
      i := i + 1;
    }
    assert pts[..i + 1] == pts;
    assert rest[..i] == rest;
    var base := vertices;
    assert |base| / 6 == 1 + |rest|;
    var indices: seq<U32> := [];
    var f := 0;
    while f < |faces|
      invariant 0 <= f <= |faces|
      invariant vertices == Shade(t, base, faces[..f])
      invariant indices == IndexBuffer(faces[..f])
      invariant |indices| == 3 * f
    {
      assert faces[..f + 1][..f] == faces[..f];
      TrianglesInPrefix(faces, |base| / 6, f + 1);
      var tri := faces[f];
      indices := indices + [IndexOf(tri.i0), IndexOf(tri.i1), IndexOf(tri.i2)];
      vertices := UpdateNormal(t, vertices, tri);
      f := f + 1;
    }
    assert faces[..f] == faces;
    m := IndexedMesh(vertices, indices, |indices|, box);
  }

  /** Vertex `i` of the buffer holds point `i` followed by three zero normal slots. */
  lemma {:induction false} VertexBufferLayout(pts: seq<Vec3>, i: nat, k: nat)
    requires i < |pts| && k < 6
    ensures |VertexBuffer(pts)| == 6 * |pts|
    ensures VertexBuffer(pts)[6 * i + k] == if k < 3 then Coord(pts[i], k) else 0.0
    decreases |pts|
  {
    var front := pts[..|pts| - 1];
    if i < |pts| - 1 {
      assert pts[i] == front[i];
      VertexBufferLayout(front, i, k);
    } else if |front| > 0 {
      VertexBufferLayout(front, 0, 0);
    }
  }

  /** Index `3 f + j` of the buffer is corner `j` of face `f`, minus one, wrapping at zero. */
  lemma {:induction false} IndexBufferLayout(faces: seq<Triangle>, f: nat, j: nat)
    requires f < |faces| && j < 3
    ensures |IndexBuffer(faces)| == 3 * |faces|
    ensures var t := faces[f];
            var u := if j == 0 then t.i0 else if j == 1 then t.i1 else t.i2;
            IndexBuffer(faces)[3 * f + j] == IndexOf(u)
    decreases |faces|
  {
    var front := faces[..|faces| - 1];
    if f < |faces| - 1 {
      assert faces[f] == front[f];
      IndexBufferLayout(front, f, j);
    } else if |front| > 0 {
      IndexBufferLayout(front, 0, 0);
    }
  }

  /**
    What `load` uploads for vertex `v`: its position as read; a zero normal
    when no face references it; otherwise a unit normal, or zero where the
    summed normals cancel (where the C++ divides by a zero length).
   */
  lemma LoadedVertex(t: Transcendentals, pts: seq<Vec3>, faces: seq<Triangle>, v: nat)
    requires SqrtLaw(t) && v < |pts| && TrianglesIn(faces, |pts|)
    ensures |VertexBuffer(pts)| == 6 * |pts|
    ensures var buf := Shade(t, VertexBuffer(pts), faces);
            PositionAt(buf, v) == pts[v]
            && (!Referenced(faces, v) ==> NormalAt(buf, v) == Zero)
            && (Referenced(faces, v) ==> Norm2(NormalAt(buf, v)) == 1.0 || NormalAt(buf, v) == Zero)
  {
    var base := VertexBuffer(pts);
    assert |base| / 6 == |pts|;
    VertexBufferLayout(pts, v, 0);
    VertexBufferLayout(pts, v, 1);
    VertexBufferLayout(pts, v, 2);
    VertexBufferLayout(pts, v, 3);
    VertexBufferLayout(pts, v, 4);
    VertexBufferLayout(pts, v, 5);
    assert PositionAt(base, v) == Vec3(Coord(pts[v], 0), Coord(pts[v], 1), Coord(pts[v], 2)) == pts[v];
    assert NormalAt(base, v) == Zero;
    ShadeEffect(t, base, faces, v);
    if Referenced(faces, v) {
      var m :| NormalAt(Shade(t, base, faces), v) == Normalize(t, m);
      NormalizedLength(t, m);
    }
  }
}
