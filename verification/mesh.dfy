/**
  The hand-written `Mesh` class: the shared transform state plus the bounding
  box and element counts its loaders fill in, and its model matrix.
 */
module MeshModel {
  import opened Glm
  import opened BoundingBox
  import opened Placement

  datatype Mesh = Mesh(placement: Placement, box: Box, numIndices: nat, numVertices: nat)

  /** The bloom radius a new `Mesh` starts with. */
  const MeshBloomR: real := 0.01

  /** The constructor: the translation starts at `initialPosition`, the box and counts at zero. */
  function NewMesh(initialPosition: Vec3): (m: Mesh)
    ensures m.placement == Initial(initialPosition, MeshBloomR)
    ensures MinBloomR <= m.placement.bloomR <= MaxBloomR
    ensures m.box == Box(Zero, Zero) && m.numIndices == 0 && m.numVertices == 0
  {
    Mesh(Initial(initialPosition, MeshBloomR), Box(Zero, Zero), 0, 0)
  }

  /** The centre of the box, `((max + min) / 2)` per axis. */
  function Center(b: Box): Vec3 {
    Vec3((b.hi.x + b.lo.x) / 2.0, (b.hi.y + b.lo.y) / 2.0, (b.hi.z + b.lo.z) / 2.0)
  }

  /** The largest side of the box, `max(dx, max(dy, dz))`. */
  function MaxExtent(b: Box): (e: real)
    ensures forall k :: 0 <= k < 3 ==> Coord(b.hi, k) - Coord(b.lo, k) <= e
    ensures exists k :: 0 <= k < 3 && Coord(b.hi, k) - Coord(b.lo, k) == e
  {
    var e := Max(b.hi.x - b.lo.x, Max(b.hi.y - b.lo.y, b.hi.z - b.lo.z));
    assert Coord(b.hi, 0) - Coord(b.lo, 0) == b.hi.x - b.lo.x;
    assert Coord(b.hi, 1) - Coord(b.lo, 1) == b.hi.y - b.lo.y;
    assert Coord(b.hi, 2) - Coord(b.lo, 2) == b.hi.z - b.lo.z;
    e
  }

  /** The normalising matrix: move the box centre to the origin, then scale by 1 / (largest side). */
  function NormalizingMatrix(b: Box): Mat4 {
    var s := Recip(MaxExtent(b));
    Mul(Scaling(Vec3(s, s, s)), Translation(Neg(Center(b))))
  }

  /**
    `getModelMatrix(normalize)`. With `normalize` the rotated matrix is
    overwritten by the centring translation, so the result ignores `rotation`
    (and `translateDiff`); without it the result is `translate(translateDiff)`
    after the accumulated rotation.
   */
  function ModelMatrix(m: Mesh, normalize: bool): (M: Mat4)
    ensures normalize ==> TransformPoint(M, Center(m.box)) == Zero
  {
    var model := Mul(m.placement.rotation, Identity);
    if normalize then
      NormalizingCenters(m.box);
      NormalizingMatrix(m.box)
    else
      Mul(Translation(m.placement.translateDiff), model)
  }

  /** Without normalising, the model matrix is the translation applied after the accumulated rotation. */
  lemma UnnormalizedModel(m: Mesh)
    ensures ModelMatrix(m, false) == Mul(Translation(m.placement.translateDiff), m.placement.rotation)
  {
    MulIdentityRight(m.placement.rotation);
  }

  /** The normalised model matrix does not depend on the accumulated rotation. */
  lemma NormalizedIgnoresRotation(m: Mesh, rotation: Mat4)
    ensures ModelMatrix(m.(placement := m.placement.(rotation := rotation)), true) == ModelMatrix(m, true)
  {
  }

  /** The normalising matrix maps a point `p` to `s (p - center)`, with `s` the reciprocal of the largest side. */
  lemma NormalizingMaps(b: Box, p: Vec3)
    ensures TransformPoint(NormalizingMatrix(b), p) == Scale(Sub(p, Center(b)), Recip(MaxExtent(b)))
  {
    var s := Recip(MaxExtent(b));
    ScaleAfterTranslateMaps(s, Neg(Center(b)), p);
    ScaleDistributes(s, Center(b), p);
  }

  lemma UnitInterval(m: real, x: real)
    requires 0.0 < m && -m / 2.0 <= x <= m / 2.0
    ensures -0.5 <= Times(Recip(m), x) <= 0.5
  {
    var q := Recip(m);
    assert Times(q, m) == 1.0;
    assert 0.0 < q;
    ProductNonNegative(q, m / 2.0 - x);
    ProductNonNegative(q, x + m / 2.0);
    assert Times(q, m / 2.0 - x) == Times(q, m) / 2.0 - Times(q, x);
    assert Times(q, x + m / 2.0) == Times(q, x) + Times(q, m) / 2.0;
  }

  lemma ProductNonNegative(a: real, b: real)
    requires 0.0 <= a && 0.0 <= b
    ensures 0.0 <= Times(a, b)
  {
    if 0.0 < a && 0.0 < b {
      ProductPositive(a, b);
    }
  }

  /** `q` lies in the cube [-1/2, 1/2]^3 centred on the origin. */
  predicate InUnitCube(q: Vec3) {
    forall k :: 0 <= k < 3 ==> -0.5 <= Coord(q, k) <= 0.5
  }

  /** On one axis: a coordinate between `lo` and `hi`, taken from their midpoint and scaled by `1 / e` with `hi - lo <= e`, lies in [-1/2, 1/2]. */
  lemma AxisIntoUnit(lo: real, hi: real, x: real, e: real)
    requires 0.0 < e && lo <= x <= hi && hi - lo <= e
    ensures -0.5 <= Times(Recip(e), x - (hi + lo) / 2.0) <= 0.5
  {
    UnitInterval(e, x - (hi + lo) / 2.0);
  }

  /** Relative to the centre and scaled by 1 / (largest side), a point of the box lies in the unit cube. */
  lemma ScaledIntoCube(b: Box, p: Vec3)
    requires 0.0 < MaxExtent(b) && Contains(b, p)
    ensures InUnitCube(Scale(Sub(p, Center(b)), Recip(MaxExtent(b))))
  {
    var e := MaxExtent(b);
    var s := Recip(e);
    var d := Sub(p, Center(b));
    var q := Scale(d, s);
    assert q == Vec3(Times(s, d.x), Times(s, d.y), Times(s, d.z)) by {
      ScaleAsTimes(d, s);
    }
    assert Coord(b.lo, 0) <= Coord(p, 0) <= Coord(b.hi, 0);
    assert Coord(b.lo, 1) <= Coord(p, 1) <= Coord(b.hi, 1);
    assert Coord(b.lo, 2) <= Coord(p, 2) <= Coord(b.hi, 2);
    assert Coord(b.hi, 0) - Coord(b.lo, 0) <= e;
    assert Coord(b.hi, 1) - Coord(b.lo, 1) <= e;
    assert Coord(b.hi, 2) - Coord(b.lo, 2) <= e;
    AxisIntoUnit(b.lo.x, b.hi.x, p.x, e);
    AxisIntoUnit(b.lo.y, b.hi.y, p.y, e);
    AxisIntoUnit(b.lo.z, b.hi.z, p.z, e);
    assert -0.5 <= Coord(q, 0) <= 0.5;
    assert -0.5 <= Coord(q, 1) <= 0.5;
    assert -0.5 <= Coord(q, 2) <= 0.5;
  }

  lemma CenterToOrigin(b: Box, s: real)
    ensures Scale(Sub(Center(b), Center(b)), s) == Zero
  {
    assert Sub(Center(b), Center(b)) == Zero;
    ScaleByZeroAndOne(Zero);
    ScaleAsTimes(Zero, s);
  }

  /** The normalising matrix moves the box centre to the origin. */
  lemma NormalizingCenters(b: Box)
    ensures TransformPoint(NormalizingMatrix(b), Center(b)) == Zero
  {
    var c := Center(b);
    var s := Recip(MaxExtent(b));
    assert Scale(Sub(c, c), s) == Zero by {
      CenterToOrigin(b, s);
    }
    assert TransformPoint(NormalizingMatrix(b), c) == Scale(Sub(c, c), s) by {
      NormalizingMaps(b, c);
    }
  }

  /**
    `getModelMatrix(true)` does what its comment promises for a box with a
    non-degenerate largest side: every point of the box lands in the cube
    [-1/2, 1/2]^3.
   */
  lemma NormalizedFitsUnitCube(m: Mesh, p: Vec3)
    requires 0.0 < MaxExtent(m.box) && Contains(m.box, p)
    ensures InUnitCube(TransformPoint(ModelMatrix(m, true), p))
  {
    var q := Scale(Sub(p, Center(m.box)), Recip(MaxExtent(m.box)));
    assert InUnitCube(q) by {
      ScaledIntoCube(m.box, p);
    }
    assert TransformPoint(NormalizingMatrix(m.box), p) == q by {
      NormalizingMaps(m.box, p);
    }
  }

  /** Two points scaled about the same centre are apart by the scaled difference. */
  lemma ScaledDifference(p: Vec3, q: Vec3, c: Vec3, s: real)
    ensures Sub(Scale(Sub(p, c), s), Scale(Sub(q, c), s)) == Scale(Sub(p, q), s)
  {
    assert s * (p.x - c.x) - s * (q.x - c.x) == s * (p.x - q.x);
    assert s * (p.y - c.y) - s * (q.y - c.y) == s * (p.y - q.y);
    assert s * (p.z - c.z) - s * (q.z - c.z) == s * (p.z - q.z);
  }

  /** A corner-to-corner vector of unit size: no side longer than 1, and some side exactly 1. */
  predicate UnitSize(d: Vec3) {
    (forall k :: 0 <= k < 3 ==> Coord(d, k) <= 1.0)
    && exists k :: 0 <= k < 3 && Coord(d, k) == 1.0
  }

  /** Scaled by 1 / (largest side), the box's sides are at most 1 long, and the largest is exactly 1. */
  lemma ScaledSides(b: Box)
    requires 0.0 < MaxExtent(b)
    ensures UnitSize(Scale(Sub(b.hi, b.lo), Recip(MaxExtent(b))))
  {
    var e := MaxExtent(b);
    var s := Recip(e);
    assert Times(s, e) == 1.0;
    assert 0.0 < s;
    var d := Scale(Sub(b.hi, b.lo), s);
    forall k | 0 <= k < 3
      ensures Coord(d, k) <= 1.0
    {
      assert Coord(d, k) == Times(s, Coord(b.hi, k) - Coord(b.lo, k));
      ProductNonNegative(s, e - (Coord(b.hi, k) - Coord(b.lo, k)));
      assert Times(s, e - (Coord(b.hi, k) - Coord(b.lo, k))) == Times(s, e) - Times(s, Coord(b.hi, k) - Coord(b.lo, k));
    }
    var k :| 0 <= k < 3 && Coord(b.hi, k) - Coord(b.lo, k) == e;
    assert Coord(d, k) == Times(s, e);
  }

  /** The normalised model matrix moves the box's corners apart by its sides scaled by 1 / (largest side). */
  lemma NormalizedCorners(m: Mesh)
    ensures Sub(TransformPoint(ModelMatrix(m, true), m.box.hi), TransformPoint(ModelMatrix(m, true), m.box.lo))
            == Scale(Sub(m.box.hi, m.box.lo), Recip(MaxExtent(m.box)))
  {
    var b := m.box;
    NormalizingMaps(b, b.hi);
    NormalizingMaps(b, b.lo);
    ScaledDifference(b.hi, b.lo, Center(b), Recip(MaxExtent(b)));
  }

  /**
    `getModelMatrix(true)` normalises the size to 1: the images of the box's
    corners are at most 1 apart on every axis and exactly 1 apart on the axis
    of the largest side.
   */
  lemma NormalizedSizeIsOne(m: Mesh)
    requires 0.0 < MaxExtent(m.box)
    ensures UnitSize(Sub(TransformPoint(ModelMatrix(m, true), m.box.hi), TransformPoint(ModelMatrix(m, true), m.box.lo)))
  {
    NormalizedCorners(m);
    ScaledSides(m.box);
  }
}
