/**
  The part of the glm vector library that the demo relies on, over exact reals.

  Vectors and 4x4 matrices are concrete (a matrix is stored by columns, as glm
  stores it). The functions whose numeric content is transcendental -- sqrt,
  acos, sin, cos, glm::rotate and glm::lookAt -- are not defined here: they are
  the fields of a `Transcendentals` value that every caller receives as a
  parameter, and the only facts known about them are the laws below, which
  lemmas take as preconditions.
 */
module Glm {

  datatype Vec3 = Vec3(x: real, y: real, z: real)

  datatype Vec4 = Vec4(x: real, y: real, z: real, w: real)

  /** A 4x4 matrix given by its four columns (glm's `mat4` layout). */
  datatype Mat4 = Mat4(c0: Vec4, c1: Vec4, c2: Vec4, c3: Vec4)

  const Zero: Vec3 := Vec3(0.0, 0.0, 0.0)

  function Add(a: Vec3, b: Vec3): Vec3 {
    Vec3(a.x + b.x, a.y + b.y, a.z + b.z)
  }

  function Sub(a: Vec3, b: Vec3): Vec3 {
    Vec3(a.x - b.x, a.y - b.y, a.z - b.z)
  }

  function Neg(a: Vec3): Vec3 {
    Vec3(-a.x, -a.y, -a.z)
  }

  function Scale(a: Vec3, k: real): Vec3 {
    Vec3(k * a.x, k * a.y, k * a.z)
  }

  function Dot(a: Vec3, b: Vec3): real {
    a.x * b.x + a.y * b.y + a.z * b.z
  }

  lemma ScaleByZeroAndOne(v: Vec3)
    ensures Scale(v, 0.0) == Zero && Scale(v, 1.0) == v
  {
  }

  function Min(a: real, b: real): real {
    if a <= b then a else b
  }

  function Max(a: real, b: real): real {
    if a >= b then a else b
  }

  /** `1.0f / c`. A float division by zero gives infinity; here it gives 0. */
  function Recip(c: real): (q: real)
    ensures c != 0.0 ==> Times(q, c) == 1.0
  {
    if c == 0.0 then 0.0 else 1.0 / c
  }

  /** Coordinate `k` of a vector: x, y, z for 0, 1, 2. */
  function Coord(p: Vec3, k: nat): real
    requires k < 3
  {
    if k == 0 then p.x else if k == 1 then p.y else p.z
  }

  /**
    Real multiplication and squaring as named functions. Facts about products
    are stated over these names so that they survive the solver's own
    rewriting of raw products.
   */
  function Times(a: real, b: real): real {
    a * b
  }

  function Sq(k: real): real {
    Times(k, k)
  }

  lemma ProductPositive(a: real, b: real)
    requires 0.0 < a && 0.0 < b
    ensures 0.0 < Times(a, b)
  {
  }

  /** A square is non-negative, and zero only for zero. */
  lemma SqFacts(k: real)
    ensures 0.0 <= Sq(k)
    ensures Sq(k) == 0.0 <==> k == 0.0
  {
    if k > 0.0 {
      ProductPositive(k, k);
    } else if k < 0.0 {
      ProductPositive(-k, -k);
      assert Sq(k) == Sq(-k);
    }
  }

  lemma DiffOfSquares(a: real, b: real)
    ensures Sq(b) - Sq(a) == Times(b - a, b + a)
  {
  }

  /** Squaring is strictly increasing on the non-negative reals. */
  lemma SqMonotone(a: real, b: real)
    requires 0.0 <= a && 0.0 <= b
    ensures a < b <==> Sq(a) < Sq(b)
  {
    if a < b {
      DiffOfSquares(a, b);
      ProductPositive(b - a, b + a);
    } else if b < a {
      DiffOfSquares(b, a);
      ProductPositive(a - b, a + b);
    }
  }

  /** Two non-negative reals with the same square are equal. */
  lemma SqInjective(a: real, b: real)
    requires 0.0 <= a && 0.0 <= b && Sq(a) == Sq(b)
    ensures a == b
  {
    SqMonotone(a, b);
    SqMonotone(b, a);
  }

  /** Squared Euclidean length; zero exactly for the zero vector. */
  function Norm2(a: Vec3): (r: real)
    ensures 0.0 <= r
    ensures r == 0.0 <==> a == Zero
  {
    SqFacts(a.x);
    SqFacts(a.y);
    SqFacts(a.z);
    assert Dot(a, a) == Sq(a.x) + Sq(a.y) + Sq(a.z);
    Dot(a, a)
  }

  /** The cross product is orthogonal to both of its arguments. */
  function Cross(a: Vec3, b: Vec3): (r: Vec3)
    ensures Dot(r, a) == 0.0 && Dot(r, b) == 0.0
  {
    Vec3(a.y * b.z - a.z * b.y, a.z * b.x - a.x * b.z, a.x * b.y - a.y * b.x)
  }

  function Add4(a: Vec4, b: Vec4): Vec4 {
    Vec4(a.x + b.x, a.y + b.y, a.z + b.z, a.w + b.w)
  }

  function Scale4(a: Vec4, k: real): Vec4 {
    Vec4(k * a.x, k * a.y, k * a.z, k * a.w)
  }

  /** Matrix times column vector: the combination of the columns weighted by `v`. */
  function MulV(m: Mat4, v: Vec4): Vec4 {
    Add4(Add4(Scale4(m.c0, v.x), Scale4(m.c1, v.y)), Add4(Scale4(m.c2, v.z), Scale4(m.c3, v.w)))
  }

  /** Matrix product `a * b`, column by column. */
  function Mul(a: Mat4, b: Mat4): Mat4 {
    Mat4(MulV(a, b.c0), MulV(a, b.c1), MulV(a, b.c2), MulV(a, b.c3))
  }

  const Identity: Mat4 :=
    Mat4(Vec4(1.0, 0.0, 0.0, 0.0), Vec4(0.0, 1.0, 0.0, 0.0), Vec4(0.0, 0.0, 1.0, 0.0), Vec4(0.0, 0.0, 0.0, 1.0))

  /** glm::translate(mat4(1), v). */
  function Translation(v: Vec3): Mat4 {
    Mat4(Identity.c0, Identity.c1, Identity.c2, Vec4(v.x, v.y, v.z, 1.0))
  }

  /** glm::scale(mat4(1), v). */
  function Scaling(v: Vec3): Mat4 {
    Mat4(Vec4(v.x, 0.0, 0.0, 0.0), Vec4(0.0, v.y, 0.0, 0.0), Vec4(0.0, 0.0, v.z, 0.0), Identity.c3)
  }

  /** The image of the point `p` (homogeneous coordinate 1) under `m`, dropping w. */
  function TransformPoint(m: Mat4, p: Vec3): Vec3 {
    var q := MulV(m, Vec4(p.x, p.y, p.z, 1.0));
    Vec3(q.x, q.y, q.z)
  }

  /** An affine matrix: its last row is (0, 0, 0, 1). */
  predicate Affine(m: Mat4) {
    m.c0.w == 0.0 && m.c1.w == 0.0 && m.c2.w == 0.0 && m.c3.w == 1.0
  }

  /** Multiplying by a standard basis vector selects a column. */
  lemma MulVBasis(m: Mat4)
    ensures MulV(m, Identity.c0) == m.c0 && MulV(m, Identity.c1) == m.c1
    ensures MulV(m, Identity.c2) == m.c2 && MulV(m, Identity.c3) == m.c3
  {
    var z := Vec4(0.0, 0.0, 0.0, 0.0);
    assert Scale4(m.c0, 1.0) == m.c0 && Scale4(m.c0, 0.0) == z;
    assert Scale4(m.c1, 1.0) == m.c1 && Scale4(m.c1, 0.0) == z;
    assert Scale4(m.c2, 1.0) == m.c2 && Scale4(m.c2, 0.0) == z;
    assert Scale4(m.c3, 1.0) == m.c3 && Scale4(m.c3, 0.0) == z;
    assert forall a :: Add4(a, z) == a && Add4(z, a) == a;
  }

  /** The identity is a right unit of the matrix product. */
  lemma MulIdentityRight(m: Mat4)
    ensures Mul(m, Identity) == m
  {
    MulVBasis(m);
  }

  /** The identity maps every vector to itself. */
  lemma MulVIdentity(v: Vec4)
    ensures MulV(Identity, v) == v
  {
    assert Scale4(Identity.c0, v.x) == Vec4(v.x, 0.0, 0.0, 0.0);
    assert Scale4(Identity.c1, v.y) == Vec4(0.0, v.y, 0.0, 0.0);
    assert Scale4(Identity.c2, v.z) == Vec4(0.0, 0.0, v.z, 0.0);
    assert Scale4(Identity.c3, v.w) == Vec4(0.0, 0.0, 0.0, v.w);
  }

  /** The identity is a left unit of the matrix product. */
  lemma MulIdentityLeft(m: Mat4)
    ensures Mul(Identity, m) == m
  {
    MulVIdentity(m.c0);
    MulVIdentity(m.c1);
    MulVIdentity(m.c2);
    MulVIdentity(m.c3);
  }

  /** A translation moves every point by its vector. */
  lemma TranslationMoves(v: Vec3, p: Vec3)
    ensures TransformPoint(Translation(v), p) == Add(p, v)
  {
  }

  /** A scaling multiplies every coordinate by the matching factor. */
  lemma ScalingScales(v: Vec3, p: Vec3)
    ensures TransformPoint(Scaling(v), p) == Vec3(v.x * p.x, v.y * p.y, v.z * p.z)
  {
  }

  /** A uniform scaling by `s` followed by the translation `w`. */
  function DiagAffine(s: real, w: Vec3): Mat4 {
    Mat4(Vec4(s, 0.0, 0.0, 0.0), Vec4(0.0, s, 0.0, 0.0), Vec4(0.0, 0.0, s, 0.0), Vec4(w.x, w.y, w.z, 1.0))
  }

  lemma MulVDiagAffine(s: real, w: Vec3, v: Vec4)
    ensures MulV(DiagAffine(s, w), v)
         == Vec4(Times(s, v.x) + Times(w.x, v.w), Times(s, v.y) + Times(w.y, v.w), Times(s, v.z) + Times(w.z, v.w), v.w)
  {
    assert Scale4(Vec4(s, 0.0, 0.0, 0.0), v.x) == Vec4(v.x * s, 0.0, 0.0, 0.0);
    assert Scale4(Vec4(0.0, s, 0.0, 0.0), v.y) == Vec4(0.0, v.y * s, 0.0, 0.0);
    assert Scale4(Vec4(0.0, 0.0, s, 0.0), v.z) == Vec4(0.0, 0.0, v.z * s, 0.0);
  }

  lemma TimesUnits(a: real)
    ensures Times(0.0, a) == 0.0 && Times(a, 0.0) == 0.0 && Times(a, 1.0) == a && Times(1.0, a) == a
  {
  }

  /** Uniform scalings and translations are both of this shape. */
  lemma DiagAffineShapes(s: real, c: Vec3)
    ensures Scaling(Vec3(s, s, s)) == DiagAffine(s, Zero)
    ensures Translation(c) == DiagAffine(1.0, c)
  {
  }

  /** The image of a point under a scaling-then-translation matrix. */
  lemma TransformDiagAffine(s: real, w: Vec3, p: Vec3)
    ensures TransformPoint(DiagAffine(s, w), p) == Add(Scale(p, s), w)
  {
    MulVDiagAffine(s, w, Vec4(p.x, p.y, p.z, 1.0));
    TimesUnits(w.x);
    TimesUnits(w.y);
    TimesUnits(w.z);
  }

  lemma ScalingColumn(s: real, v: Vec4)
    requires v.w == 0.0
    ensures MulV(DiagAffine(s, Zero), v) == Vec4(Times(s, v.x), Times(s, v.y), Times(s, v.z), 0.0)
  {
    MulVDiagAffine(s, Zero, v);
    TimesUnits(0.0);
  }

  lemma ScalingLastColumn(s: real, c: Vec3)
    ensures MulV(DiagAffine(s, Zero), Vec4(c.x, c.y, c.z, 1.0)) == Vec4(Times(s, c.x), Times(s, c.y), Times(s, c.z), 1.0)
  {
    MulVDiagAffine(s, Zero, Vec4(c.x, c.y, c.z, 1.0));
    TimesUnits(1.0);
  }

  /** Scaling after translating by `c` is one matrix: scale by `s`, then move by `s c`. */
  lemma ScaleAfterTranslate(s: real, c: Vec3)
    ensures Mul(Scaling(Vec3(s, s, s)), Translation(c)) == DiagAffine(s, Vec3(Times(s, c.x), Times(s, c.y), Times(s, c.z)))
  {
    DiagAffineShapes(s, c);
    var B := DiagAffine(1.0, c);
    ScalingColumn(s, B.c0);
    ScalingColumn(s, B.c1);
    ScalingColumn(s, B.c2);
    ScalingLastColumn(s, c);
    TimesUnits(s);
  }

  /** Translating by `n` and then scaling by `s` sends `p` to `s p + s n`. */
  lemma ScaleAfterTranslateMaps(s: real, n: Vec3, p: Vec3)
    ensures TransformPoint(Mul(Scaling(Vec3(s, s, s)), Translation(n)), p) == Add(Scale(p, s), Scale(n, s))
  {
    var w := Vec3(Times(s, n.x), Times(s, n.y), Times(s, n.z));
    calc {
      TransformPoint(Mul(Scaling(Vec3(s, s, s)), Translation(n)), p);
    ==  { ScaleAfterTranslate(s, n); }
      TransformPoint(DiagAffine(s, w), p);
    ==  { TransformDiagAffine(s, w, p); }
      Add(Scale(p, s), w);
    ==  { ScaleAsTimes(n, s); }
      Add(Scale(p, s), Scale(n, s));
    }
  }

  lemma ScaleAsTimes(v: Vec3, k: real)
    ensures Scale(v, k) == Vec3(Times(k, v.x), Times(k, v.y), Times(k, v.z))
  {
  }

  /** `s p + s (-c) == s (p - c)`. */
  lemma ScaleDistributes(s: real, c: Vec3, p: Vec3)
    ensures Add(Scale(p, s), Scale(Neg(c), s)) == Scale(Sub(p, c), s)
  {
    assert Times(s, p.x) + Times(s, -c.x) == Times(s, p.x - c.x);
    assert Times(s, p.y) + Times(s, -c.y) == Times(s, p.y - c.y);
    assert Times(s, p.z) + Times(s, -c.z) == Times(s, p.z - c.z);
  }

  // ---------------------------------------------------------------------
  // Transcendental functions, supplied by the caller.
  // ---------------------------------------------------------------------

  /**
    The numeric functions the source takes from the C library and from glm.
    Angles given to `sin`, `cos` and `rotate` are in radians; `rotate(a, axis)`
    stands for glm::rotate(mat4(1), a, axis) and `lookAt(eye, target, up)` for
    glm::lookAt.
   */
  datatype Transcendentals = Transcendentals(
    sqrt: real -> real,
    acos: real -> real,
    sin: real -> real,
    cos: real -> real,
    pi: real,
    rotate: (real, Vec3) -> Mat4,
    lookAt: (Vec3, Vec3, Vec3) -> Mat4)

  /** `sqrt` is the non-negative square root on non-negative arguments. */
  ghost predicate SqrtLaw(t: Transcendentals) {
    forall x :: 0.0 <= x ==> 0.0 <= t.sqrt(x) && Sq(t.sqrt(x)) == x
  }

  /** The Pythagorean identity for `sin` and `cos`. */
  ghost predicate TrigLaw(t: Transcendentals) {
    forall a :: Sq(t.sin(a)) + Sq(t.cos(a)) == 1.0
  }

  /** glm::radians. */
  function Radians(t: Transcendentals, degrees: real): real {
    degrees * t.pi / 180.0
  }

  /** glm::length. */
  function Length(t: Transcendentals, v: Vec3): real {
    t.sqrt(Norm2(v))
  }

  /**
    glm::normalize, `v * inversesqrt(dot(v, v))`. Where that length is zero glm
    produces NaN components; here the result is the zero vector instead.
   */
  function Normalize(t: Transcendentals, v: Vec3): Vec3 {
    var len := t.sqrt(Norm2(v));
    if len == 0.0 then Zero else Scale(v, 1.0 / len)
  }

  /** Under the square-root law, sqrt(k*k) == k for non-negative k. */
  lemma SqrtOfSquare(t: Transcendentals, k: real)
    requires SqrtLaw(t) && 0.0 <= k
    ensures t.sqrt(Sq(k)) == k
  {
    SqFacts(k);
    SqInjective(t.sqrt(Sq(k)), k);
  }

  lemma Norm2Scale(v: Vec3, k: real)
    ensures Norm2(Scale(v, k)) == Times(Sq(k), Norm2(v))
  {
  }

  lemma DotScale(v: Vec3, w: Vec3, k: real)
    ensures Dot(Scale(v, k), w) == Times(k, Dot(v, w))
  {
  }

  lemma ReciprocalSquare(len: real)
    requires len != 0.0
    ensures Times(Sq(1.0 / len), Sq(len)) == 1.0
  {
  }

  /** A normalised non-zero vector has unit length and is a positive multiple of the input. */
  lemma NormalizeUnit(t: Transcendentals, v: Vec3)
    requires SqrtLaw(t) && v != Zero
    ensures Norm2(Normalize(t, v)) == 1.0
    ensures exists k :: 0.0 < k && Normalize(t, v) == Scale(v, k)
  {
    var n := Norm2(v);
    var len := t.sqrt(n);
    assert 0.0 <= len && Sq(len) == n;
    SqFacts(len);
    var k := 1.0 / len;
    Norm2Scale(v, k);
    ReciprocalSquare(len);
    assert Normalize(t, v) == Scale(v, k);
  }

  /** Normalisation yields the zero vector only for the zero vector. */
  lemma NormalizeZero(t: Transcendentals, v: Vec3)
    requires SqrtLaw(t)
    ensures Normalize(t, v) == Zero <==> v == Zero
  {
    if v != Zero {
      NormalizeUnit(t, v);
    }
  }

  /** Normalising a unit vector leaves it unchanged. */
  lemma NormalizeOfUnit(t: Transcendentals, v: Vec3)
    requires SqrtLaw(t) && Norm2(v) == 1.0
    ensures Normalize(t, v) == v
  {
    SqrtOfSquare(t, 1.0);
  }

  lemma Norm2Neg(v: Vec3)
    ensures Norm2(Neg(v)) == Norm2(v)
  {
  }

  /** Normalisation commutes with negation. */
  lemma NormalizeNeg(t: Transcendentals, v: Vec3)
    ensures Normalize(t, Neg(v)) == Neg(Normalize(t, v))
  {
    assert Norm2(Neg(v)) == Norm2(v);
  }

  /** glm::length compared with a positive bound is the squared length compared with the squared bound. */
  lemma LengthBelow(t: Transcendentals, v: Vec3, c: real)
    requires SqrtLaw(t) && 0.0 < c
    ensures Length(t, v) < c <==> Norm2(v) < Sq(c)
  {
    SqMonotone(Length(t, v), c);
  }

  /** Normalising only rescales: the result is a multiple of the input. */
  lemma NormalizeParallel(t: Transcendentals, v: Vec3)
    ensures exists k :: Normalize(t, v) == Scale(v, k)
  {
    if Normalize(t, v) == Zero {
      assert Normalize(t, v) == Scale(v, 0.0);
    } else {
      assert Normalize(t, v) == Scale(v, 1.0 / t.sqrt(Norm2(v)));
    }
  }

  /** The normalised cross product is perpendicular to both factors. */
  lemma NormalizedCrossPerpendicular(t: Transcendentals, a: Vec3, b: Vec3)
    ensures Dot(Normalize(t, Cross(a, b)), a) == 0.0 && Dot(Normalize(t, Cross(a, b)), b) == 0.0
  {
    var c := Cross(a, b);
    NormalizeParallel(t, c);
    var k :| Normalize(t, c) == Scale(c, k);
    DotScale(c, a, k);
    DotScale(c, b, k);
  }
}
