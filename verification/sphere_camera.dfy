/**
  The orbit camera used for the point light: an eye on a sphere of radius `r`
  around `center`, placed by the angles `theta` (azimuth) and `phi`
  (elevation), both in degrees. The derived vectors `position`, `front` and
  `up` are recomputed from the parameters after every change.
 */
module OrbitCamera {
  import opened Glm

  datatype SphereCamera = SphereCamera(
    center: Vec3,
    r: real,
    theta: real,
    phi: real,
    position: Vec3,
    front: Vec3,
    up: Vec3)

  const MinR: real := 0.1
  const MinPhi: real := 10.0
  const MaxPhi: real := 88.0
  const FullTurn: real := 360.0

  function CosPhi(t: Transcendentals, phi: real): real {
    t.cos(Radians(t, phi))
  }

  function SinPhi(t: Transcendentals, phi: real): real {
    t.sin(Radians(t, phi))
  }

  /** The horizontal part of the eye's offset: `r cos(phi) (cos(theta), 0, -sin(theta))`. */
  function Horizontal(t: Transcendentals, r: real, theta: real, phi: real): (h: Vec3)
    ensures h.y == 0.0
  {
    var m := Times(r, CosPhi(t, phi));
    Vec3(Times(m, t.cos(Radians(t, theta))), 0.0, -Times(m, t.sin(Radians(t, theta))))
  }

  /** The eye's offset from the centre: the horizontal part plus `r sin(phi)` upward. */
  function EyeOffset(t: Transcendentals, r: real, theta: real, phi: real): (e: Vec3)
    ensures e.x == Horizontal(t, r, theta, phi).x && e.z == Horizontal(t, r, theta, phi).z
    ensures e.y == Times(r, SinPhi(t, phi))
  {
    var h := Horizontal(t, r, theta, phi);
    Vec3(h.x, Times(r, SinPhi(t, phi)), h.z)
  }

  /**
    The helper point of `updateAll`: the centre moved by `r / cos(phi)` along
    the horizontal direction of the eye.
   */
  function ExtendPoint(t: Transcendentals, center: Vec3, r: real, theta: real, phi: real): Vec3 {
    Add(center, Scale(Normalize(t, Horizontal(t, r, theta, phi)), Times(r, Recip(CosPhi(t, phi)))))
  }

  /**
    `updateAll`: recompute `position`, `front` and `up` from the parameters.
    `up` is the normalised direction from the helper point to the eye, negated
    when `phi` is negative.
   */
  function UpdateAll(t: Transcendentals, cam: SphereCamera): (c: SphereCamera)
    ensures c.center == cam.center && c.r == cam.r && c.theta == cam.theta && c.phi == cam.phi
    ensures Derived(t, c)
  {
    var position := Add(cam.center, EyeOffset(t, cam.r, cam.theta, cam.phi));
    var up := Normalize(t, Sub(position, ExtendPoint(t, cam.center, cam.r, cam.theta, cam.phi)));
    cam.(position := position,
         front := Normalize(t, Sub(cam.center, position)),
         up := if cam.phi < 0.0 then Neg(up) else up)
  }

  /**
    The derived vectors are those `updateAll` computes from the parameters.
    This is `UpdateAll`'s body stated as a predicate, so it promises nothing
    by itself: its meaning is in `OrbitRadius`, `FrontTowardCenter` and
    `UpFlipsBelowEquator`, which derive the geometry from it.
   */
  predicate Derived(t: Transcendentals, cam: SphereCamera) {
    var position := Add(cam.center, EyeOffset(t, cam.r, cam.theta, cam.phi));
    var up := Normalize(t, Sub(position, ExtendPoint(t, cam.center, cam.r, cam.theta, cam.phi)));
    cam.position == position
    && cam.front == Normalize(t, Sub(cam.center, position))
    && cam.up == (if cam.phi < 0.0 then Neg(up) else up)
  }

  /** A camera with the given parameters; the derived vectors are placeholders until `UpdateAll`. */
  function Parameters(center: Vec3, r: real, theta: real, phi: real): SphereCamera {
    SphereCamera(center, r, theta, phi, Zero, Zero, Zero)
  }

  /** The two-argument constructor: `theta = 0` and `phi = 2`, outside the range `updatePhi` enforces. */
  function FromCenter(t: Transcendentals, center: Vec3, r: real): (c: SphereCamera)
    ensures c.center == center && c.r == r && c.theta == 0.0 && c.phi == 2.0
    ensures !(MinPhi <= c.phi <= MaxPhi)
    ensures Derived(t, c)
  {
    UpdateAll(t, Parameters(center, r, 0.0, 2.0))
  }

  /** The four-argument constructor; no clamp or wrap is applied. */
  function FromAngles(t: Transcendentals, center: Vec3, r: real, theta: real, phi: real): (c: SphereCamera)
    ensures c.center == center && c.r == r && c.theta == theta && c.phi == phi
    ensures Derived(t, c)
  {
    UpdateAll(t, Parameters(center, r, theta, phi))
  }

  // ---------------------------------------------------------------------
  // Parameter rules
  // ---------------------------------------------------------------------

  /** The radius rule of `updateR`: add, then raise to at least 0.1. */
  function FloorR(r: real, d: real): (v: real)
    ensures MinR <= v
    ensures MinR <= r + d ==> v == r + d
    ensures r + d < MinR ==> v == MinR
  {
    var s := r + d;
    if s < MinR then MinR else s
  }

  /**
    The azimuth rule of `updateTheta`: add; above 360 reset to 0; then below 0
    reset to 360. Always within [0, 360].
   */
  function WrapTheta(theta: real, a: real): (v: real)
    ensures 0.0 <= v <= FullTurn
    ensures 0.0 <= theta + a <= FullTurn ==> v == theta + a
    ensures theta + a > FullTurn ==> v == 0.0
    ensures theta + a < 0.0 ==> v == FullTurn
  {
    var s := theta + a;
    var s' := if s > FullTurn then 0.0 else s;
    if s' < 0.0 then FullTurn else s'
  }

  /** The elevation rule of `updatePhi`: add, cap at 88, then raise to at least 10. */
  function ClampPhi(phi: real, a: real): (v: real)
    ensures MinPhi <= v <= MaxPhi
    ensures MinPhi <= phi + a <= MaxPhi ==> v == phi + a
  {
    var s := phi + a;
    var s' := if s > MaxPhi then MaxPhi else s;
    if s' < MinPhi then MinPhi else s'
  }

  /** The clamp agrees with the textbook definition `max(10, min(88, phi + a))`. */
  lemma ClampPhiIsMinMax(phi: real, a: real)
    ensures ClampPhi(phi, a) == Max(MinPhi, Min(MaxPhi, phi + a))
  {
  }

  /** The floor agrees with `max(0.1, r + d)`. */
  lemma FloorRIsMax(r: real, d: real)
    ensures FloorR(r, d) == Max(MinR, r + d)
  {
  }

  /** The azimuth rule is a reset, not a modulus: 359 + 2 gives 0, where 361 mod 360 is 1. */
  lemma ThetaResetsRatherThanWraps()
    ensures WrapTheta(359.0, 2.0) == 0.0
    ensures WrapTheta(1.0, -2.0) == FullTurn
  {
  }

  // ---------------------------------------------------------------------
  // Mutators
  // ---------------------------------------------------------------------

  /** `updateCenter`: move the centre; the radius and angles are unchanged. */
  function UpdateCenter(t: Transcendentals, cam: SphereCamera, d: Vec3): (c: SphereCamera)
    ensures c.center == Add(cam.center, d)
    ensures c.r == cam.r && c.theta == cam.theta && c.phi == cam.phi
    ensures Derived(t, c)
  {
    UpdateAll(t, cam.(center := Add(cam.center, d)))
  }

  /** `updateR`: change only the radius, which stays at least 0.1. */
  function UpdateR(t: Transcendentals, cam: SphereCamera, d: real): (c: SphereCamera)
    ensures c.r == FloorR(cam.r, d) && MinR <= c.r
    ensures c.center == cam.center && c.theta == cam.theta && c.phi == cam.phi
    ensures Derived(t, c)
  {
    UpdateAll(t, cam.(r := FloorR(cam.r, d)))
  }

  /** `updateTheta`: change only the azimuth, which stays in [0, 360]. */
  function UpdateTheta(t: Transcendentals, cam: SphereCamera, a: real): (c: SphereCamera)
    ensures c.theta == WrapTheta(cam.theta, a) && 0.0 <= c.theta <= FullTurn
    ensures c.center == cam.center && c.r == cam.r && c.phi == cam.phi
    ensures Derived(t, c)
  {
    UpdateAll(t, cam.(theta := WrapTheta(cam.theta, a)))
  }

  /** `updatePhi`: change only the elevation, which stays in [10, 88]. */
  function UpdatePhi(t: Transcendentals, cam: SphereCamera, a: real): (c: SphereCamera)
    ensures c.phi == ClampPhi(cam.phi, a) && MinPhi <= c.phi <= MaxPhi
    ensures c.center == cam.center && c.r == cam.r && c.theta == cam.theta
    ensures Derived(t, c)
  {
    UpdateAll(t, cam.(phi := ClampPhi(cam.phi, a)))
  }

  /** `getRight`: perpendicular to both `front` and `up`. */
  function GetRight(cam: SphereCamera): (v: Vec3)
    ensures Dot(v, cam.front) == 0.0 && Dot(v, cam.up) == 0.0
  {
    Cross(cam.front, cam.up)
  }

  /** `getViewMatrix`: glm::lookAt with the eye at `position`, `front` as the target argument, and `up`. */
  function GetViewMatrix(t: Transcendentals, cam: SphereCamera): Mat4 {
    t.lookAt(cam.position, cam.front, cam.up)
  }

  // ---------------------------------------------------------------------
  // Geometry
  // ---------------------------------------------------------------------

  lemma SubOfShifted(c: Vec3, e: Vec3, w: Vec3)
    ensures Sub(Add(c, e), Add(c, w)) == Sub(e, w)
    ensures Sub(Add(c, e), c) == e && Sub(c, Add(c, e)) == Neg(e)
  {
  }

  /** Under the Pythagorean identity the horizontal offset has length `|r cos(phi)|`. */
  lemma HorizontalLength(t: Transcendentals, r: real, theta: real, phi: real)
    requires TrigLaw(t)
    ensures Norm2(Horizontal(t, r, theta, phi)) == Sq(Times(r, CosPhi(t, phi)))
  {
    var m := Times(r, CosPhi(t, phi));
    var ct := t.cos(Radians(t, theta));
    var st := t.sin(Radians(t, theta));
    var h := Horizontal(t, r, theta, phi);
    assert Norm2(h) == Sq(Times(m, ct)) + Sq(-Times(m, st));
    assert Sq(Times(m, ct)) + Sq(-Times(m, st)) == Times(Sq(m), Sq(ct) + Sq(st));
    assert Sq(ct) + Sq(st) == 1.0;
  }

  /** Under the Pythagorean identity the eye's offset has length `|r|`. */
  lemma EyeOffsetLength(t: Transcendentals, r: real, theta: real, phi: real)
    requires TrigLaw(t)
    ensures Norm2(EyeOffset(t, r, theta, phi)) == Sq(r)
  {
    var cp := CosPhi(t, phi);
    var sp := SinPhi(t, phi);
    var e := EyeOffset(t, r, theta, phi);
    HorizontalLength(t, r, theta, phi);
    assert Norm2(e) == Norm2(Horizontal(t, r, theta, phi)) + Sq(Times(r, sp));
    assert Sq(Times(r, cp)) + Sq(Times(r, sp)) == Times(Sq(r), Sq(cp) + Sq(sp));
    assert Sq(cp) + Sq(sp) == 1.0;
  }

  /** The eye stays on the sphere: `|position - center| = |r|`. */
  lemma OrbitRadius(t: Transcendentals, cam: SphereCamera)
    requires TrigLaw(t) && Derived(t, cam)
    ensures Norm2(Sub(cam.position, cam.center)) == Sq(cam.r)
  {
    SubOfShifted(cam.center, EyeOffset(t, cam.r, cam.theta, cam.phi), Zero);
    EyeOffsetLength(t, cam.r, cam.theta, cam.phi);
  }

  function Abs(x: real): (a: real)
    ensures 0.0 <= a && Sq(a) == Sq(x)
  {
    if x < 0.0 then -x else x
  }

  /**
    For a non-degenerate radius `front` is the unit vector from the eye to the
    centre, and the eye sits `|r|` behind the centre along it.
   */
  lemma FrontTowardCenter(t: Transcendentals, cam: SphereCamera)
    requires SqrtLaw(t) && TrigLaw(t) && Derived(t, cam) && cam.r != 0.0
    ensures Norm2(cam.front) == 1.0
    ensures exists k :: 0.0 < k && cam.front == Scale(Sub(cam.center, cam.position), k)
    ensures cam.position == Sub(cam.center, Scale(cam.front, Abs(cam.r)))
  {
    var e := EyeOffset(t, cam.r, cam.theta, cam.phi);
    SubOfShifted(cam.center, e, Zero);
    EyeOffsetLength(t, cam.r, cam.theta, cam.phi);
    Norm2Neg(e);
    SqFacts(cam.r);
    NormalizeUnit(t, Neg(e));
    var a := Abs(cam.r);
    SqrtOfSquare(t, a);
    assert t.sqrt(Norm2(Neg(e))) == a;
    assert cam.front == Scale(Neg(e), 1.0 / a);
    ScaleTwice(Neg(e), 1.0 / a, a);
    assert Scale(cam.front, a) == Neg(e);
  }

  lemma ScaleTwice(v: Vec3, a: real, b: real)
    requires b != 0.0 && a == 1.0 / b
    ensures Scale(Scale(v, a), b) == v
  {
  }

  /**
    The look-at target is `front`, a direction, while the eye is a point: the
    eye-to-target vector is `(1 + |r|) front - center`. It points along
    `front` only when the centre is the origin.
   */
  lemma ViewTargetIsDirection(t: Transcendentals, cam: SphereCamera)
    requires SqrtLaw(t) && TrigLaw(t) && Derived(t, cam) && cam.r != 0.0
    ensures GetViewMatrix(t, cam) == t.lookAt(cam.position, cam.front, cam.up)
    ensures Sub(cam.front, cam.position) == Sub(Scale(cam.front, 1.0 + Abs(cam.r)), cam.center)
  {
    FrontTowardCenter(t, cam);
  }

  /** Horizontal offset of the helper point from the centre, for `r cos(phi) > 0`. */
  lemma ExtendOffset(t: Transcendentals, r: real, theta: real, phi: real)
    requires SqrtLaw(t) && TrigLaw(t) && 0.0 < Times(r, CosPhi(t, phi))
    ensures var m := Times(r, CosPhi(t, phi));
            var h := Horizontal(t, r, theta, phi);
            Normalize(t, h) == Scale(h, 1.0 / m)
  {
    var m := Times(r, CosPhi(t, phi));
    HorizontalLength(t, r, theta, phi);
    SqrtOfSquare(t, m);
  }

  lemma DotSub(a: Vec3, b: Vec3, c: Vec3)
    ensures Dot(Sub(a, b), c) == Dot(a, c) - Dot(b, c)
  {
  }

  lemma ReciprocalCancels(r: real, c: real, m: real)
    requires c != 0.0 && m == Times(r, c) && m != 0.0
    ensures Times(Times(r, Recip(c)), Times(1.0 / m, Sq(m))) == Sq(r)
  {
  }

  /** The unnormalised `up` direction is perpendicular to the eye's offset, for `r cos(phi) > 0`. */
  lemma UpDirectionPerpendicular(t: Transcendentals, r: real, theta: real, phi: real)
    requires SqrtLaw(t) && TrigLaw(t) && 0.0 < Times(r, CosPhi(t, phi))
    ensures var e := EyeOffset(t, r, theta, phi);
            var w := Scale(Normalize(t, Horizontal(t, r, theta, phi)), Times(r, Recip(CosPhi(t, phi))));
            Dot(Sub(e, w), e) == 0.0
  {
    var cp := CosPhi(t, phi);
    var m := Times(r, cp);
    var h := Horizontal(t, r, theta, phi);
    var e := EyeOffset(t, r, theta, phi);
    var k := Times(r, Recip(cp));
    ExtendOffset(t, r, theta, phi);
    var w := Scale(Scale(h, 1.0 / m), k);
    DotSub(e, w, e);
    EyeOffsetLength(t, r, theta, phi);
    HorizontalLength(t, r, theta, phi);
    assert Dot(h, e) == Norm2(h);
    DotScale(Scale(h, 1.0 / m), e, k);
    DotScale(h, e, 1.0 / m);
    assert cp != 0.0;
    ReciprocalCancels(r, cp, m);
  }

  lemma DotOfMultiples(u: Vec3, e: Vec3, a: real, b: real)
    requires Dot(u, e) == 0.0
    ensures Dot(Scale(u, a), Scale(Neg(e), b)) == 0.0
    ensures Dot(Neg(Scale(u, a)), Scale(Neg(e), b)) == 0.0
  {
    assert Dot(Scale(u, a), Scale(Neg(e), b)) == -Times(a, Times(b, Dot(u, e)));
  }

  /**
    For `r cos(phi) > 0` (a positive radius with the elevation clamped to
    [10, 88] degrees), `up` is perpendicular to `front`: the pair is a valid
    look-at basis.
   */
  lemma UpPerpendicularToFront(t: Transcendentals, cam: SphereCamera)
    requires SqrtLaw(t) && TrigLaw(t) && Derived(t, cam)
    requires 0.0 < Times(cam.r, CosPhi(t, cam.phi))
    ensures Dot(cam.up, cam.front) == 0.0
  {
    var e := EyeOffset(t, cam.r, cam.theta, cam.phi);
    var w := Scale(Normalize(t, Horizontal(t, cam.r, cam.theta, cam.phi)), Times(cam.r, Recip(CosPhi(t, cam.phi))));
    UpDirectionPerpendicular(t, cam.r, cam.theta, cam.phi);
    SubOfShifted(cam.center, e, w);
    var u := Sub(e, w);
    NormalizeParallel(t, u);
    var a :| Normalize(t, u) == Scale(u, a);
    NormalizeParallel(t, Neg(e));
    var b :| Normalize(t, Neg(e)) == Scale(Neg(e), b);
    DotOfMultiples(u, e, a, b);
  }

  lemma NegativeProduct(a: real, b: real)
    requires 0.0 < a && b != 0.0
    ensures 0.0 < Times(Times(a, b), b) && Times(-Times(a, b), b) < 0.0
  {
    SqFacts(b);
    assert Times(Times(a, b), b) == Times(a, Sq(b));
    ProductPositive(a, Sq(b));
  }

  /**
    `up` is negated exactly when `phi < 0`: when `r sin(phi)` is non-zero,
    `up` is a unit vector whose vertical component has the sign of
    `r sin(phi)` for non-negative `phi` and the opposite sign for negative `phi`.
   */
  lemma UpFlipsBelowEquator(t: Transcendentals, cam: SphereCamera)
    requires SqrtLaw(t) && Derived(t, cam)
    requires Times(cam.r, SinPhi(t, cam.phi)) != 0.0
    ensures Norm2(cam.up) == 1.0
    ensures cam.phi < 0.0 <==> Times(cam.up.y, Times(cam.r, SinPhi(t, cam.phi))) < 0.0
  {
    var h := Horizontal(t, cam.r, cam.theta, cam.phi);
    var e := EyeOffset(t, cam.r, cam.theta, cam.phi);
    var n := Normalize(t, h);
    NormalizeParallel(t, h);
    var j :| n == Scale(h, j);
    assert n.y == 0.0;
    var w := Scale(n, Times(cam.r, Recip(CosPhi(t, cam.phi))));
    assert w.y == 0.0;
    SubOfShifted(cam.center, e, w);
    var u := Sub(e, w);
    var y := Times(cam.r, SinPhi(t, cam.phi));
    assert u.y == y;
    assert u != Zero;
    NormalizeUnit(t, u);
    var k :| 0.0 < k && Normalize(t, u) == Scale(u, k);
    NegativeProduct(k, y);
    Norm2Neg(Scale(u, k));
  }
}
