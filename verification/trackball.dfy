/**
  The virtual trackball that turns cursor positions into rotations.

  The ball sits on the screen at a reference point `(x, y)` with radius `r`. A
  cursor position is lifted onto the ball, or, outside its rim, onto the rim
  circle. The lifted unit vector is compared with the vector of the previous
  accepted position, `nowVec`. The camera basis (`front`, `up`, `right`) maps
  points lifted inside the rim into world space.
 */
module VirtualTrackball {
  import opened Glm

  datatype Trackball = Trackball(
    x: real,
    y: real,
    r: real,
    nowVec: Vec3,
    front: Vec3,
    up: Vec3,
    right: Vec3)

  /** What `getRotation` returns: a rotation axis and an angle in radians. */
  datatype Rotation = Rotation(axis: Vec3, angle: real)

  /** The pair returned inside the dead zone. */
  const NoRotation: Rotation := Rotation(Vec3(0.0, 0.0, 1.0), 0.0)

  /** Movements of the lifted vector shorter than this are ignored. */
  const DeadZone: real := 0.01

  const Forward: Vec3 := Vec3(0.0, 0.0, 1.0)

  /**
    The one-argument constructor. The C++ class leaves `front`, `up` and
    `right` uninitialised; their indeterminate contents are the parameters
    `front`, `up` and `right`.
   */
  function FromRadius(r: real, front: Vec3, up: Vec3, right: Vec3): (tb: Trackball)
    ensures tb.x == 0.0 && tb.y == 0.0 && tb.r == r
    ensures tb.nowVec == Forward && Norm2(tb.nowVec) == 1.0
  {
    Trackball(0.0, 0.0, r, Forward, front, up, right)
  }

  /**
    The three-argument constructor: the reference point is the screen centre.
    The basis is left uninitialised, as for `FromRadius`.
   */
  function FromScreen(r: real, width: real, height: real, front: Vec3, up: Vec3, right: Vec3): (tb: Trackball)
    ensures tb.x == width / 2.0 && tb.y == height / 2.0 && tb.r == r
    ensures tb.nowVec == Forward
  {
    Trackball(width / 2.0, height / 2.0, r, Forward, front, up, right)
  }

  /**
    The five-argument constructor: screen centre plus a normalised camera
    basis, with `nowVec` the normalised `-front`. `FromViewBasis` states what
    the normalisation guarantees.
   */
  function FromView(t: Transcendentals, r: real, width: real, height: real, front: Vec3, up: Vec3): (tb: Trackball)
    ensures tb.x == width / 2.0 && tb.y == height / 2.0 && tb.r == r
    ensures tb.front == Normalize(t, front) && tb.up == Normalize(t, up)
    ensures tb.nowVec == Normalize(t, Neg(tb.front)) && tb.right == Normalize(t, Cross(tb.front, tb.up))
    ensures Dot(tb.right, tb.front) == 0.0 && Dot(tb.right, tb.up) == 0.0
  {
    var f := Normalize(t, front);
    var u := Normalize(t, up);
    NormalizedCrossPerpendicular(t, f, u);
    Trackball(width / 2.0, height / 2.0, r, Normalize(t, Neg(f)), f, u, Normalize(t, Cross(f, u)))
  }

  /** `refreshScreenCoord`: a new reference point; `nowVec` points back along the camera. */
  function RefreshScreenCoord(tb: Trackball, sx: real, sy: real): (tb': Trackball)
    ensures tb'.x == sx && tb'.y == sy && tb'.nowVec == Neg(tb.front)
    ensures tb'.r == tb.r && tb'.front == tb.front && tb'.up == tb.up && tb'.right == tb.right
  {
    tb.(x := sx, y := sy, nowVec := Neg(tb.front))
  }

  /**
    `refreshViewCoord`: a new camera basis, stored without normalising `front`
    and `up`; `nowVec` and `right` are normalised. `RefreshViewCoordUnit`
    states what that normalisation guarantees.
   */
  function RefreshViewCoord(t: Transcendentals, tb: Trackball, front: Vec3, up: Vec3): (tb': Trackball)
    ensures tb'.front == front && tb'.up == up
    ensures tb'.x == tb.x && tb'.y == tb.y && tb'.r == tb.r
    ensures tb'.nowVec == Normalize(t, Neg(front)) && tb'.right == Normalize(t, Cross(front, up))
    ensures Dot(tb'.right, front) == 0.0 && Dot(tb'.right, up) == 0.0
  {
    NormalizedCrossPerpendicular(t, front, up);
    tb.(front := front, up := up, nowVec := Normalize(t, Neg(front)), right := Normalize(t, Cross(front, up)))
  }

  // ---------------------------------------------------------------------
  // Lifting a cursor position onto the ball
  // ---------------------------------------------------------------------

  /** The cursor's offset from the reference point, with the screen's y axis flipped. */
  function Offset(tb: Trackball, sx: real, sy: real): (d: (real, real))
    ensures d.0 == sx - tb.x && d.1 == tb.y - sy
  {
    (sx - tb.x, -(sy - tb.y))
  }

  /** Strictly outside the rim: the branch that skips the camera basis. */
  predicate OutsideRim(tb: Trackball, dx: real, dy: real) {
    Sq(dx) + Sq(dy) > Sq(tb.r)
  }

  /** The height of the ball above the offset, `sqrt(r^2 - dx^2 - dy^2)`. */
  function Height(t: Transcendentals, tb: Trackball, dx: real, dy: real): real {
    t.sqrt(Sq(tb.r) - Sq(dx) - Sq(dy))
  }

  /** The normalised point on the ball in screen coordinates (z toward the viewer). */
  function LocalVector(t: Transcendentals, tb: Trackball, dx: real, dy: real): Vec3 {
    Normalize(t, Vec3(dx, dy, Height(t, tb, dx, dy)))
  }

  /** Screen coordinates mapped into world space through `right`, `up` and `-front`. */
  function Reproject(tb: Trackball, n: Vec3): Vec3 {
    Add(Add(Scale(tb.right, n.x), Scale(tb.up, n.y)), Scale(Neg(tb.front), n.z))
  }

  /** The lifted vector `newVec` of `getRotation`. */
  function Probe(t: Transcendentals, tb: Trackball, sx: real, sy: real): (v: Vec3)
    ensures var d := Offset(tb, sx, sy);
            OutsideRim(tb, d.0, d.1) ==> v.z == 0.0
  {
    var d := Offset(tb, sx, sy);
    if OutsideRim(tb, d.0, d.1) then
      Normalize(t, Vec3(d.0, d.1, 0.0))
    else
      Normalize(t, Reproject(tb, LocalVector(t, tb, d.0, d.1)))
  }

  /** The dead-zone test, `length(newVec - nowVec) < 0.01`. */
  predicate InDeadZone(t: Transcendentals, tb: Trackball, v: Vec3) {
    Length(t, Sub(v, tb.nowVec)) < DeadZone
  }

  /**
    `getRotation`: the new trackball state and the returned pair. Inside the
    dead zone the state is untouched; otherwise `nowVec` advances to the lifted
    vector and nothing else changes.
   */
  function GetRotation(t: Transcendentals, tb: Trackball, sx: real, sy: real): (res: (Trackball, Rotation))
    ensures res.0.x == tb.x && res.0.y == tb.y && res.0.r == tb.r
    ensures res.0.front == tb.front && res.0.up == tb.up && res.0.right == tb.right
    ensures res.0.nowVec == tb.nowVec || res.0.nowVec == Probe(t, tb, sx, sy)
  {
    var v := Probe(t, tb, sx, sy);
    if InDeadZone(t, tb, v) then
      (tb, NoRotation)
    else
      (tb.(nowVec := v), Rotation(Normalize(t, Cross(tb.nowVec, v)), t.acos(Dot(tb.nowVec, v))))
  }

  // ---------------------------------------------------------------------
  // Properties
  // ---------------------------------------------------------------------

  /** The dead zone is the squared distance test `|newVec - nowVec|^2 < 0.0001`. */
  lemma DeadZoneIsSquaredDistance(t: Transcendentals, tb: Trackball, v: Vec3)
    requires SqrtLaw(t)
    ensures InDeadZone(t, tb, v) <==> Norm2(Sub(v, tb.nowVec)) < 0.0001
  {
    LengthBelow(t, Sub(v, tb.nowVec), DeadZone);
  }

  /** Inside the dead zone the result is the identity pair and the state is unchanged; outside, `nowVec` advances. */
  lemma DeadZoneKeepsState(t: Transcendentals, tb: Trackball, sx: real, sy: real)
    requires SqrtLaw(t)
    ensures var v := Probe(t, tb, sx, sy);
            var res := GetRotation(t, tb, sx, sy);
            (Norm2(Sub(v, tb.nowVec)) < 0.0001 ==> res == (tb, NoRotation))
            && (Norm2(Sub(v, tb.nowVec)) >= 0.0001 ==> res.0 == tb.(nowVec := v))
  {
    DeadZoneIsSquaredDistance(t, tb, Probe(t, tb, sx, sy));
  }

  /**
    Outside the dead zone the axis is perpendicular to both the old and the new
    vector, and the angle is `acos` of their (unclamped) dot product.
   */
  lemma AxisPerpendicular(t: Transcendentals, tb: Trackball, sx: real, sy: real)
    requires !InDeadZone(t, tb, Probe(t, tb, sx, sy))
    ensures var v := Probe(t, tb, sx, sy);
            var rot := GetRotation(t, tb, sx, sy).1;
            Dot(rot.axis, tb.nowVec) == 0.0 && Dot(rot.axis, v) == 0.0
            && rot.angle == t.acos(Dot(tb.nowVec, v))
  {
    NormalizedCrossPerpendicular(t, tb.nowVec, Probe(t, tb, sx, sy));
  }

  /**
    A second call at the same position, with no refresh in between, returns
    the identity pair: the lifted vector depends only on the unchanged fields.
   */
  lemma {:induction false} RepeatIsStill(t: Transcendentals, tb: Trackball, sx: real, sy: real)
    requires SqrtLaw(t)
    ensures var tb1 := GetRotation(t, tb, sx, sy).0;
            GetRotation(t, tb1, sx, sy) == (tb1, NoRotation)
  {
    var v := Probe(t, tb, sx, sy);
    var tb1 := GetRotation(t, tb, sx, sy).0;
    assert Probe(t, tb1, sx, sy) == v;
    if !InDeadZone(t, tb, v) {
      assert Sub(v, tb1.nowVec) == Zero;
      DeadZoneIsSquaredDistance(t, tb1, v);
    }
  }

  /** Strictly outside the rim the lifted vector is the unit offset direction in the screen plane. */
  lemma OutsideRimIsPlanar(t: Transcendentals, tb: Trackball, sx: real, sy: real)
    requires SqrtLaw(t)
    requires var d := Offset(tb, sx, sy); OutsideRim(tb, d.0, d.1)
    ensures var d := Offset(tb, sx, sy);
            var v := Probe(t, tb, sx, sy);
            v.z == 0.0 && Norm2(v) == 1.0
            && exists k :: 0.0 < k && v == Scale(Vec3(d.0, d.1, 0.0), k)
  {
    var d := Offset(tb, sx, sy);
    SqFacts(tb.r);
    assert Vec3(d.0, d.1, 0.0) != Zero;
    NormalizeUnit(t, Vec3(d.0, d.1, 0.0));
  }

  /**
    On or inside the rim (the boundary included) the ball's height is
    non-negative, it is zero exactly on the rim, and for a ball of non-zero
    radius the local vector is a unit vector that is then carried through the
    camera basis.
   */
  lemma InsideRimLifts(t: Transcendentals, tb: Trackball, sx: real, sy: real)
    requires SqrtLaw(t) && tb.r != 0.0
    requires var d := Offset(tb, sx, sy); !OutsideRim(tb, d.0, d.1)
    ensures var d := Offset(tb, sx, sy);
            var h := Height(t, tb, d.0, d.1);
            var n := LocalVector(t, tb, d.0, d.1);
            0.0 <= h && (h == 0.0 <==> Sq(d.0) + Sq(d.1) == Sq(tb.r))
            && Norm2(n) == 1.0 && 0.0 <= n.z
            && Probe(t, tb, sx, sy) == Normalize(t, Reproject(tb, n))
  {
    var d := Offset(tb, sx, sy);
    var h := Height(t, tb, d.0, d.1);
    var q := Sq(tb.r) - Sq(d.0) - Sq(d.1);
    assert 0.0 <= q && 0.0 <= h && Sq(h) == q;
    SqFacts(h);
    var w := Vec3(d.0, d.1, h);
    assert w != Zero by {
      if d.0 == 0.0 && d.1 == 0.0 {
        SqFacts(tb.r);
        assert q == Sq(tb.r);
      }
    }
    NormalizeUnit(t, w);
    var k :| 0.0 < k && Normalize(t, w) == Scale(w, k);
    assert LocalVector(t, tb, d.0, d.1).z == k * h;
    ProductNonNegative(k, h);
  }

  lemma ProductNonNegative(a: real, b: real)
    requires 0.0 <= a && 0.0 <= b
    ensures 0.0 <= a * b
  {
    if 0.0 < a && 0.0 < b {
      ProductPositive(a, b);
    }
  }

  /**
    The five-argument constructor stores the unit vectors along its `front`
    and `up` arguments, and `nowVec == -front`, so `nowVec` is a unit vector
    too.
   */
  lemma FromViewBasis(t: Transcendentals, r: real, width: real, height: real, front: Vec3, up: Vec3)
    requires SqrtLaw(t) && front != Zero
    ensures var tb := FromView(t, r, width, height, front, up);
            Norm2(tb.front) == 1.0 && exists k :: 0.0 < k && tb.front == Scale(front, k)
    ensures var tb := FromView(t, r, width, height, front, up);
            up != Zero ==> Norm2(tb.up) == 1.0 && exists k :: 0.0 < k && tb.up == Scale(up, k)
    ensures var tb := FromView(t, r, width, height, front, up);
            tb.nowVec == Neg(tb.front) && Norm2(tb.nowVec) == 1.0
  {
    var f := Normalize(t, front);
    NormalizeUnit(t, front);
    if up != Zero {
      NormalizeUnit(t, up);
    }
    NormalizeNeg(t, f);
    NormalizeOfUnit(t, f);
    Norm2Neg(f);
  }

  /**
    After `refreshViewCoord` with a non-zero `front`, `nowVec` is the unit
    vector along `-front`, and `right` is the unit vector along
    `cross(front, up)` whenever that cross product is non-zero.
   */
  lemma RefreshViewCoordUnit(t: Transcendentals, tb: Trackball, front: Vec3, up: Vec3)
    requires SqrtLaw(t) && front != Zero
    ensures var tb' := RefreshViewCoord(t, tb, front, up);
            Norm2(tb'.nowVec) == 1.0 && exists k :: 0.0 < k && tb'.nowVec == Scale(Neg(front), k)
    ensures var tb' := RefreshViewCoord(t, tb, front, up);
            Cross(front, up) != Zero ==>
              Norm2(tb'.right) == 1.0 && exists k :: 0.0 < k && tb'.right == Scale(Cross(front, up), k)
  {
    assert Neg(front) != Zero by {
      assert Neg(front).x == -front.x && Neg(front).y == -front.y && Neg(front).z == -front.z;
    }
    NormalizeUnit(t, Neg(front));
    if Cross(front, up) != Zero {
      NormalizeUnit(t, Cross(front, up));
    }
  }

  /**
    `refreshViewCoord` keeps `front` as given while `refreshScreenCoord` sets
    `nowVec` to `-front` without normalising, so after a refresh with a
    non-unit `front` the supposedly normalised `nowVec` has the same, non-unit,
    length as `front`.
   */
  lemma RefreshKeepsFrontLength(t: Transcendentals, tb: Trackball, front: Vec3, up: Vec3, sx: real, sy: real)
    ensures var tb' := RefreshScreenCoord(RefreshViewCoord(t, tb, front, up), sx, sy);
            Norm2(tb'.nowVec) == Norm2(front)
  {
    Norm2Neg(front);
  }

  /** For a ball of non-zero radius the reference point itself lifts to the pole `(0, 0, 1)`. */
  lemma PoleLift(t: Transcendentals, tb: Trackball)
    requires SqrtLaw(t) && tb.r != 0.0
    ensures LocalVector(t, tb, 0.0, 0.0) == Forward
  {
    var ar := if tb.r < 0.0 then -tb.r else tb.r;
    assert Sq(ar) == Sq(tb.r);
    assert Sq(tb.r) - Sq(0.0) - Sq(0.0) == Sq(ar);
    SqrtOfSquare(t, ar);
    var w := Vec3(0.0, 0.0, ar);
    assert Norm2(w) == Sq(ar);
    assert t.sqrt(Norm2(w)) == ar;
    assert Normalize(t, w) == Scale(w, 1.0 / ar);
  }

  /** Right after `refreshScreenCoord(sx, sy)`, a probe at the same point lifts to `-front`. */
  lemma ProbeAtReference(t: Transcendentals, tb: Trackball, sx: real, sy: real)
    requires SqrtLaw(t) && tb.r != 0.0 && Norm2(tb.front) == 1.0
    ensures var tb' := RefreshScreenCoord(tb, sx, sy);
            Probe(t, tb', sx, sy) == tb'.nowVec
  {
    var tb' := RefreshScreenCoord(tb, sx, sy);
    ProbeAtOwnReference(t, tb');
    PoleLift(t, tb');
    ReprojectPole(tb');
    Norm2Neg(tb.front);
    NormalizeOfUnit(t, Neg(tb.front));
  }

  /** A probe at the reference point itself lifts through the camera basis. */
  lemma ProbeAtOwnReference(t: Transcendentals, tb: Trackball)
    ensures Probe(t, tb, tb.x, tb.y) == Normalize(t, Reproject(tb, LocalVector(t, tb, 0.0, 0.0)))
  {
    var d := Offset(tb, tb.x, tb.y);
    assert d == (0.0, 0.0);
    SqFacts(tb.r);
    assert !OutsideRim(tb, d.0, d.1);
  }

  lemma ReprojectPole(tb: Trackball)
    ensures Reproject(tb, Forward) == Neg(tb.front)
  {
    ScaleByZeroAndOne(tb.right);
    ScaleByZeroAndOne(tb.up);
    ScaleByZeroAndOne(Neg(tb.front));
    assert Add(Zero, Zero) == Zero;
    assert Add(Zero, Neg(tb.front)) == Neg(tb.front);
  }

  /**
    Right after `refreshScreenCoord(sx, sy)` with a unit `front` and a ball of
    non-zero radius, `getRotation(sx, sy)` falls in the dead zone.
   */
  lemma ProbeAtReferenceIsStill(t: Transcendentals, tb: Trackball, sx: real, sy: real)
    requires SqrtLaw(t) && tb.r != 0.0 && Norm2(tb.front) == 1.0
    ensures var tb' := RefreshScreenCoord(tb, sx, sy);
            GetRotation(t, tb', sx, sy) == (tb', NoRotation)
  {
    var tb' := RefreshScreenCoord(tb, sx, sy);
    ProbeAtReference(t, tb, sx, sy);
    assert Sub(tb'.nowVec, tb'.nowVec) == Zero;
    DeadZoneIsSquaredDistance(t, tb', tb'.nowVec);
  }
}
