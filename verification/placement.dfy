/**
  The transform state that `Mesh` and `AssimpMesh` share, field for field:
  three accumulated angles, an accumulated rotation matrix, an accumulated
  translation and the bloom radius, with the four update operations that
  both classes define identically.
 */
module Placement {
  import opened Glm
  import opened VirtualTrackball

  datatype Placement = Placement(
    xAngle: real,
    yAngle: real,
    zAngle: real,
    rotation: Mat4,
    translateDiff: Vec3,
    bloomR: real)

  const MinBloomR: real := 0.005
  const MaxBloomR: real := 0.5

  /** The state both constructors set up: zero angles, identity rotation. */
  function Initial(translateDiff: Vec3, bloomR: real): (p: Placement)
    ensures p.xAngle == 0.0 && p.yAngle == 0.0 && p.zAngle == 0.0
    ensures p.rotation == Identity && p.translateDiff == translateDiff && p.bloomR == bloomR
  {
    Placement(0.0, 0.0, 0.0, Identity, translateDiff, bloomR)
  }

  /** The bloom-radius rule: add, raise to at least 0.005, then cap at 0.5. */
  function ClampBloomR(b: real, d: real): (v: real)
    ensures MinBloomR <= v <= MaxBloomR
    ensures MinBloomR < b + d < MaxBloomR ==> v == b + d
  {
    var s := b + d;
    var s' := if s <= MinBloomR then MinBloomR else s;
    if s' >= MaxBloomR then MaxBloomR else s'
  }

  /** The clamp agrees with `max(0.005, min(0.5, b + d))`. */
  lemma ClampBloomRIsMinMax(b: real, d: real)
    ensures ClampBloomR(b, d) == Max(MinBloomR, Min(MaxBloomR, b + d))
  {
  }

  /** `updateBloomR`: only the bloom radius changes, and it stays in [0.005, 0.5]. */
  function UpdateBloomR(p: Placement, d: real): (p': Placement)
    ensures MinBloomR <= p'.bloomR <= MaxBloomR
    ensures MinBloomR < p.bloomR + d < MaxBloomR ==> p'.bloomR == p.bloomR + d
    ensures p'.rotation == p.rotation && p'.translateDiff == p.translateDiff
    ensures p'.xAngle == p.xAngle && p'.yAngle == p.yAngle && p'.zAngle == p.zAngle
  {
    p.(bloomR := ClampBloomR(p.bloomR, d))
  }

  /** A second update with a zero step changes nothing: the clamp is idempotent. */
  lemma BloomRClampIdempotent(p: Placement, d: real)
    ensures UpdateBloomR(UpdateBloomR(p, d), 0.0) == UpdateBloomR(p, d)
  {
  }

  /** `updateAngle`: add to the angle the index selects; other indices change nothing. */
  function UpdateAngle(p: Placement, d: real, k: nat): (p': Placement)
    ensures k == 0 ==> p' == p.(xAngle := p.xAngle + d)
    ensures k == 1 ==> p' == p.(yAngle := p.yAngle + d)
    ensures k == 2 ==> p' == p.(zAngle := p.zAngle + d)
    ensures k > 2 ==> p' == p
  {
    match k
    case 0 => p.(xAngle := p.xAngle + d)
    case 1 => p.(yAngle := p.yAngle + d)
    case 2 => p.(zAngle := p.zAngle + d)
    case _ => p
  }

  /** Two updates of the same angle add up. */
  lemma UpdateAngleAccumulates(p: Placement, a: real, b: real, k: nat)
    ensures UpdateAngle(UpdateAngle(p, a, k), b, k) == UpdateAngle(p, a + b, k)
  {
  }

  /** `updateTranslateDiff`: only the translation changes, by `diff`. */
  function UpdateTranslateDiff(p: Placement, diff: Vec3): (p': Placement)
    ensures Sub(p'.translateDiff, p.translateDiff) == diff
    ensures p'.rotation == p.rotation && p'.bloomR == p.bloomR
    ensures p'.xAngle == p.xAngle && p'.yAngle == p.yAngle && p'.zAngle == p.zAngle
  {
    p.(translateDiff := Add(p.translateDiff, diff))
  }

  /** Two translations add up. */
  lemma TranslationsAccumulate(p: Placement, a: Vec3, b: Vec3)
    ensures UpdateTranslateDiff(UpdateTranslateDiff(p, a), b) == UpdateTranslateDiff(p, Add(a, b))
  {
  }

  /** `updateRotation`: pre-multiply the rotation by `rotate(I, angle, axis)`; nothing else changes. */
  function UpdateRotation(t: Transcendentals, p: Placement, rot: Rotation): (p': Placement)
    ensures p'.rotation == Mul(t.rotate(rot.angle, rot.axis), p.rotation)
    ensures p'.translateDiff == p.translateDiff && p'.bloomR == p.bloomR
    ensures p'.xAngle == p.xAngle && p'.yAngle == p.yAngle && p'.zAngle == p.zAngle
  {
    p.(rotation := Mul(t.rotate(rot.angle, rot.axis), p.rotation))
  }

  /** A zero-angle rotation, where glm::rotate yields the identity, leaves the state unchanged. */
  lemma StillRotationIsNoOp(t: Transcendentals, p: Placement, axis: Vec3)
    requires t.rotate(0.0, axis) == Identity
    ensures UpdateRotation(t, p, Rotation(axis, 0.0)) == p
  {
    MulIdentityLeft(p.rotation);
  }

  /** From the initial state, the first rotation is exactly `rotate(I, angle, axis)`. */
  lemma FirstRotation(t: Transcendentals, translateDiff: Vec3, bloomR: real, rot: Rotation)
    ensures UpdateRotation(t, Initial(translateDiff, bloomR), rot).rotation == t.rotate(rot.angle, rot.axis)
  {
    MulIdentityRight(t.rotate(rot.angle, rot.axis));
  }
}
