/**
  Axis-aligned bounding boxes as the two mesh loaders track them: per-axis
  maxima and minima grown one point at a time from a seed box.
 */
module BoundingBox {
  import opened Glm

  /** Per-axis maxima `hi` and minima `lo`. */
  datatype Box = Box(hi: Vec3, lo: Vec3)

  /** Widen `b` to take in the point `p`, one axis at a time. */
  function Grow(b: Box, p: Vec3): (b': Box)
    ensures forall k :: 0 <= k < 3 ==> Coord(b'.hi, k) == Max(Coord(b.hi, k), Coord(p, k))
    ensures forall k :: 0 <= k < 3 ==> Coord(b'.lo, k) == Min(Coord(b.lo, k), Coord(p, k))
  {
    Box(Vec3(Max(b.hi.x, p.x), Max(b.hi.y, p.y), Max(b.hi.z, p.z)),
        Vec3(Min(b.lo.x, p.x), Min(b.lo.y, p.y), Min(b.lo.z, p.z)))
  }

  /** The box after growing `seed` by every point of `pts`, in order. */
  function BoxOf(seed: Box, pts: seq<Vec3>): Box
    decreases |pts|
  {
    if |pts| == 0 then seed else Grow(BoxOf(seed, pts[..|pts| - 1]), pts[|pts| - 1])
  }

  /** Growing by one more point is one more `Grow`. */
  lemma BoxOfAppend(seed: Box, pts: seq<Vec3>, p: Vec3)
    ensures BoxOf(seed, pts + [p]) == Grow(BoxOf(seed, pts), p)
  {
    assert (pts + [p])[..|pts|] == pts;
  }

  /** `p` lies inside `b` on every axis. */
  predicate Contains(b: Box, p: Vec3) {
    forall k :: 0 <= k < 3 ==> Coord(b.lo, k) <= Coord(p, k) <= Coord(b.hi, k)
  }

  /** `outer` is at least as wide as `inner` on every axis. */
  predicate Encloses(outer: Box, inner: Box) {
    forall k :: 0 <= k < 3 ==> Coord(outer.lo, k) <= Coord(inner.lo, k) && Coord(inner.hi, k) <= Coord(outer.hi, k)
  }

  /** The grown box contains every point and encloses the seed. */
  lemma {:induction false} BoxOfContains(seed: Box, pts: seq<Vec3>)
    ensures Encloses(BoxOf(seed, pts), seed)
    ensures forall i :: 0 <= i < |pts| ==> Contains(BoxOf(seed, pts), pts[i])
    decreases |pts|
  {
    if |pts| > 0 {
      var front := pts[..|pts| - 1];
      BoxOfContains(seed, front);
      forall i | 0 <= i < |pts|
        ensures Contains(BoxOf(seed, pts), pts[i])
      {
        if i < |pts| - 1 {
          assert pts[i] == front[i];
        }
      }
    }
  }

  /**
    Every bound is attained: each per-axis maximum (minimum) is the seed's, or
    the coordinate of some point.
   */
  lemma {:induction false} BoxOfAttained(seed: Box, pts: seq<Vec3>)
    ensures forall k :: 0 <= k < 3 ==>
      Coord(BoxOf(seed, pts).hi, k) == Coord(seed.hi, k)
      || exists i :: 0 <= i < |pts| && Coord(pts[i], k) == Coord(BoxOf(seed, pts).hi, k)
    ensures forall k :: 0 <= k < 3 ==>
      Coord(BoxOf(seed, pts).lo, k) == Coord(seed.lo, k)
      || exists i :: 0 <= i < |pts| && Coord(pts[i], k) == Coord(BoxOf(seed, pts).lo, k)
    decreases |pts|
  {
    if |pts| > 0 {
      var front := pts[..|pts| - 1];
      BoxOfAttained(seed, front);
      forall k | 0 <= k < 3
        ensures Coord(BoxOf(seed, pts).hi, k) == Coord(seed.hi, k)
          || exists i :: 0 <= i < |pts| && Coord(pts[i], k) == Coord(BoxOf(seed, pts).hi, k)
        ensures Coord(BoxOf(seed, pts).lo, k) == Coord(seed.lo, k)
          || exists i :: 0 <= i < |pts| && Coord(pts[i], k) == Coord(BoxOf(seed, pts).lo, k)
      {
        var last := |pts| - 1;
        if Coord(BoxOf(seed, pts).hi, k) != Coord(pts[last], k) {
          assert Coord(BoxOf(seed, pts).hi, k) == Coord(BoxOf(seed, front).hi, k);
          if Coord(BoxOf(seed, front).hi, k) != Coord(seed.hi, k) {
            var i :| 0 <= i < |front| && Coord(front[i], k) == Coord(BoxOf(seed, front).hi, k);
            assert pts[i] == front[i];
          }
        }
        if Coord(BoxOf(seed, pts).lo, k) != Coord(pts[last], k) {
          assert Coord(BoxOf(seed, pts).lo, k) == Coord(BoxOf(seed, front).lo, k);
          if Coord(BoxOf(seed, front).lo, k) != Coord(seed.lo, k) {
            var i :| 0 <= i < |front| && Coord(front[i], k) == Coord(BoxOf(seed, front).lo, k);
            assert pts[i] == front[i];
          }
        }
      }
    }
  }

  /**
    Seeded with a single point, the box is ordered (`lo <= hi` on every axis),
    contains that point and all later ones, and each bound is attained by one
    of them.
   */
  lemma PointSeededBox(first: Vec3, rest: seq<Vec3>)
    ensures var b := BoxOf(Box(first, first), rest);
            Contains(b, first)
            && (forall i :: 0 <= i < |rest| ==> Contains(b, rest[i]))
            && (forall k :: 0 <= k < 3 ==> Coord(b.lo, k) <= Coord(b.hi, k))
            && (forall k :: 0 <= k < 3 ==>
                 (Coord(b.hi, k) == Coord(first, k) || exists i :: 0 <= i < |rest| && Coord(rest[i], k) == Coord(b.hi, k))
                 && (Coord(b.lo, k) == Coord(first, k) || exists i :: 0 <= i < |rest| && Coord(rest[i], k) == Coord(b.lo, k)))
  {
    BoxOfContains(Box(first, first), rest);
    BoxOfAttained(Box(first, first), rest);
  }
}
