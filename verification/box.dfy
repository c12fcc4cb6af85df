/** `Box::intersectLocal`: the slab test of a ray against the axis-aligned unit cube
    [-0.5, 0.5]^3 in the box's local frame. */
module BoxIntersect {
  import opened Vectors
  import opened SceneTypes

  /** `DBL_MAX`, the largest finite IEEE 754 double, (2^53 - 1) * 2^971, written out exactly. */
  const DBL_MAX: real := 179769313486231570814527423731704356798070567525844996598917476803157260780028538760589558632766878171540458953514382464234321326889464182768467546703537516986049910576551282076245490090389328944075868508455133942304583236903222948165808559332123348274797826204144723168738177180919299881250404026184124858368.0

  /** Is the ray parallel to the slab of axis k? */
  predicate Parallel(r: Ray, k: int)
    requires 0 <= k < 3
  {
    Axis(r.dir, k) == 0.0
  }

  /** Entry parameter of the slab of a non-parallel axis k (the smaller of t1, t2). */
  function Lo(r: Ray, k: int): real
    requires 0 <= k < 3 && !Parallel(r, k)
  {
    var t1 := (-0.5 - Axis(r.origin, k)) / Axis(r.dir, k);
    var t2 := (0.5 - Axis(r.origin, k)) / Axis(r.dir, k);
    if t1 > t2 then t2 else t1
  }

  /** Exit parameter of the slab of a non-parallel axis k (the larger of t1, t2). */
  function Hi(r: Ray, k: int): real
    requires 0 <= k < 3 && !Parallel(r, k)
  {
    var t1 := (-0.5 - Axis(r.origin, k)) / Axis(r.dir, k);
    var t2 := (0.5 - Axis(r.origin, k)) / Axis(r.dir, k);
    if t1 > t2 then t1 else t2
  }

  /** The largest entry parameter over the non-parallel axes below k, or -DBL_MAX. */
  function NearAfter(r: Ray, k: int): real
    requires 0 <= k <= 3
  {
    if k == 0 then -DBL_MAX
    else if Parallel(r, k - 1) || Lo(r, k - 1) <= NearAfter(r, k - 1) then NearAfter(r, k - 1)
    else Lo(r, k - 1)
  }

  /** The smallest exit parameter over the non-parallel axes below k, or DBL_MAX. */
  function FarAfter(r: Ray, k: int): real
    requires 0 <= k <= 3
  {
    if k == 0 then DBL_MAX
    else if Parallel(r, k - 1) || Hi(r, k - 1) >= FarAfter(r, k - 1) then FarAfter(r, k - 1)
    else Hi(r, k - 1)
  }

  /** The axis whose entry parameter first reached the largest value (0 if none did). */
  function NearAxisAfter(r: Ray, k: int): (a: int)
    requires 0 <= k <= 3
    ensures 0 <= a < 3
    ensures a != 0 ==> !Parallel(r, a) && Lo(r, a) == NearAfter(r, k)
  {
    if k == 0 then 0
    else if Parallel(r, k - 1) || Lo(r, k - 1) <= NearAfter(r, k - 1) then NearAxisAfter(r, k - 1)
    else k - 1
  }

  /** On every parallel axis the origin lies within the slab. */
  predicate ParallelInside(r: Ray)
  {
    forall k :: 0 <= k < 3 && Parallel(r, k) ==> -0.5 <= Axis(r.origin, k) <= 0.5
  }

  /** The ray meets the box: every parallel axis admits the origin, the slab
      intervals overlap, and their common exit lies beyond RAY_EPSILON. */
  predicate BoxHit(r: Ray)
  {
    ParallelInside(r) && NearAfter(r, 3) <= FarAfter(r, 3) && FarAfter(r, 3) > RAY_EPSILON
  }

  /** The unit normal on `axis`, pointing against the ray's direction component there. */
  function BoxNormal(r: Ray, axis: int): (N: Vec3)
    requires 0 <= axis < 3
    ensures Axis(N, axis) == 1.0 || Axis(N, axis) == -1.0
    ensures forall k :: 0 <= k < 3 && k != axis ==> Axis(N, k) == 0.0
    ensures Dot(N, r.dir) <= 0.0
    ensures !Parallel(r, axis) ==> Dot(N, r.dir) < 0.0
  {
    var s := if Axis(r.dir, axis) < 0.0 then 1.0 else -1.0;
    if axis == 1 then Vec3(0.0, s, 0.0)
    else if axis == 2 then Vec3(0.0, 0.0, s)
    else Vec3(s, 0.0, 0.0)
  }

  /** NearAfter is the maximum of -DBL_MAX and the entry parameters of the
      non-parallel axes below k: it bounds each of them and is one of them. */
  lemma {:induction false} NearIsMaximum(r: Ray, k: int)
    requires 0 <= k <= 3
    ensures NearAfter(r, k) >= -DBL_MAX
    ensures forall j :: 0 <= j < k && !Parallel(r, j) ==> Lo(r, j) <= NearAfter(r, k)
    ensures NearAfter(r, k) == -DBL_MAX || exists j :: 0 <= j < k && !Parallel(r, j) && NearAfter(r, k) == Lo(r, j)
  {
    if k > 0 {
      NearIsMaximum(r, k - 1);
    }
  }

  /** FarAfter is the minimum of DBL_MAX and the exit parameters of the non-parallel
      axes below k. */
  lemma {:induction false} FarIsMinimum(r: Ray, k: int)
    requires 0 <= k <= 3
    ensures FarAfter(r, k) <= DBL_MAX
    ensures forall j :: 0 <= j < k && !Parallel(r, j) ==> FarAfter(r, k) <= Hi(r, j)
    ensures FarAfter(r, k) == DBL_MAX || exists j :: 0 <= j < k && !Parallel(r, j) && FarAfter(r, k) == Hi(r, j)
  {
    if k > 0 {
      FarIsMinimum(r, k - 1);
    }
  }

  /** Entry parameters only grow and exit parameters only shrink as axes are added. */
  lemma {:induction false} NearFarMonotone(r: Ray, j: int, k: int)
    requires 0 <= j <= k <= 3
    ensures NearAfter(r, j) <= NearAfter(r, k)
    ensures FarAfter(r, k) <= FarAfter(r, j)
    decreases k - j
  {
    if j < k {
      NearFarMonotone(r, j, k - 1);
    }
  }

  lemma ParallelAxisStep(r: Ray, k: int)
    requires 0 <= k < 3 && Parallel(r, k)
    ensures NearAfter(r, k + 1) == NearAfter(r, k) && FarAfter(r, k + 1) == FarAfter(r, k)
    ensures NearAxisAfter(r, k + 1) == NearAxisAfter(r, k)
  {
  }

  lemma SlabAxisStep(r: Ray, k: int, t1: real, t2: real)
    requires 0 <= k < 3 && !Parallel(r, k)
    requires var o, d := Axis(r.origin, k), Axis(r.dir, k);
             (t1, t2) == if (-0.5 - o) / d > (0.5 - o) / d then ((0.5 - o) / d, (-0.5 - o) / d)
                         else ((-0.5 - o) / d, (0.5 - o) / d)
    ensures NearAfter(r, k + 1) == if t1 > NearAfter(r, k) then t1 else NearAfter(r, k)
    ensures FarAfter(r, k + 1) == if t2 < FarAfter(r, k) then t2 else FarAfter(r, k)
    ensures NearAxisAfter(r, k + 1) == if t1 > NearAfter(r, k) then k else NearAxisAfter(r, k)
  {
    assert t1 == Lo(r, k) && t2 == Hi(r, k);
  }

  /** `Box::intersectLocal`: on a hit the isect gets the entry parameter, the
      axis-aligned normal against the ray and this box; on a miss it is untouched. */
  method IntersectLocal(self: ObjId, r: Ray, i0: Isect) returns (hit: bool, i: Isect)
    ensures hit <==> BoxHit(r)
    ensures !hit ==> i == i0
    ensures hit ==> i == Isect(NearAfter(r, 3), BoxNormal(r, NearAxisAfter(r, 3)), self)
  {
    i := i0;
    var tfar := DBL_MAX;
    var tnear := -DBL_MAX;
    var nearAxis := 0;
    var index := 0;
    while index < 3
      invariant 0 <= index <= 3
      invariant tnear == NearAfter(r, index) && tfar == FarAfter(r, index)
      invariant nearAxis == NearAxisAfter(r, index)
      invariant tnear <= tfar && tfar > RAY_EPSILON
      invariant forall k :: 0 <= k < index && Parallel(r, k) ==> -0.5 <= Axis(r.origin, k) <= 0.5
    {
      var d := Axis(r.dir, index);
      var o := Axis(r.origin, index);
      if d == 0.0 {
        if o < -0.5 || o > 0.5 {
          assert !ParallelInside(r) by {
            assert Parallel(r, index);
          }
          return false, i;
        }
        ParallelAxisStep(r, index);
        index := index + 1;
        continue;
      }
      var t1 := (-0.5 - o) / d;
      var t2 := (0.5 - o) / d;
      if t1 > t2 {
        t1, t2 := t2, t1;
      }
      SlabAxisStep(r, index, t1, t2);
      if t1 > tnear {
        tnear := t1;
        nearAxis := index;
      }
      if t2 < tfar {
        tfar := t2;
      }
      if tnear > tfar || tfar <= RAY_EPSILON {
        NearFarMonotone(r, index + 1, 3);
        return false, i;
      }
      index := index + 1;
    }
    i := Isect(tnear, BoxNormal(r, nearAxis), self);
    return true, i;
  }

  /** The returned normal opposes the ray: N . dir <= 0. */
  lemma HitNormalOpposesRay(r: Ray)
    ensures Dot(BoxNormal(r, NearAxisAfter(r, 3)), r.dir) <= 0.0
  {
  }

  /** From an origin strictly inside the box the entry parameter is negative: the hit
      distance is not checked against RAY_EPSILON, only the exit is. */
  lemma InsideOriginHasNegativeNear(r: Ray)
    requires -0.5 < r.origin.x < 0.5 && -0.5 < r.origin.y < 0.5 && -0.5 < r.origin.z < 0.5
    ensures NearAfter(r, 3) < 0.0
  {
    NearIsMaximum(r, 3);
    forall k | 0 <= k < 3 && !Parallel(r, k)
      ensures Lo(r, k) < 0.0
    {
      EntryBehindInsideOrigin(Axis(r.origin, k), Axis(r.dir, k));
    }
  }

  lemma EntryBehindInsideOrigin(o: real, d: real)
    requires -0.5 < o < 0.5 && d != 0.0
    ensures (-0.5 - o) / d < 0.0 || (0.5 - o) / d < 0.0
  {
    if d > 0.0 {
      QuotientSign(-0.5 - o, d);
    } else {
      QuotientSign(o - 0.5, -d);
      assert (0.5 - o) / d == (o - 0.5) / (-d);
    }
  }

  lemma QuotientSign(a: real, b: real)
    requires a < 0.0 < b
    ensures a / b < 0.0
  {
    assert (a / b) * b == a;
  }
}
