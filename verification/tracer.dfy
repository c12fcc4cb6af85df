/** The recursive tracer: `trace`, both `traceRay` overloads, `traceLightSource`,
    `traceReflection` and `traceRefraction`, with the `RayData` record they pass.

    Each traced colour comes with the position in the `rand()` stream after the
    call; soft shadows and distributed reflection and refraction read the stream
    in the order the source calls `rand()`. The functions are the specification;
    the methods follow the source's statements and loops and are proved equal to
    them. */
module Tracer {
  import opened Vectors
  import opened Wrappers
  import opened SceneTypes
  import opened Settings
  import opened Scenes
  import opened Shading
  import opened MediumStack

  /** `RayTracer::RayData`: scene, ray, hit, weight (`thresh`), remaining depth and
      the medium stack, which is copied with the record. */
  datatype RayData = RayData(
    scene: Option<Scene>,
    ray: Option<Ray>,
    isect: Option<Isect>,
    weight: Vec3,
    depth: int,
    stack: seq<ObjId>)

  /** The default `RayData()`: no scene, ray or hit, weight 0, depth -1, no media. */
  function DefaultRayData(): (d: RayData)
    ensures d.scene.None? && d.ray.None? && d.isect.None?
    ensures d.weight == Zero && d.depth == -1 && d.stack == []
  {
    RayData(None, None, None, Zero, -1, [])
  }

  /** The five-argument `RayData` constructor: the fields it is given, and an empty
      medium stack, so a primary ray starts outside every object. */
  function NewRayData(scene: Option<Scene>, r: Option<Ray>, i: Option<Isect>, weight: Vec3, depth: int): (d: RayData)
    ensures d.scene == scene && d.ray == r && d.isect == i
    ensures d.weight == weight && d.depth == depth && d.stack == []
  {
    RayData(scene, r, i, weight, depth, [])
  }

  /** A secondary ray's record: same scene, no hit, one level less depth. */
  function ChildRayData(parent: RayData, r: Ray, weight: Vec3, stack: seq<ObjId>): (d: RayData)
    ensures d.scene == parent.scene && d.ray == Some(r) && d.isect.None?
    ensures d.weight == weight && d.depth == parent.depth - 1 && d.stack == stack
  {
    RayData(parent.scene, Some(r), None, weight, parent.depth - 1, stack)
  }

  /** A colour and the position in the `rand()` stream after computing it. */
  datatype Traced = Traced(color: Vec3, next: nat)

  /** Samples per soft-shadow disk and per glossy cone. */
  const SAMPLES: nat := 5
  const SOFT_SHADOW_RADIUS: real := 0.1
  const CONE_RADIUS: real := 0.05

  /** The recursion budget: a depth at or below 0 allows no secondary rays. */
  function Budget(depth: int): nat
  {
    if depth < 0 then 0 else depth
  }

  /** Every weight channel is at or below the threshold. */
  predicate Pruned(w: Vec3, threshold: real)
  {
    w.x <= threshold && w.y <= threshold && w.z <= threshold
  }

  /** The hit normal, negated when the ray is leaving the object on top of the stack. */
  function OrientNormal(i: Isect, stack: seq<ObjId>): (j: Isect)
    ensures j.t == i.t && j.obj == i.obj
    ensures j.N == if stack != [] && stack[|stack| - 1] == i.obj then Neg(i.N) else i.N
  {
    if stack != [] && stack[|stack| - 1] == i.obj then i.(N := Neg(i.N)) else i
  }

  // ---------------------------------------------------------------------------
  // Specification

  /** `traceRay(RayData*)`. */
  function RayColor(env: Env, s: Scene, r: Ray, w: Vec3, depth: int, stack: seq<ObjId>, pos: nat): (t: Traced)
    ensures t.next >= pos
    decreases Budget(depth), 5, 0
  {
    if Pruned(w, env.ui.threshold) then Traced(Zero, pos)
    else match s.intersect(r)
      case None => Traced(Zero, pos)
      case Some(hit) => HitColor(env, s, r, OrientNormal(hit, stack), w, depth, stack, pos)
  }

  /** The colour of a ray at its (oriented) hit: direct light, then reflection, then
      refraction, each reading the `rand()` stream where the previous one stopped. */
  function HitColor(env: Env, s: Scene, r: Ray, i: Isect, w: Vec3, depth: int, stack: seq<ObjId>, pos: nat): (t: Traced)
    ensures t.next >= pos
    decreases Budget(depth), 4, 0
  {
    var a := LightSourceColor(env, s, r, i, w, pos);
    var b := ReflectionColor(env, s, r, i, w, depth, stack, a.next);
    var c := RefractionColor(env, s, r, i, w, depth, stack, b.next);
    Traced(Add(Add(a.color, b.color), c.color), c.next)
  }

  /** One soft-shadow sample: the hit point moved within the disk spanned by the two
      offsets, shaded as if seen along the ray from the eye to the moved point. */
  function SoftShadowSample(env: Env, s: Scene, m: Material, r: Ray, i: Isect,
                            offX: Vec3, offY: Vec3, q: nat): Vec3
  {
    var p := Add(Add(At(r, i.t), Scale(Scale(offX, RandD(env.draws, q)), SOFT_SHADOW_RADIUS)),
                 Scale(Scale(offY, RandD(env.draws, q + 1)), SOFT_SHADOW_RADIUS));
    var dir := Sub(p, r.origin);
    PhongColor(s, env.ui, env.geo, m, Ray(r.origin, env.geo.normalize(dir)), i.(t := env.geo.length(dir)))
  }

  /** The sum of the first k soft-shadow samples, sample j reading draws pos + 2j and pos + 2j + 1. */
  function SoftShadowSum(env: Env, s: Scene, m: Material, r: Ray, i: Isect,
                         offX: Vec3, offY: Vec3, k: nat, pos: nat): Vec3
  {
    if k == 0 then Zero
    else Add(SoftShadowSum(env, s, m, r, i, offX, offY, k - 1, pos),
             SoftShadowSample(env, s, m, r, i, offX, offY, pos + 2 * (k - 1)))
  }

  /** `traceLightSource`: the Phong colour at the hit, or with soft shadows the mean
      of five jittered samples; either way scaled by the ray's weight. */
  function LightSourceColor(env: Env, s: Scene, r: Ray, i: Isect, w: Vec3, pos: nat): (t: Traced)
    ensures !env.ui.softShadow ==> t.next == pos
    ensures env.ui.softShadow ==> t.next == pos + 2 * SAMPLES
  {
    var m := s.material(i.obj);
    if !env.ui.softShadow then Traced(Prod(PhongColor(s, env.ui, env.geo, m, r, i), w), pos)
    else
      var offX := env.geo.normalize(env.geo.cross(i.N, r.dir));
      var offY := env.geo.normalize(env.geo.cross(i.N, offX));
      Traced(Prod(Div(SoftShadowSum(env, s, m, r, i, offX, offY, SAMPLES, pos), SAMPLES as real), w),
             pos + 2 * SAMPLES)
  }

  /** One cone sample: the axis tilted by draws q and q + 1 along the two offsets,
      traced as a child ray with depth - 1 from draw q + 2 on. */
  function ConeSample(env: Env, s: Scene, P: Vec3, axis: Vec3, offX: Vec3, offY: Vec3, w: Vec3, depth: int,
                      stack: seq<ObjId>, q: nat): (t: Traced)
    requires depth > 0
    ensures t.next >= q + 2
    decreases Budget(depth), 0, 0
  {
    var dir := env.geo.normalize(Add(Add(axis, Scale(Scale(offX, RandD(env.draws, q)), CONE_RADIUS)),
                                     Scale(Scale(offY, RandD(env.draws, q + 1)), CONE_RADIUS)));
    RayColor(env, s, Ray(Add(P, Scale(dir, RAY_EPSILON)), dir), w, depth - 1, stack, q + 2)
  }

  /** The first k cone samples and their sum, each reading the stream where the previous one stopped. */
  function ConeSamples(env: Env, s: Scene, P: Vec3, axis: Vec3, offX: Vec3, offY: Vec3, w: Vec3, depth: int,
                       stack: seq<ObjId>, k: nat, pos: nat): (t: Traced)
    requires depth > 0
    ensures t.next >= pos
    decreases Budget(depth), 1, k
  {
    if k == 0 then Traced(Zero, pos)
    else
      var prev := ConeSamples(env, s, P, axis, offX, offY, w, depth, stack, k - 1, pos);
      var c := ConeSample(env, s, P, axis, offX, offY, w, depth, stack, prev.next);
      Traced(Add(prev.color, c.color), c.next)
  }

  /** The light arriving back along `dir` from the point P: one child ray with depth
      - 1, or, when `distributed`, the mean of the five cone samples around `dir`. */
  function SecondaryColor(env: Env, s: Scene, P: Vec3, dir: Vec3, N: Vec3, w: Vec3, depth: int,
                          stack: seq<ObjId>, distributed: bool, pos: nat): (t: Traced)
    requires depth > 0
    ensures t.next >= pos
    decreases Budget(depth), 2, 0
  {
    if !distributed then
      RayColor(env, s, Ray(Add(P, Scale(dir, RAY_EPSILON)), dir), w, depth - 1, stack, pos)
    else
      var offX := env.geo.normalize(env.geo.cross(dir, N));
      var offY := env.geo.normalize(env.geo.cross(dir, offX));
      var c := ConeSamples(env, s, P, dir, offX, offY, w, depth, stack, SAMPLES, pos);
      Traced(Div(c.color, SAMPLES as real), c.next)
  }

  /** The mirror image of d about the plane with normal N, before normalisation:
      for a unit N the normal component changes sign and the tangential part stays. */
  function Mirror(N: Vec3, d: Vec3): (m: Vec3)
    ensures Dot(N, N) == 1.0 ==> Dot(N, m) == -Dot(N, d)
    ensures Dot(N, N) == 1.0 ==> Tangent(N, m) == Tangent(N, d)
  {
    MirrorFacts(N, d);
    Add(Scale(N, 2.0 * Dot(N, Neg(d))), d)
  }

  lemma MirrorFacts(N: Vec3, d: Vec3)
    ensures var m := Add(Scale(N, 2.0 * Dot(N, Neg(d))), d);
            Dot(N, N) == 1.0 ==> Dot(N, m) == -Dot(N, d) && Tangent(N, m) == Tangent(N, d)
  {
    var k := 2.0 * Dot(N, Neg(d));
    assert Dot(N, Neg(d)) == -Dot(N, d);
    DotScaleAdd(N, k, d);
    if Dot(N, N) == 1.0 {
      TangentShift(N, k, d);
    }
  }

  /** The mirror direction of the ray about the normal. */
  function Reflected(geo: Geometry, r: Ray, i: Isect): Vec3
  {
    geo.normalize(Mirror(i.N, r.dir))
  }

  /** `traceReflection`. */
  function ReflectionColor(env: Env, s: Scene, r: Ray, i: Isect, w: Vec3, depth: int,
                           stack: seq<ObjId>, pos: nat): (t: Traced)
    ensures t.next >= pos
    ensures depth <= 0 || IsZero(s.material(i.obj).kr) ==> t == Traced(Zero, pos)
    decreases Budget(depth), 3, 0
  {
    if depth <= 0 then Traced(Zero, pos)
    else
      var m := s.material(i.obj);
      var P := At(r, i.t);
      if IsZero(m.kr) then Traced(Zero, pos)
      else
        SecondaryColor(env, s, P, Reflected(env.geo, r, i), i.N, Prod(w, m.kr), depth, stack, env.ui.diffuse, pos)
  }

  /** The refracted direction for the ratio n_r and the discriminant `root`. */
  function Refracted(geo: Geometry, r: Ray, i: Isect, nr: real, root: real): Vec3
  {
    Sub(Scale(i.N, nr * Dot(i.N, Neg(r.dir)) - geo.sqrt(root)), Scale(Neg(r.dir), nr))
  }

  /** `traceRefraction`. */
  function RefractionColor(env: Env, s: Scene, r: Ray, i: Isect, w: Vec3, depth: int,
                           stack: seq<ObjId>, pos: nat): (t: Traced)
    ensures t.next >= pos
    ensures depth <= 0 || IsZero(s.material(i.obj).kt) ==> t == Traced(Zero, pos)
    decreases Budget(depth), 3, 0
  {
    if depth <= 0 then Traced(Zero, pos)
    else
      var m := s.material(i.obj);
      var P := At(r, i.t);
      if IsZero(m.kt) then Traced(Zero, pos)
      else
        var f := MediumStep(stack, i.obj, s.material);
        var nr := f.ni / f.nt;
        var root := Discriminant(nr, Dot(i.N, Neg(r.dir)));
        if root < 0.0 then Traced(Zero, pos)
        else
          SecondaryColor(env, s, P, Refracted(env.geo, r, i, nr, root), i.N, Prod(w, m.kt), depth, f.stack,
                         env.ui.glossy, pos)
  }

  /** `trace`: the camera ray through (x, y), traced at full weight with the
      interface's depth and an empty medium stack, clamped to [0, 1]. */
  function PrimaryColor(env: Env, s: Scene, x: real, y: real, pos: nat): (t: Traced)
    ensures InUnitCube(t.color)
    ensures t.next >= pos
  {
    var t := RayColor(env, s, s.camera(x, y), One, env.ui.depth, [], pos);
    ClampInUnitCube(t.color);
    Traced(Clamp(t.color), t.next)
  }

  // ---------------------------------------------------------------------------
  // The source's statements

  /** `traceRay(RayData*)`. */
  method TraceRay(env: Env, data: RayData, pos: nat) returns (t: Traced)
    requires data.scene.Some? && data.ray.Some?
    ensures t == RayColor(env, data.scene.value, data.ray.value, data.weight, data.depth, data.stack, pos)
    decreases Budget(data.depth), 5, 0
  {
    if Pruned(data.weight, env.ui.threshold) {
      return Traced(Zero, pos);
    }
    var s := data.scene.value;
    var hit := s.intersect(data.ray.value);
    if hit.None? {
      return Traced(Zero, pos);
    }
    var i := hit.value;
    if data.stack != [] && data.stack[|data.stack| - 1] == i.obj {
      i := i.(N := Neg(i.N));
    }
    var d := data.(isect := Some(i));
    var shade := TraceLightSource(env, d, pos);
    var reflect := TraceReflection(env, d, shade.next);
    var refract := TraceRefraction(env, d, reflect.next);
    t := Traced(Add(Add(shade.color, reflect.color), refract.color), refract.next);
  }

  /** `traceRay(scene, r, thresh, depth)`: a fresh record with an empty medium stack. */
  method TraceNewRay(env: Env, s: Scene, r: Ray, weight: Vec3, depth: int, pos: nat) returns (t: Traced)
    ensures t == RayColor(env, s, r, weight, depth, [], pos)
  {
    var data := NewRayData(Some(s), Some(r), None, weight, depth);
    t := TraceRay(env, data, pos);
  }

  /** `trace`. */
  method Trace(env: Env, s: Scene, x: real, y: real, pos: nat) returns (t: Traced)
    ensures t == PrimaryColor(env, s, x, y, pos)
  {
    var r := s.camera(x, y);
    t := TraceNewRay(env, s, r, One, env.ui.depth, pos);
    t := t.(color := Clamp(t.color));
  }

  /** One pass of the soft-shadow loop: the jittered point, the ray from the eye to
      it and the shade there. */
  method ShadeSoftSample(env: Env, s: Scene, m: Material, r: Ray, i: Isect, offX: Vec3, offY: Vec3, q: nat)
    returns (c: Vec3)
    ensures c == SoftShadowSample(env, s, m, r, i, offX, offY, q)
  {
    var p := At(r, i.t);
    p := Add(p, Scale(Scale(offX, RandD(env.draws, q)), SOFT_SHADOW_RADIUS));
    p := Add(p, Scale(Scale(offY, RandD(env.draws, q + 1)), SOFT_SHADOW_RADIUS));
    var dir := Sub(p, r.origin);
    var iNext := i.(t := env.geo.length(dir));
    var rNext := Ray(r.origin, env.geo.normalize(dir));
    c := Shade(s, env.ui, env.geo, m, rNext, iNext);
  }

  /** The soft-shadow loop: five samples, two draws each. */
  method SumSoftShadowSamples(env: Env, s: Scene, m: Material, r: Ray, i: Isect, offX: Vec3, offY: Vec3, pos: nat)
    returns (result: Vec3, q: nat)
    ensures result == SoftShadowSum(env, s, m, r, i, offX, offY, SAMPLES, pos)
    ensures q == pos + 2 * SAMPLES
  {
    hide SoftShadowSample;
    result := Zero;
    q := pos;
    for k := 0 to SAMPLES
      invariant q == pos + 2 * k
      invariant result == SoftShadowSum(env, s, m, r, i, offX, offY, k, pos)
    {
      var c := ShadeSoftSample(env, s, m, r, i, offX, offY, q);
      q := q + 2;
      result := Add(result, c);
    }
  }

  /** `traceLightSource`. */
  method TraceLightSource(env: Env, data: RayData, pos: nat) returns (t: Traced)
    requires data.scene.Some? && data.ray.Some? && data.isect.Some?
    ensures t == LightSourceColor(env, data.scene.value, data.ray.value, data.isect.value, data.weight, pos)
  {
    var s, r, i := data.scene.value, data.ray.value, data.isect.value;
    var m := s.material(i.obj);
    if !env.ui.softShadow {
      var result := Shade(s, env.ui, env.geo, m, r, i);
      return Traced(Prod(result, data.weight), pos);
    }
    var offX := env.geo.normalize(env.geo.cross(i.N, r.dir));
    var offY := env.geo.normalize(env.geo.cross(i.N, offX));
    var result, q := SumSoftShadowSamples(env, s, m, r, i, offX, offY, pos);
    result := Div(result, SAMPLES as real);
    t := Traced(Prod(result, data.weight), q);
  }

  /** One pass of the cone loop. */
  method TraceConeSample(env: Env, data: RayData, P: Vec3, axis: Vec3, offX: Vec3, offY: Vec3, w: Vec3,
                         stack: seq<ObjId>, q: nat) returns (t: Traced)
    requires data.scene.Some? && data.depth > 0
    ensures t == ConeSample(env, data.scene.value, P, axis, offX, offY, w, data.depth, stack, q)
    decreases Budget(data.depth), 0, 0
  {
    var dir := axis;
    dir := Add(dir, Scale(Scale(offX, RandD(env.draws, q)), CONE_RADIUS));
    dir := Add(dir, Scale(Scale(offY, RandD(env.draws, q + 1)), CONE_RADIUS));
    dir := env.geo.normalize(dir);
    var child := ChildRayData(data, Ray(Add(P, Scale(dir, RAY_EPSILON)), dir), w, stack);
    t := TraceRay(env, child, q + 2);
  }

  /** The five-sample loop shared by distributed reflection and glossy refraction:
      the sum of the children's colours (the caller divides by five). */
  method TraceCone(env: Env, data: RayData, P: Vec3, axis: Vec3, offX: Vec3, offY: Vec3, w: Vec3,
                   stack: seq<ObjId>, pos: nat) returns (t: Traced)
    requires data.scene.Some? && data.depth > 0
    ensures t == ConeSamples(env, data.scene.value, P, axis, offX, offY, w, data.depth, stack, SAMPLES, pos)
    decreases Budget(data.depth), 1, 0
  {
    var result := Zero;
    var q := pos;
    for k := 0 to SAMPLES
      invariant Traced(result, q) == ConeSamples(env, data.scene.value, P, axis, offX, offY, w, data.depth, stack, k, pos)
    {
      var c := TraceConeSample(env, data, P, axis, offX, offY, w, stack, q);
      result := Add(result, c.color);
      q := c.next;
    }
    t := Traced(result, q);
  }

  /** The recursion shared by `traceReflection` and `traceRefraction`: one child ray
      pushed RAY_EPSILON off the surface, or the five-sample cone divided by five. */
  method TraceSecondary(env: Env, data: RayData, P: Vec3, dir: Vec3, N: Vec3, w: Vec3,
                        stack: seq<ObjId>, distributed: bool, pos: nat) returns (t: Traced)
    requires data.scene.Some? && data.depth > 0
    ensures t == SecondaryColor(env, data.scene.value, P, dir, N, w, data.depth, stack, distributed, pos)
    decreases Budget(data.depth), 2, 0
  {
    if !distributed {
      var child := ChildRayData(data, Ray(Add(P, Scale(dir, RAY_EPSILON)), dir), w, stack);
      t := TraceRay(env, child, pos);
    } else {
      var offX := env.geo.normalize(env.geo.cross(dir, N));
      var offY := env.geo.normalize(env.geo.cross(dir, offX));
      var c := TraceCone(env, data, P, dir, offX, offY, w, stack, pos);
      t := Traced(Div(c.color, SAMPLES as real), c.next);
    }
  }

  /** `traceReflection`. */
  method TraceReflection(env: Env, data: RayData, pos: nat) returns (t: Traced)
    requires data.scene.Some? && data.ray.Some? && data.isect.Some?
    ensures t == ReflectionColor(env, data.scene.value, data.ray.value, data.isect.value,
                                 data.weight, data.depth, data.stack, pos)
    decreases Budget(data.depth), 3, 0
  {
    if data.depth <= 0 {
      return Traced(Zero, pos);
    }
    var s, r, i := data.scene.value, data.ray.value, data.isect.value;
    var m := s.material(i.obj);
    var P := At(r, i.t);
    if IsZero(m.kr) {
      return Traced(Zero, pos);
    }
    var dir := Reflected(env.geo, r, i);
    t := TraceSecondary(env, data, P, dir, i.N, Prod(data.weight, m.kr), data.stack, env.ui.diffuse, pos);
  }

  /** `traceRefraction`. */
  method TraceRefraction(env: Env, data: RayData, pos: nat) returns (t: Traced)
    requires data.scene.Some? && data.ray.Some? && data.isect.Some?
    ensures t == RefractionColor(env, data.scene.value, data.ray.value, data.isect.value,
                                 data.weight, data.depth, data.stack, pos)
    decreases Budget(data.depth), 3, 0
  {
    if data.depth <= 0 {
      return Traced(Zero, pos);
    }
    var s, r, i := data.scene.value, data.ray.value, data.isect.value;
    var m := s.material(i.obj);
    var P := At(r, i.t);
    if IsZero(m.kt) {
      return Traced(Zero, pos);
    }
    var f := MediumStep(data.stack, i.obj, s.material);
    var nr := f.ni / f.nt;
    var root := Discriminant(nr, Dot(i.N, Neg(r.dir)));
    if root < 0.0 {
      return Traced(Zero, pos);
    }
    var dir := Refracted(env.geo, r, i, nr, root);
    t := TraceSecondary(env, data, P, dir, i.N, Prod(data.weight, m.kt), f.stack, env.ui.glossy, pos);
  }
}
