/** What the recursive tracer guarantees, stated over its specification functions. */
module TracerProperties {
  import opened Vectors
  import opened Wrappers
  import opened SceneTypes
  import opened Scenes
  import opened MediumStack
  import opened Tracer

  /** A pruned ray and a ray that hits nothing are both black, and neither reads the
      `rand()` stream. */
  lemma PrunedOrMissedIsBlack(env: Env, s: Scene, r: Ray, w: Vec3, depth: int, stack: seq<ObjId>, pos: nat)
    requires Pruned(w, env.ui.threshold) || s.intersect(r).None?
    ensures RayColor(env, s, r, w, depth, stack, pos) == Traced(Zero, pos)
  {
  }

  /** A threshold of 1 or more prunes the primary ray itself: the whole image is black. */
  lemma HighThresholdIsBlack(env: Env, s: Scene, x: real, y: real, pos: nat)
    requires env.ui.threshold >= 1.0
    ensures PrimaryColor(env, s, x, y, pos) == Traced(Zero, pos)
  {
    PrunedOrMissedIsBlack(env, s, s.camera(x, y), One, env.ui.depth, [], pos);
    assert Clamp(Zero) == Zero;
  }

  /** With no depth left a ray is its direct lighting only: reflection and refraction
      add nothing and read no draws. */
  lemma ShallowRayIsDirectOnly(env: Env, s: Scene, r: Ray, w: Vec3, depth: int, stack: seq<ObjId>, pos: nat)
    requires depth <= 0 && !Pruned(w, env.ui.threshold) && s.intersect(r).Some?
    ensures RayColor(env, s, r, w, depth, stack, pos)
            == LightSourceColor(env, s, r, OrientNormal(s.intersect(r).value, stack), w, pos)
  {
    var a := LightSourceColor(env, s, r, OrientNormal(s.intersect(r).value, stack), w, pos);
    assert Add(Add(a.color, Zero), Zero) == a.color;
  }

  /** A refraction whose discriminant is negative (total internal reflection)
      contributes black and reads no draws. */
  lemma TotalInternalReflectionIsBlack(env: Env, s: Scene, r: Ray, i: Isect, w: Vec3, depth: int,
                                       stack: seq<ObjId>, pos: nat)
    requires var f := MediumStep(stack, i.obj, s.material);
             Discriminant(f.ni / f.nt, Dot(i.N, Neg(r.dir))) < 0.0
    ensures RefractionColor(env, s, r, i, w, depth, stack, pos) == Traced(Zero, pos)
  {
  }

  /** The first refraction of a primary ray, into a material of index at least 1 at a
      cosine in [-1, 1], is never a total internal reflection. */
  lemma EnteringDenserMediumRefracts(material: ObjId -> Material, hit: ObjId, c: real)
    requires material(hit).index >= 1.0 && -1.0 <= c <= 1.0
    ensures var f := MediumStep([], hit, material);
            f.ni / f.nt <= 1.0 && Discriminant(f.ni / f.nt, c) >= 0.0
  {
    var f := MediumStep([], hit, material);
    ReciprocalAntitone(1.0, material(hit).index);
    assert f.ni / f.nt == 1.0 / material(hit).index;
    DenserMediumHasNoTotalInternalReflection(f.ni / f.nt, c);
  }

  // ---------------------------------------------------------------------------
  // Without soft shadows, distributed reflection or glossy refraction the tracer is
  // deterministic: it never calls `rand()`, so its colour does not depend on the
  // stream or on where in it the trace starts.

  /** Every distributed effect is switched off. */
  predicate DrawFree(env: Env)
  {
    !env.ui.softShadow && !env.ui.diffuse && !env.ui.glossy
  }

  lemma {:induction false} RayColorDrawFree(env: Env, draws2: Draws, s: Scene, r: Ray, w: Vec3, depth: int,
                                            stack: seq<ObjId>, pos: nat, pos2: nat)
    requires DrawFree(env)
    ensures RayColor(env, s, r, w, depth, stack, pos)
            == Traced(RayColor(env.(draws := draws2), s, r, w, depth, stack, pos2).color, pos)
    decreases Budget(depth), 3
  {
    if !Pruned(w, env.ui.threshold) && s.intersect(r).Some? {
      HitDrawFree(env, draws2, s, r, OrientNormal(s.intersect(r).value, stack), w, depth, stack, pos, pos2);
    }
  }

  lemma {:induction false} HitDrawFree(env: Env, draws2: Draws, s: Scene, r: Ray, i: Isect, w: Vec3, depth: int,
                                       stack: seq<ObjId>, pos: nat, pos2: nat)
    requires DrawFree(env)
    ensures HitColor(env, s, r, i, w, depth, stack, pos)
            == Traced(HitColor(env.(draws := draws2), s, r, i, w, depth, stack, pos2).color, pos)
    decreases Budget(depth), 2
  {
    var env2 := env.(draws := draws2);
    var a2 := LightSourceColor(env2, s, r, i, w, pos2);
    var b2 := ReflectionColor(env2, s, r, i, w, depth, stack, a2.next);
    ReflectionDrawFree(env, draws2, s, r, i, w, depth, stack, pos, a2.next);
    RefractionDrawFree(env, draws2, s, r, i, w, depth, stack, pos, b2.next);
  }

  lemma {:induction false} ReflectionDrawFree(env: Env, draws2: Draws, s: Scene, r: Ray, i: Isect, w: Vec3, depth: int,
                                              stack: seq<ObjId>, pos: nat, pos2: nat)
    requires DrawFree(env)
    ensures ReflectionColor(env, s, r, i, w, depth, stack, pos)
            == Traced(ReflectionColor(env.(draws := draws2), s, r, i, w, depth, stack, pos2).color, pos)
    decreases Budget(depth), 1
  {
    var m := s.material(i.obj);
    if depth > 0 && !IsZero(m.kr) {
      var dir := Reflected(env.geo, r, i);
      RayColorDrawFree(env, draws2, s, Ray(Add(At(r, i.t), Scale(dir, RAY_EPSILON)), dir), Prod(w, m.kr),
                       depth - 1, stack, pos, pos2);
    }
  }

  lemma {:induction false} RefractionDrawFree(env: Env, draws2: Draws, s: Scene, r: Ray, i: Isect, w: Vec3, depth: int,
                                              stack: seq<ObjId>, pos: nat, pos2: nat)
    requires DrawFree(env)
    ensures RefractionColor(env, s, r, i, w, depth, stack, pos)
            == Traced(RefractionColor(env.(draws := draws2), s, r, i, w, depth, stack, pos2).color, pos)
    decreases Budget(depth), 1
  {
    var m := s.material(i.obj);
    if depth > 0 && !IsZero(m.kt) {
      var f := MediumStep(stack, i.obj, s.material);
      var nr := f.ni / f.nt;
      var root := Discriminant(nr, Dot(i.N, Neg(r.dir)));
      if root >= 0.0 {
        var dir := Refracted(env.geo, r, i, nr, root);
        RayColorDrawFree(env, draws2, s, Ray(Add(At(r, i.t), Scale(dir, RAY_EPSILON)), dir), Prod(w, m.kt),
                         depth - 1, f.stack, pos, pos2);
      }
    }
  }

  /** The rendered colour of a pixel is the same for every `rand()` stream and every
      starting position, and the stream is left where it was. */
  lemma DeterministicWithoutDistribution(env: Env, draws2: Draws, s: Scene, x: real, y: real, pos: nat, pos2: nat)
    requires DrawFree(env)
    ensures PrimaryColor(env, s, x, y, pos).next == pos
    ensures PrimaryColor(env, s, x, y, pos).color == PrimaryColor(env.(draws := draws2), s, x, y, pos2).color
  {
    RayColorDrawFree(env, draws2, s, s.camera(x, y), One, env.ui.depth, [], pos, pos2);
  }

  // ---------------------------------------------------------------------------
  // Pruning secondary rays

  lemma {:induction false} PrunedConeIsBlack(env: Env, s: Scene, P: Vec3, axis: Vec3, offX: Vec3, offY: Vec3,
                                             w: Vec3, depth: int, stack: seq<ObjId>, k: nat, pos: nat)
    requires depth > 0 && Pruned(w, env.ui.threshold)
    ensures ConeSamples(env, s, P, axis, offX, offY, w, depth, stack, k, pos).color == Zero
  {
    if k > 0 {
      PrunedConeIsBlack(env, s, P, axis, offX, offY, w, depth, stack, k - 1, pos);
      var q := ConeSamples(env, s, P, axis, offX, offY, w, depth, stack, k - 1, pos).next;
      var dir := env.geo.normalize(Add(Add(axis, Scale(Scale(offX, RandD(env.draws, q)), CONE_RADIUS)),
                                       Scale(Scale(offY, RandD(env.draws, q + 1)), CONE_RADIUS)));
      PrunedOrMissedIsBlack(env, s, Ray(Add(P, Scale(dir, RAY_EPSILON)), dir), w, depth - 1, stack, q + 2);
      assert ConeSample(env, s, P, axis, offX, offY, w, depth, stack, q).color == Zero;
    }
  }

  /** A secondary ray whose weight is pruned is black, single or distributed. */
  lemma PrunedSecondaryIsBlack(env: Env, s: Scene, P: Vec3, dir: Vec3, N: Vec3, w: Vec3, depth: int,
                               stack: seq<ObjId>, distributed: bool, pos: nat)
    requires depth > 0 && Pruned(w, env.ui.threshold)
    ensures SecondaryColor(env, s, P, dir, N, w, depth, stack, distributed, pos).color == Zero
  {
    if distributed {
      var offX := env.geo.normalize(env.geo.cross(dir, N));
      var offY := env.geo.normalize(env.geo.cross(dir, offX));
      PrunedConeIsBlack(env, s, P, dir, offX, offY, w, depth, stack, SAMPLES, pos);
      assert Div(Zero, SAMPLES as real) == Zero;
    }
  }

  /** A reflection whose child weight w (.) kr is pruned is black. */
  lemma PrunedReflectionIsBlack(env: Env, s: Scene, r: Ray, i: Isect, w: Vec3, depth: int,
                                stack: seq<ObjId>, pos: nat)
    requires Pruned(Prod(w, s.material(i.obj).kr), env.ui.threshold)
    ensures ReflectionColor(env, s, r, i, w, depth, stack, pos).color == Zero
  {
    var m := s.material(i.obj);
    if depth > 0 && !IsZero(m.kr) {
      PrunedSecondaryIsBlack(env, s, At(r, i.t), Reflected(env.geo, r, i), i.N, Prod(w, m.kr), depth, stack,
                             env.ui.diffuse, pos);
    }
  }

  /** A refraction whose child weight w (.) kt is pruned is black. */
  lemma PrunedRefractionIsBlack(env: Env, s: Scene, r: Ray, i: Isect, w: Vec3, depth: int,
                                stack: seq<ObjId>, pos: nat)
    requires Pruned(Prod(w, s.material(i.obj).kt), env.ui.threshold)
    ensures RefractionColor(env, s, r, i, w, depth, stack, pos).color == Zero
  {
    var m := s.material(i.obj);
    if depth > 0 && !IsZero(m.kt) {
      var f := MediumStep(stack, i.obj, s.material);
      var nr := f.ni / f.nt;
      var root := Discriminant(nr, Dot(i.N, Neg(r.dir)));
      if root >= 0.0 {
        PrunedSecondaryIsBlack(env, s, At(r, i.t), Refracted(env.geo, r, i, nr, root), i.N, Prod(w, m.kt), depth,
                               f.stack, env.ui.glossy, pos);
      }
    }
  }

  /** At a hit whose kr and kt are at or below the threshold, a full-weight ray's
      colour is the same at every depth. */
  lemma WeakHitIsDepthIndependent(env: Env, s: Scene, r: Ray, i: Isect, depth: int, pos: nat)
    requires Pruned(s.material(i.obj).kr, env.ui.threshold) && Pruned(s.material(i.obj).kt, env.ui.threshold)
    ensures HitColor(env, s, r, i, One, depth, [], pos).color == HitColor(env, s, r, i, One, 0, [], pos).color
  {
    var m := s.material(i.obj);
    var a := LightSourceColor(env, s, r, i, One, pos);
    assert Prod(One, m.kr) == m.kr && Prod(One, m.kt) == m.kt;
    PrunedReflectionIsBlack(env, s, r, i, One, depth, [], a.next);
    PrunedRefractionIsBlack(env, s, r, i, One, depth, [], ReflectionColor(env, s, r, i, One, depth, [], a.next).next);
  }

  /** When every material's kr and kt are at or below the threshold, every secondary
      ray of a primary ray is pruned, so the primary ray's colour is its direct
      lighting alone, whatever the depth. */
  lemma WeakCoefficientsGiveDirectLightOnly(env: Env, s: Scene, r: Ray, depth: int, pos: nat)
    requires forall o: ObjId :: Pruned(s.material(o).kr, env.ui.threshold) && Pruned(s.material(o).kt, env.ui.threshold)
    ensures RayColor(env, s, r, One, depth, [], pos).color == RayColor(env, s, r, One, 0, [], pos).color
  {
    if !Pruned(One, env.ui.threshold) && s.intersect(r).Some? {
      WeakHitIsDepthIndependent(env, s, r, OrientNormal(s.intersect(r).value, []), depth, pos);
    }
  }
  // ---------------------------------------------------------------------------
  // Pruning and the secondary directions

  /** Weights only shrink down the tree: a child of a pruned ray, whose weight is
      the parent's times a coefficient in [0, 1]^3, is pruned too. */
  lemma PrunedStaysPruned(w: Vec3, k: Vec3, threshold: real)
    requires w.x >= 0.0 && w.y >= 0.0 && w.z >= 0.0 && InUnitCube(k)
    requires Pruned(w, threshold)
    ensures Pruned(Prod(w, k), threshold)
  {
    ProdBelowNonneg(w, k);
  }

  /** Mirroring twice about the same unit normal gives the direction back. */
  lemma MirrorInvolution(N: Vec3, d: Vec3)
    requires Dot(N, N) == 1.0
    ensures Mirror(N, Mirror(N, d)) == d
  {
    var c := Dot(N, d);
    var m := Mirror(N, d);
    assert Dot(N, m) == -c;
    assert Dot(N, Neg(m)) == c;
    assert m == Add(Scale(N, 2.0 * -c), d) by {
      assert Dot(N, Neg(d)) == -c;
    }
    assert N.x * (2.0 * c) + (N.x * (2.0 * -c) + d.x) == d.x;
    assert N.y * (2.0 * c) + (N.y * (2.0 * -c) + d.y) == d.y;
    assert N.z * (2.0 * c) + (N.z * (2.0 * -c) + d.z) == d.z;
  }

  /** Snell's law for the refracted direction of `traceRefraction` about a unit
      normal: its normal component is -sqrt(root) and its tangential part is the
      incoming tangential part scaled by n_r. */
  lemma RefractionObeysSnell(geo: Geometry, r: Ray, i: Isect, nr: real, root: real)
    requires Dot(i.N, i.N) == 1.0
    ensures Dot(i.N, Refracted(geo, r, i, nr, root)) == -geo.sqrt(root)
    ensures Tangent(i.N, Refracted(geo, r, i, nr, root)) == Scale(Tangent(i.N, r.dir), nr)
  {
    hide Dot, Tangent, Refracted;
    var N, c := i.N, Dot(i.N, Neg(r.dir));
    var a := nr * c - geo.sqrt(root);
    var u := Scale(r.dir, nr);
    RefractedForm(geo, r, i, nr, root);
    assert Refracted(geo, r, i, nr, root) == Add(Scale(N, a), u);
    DotScaleAdd(N, a, u);
    DotScale(N, r.dir, nr);
    DotNeg(N, r.dir);
    UnitFactor(a, Dot(N, N));
    var d := Dot(N, r.dir);
    assert c == -d;
    assert nr * c == -(nr * d);
    assert Dot(N, Refracted(geo, r, i, nr, root)) == a + nr * d;
    TangentShift(N, a, u);
    TangentScale(N, r.dir, nr);
    assert Tangent(N, Refracted(geo, r, i, nr, root)) == Tangent(N, u);
  }

  lemma RefractedForm(geo: Geometry, r: Ray, i: Isect, nr: real, root: real)
    ensures Refracted(geo, r, i, nr, root)
            == Add(Scale(i.N, nr * Dot(i.N, Neg(r.dir)) - geo.sqrt(root)), Scale(r.dir, nr))
  {
    hide Dot;
    var N, d := i.N, r.dir;
    var a := nr * Dot(N, Neg(d)) - geo.sqrt(root);
    assert N.x * a - -d.x * nr == N.x * a + d.x * nr;
    assert N.y * a - -d.y * nr == N.y * a + d.y * nr;
    assert N.z * a - -d.z * nr == N.z * a + d.z * nr;
  }

  /** At a Snell ratio of 1, seen from the side the normal faces, the refracted
      direction is the incoming one: the ray goes straight on. */
  lemma UnitRatioKeepsDirection(geo: Geometry, r: Ray, i: Isect)
    requires Dot(i.N, Neg(r.dir)) >= 0.0
    requires geo.sqrt(Dot(i.N, Neg(r.dir)) * Dot(i.N, Neg(r.dir))) == Dot(i.N, Neg(r.dir))
    ensures Refracted(geo, r, i, 1.0, Discriminant(1.0, Dot(i.N, Neg(r.dir)))) == r.dir
  {
    var c := Dot(i.N, Neg(r.dir));
    assert Discriminant(1.0, c) == c * c;
    var a := 1.0 * c - geo.sqrt(Discriminant(1.0, c));
    var cc := Dot(i.N, Neg(r.dir)) * Dot(i.N, Neg(r.dir));
    assert geo.sqrt(cc) == c;
    assert Discriminant(1.0, c) == cc;
    assert geo.sqrt(Discriminant(1.0, c)) == c;
    assert a == 0.0;
    assert Scale(i.N, a) == Vec3(0.0, 0.0, 0.0);
    assert Scale(Neg(r.dir), 1.0) == Neg(r.dir);
  }
}
