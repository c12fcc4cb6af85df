/** The light model: directional and point lights (a closed sum type) with their
    direction, colour, distance attenuation and shadow attenuation, and ambient
    lights, which carry only a colour. */
module Lights {
  import opened Vectors
  import opened SceneTypes
  import opened Settings

  /** `DirectionalLight` and `PointLight`; a point light's coefficient triple is
      (constant, linear, quadratic). */
  datatype Light =
    | Directional(color: Vec3, orientation: Vec3)
    | Point(color: Vec3, position: Vec3, attenCoeff: Vec3)

  /** `AmbientLight` shares nothing with `Light` but having a colour. */
  datatype AmbientLight = AmbientLight(color: Vec3)

  /** The `PointLight` constructor: inverse-square attenuation (0, 0, 1) by default. */
  function NewPointLight(position: Vec3, color: Vec3): (l: Light)
    ensures l.Point? && l.position == position && l.color == color
    ensures l.attenCoeff == Vec3(0.0, 0.0, 1.0)
  {
    Point(color, position, Vec3(0.0, 0.0, 1.0))
  }

  /** `getColor`: the colour given at construction, whatever the point. */
  function GetColor(l: Light, P: Vec3): Vec3
  {
    l.color
  }

  function AmbientColor(a: AmbientLight, P: Vec3): Vec3
  {
    a.color
  }

  /** `getDirection`: the unit direction from P toward the light. */
  function GetDirection(l: Light, P: Vec3, geo: Geometry): (dir: Vec3)
    ensures l.Directional? ==> dir == Neg(l.orientation)
  {
    match l
    case Directional(_, orientation) => Neg(orientation)
    case Point(_, position, _) => geo.normalize(Sub(position, P))
  }

  /** A light's colour does not depend on the shaded point. */
  lemma ColorIndependentOfPoint(l: Light, a: AmbientLight, P: Vec3, Q: Vec3)
    ensures GetColor(l, P) == GetColor(l, Q) == l.color
    ensures AmbientColor(a, P) == AmbientColor(a, Q) == a.color
  {
  }

  /** `setDistanceAttenuationCoeff`: replaces the coefficient triple and nothing else. */
  function SetDistanceAttenuationCoeff(l: Light, coeff: Vec3): (l': Light)
    requires l.Point?
    ensures l'.Point? && l'.attenCoeff == coeff
    ensures l'.color == l.color && l'.position == l.position
  {
    l.(attenCoeff := coeff)
  }

  /** The coefficients a point light uses: the interface's override values when the
      override flag is set, else its own. */
  function AttenuationCoefficients(l: Light, ui: Config): (c: Vec3)
    requires l.Point?
    ensures ui.overrideAtten ==> c == Vec3(ui.attenConstant, ui.attenLinear, ui.attenQuadric)
    ensures !ui.overrideAtten ==> c == l.attenCoeff
  {
    if ui.overrideAtten then Vec3(ui.attenConstant, ui.attenLinear, ui.attenQuadric) else l.attenCoeff
  }

  /** c0 + c1 d + c2 d2. */
  function Polynomial(c: Vec3, d: real, d2: real): real { c.x + c.y * d + c.z * d2 }

  /** The guarded, clamped reciprocal of the attenuation polynomial. */
  function Attenuation(p: real): (a: real)
    ensures a <= 1.0
    ensures p == 0.0 ==> a == 1.0
    ensures p > 0.0 ==> a > 0.0
    ensures 0.0 < p <= 1.0 ==> a == 1.0
    ensures (p >= 1.0 || p < 0.0) ==> a * p == 1.0
  {
    if p == 0.0 then 1.0 else Min(1.0 / p, 1.0)
  }

  /** `distanceAttenuation`: 1 for a directional light; for a point light the
      attenuation of c0 + c1 d + c2 d^2 at the distance d from P to the light. */
  function DistanceAttenuation(l: Light, P: Vec3, ui: Config, geo: Geometry): (a: real)
    ensures a <= 1.0
    ensures l.Directional? ==> a == 1.0
  {
    match l
    case Directional(_, _) => 1.0
    case Point(_, position, _) =>
      var d2 := Dot(Sub(P, position), Sub(P, position));
      Attenuation(Polynomial(AttenuationCoefficients(l, ui), geo.sqrt(d2), d2))
  }

  /** With the default coefficients the attenuation is min(1/d^2, 1), and 1 at the light itself. */
  lemma DefaultPointIsInverseSquare(position: Vec3, color: Vec3, P: Vec3, ui: Config, geo: Geometry)
    requires !ui.overrideAtten
    ensures var d2 := Dot(Sub(P, position), Sub(P, position));
            DistanceAttenuation(NewPointLight(position, color), P, ui, geo)
            == if d2 == 0.0 then 1.0 else Min(1.0 / d2, 1.0)
  {
  }

  /** Under the override the light's own coefficients do not matter. */
  lemma OverrideIgnoresOwnCoefficients(l: Light, coeff: Vec3, P: Vec3, ui: Config, geo: Geometry)
    requires l.Point? && ui.overrideAtten
    ensures DistanceAttenuation(SetDistanceAttenuationCoeff(l, coeff), P, ui, geo)
            == DistanceAttenuation(l, P, ui, geo)
  {
  }

  /** For non-negative coefficients the attenuation never grows with distance. */
  lemma AttenuationNonIncreasing(c: Vec3, d: real, e: real)
    requires c.x >= 0.0 && c.y >= 0.0 && c.z >= 0.0
    requires 0.0 <= d <= e
    ensures Attenuation(Polynomial(c, e, e * e)) <= Attenuation(Polynomial(c, d, d * d))
  {
    PolynomialMonotone(c, d, e);
    AttenuationAntitone(Polynomial(c, d, d * d), Polynomial(c, e, e * e));
  }

  lemma PolynomialMonotone(c: Vec3, d: real, e: real)
    requires c.x >= 0.0 && c.y >= 0.0 && c.z >= 0.0
    requires 0.0 <= d <= e
    ensures 0.0 <= Polynomial(c, d, d * d) <= Polynomial(c, e, e * e)
  {
    NonnegMulMono(c.y, d, e);
    SquareMono(d, e);
    NonnegMulMono(c.z, d * d, e * e);
  }

  lemma AttenuationAntitone(p: real, q: real)
    requires 0.0 <= p <= q
    ensures Attenuation(q) <= Attenuation(p)
  {
    if p > 0.0 {
      ReciprocalAntitone(p, q);
    }
  }

  /** Where the polynomial is at least 1 (outside the clamp) and the linear or the
      quadratic coefficient is positive, the attenuation strictly falls with distance. */
  lemma AttenuationStrictlyDecreasing(c: Vec3, d: real, e: real)
    requires c.x >= 0.0 && c.y >= 0.0 && c.z >= 0.0 && (c.y > 0.0 || c.z > 0.0)
    requires 0.0 <= d < e
    requires Polynomial(c, d, d * d) >= 1.0
    ensures Attenuation(Polynomial(c, e, e * e)) < Attenuation(Polynomial(c, d, d * d))
  {
    var p, q := Polynomial(c, d, d * d), Polynomial(c, e, e * e);
    MulMono(c.y, d, e);
    SquareStrictMono(d, e);
    MulMono(c.z, d * d, e * e);
    if c.y > 0.0 {
      MulStrictMono(c.y, d, e);
    } else {
      MulStrictMono(c.z, d * d, e * e);
    }
    assert p < q;
    ReciprocalStrictlyAntitone(p, q);
  }

  // ---------------------------------------------------------------------------
  // Shadow attenuation.  The shadow ray's successive intersection queries are
  // given as the finite list of hits they return, each hit's t measured from the
  // origin of the query that found it; the end of the list is the query that
  // misses.

  /** The channel-wise product of the hit materials' kt. */
  function KtProduct(hits: seq<Isect>, material: ObjId -> Material): Vec3
  {
    if hits == [] then One else Prod(material(hits[0].obj).kt, KtProduct(hits[1..], material))
  }

  /** The directional loop from the running attenuation `acc`: stop when it is all
      zero or the ray misses, else multiply by the hit material's kt. */
  function DirectionalTransmittance(hits: seq<Isect>, material: ObjId -> Material, acc: Vec3): Vec3
    decreases |hits|
  {
    if IsZero(acc) || hits == [] then acc
    else DirectionalTransmittance(hits[1..], material, Prod(acc, material(hits[0].obj).kt))
  }

  /** The point-light loop, which also stops at a hit at least as far as the light
      (measured from the current origin `point`) and moves the origin just past each hit. */
  function PointTransmittance(hits: seq<Isect>, material: ObjId -> Material, geo: Geometry,
                              position: Vec3, dir: Vec3, point: Vec3, acc: Vec3): Vec3
    decreases |hits|
  {
    if IsZero(acc) || hits == [] then acc
    else if hits[0].t >= geo.length(Sub(position, point)) then acc
    else PointTransmittance(hits[1..], material, geo, position, dir,
                            Add(At(Ray(point, dir), hits[0].t), Scale(dir, RAY_EPSILON)),
                            Prod(acc, material(hits[0].obj).kt))
  }

  /** How many leading hits lie in front of the light. */
  function LitPrefix(hits: seq<Isect>, geo: Geometry, position: Vec3, dir: Vec3, point: Vec3): (n: nat)
    ensures n <= |hits|
    decreases |hits|
  {
    if hits == [] || hits[0].t >= geo.length(Sub(position, point)) then 0
    else 1 + LitPrefix(hits[1..], geo, position, dir,
                       Add(At(Ray(point, dir), hits[0].t), Scale(dir, RAY_EPSILON)))
  }

  /** The first shadow ray: from P pushed RAY_EPSILON toward the light. */
  function ShadowRay(l: Light, P: Vec3, geo: Geometry): Ray
  {
    var dir := GetDirection(l, P, geo);
    Ray(Add(P, Scale(dir, RAY_EPSILON)), dir)
  }

  /** `shadowAttenuation` of either light kind, starting from (1, 1, 1). */
  function Transmittance(l: Light, P: Vec3, query: Ray -> seq<Isect>,
                         material: ObjId -> Material, geo: Geometry): Vec3
  {
    var r := ShadowRay(l, P, geo);
    match l
    case Directional(_, _) => DirectionalTransmittance(query(r), material, One)
    case Point(_, position, _) => PointTransmittance(query(r), material, geo, position, r.dir, r.origin, One)
  }

  method DirectionalShadowAttenuation(l: Light, P: Vec3, query: Ray -> seq<Isect>,
                                      material: ObjId -> Material, geo: Geometry) returns (a: Vec3)
    requires l.Directional?
    ensures a == Transmittance(l, P, query, material, geo)
  {
    var rayDir := GetDirection(l, P, geo);
    var pointLight := Add(P, Scale(rayDir, RAY_EPSILON));
    var hits := query(Ray(pointLight, rayDir));
    a := One;
    var k := 0;
    while !IsZero(a)
      invariant 0 <= k <= |hits|
      invariant DirectionalTransmittance(hits[k..], material, a) == DirectionalTransmittance(hits, material, One)
      decreases |hits| - k
    {
      if k == |hits| {
        return;
      }
      a := Prod(a, material(hits[k].obj).kt);
      k := k + 1;
    }
  }

  method PointShadowAttenuation(l: Light, P: Vec3, query: Ray -> seq<Isect>,
                                material: ObjId -> Material, geo: Geometry) returns (a: Vec3)
    requires l.Point?
    ensures a == Transmittance(l, P, query, material, geo)
  {
    var rayDir := GetDirection(l, P, geo);
    var pointLight := Add(P, Scale(rayDir, RAY_EPSILON));
    ghost var start := pointLight;
    var hits := query(Ray(pointLight, rayDir));
    a := One;
    var k := 0;
    while !IsZero(a)
      invariant 0 <= k <= |hits|
      invariant PointTransmittance(hits[k..], material, geo, l.position, rayDir, pointLight, a)
                == PointTransmittance(hits, material, geo, l.position, rayDir, start, One)
      decreases |hits| - k
    {
      var r := Ray(pointLight, rayDir);
      var lengthLight := geo.length(Sub(l.position, pointLight));
      if k == |hits| {
        return;
      }
      if hits[k].t >= lengthLight {
        return;
      }
      a := Prod(a, material(hits[k].obj).kt);
      pointLight := Add(At(r, hits[k].t), Scale(rayDir, RAY_EPSILON));
      k := k + 1;
    }
  }

  /** The virtual `shadowAttenuation` call. */
  method ShadowAttenuation(l: Light, P: Vec3, query: Ray -> seq<Isect>,
                           material: ObjId -> Material, geo: Geometry) returns (a: Vec3)
    ensures a == Transmittance(l, P, query, material, geo)
  {
    if l.Directional? {
      a := DirectionalShadowAttenuation(l, P, query, material, geo);
    } else {
      a := PointShadowAttenuation(l, P, query, material, geo);
    }
  }

  /** Stopping early at an all-zero attenuation does not change the result: the
      directional loop yields the product of every occluder's kt. */
  lemma {:induction false} DirectionalIsProduct(hits: seq<Isect>, material: ObjId -> Material, acc: Vec3)
    ensures DirectionalTransmittance(hits, material, acc) == Prod(acc, KtProduct(hits, material))
    decreases |hits|
  {
    if hits == [] {
    } else if IsZero(acc) {
    } else {
      var k0 := material(hits[0].obj).kt;
      DirectionalIsProduct(hits[1..], material, Prod(acc, k0));
      ProdAssoc(acc, k0, KtProduct(hits[1..], material));
    }
  }

  /** The point loop yields the product of the kt of the occluders in front of the
      light; occluders at or beyond it never count. */
  lemma {:induction false} PointIsLitProduct(hits: seq<Isect>, material: ObjId -> Material, geo: Geometry,
                                             position: Vec3, dir: Vec3, point: Vec3, acc: Vec3)
    ensures PointTransmittance(hits, material, geo, position, dir, point, acc)
            == Prod(acc, KtProduct(hits[..LitPrefix(hits, geo, position, dir, point)], material))
    decreases |hits|
  {
    var n := LitPrefix(hits, geo, position, dir, point);
    if hits == [] || hits[0].t >= geo.length(Sub(position, point)) {
      assert hits[..n] == [];
    } else if IsZero(acc) {
    } else {
      var k0 := material(hits[0].obj).kt;
      var next := Add(At(Ray(point, dir), hits[0].t), Scale(dir, RAY_EPSILON));
      PointIsLitProduct(hits[1..], material, geo, position, dir, next, Prod(acc, k0));
      assert hits[..n][1..] == hits[1..][..n - 1];
      ProdAssoc(acc, k0, KtProduct(hits[1..][..n - 1], material));
    }
  }

  lemma {:induction false} KtProductZero(hits: seq<Isect>, material: ObjId -> Material, k: nat)
    requires k < |hits| && IsZero(material(hits[k].obj).kt)
    ensures IsZero(KtProduct(hits, material))
    decreases |hits|
  {
    if k > 0 {
      KtProductZero(hits[1..], material, k - 1);
    }
  }

  lemma {:induction false} KtProductInUnitCube(hits: seq<Isect>, material: ObjId -> Material)
    requires forall k :: 0 <= k < |hits| ==> InUnitCube(material(hits[k].obj).kt)
    ensures InUnitCube(KtProduct(hits, material))
    decreases |hits|
  {
    if hits != [] {
      KtProductInUnitCube(hits[1..], material);
      ProdInUnitCube(material(hits[0].obj).kt, KtProduct(hits[1..], material));
    }
  }

  /** A directional light is fully visible, (1, 1, 1), when the shadow ray misses at once. */
  lemma UnoccludedIsWhite(l: Light, P: Vec3, query: Ray -> seq<Isect>, material: ObjId -> Material, geo: Geometry)
    requires query(ShadowRay(l, P, geo)) == []
    ensures Transmittance(l, P, query, material, geo) == One
  {
  }

  /** One opaque (kt = 0) occluder on a directional light's shadow ray blocks it completely. */
  lemma OpaqueOccluderBlocks(hits: seq<Isect>, material: ObjId -> Material, k: nat)
    requires k < |hits| && IsZero(material(hits[k].obj).kt)
    ensures IsZero(DirectionalTransmittance(hits, material, One))
  {
    DirectionalIsProduct(hits, material, One);
    KtProductZero(hits, material, k);
  }

  /** Transmittances in [0, 1] give a shadow attenuation in [0, 1], for either light kind. */
  lemma TransmittanceInUnitCube(l: Light, P: Vec3, query: Ray -> seq<Isect>, material: ObjId -> Material, geo: Geometry)
    requires forall k :: 0 <= k < |query(ShadowRay(l, P, geo))| ==>
               InUnitCube(material(query(ShadowRay(l, P, geo))[k].obj).kt)
    ensures InUnitCube(Transmittance(l, P, query, material, geo))
  {
    var r := ShadowRay(l, P, geo);
    var hits := query(r);
    match l
    case Directional(_, _) =>
      DirectionalIsProduct(hits, material, One);
      KtProductInUnitCube(hits, material);
      ProdInUnitCube(One, KtProduct(hits, material));
    case Point(_, position, _) =>
      var n := LitPrefix(hits, geo, position, r.dir, r.origin);
      PointIsLitProduct(hits, material, geo, position, r.dir, r.origin, One);
      KtProductInUnitCube(hits[..n], material);
      ProdInUnitCube(One, KtProduct(hits[..n], material));
  }

  /** A hit at or beyond a point light leaves its attenuation at (1, 1, 1). */
  lemma OccluderBeyondLightIgnored(l: Light, P: Vec3, query: Ray -> seq<Isect>, material: ObjId -> Material, geo: Geometry)
    requires l.Point?
    requires var r := ShadowRay(l, P, geo);
             query(r) != [] && query(r)[0].t >= geo.length(Sub(l.position, r.origin))
    ensures Transmittance(l, P, query, material, geo) == One
  {
  }
}
