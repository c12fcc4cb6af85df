/** `Material::shade`, the Phong model: the emissive term, an ambient term scaled by
    1 - kt, and per light a diffuse and a specular term scaled by the shadow and
    distance attenuation and the light's colour. */
module Shading {
  import opened Vectors
  import opened SceneTypes
  import opened Lights
  import opened Settings
  import opened Scenes

  // ---------------------------------------------------------------------------
  // Ambient light

  /** The ambient lights' colours added in list order. */
  function AmbientSum(ambients: seq<AmbientLight>, P: Vec3): Vec3
    decreases |ambients|
  {
    if ambients == [] then Zero
    else Add(AmbientSum(ambients[..|ambients| - 1], P), AmbientColor(ambients[|ambients| - 1], P))
  }

  /** `RayTrace_PhongModel_getAmbientLightIntensity`. */
  method AmbientLightIntensity(ambients: seq<AmbientLight>, P: Vec3) returns (result: Vec3)
    ensures result == AmbientSum(ambients, P)
  {
    result := Zero;
    for k := 0 to |ambients|
      invariant result == AmbientSum(ambients[..k], P)
    {
      assert ambients[..k + 1][..k] == ambients[..k];
      result := Add(result, AmbientColor(ambients[k], P));
    }
    assert ambients[..|ambients|] == ambients;
  }

  /** Splitting the ambient lights in two splits their sum. */
  lemma {:induction false} AmbientSumAppend(a: seq<AmbientLight>, b: seq<AmbientLight>, P: Vec3)
    ensures AmbientSum(a + b, P) == Add(AmbientSum(a, P), AmbientSum(b, P))
    decreases |b|
  {
    if b == [] {
      assert a + b == a;
    } else {
      var b' := b[..|b| - 1];
      assert (a + b)[..|a + b| - 1] == a + b';
      assert (a + b)[|a + b| - 1] == b[|b| - 1];
      AmbientSumAppend(a, b', P);
    }
  }

  /** The order of the two halves of the ambient list does not change the intensity. */
  lemma AmbientSumSwap(a: seq<AmbientLight>, b: seq<AmbientLight>, P: Vec3)
    ensures AmbientSum(a + b, P) == AmbientSum(b + a, P)
  {
    AmbientSumAppend(a, b, P);
    AmbientSumAppend(b, a, P);
  }

  /** The ambient intensity: the override scalar on all three channels, else the sum. */
  function AmbientIntensity(ambients: seq<AmbientLight>, P: Vec3, ui: Config): (A: Vec3)
    ensures ui.overrideAmbient ==> A == Vec3(ui.ambient, ui.ambient, ui.ambient)
    ensures !ui.overrideAmbient ==> A == AmbientSum(ambients, P)
  {
    if ui.overrideAmbient then Vec3(ui.ambient, ui.ambient, ui.ambient) else AmbientSum(ambients, P)
  }

  /** ka (.) A (.) (1 - kt). */
  function AmbientTerm(m: Material, A: Vec3): Vec3
  {
    Prod(Prod(m.ka, A), Sub(One, m.kt))
  }

  // ---------------------------------------------------------------------------
  // Direct light

  /** `shade` passes over a light behind the surface (N . L <= 0) or fully in shadow. */
  predicate Skipped(s: Scene, geo: Geometry, N: Vec3, P: Vec3, l: Light)
  {
    Dot(N, GetDirection(l, P, geo)) <= 0.0 || IsZero(Transmittance(l, P, s.shadowHits, s.material, geo))
  }

  /** What a light that is not skipped adds at the hit: shadow and distance
      attenuation, times its colour, times the diffuse plus the specular term. */
  function LightTerm(s: Scene, ui: Config, geo: Geometry, m: Material, r: Ray, i: Isect, l: Light): Vec3
  {
    var P := At(r, i.t);
    var L := GetDirection(l, P, geo);
    var dotLN := Dot(i.N, L);
    var attenuation := Scale(Transmittance(l, P, s.shadowHits, s.material, geo), DistanceAttenuation(l, P, ui, geo));
    var diffuse := Prod(Scale(m.kd, dotLN), Sub(One, m.kt));
    var reflected := geo.normalize(Sub(Scale(i.N, 2.0 * dotLN), L));
    var dotRV := Max(Dot(reflected, Neg(r.dir)), 0.0);
    var specular := Scale(m.ks, geo.pow(dotRV, m.shininess * 128.0));
    Prod(Prod(attenuation, GetColor(l, P)), Add(diffuse, specular))
  }

  /** `base` plus the terms of the lights of `ls` that are not skipped, added in list order. */
  function LightsSum(s: Scene, ui: Config, geo: Geometry, m: Material, r: Ray, i: Isect,
                     ls: seq<Light>, base: Vec3): Vec3
    decreases |ls|
  {
    if ls == [] then base
    else
      var acc := LightsSum(s, ui, geo, m, r, i, ls[..|ls| - 1], base);
      var l := ls[|ls| - 1];
      if Skipped(s, geo, i.N, At(r, i.t), l) then acc else Add(acc, LightTerm(s, ui, geo, m, r, i, l))
  }

  /** The colour `shade` returns for material m hit by r at i. */
  function PhongColor(s: Scene, ui: Config, geo: Geometry, m: Material, r: Ray, i: Isect): Vec3
  {
    var A := AmbientIntensity(s.ambientLights, At(r, i.t), ui);
    LightsSum(s, ui, geo, m, r, i, s.lights, Add(m.ke, AmbientTerm(m, A)))
  }

  /** One pass of the light loop of `shade`: whether the light is passed over and,
      if not, what it adds. */
  method LightContribution(s: Scene, ui: Config, geo: Geometry, m: Material, r: Ray, i: Isect, l: Light)
    returns (skip: bool, term: Vec3)
    ensures skip == Skipped(s, geo, i.N, At(r, i.t), l)
    ensures !skip ==> term == LightTerm(s, ui, geo, m, r, i, l)
  {
    var P := At(r, i.t);
    term := Zero;
    var dotLN := Dot(i.N, GetDirection(l, P, geo));
    if dotLN <= 0.0 {
      return true, term;
    }
    var shadow := ShadowAttenuation(l, P, s.shadowHits, s.material, geo);
    if IsZero(shadow) {
      return true, term;
    }
    var attenuation := Scale(shadow, DistanceAttenuation(l, P, ui, geo));
    var diffuse := Prod(Scale(m.kd, dotLN), Sub(One, m.kt));
    var reflected := geo.normalize(Sub(Scale(i.N, 2.0 * dotLN), GetDirection(l, P, geo)));
    var dotRV := Max(Dot(reflected, Neg(r.dir)), 0.0);
    var specular := Scale(m.ks, geo.pow(dotRV, m.shininess * 128.0));
    var color := GetColor(l, P);
    term := Prod(Prod(attenuation, color), Add(diffuse, specular));
    skip := false;
  }

  /** `Material::shade`. */
  method Shade(s: Scene, ui: Config, geo: Geometry, m: Material, r: Ray, i: Isect) returns (result: Vec3)
    ensures result == PhongColor(s, ui, geo, m, r, i)
  {
    var P := At(r, i.t);
    result := m.ke;
    var ambient := AmbientLightIntensity(s.ambientLights, P);
    if ui.overrideAmbient {
      result := Add(result, AmbientTerm(m, Vec3(ui.ambient, ui.ambient, ui.ambient)));
    } else {
      result := Add(result, AmbientTerm(m, ambient));
    }
    ghost var base := result;
    for k := 0 to |s.lights|
      invariant result == LightsSum(s, ui, geo, m, r, i, s.lights[..k], base)
    {
      assert s.lights[..k + 1][..k] == s.lights[..k];
      var skip, term := LightContribution(s, ui, geo, m, r, i, s.lights[k]);
      if skip {
        continue;
      }
      result := Add(result, term);
    }
    assert s.lights[..|s.lights|] == s.lights;
  }

  // ---------------------------------------------------------------------------
  // Properties

  /** With no lights, no ambient lights and no ambient override only the emission is left. */
  lemma EmissiveOnly(s: Scene, ui: Config, geo: Geometry, m: Material, r: Ray, i: Isect)
    requires s.lights == [] && s.ambientLights == [] && !ui.overrideAmbient
    ensures PhongColor(s, ui, geo, m, r, i) == m.ke
  {
  }

  /** A light behind the surface or fully shadowed adds nothing, wherever it sits in the list. */
  lemma {:induction false} SkippedLightAddsNothing(s: Scene, ui: Config, geo: Geometry, m: Material, r: Ray,
                                                   i: Isect, ls1: seq<Light>, l: Light, ls2: seq<Light>, base: Vec3)
    requires Dot(i.N, GetDirection(l, At(r, i.t), geo)) <= 0.0
             || IsZero(Transmittance(l, At(r, i.t), s.shadowHits, s.material, geo))
    ensures LightsSum(s, ui, geo, m, r, i, ls1 + [l] + ls2, base) == LightsSum(s, ui, geo, m, r, i, ls1 + ls2, base)
    decreases |ls2|
  {
    if ls2 == [] {
      assert ls1 + [l] + ls2 == ls1 + [l];
      assert (ls1 + [l])[..|ls1 + [l]| - 1] == ls1;
      assert ls1 + ls2 == ls1;
    } else {
      var init := ls2[..|ls2| - 1];
      var last := ls2[|ls2| - 1];
      assert (ls1 + [l] + ls2)[..|ls1 + [l] + ls2| - 1] == ls1 + [l] + init;
      assert (ls1 + [l] + ls2)[|ls1 + [l] + ls2| - 1] == last;
      assert (ls1 + ls2)[..|ls1 + ls2| - 1] == ls1 + init;
      assert (ls1 + ls2)[|ls1 + ls2| - 1] == last;
      SkippedLightAddsNothing(s, ui, geo, m, r, i, ls1, l, init, base);
    }
  }

  lemma {:induction false} TransparentLightsSum(s: Scene, ui: Config, geo: Geometry, m: Material, r: Ray,
                                                i: Isect, ls: seq<Light>, base: Vec3, ka: Vec3, kd: Vec3)
    requires m.kt == One
    ensures LightsSum(s, ui, geo, m, r, i, ls, base) == LightsSum(s, ui, geo, m.(ka := ka, kd := kd), r, i, ls, base)
    decreases |ls|
  {
    if ls != [] {
      TransparentLightsSum(s, ui, geo, m, r, i, ls[..|ls| - 1], base, ka, kd);
    }
  }

  /** A fully transmissive material (kt = 1) shows neither its ambient nor its diffuse colour. */
  lemma FullyTransmissiveIgnoresAmbientAndDiffuse(s: Scene, ui: Config, geo: Geometry, m: Material, r: Ray,
                                                  i: Isect, ka: Vec3, kd: Vec3)
    requires m.kt == One
    ensures PhongColor(s, ui, geo, m, r, i) == PhongColor(s, ui, geo, m.(ka := ka, kd := kd), r, i)
  {
    var A := AmbientIntensity(s.ambientLights, At(r, i.t), ui);
    assert AmbientTerm(m, A) == Zero == AmbientTerm(m.(ka := ka, kd := kd), A);
    TransparentLightsSum(s, ui, geo, m, r, i, s.lights, Add(m.ke, AmbientTerm(m, A)), ka, kd);
  }
}
