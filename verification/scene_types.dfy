module Wrappers {
  datatype Option<T> = None | Some(value: T)
}

/** The values the tracer passes around (rays, intersections, materials), the
    numeric library it calls (square root, length, normalisation, cross product,
    power) and the C library's `rand()`, all made explicit inputs. */
module SceneTypes {
  import opened Vectors

  /** An object's identity: the tracer only compares objects and looks up their material. */
  type ObjId = nat

  /** `ray`: origin and direction. */
  datatype Ray = Ray(origin: Vec3, dir: Vec3)

  /** `ray::at`: the point at parameter t. */
  function At(r: Ray, t: real): Vec3 { Add(r.origin, Scale(r.dir, t)) }

  /** `isect`: hit distance, surface normal and the hit object. */
  datatype Isect = Isect(t: real, N: Vec3, obj: ObjId)

  /** A refractive index; the division n_i / n_t of the Snell step needs it non-zero. */
  type Index = r: real | r > 0.0 witness 1.0

  /** `Material`: emissive, ambient, specular, diffuse, reflective and transmissive
      coefficients, shininess and refractive index. */
  datatype Material = Material(
    ke: Vec3, ka: Vec3, ks: Vec3, kd: Vec3, kr: Vec3, kt: Vec3,
    shininess: real, index: Index)

  /** The numeric routines of the vector library, which the model does not interpret. */
  datatype Geometry = Geometry(
    sqrt: real -> real,
    length: Vec3 -> real,
    normalize: Vec3 -> Vec3,
    cross: (Vec3, Vec3) -> Vec3,
    pow: (real, real) -> real)

  /** The successive outputs of `rand()`; a render reads them from a position it threads along. */
  type Draws = nat -> nat

  /** `rand() % 100 / 100.0 - 0.5` for the draw at position k. */
  function RandD(draws: Draws, k: nat): (d: real)
    ensures -0.5 <= d <= 0.49
  {
    var r := draws(k) % 100;
    assert 0 <= r <= 99;
    (r as real) / 100.0 - 0.5
  }

  /** `RAY_EPSILON`, the offset that keeps a secondary ray off the surface it left. */
  const RAY_EPSILON: real := 0.00001
}
