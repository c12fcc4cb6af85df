/** Three- and two-component real vectors: the `vec3f` points, directions and RGB
    intensities of the tracer, and the `vec2f` sub-pixel offsets. */
module Vectors {

  datatype Vec3 = Vec3(x: real, y: real, z: real)

  datatype Vec2 = Vec2(x: real, y: real)

  /** `vec3f()`: the black intensity and the origin. */
  const Zero: Vec3 := Vec3(0.0, 0.0, 0.0)

  /** `vec3f(1, 1, 1)`: the full weight and the white intensity. */
  const One: Vec3 := Vec3(1.0, 1.0, 1.0)

  function Add(a: Vec3, b: Vec3): Vec3 { Vec3(a.x + b.x, a.y + b.y, a.z + b.z) }

  function Sub(a: Vec3, b: Vec3): Vec3 { Vec3(a.x - b.x, a.y - b.y, a.z - b.z) }

  function Neg(a: Vec3): Vec3 { Vec3(-a.x, -a.y, -a.z) }

  function Scale(a: Vec3, k: real): Vec3 { Vec3(a.x * k, a.y * k, a.z * k) }

  function Div(a: Vec3, k: real): Vec3
    requires k != 0.0
  {
    Vec3(a.x / k, a.y / k, a.z / k)
  }

  /** `prod(a, b)`: the channel-wise product. */
  function Prod(a: Vec3, b: Vec3): Vec3 { Vec3(a.x * b.x, a.y * b.y, a.z * b.z) }

  function Dot(a: Vec3, b: Vec3): real { a.x * b.x + a.y * b.y + a.z * b.z }

  /** `vec3f::iszero`: every channel is exactly zero. */
  predicate IsZero(a: Vec3) { a.x == 0.0 && a.y == 0.0 && a.z == 0.0 }

  function ClampUnit(c: real): real { if c < 0.0 then 0.0 else if c > 1.0 then 1.0 else c }

  /** `vec3f::clamp`: every channel clamped into [0, 1]. */
  function Clamp(a: Vec3): Vec3 { Vec3(ClampUnit(a.x), ClampUnit(a.y), ClampUnit(a.z)) }

  /** `v[k]` for an axis index k. */
  function Axis(a: Vec3, k: int): real
    requires 0 <= k < 3
  {
    if k == 0 then a.x else if k == 1 then a.y else a.z
  }

  predicate InUnitCube(a: Vec3)
  {
    0.0 <= a.x <= 1.0 && 0.0 <= a.y <= 1.0 && 0.0 <= a.z <= 1.0
  }

  /** Channel-wise a <= b. */
  predicate Below(a: Vec3, b: Vec3) { a.x <= b.x && a.y <= b.y && a.z <= b.z }

  function Abs(r: real): real { if r < 0.0 then -r else r }

  function Min(a: real, b: real): real { if a < b then a else b }

  /** `std::max<double>`. */
  function Max(a: real, b: real): real { if a < b then b else a }

  lemma ClampInUnitCube(a: Vec3)
    ensures InUnitCube(Clamp(a))
    ensures InUnitCube(a) ==> Clamp(a) == a
  {
  }

  /** The product of two unit-cube values stays in the unit cube and below both factors. */
  lemma ProdInUnitCube(a: Vec3, b: Vec3)
    requires InUnitCube(a) && InUnitCube(b)
    ensures InUnitCube(Prod(a, b))
    ensures Below(Prod(a, b), a) && Below(Prod(a, b), b)
  {
    ProdAxisInUnit(a, b, 0);
    ProdAxisInUnit(a, b, 1);
    ProdAxisInUnit(a, b, 2);
  }

  lemma UnitFactor(a: real, one: real)
    requires one == 1.0
    ensures a * one == a
  {
  }

  /** The part of v orthogonal to the unit normal N. */
  function Tangent(N: Vec3, v: Vec3): Vec3
  {
    Sub(v, Scale(N, Dot(N, v)))
  }

  lemma DotScaleAdd(N: Vec3, k: real, d: Vec3)
    ensures Dot(N, Add(Scale(N, k), d)) == k * Dot(N, N) + Dot(N, d)
  {
    assert N.x * (N.x * k + d.x) == k * (N.x * N.x) + N.x * d.x;
    assert N.y * (N.y * k + d.y) == k * (N.y * N.y) + N.y * d.y;
    assert N.z * (N.z * k + d.z) == k * (N.z * N.z) + N.z * d.z;
  }

  /** Adding a multiple of the unit normal does not change the tangential part. */
  lemma TangentShift(N: Vec3, k: real, d: Vec3)
    requires Dot(N, N) == 1.0
    ensures Tangent(N, Add(Scale(N, k), d)) == Tangent(N, d)
  {
    hide Dot;
    DotScaleAdd(N, k, d);
    UnitFactor(k, Dot(N, N));
    var c := Dot(N, d);
    assert Dot(N, Add(Scale(N, k), d)) == k + c;
    assert N.x * (k + c) == N.x * k + N.x * c;
    assert N.y * (k + c) == N.y * k + N.y * c;
    assert N.z * (k + c) == N.z * k + N.z * c;
  }

  lemma DotScale(N: Vec3, v: Vec3, k: real)
    ensures Dot(N, Scale(v, k)) == k * Dot(N, v)
  {
    assert N.x * (v.x * k) + N.y * (v.y * k) + N.z * (v.z * k) == k * (N.x * v.x + N.y * v.y + N.z * v.z);
  }

  lemma TangentScale(N: Vec3, v: Vec3, k: real)
    ensures Tangent(N, Scale(v, k)) == Scale(Tangent(N, v), k)
  {
    hide Dot;
    DotScale(N, v, k);
    var c := Dot(N, v);
    assert Dot(N, Scale(v, k)) == k * c;
    assert v.x * k - N.x * (k * c) == (v.x - N.x * c) * k;
    assert v.y * k - N.y * (k * c) == (v.y - N.y * c) * k;
    assert v.z * k - N.z * (k * c) == (v.z - N.z * c) * k;
  }

  lemma DotNeg(N: Vec3, d: Vec3)
    ensures Dot(N, Neg(d)) == -Dot(N, d)
  {
  }

  /** Scaling a non-negative value channel by channel with factors in [0, 1] never raises it. */
  lemma ProdBelowNonneg(w: Vec3, k: Vec3)
    requires w.x >= 0.0 && w.y >= 0.0 && w.z >= 0.0 && InUnitCube(k)
    ensures Below(Prod(w, k), w)
  {
    MulMono(w.x, k.x, 1.0);
    MulMono(w.y, k.y, 1.0);
    MulMono(w.z, k.z, 1.0);
  }

  lemma ProdAxisInUnit(a: Vec3, b: Vec3, k: int)
    requires InUnitCube(a) && InUnitCube(b) && 0 <= k < 3
    ensures 0.0 <= Axis(Prod(a, b), k)
    ensures Axis(Prod(a, b), k) <= Axis(a, k)
    ensures Axis(Prod(a, b), k) <= Axis(b, k)
  {
    var p, q, c := Axis(a, k), Axis(b, k), Axis(Prod(a, b), k);
    assert 0.0 <= p <= 1.0 && 0.0 <= q <= 1.0;
    assert c == p * q;
    UnitProduct(p, q, c);
  }

  lemma UnitProduct(p: real, q: real, c: real)
    requires 0.0 <= p <= 1.0 && 0.0 <= q <= 1.0 && c == p * q
    ensures 0.0 <= c
    ensures c <= p
    ensures c <= q
  {
    calc {
      0.0;
    == p * 0.0;
    <= { MulMono(p, 0.0, q); }
      c;
    }
    calc {
      c;
    <= { MulMono(p, q, 1.0); }
      p * 1.0;
    == p;
    }
    calc {
      c;
    == q * p;
    <= { MulMono(q, p, 1.0); }
      q * 1.0;
    == q;
    }
  }

  /** Multiplying by a non-negative factor keeps an order. */
  lemma MulMono(k: real, a: real, b: real)
    requires 0.0 <= k && a <= b
    ensures k * a <= k * b
  {
    assert k * b - k * a == k * (b - a);
  }

  lemma NonnegMulMono(k: real, a: real, b: real)
    requires 0.0 <= k && 0.0 <= a <= b
    ensures 0.0 <= k * a <= k * b
  {
    MulMono(k, 0.0, a);
    MulMono(k, a, b);
  }

  lemma SquareMono(d: real, e: real)
    requires 0.0 <= d <= e
    ensures 0.0 <= d * d <= e * e
  {
    calc {
      0.0;
    == d * 0.0;
    <= { MulMono(d, 0.0, d); }
      d * d;
    <= { MulMono(d, d, e); }
      d * e;
    == e * d;
    <= { MulMono(e, d, e); }
      e * e;
    }
  }

  lemma MulStrictMono(k: real, a: real, b: real)
    requires 0.0 < k && a < b
    ensures k * a < k * b
  {
    assert k * b - k * a == k * (b - a);
  }

  lemma SquareStrictMono(d: real, e: real)
    requires 0.0 <= d < e
    ensures d * d < e * e
  {
    calc {
      d * d;
    <= { MulMono(d, d, e); }
      d * e;
    < { MulStrictMono(e, d, e); }
      e * e;
    }
  }

  /** The reciprocal reverses the order of positive reals. */
  lemma ReciprocalAntitone(p: real, q: real)
    requires 0.0 < p <= q
    ensures 1.0 / q <= 1.0 / p
  {
    assert (1.0 / p) * p == 1.0;
    assert (1.0 / q) * q == 1.0;
    MulMono(1.0 / p, p, q);
    MulMono(1.0 / q, 1.0, (1.0 / p) * q);
  }

  lemma ReciprocalStrictlyAntitone(p: real, q: real)
    requires 0.0 < p < q
    ensures 1.0 / q < 1.0 / p
  {
    assert (1.0 / p) * p == 1.0;
    assert (1.0 / q) * q == 1.0;
    MulStrictMono(1.0 / p, p, q);
    MulStrictMono(1.0 / q, 1.0, (1.0 / p) * q);
  }

  lemma ProdAssoc(a: Vec3, b: Vec3, c: Vec3)
    ensures Prod(Prod(a, b), c) == Prod(a, Prod(b, c))
  {
    assert (a.x * b.x) * c.x == a.x * (b.x * c.x);
    assert (a.y * b.y) * c.y == a.y * (b.y * c.y);
    assert (a.z * b.z) * c.z == a.z * (b.z * c.z);
  }
}
