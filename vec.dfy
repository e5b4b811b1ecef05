/**
 * Vectors and matrices over the reals, standing for the `nalgebra` types
 * (`Vector3<f32>`, `Vector4<f32>`, `Matrix4<f32>`) the engine computes with.
 * Single-precision rounding is not modelled.
 */
module Vec {

  datatype V3 = V3(x: real, y: real, z: real)
  datatype V4 = V4(x: real, y: real, z: real, w: real)
  /** A 4x4 matrix given by its rows. */
  datatype M4 = M4(r0: V4, r1: V4, r2: V4, r3: V4)

  const Zero: V3 := V3(0.0, 0.0, 0.0)
  const UnitX: V3 := V3(1.0, 0.0, 0.0)
  const UnitY: V3 := V3(0.0, 1.0, 0.0)
  const UnitZ: V3 := V3(0.0, 0.0, 1.0)

  function Add(a: V3, b: V3): V3 { V3(a.x + b.x, a.y + b.y, a.z + b.z) }
  function Sub(a: V3, b: V3): V3 { V3(a.x - b.x, a.y - b.y, a.z - b.z) }
  function Neg(a: V3): V3 { V3(-a.x, -a.y, -a.z) }
  function Scale(a: V3, k: real): V3 { V3(a.x * k, a.y * k, a.z * k) }
  function Dot(a: V3, b: V3): real { a.x * b.x + a.y * b.y + a.z * b.z }
  function Cross(a: V3, b: V3): V3 {
    V3(a.y * b.z - a.z * b.y, a.z * b.x - a.x * b.z, a.x * b.y - a.y * b.x)
  }
  function AbsR(r: real): real { if r < 0.0 then -r else r }
  /** Component-wise absolute value (`Vector3::abs`). */
  function Abs(a: V3): V3 { V3(AbsR(a.x), AbsR(a.y), AbsR(a.z)) }

  function Dot4(a: V4, b: V4): real { a.x * b.x + a.y * b.y + a.z * b.z + a.w * b.w }
  /** Matrix times column vector. */
  function Apply(m: M4, v: V4): V4 { V4(Dot4(m.r0, v), Dot4(m.r1, v), Dot4(m.r2, v), Dot4(m.r3, v)) }
  /** A point in homogeneous coordinates (w = 1). */
  function Point(v: V3): V4 { V4(v.x, v.y, v.z, 1.0) }

  /** `n` and `up` are unit vectors at right angles: a portal's frame. */
  predicate Orthonormal(n: V3, up: V3) {
    Dot(n, n) == 1.0 && Dot(up, up) == 1.0 && Dot(n, up) == 0.0
  }

  /**
   * The Gram identity for a cross product: each product of two components of
   * a x b is determined by a, b and their dot products.
   */
  lemma CrossGram(a: V3, b: V3)
    ensures var w, aa, bb, ab := Cross(a, b), Dot(a, a), Dot(b, b), Dot(a, b);
      && w.x * w.x == aa * bb - ab * ab - bb * a.x * a.x - aa * b.x * b.x + 2.0 * ab * a.x * b.x
      && w.y * w.y == aa * bb - ab * ab - bb * a.y * a.y - aa * b.y * b.y + 2.0 * ab * a.y * b.y
      && w.z * w.z == aa * bb - ab * ab - bb * a.z * a.z - aa * b.z * b.z + 2.0 * ab * a.z * b.z
      && w.x * w.y == - bb * a.x * a.y - aa * b.x * b.y + ab * (a.x * b.y + a.y * b.x)
      && w.x * w.z == - bb * a.x * a.z - aa * b.x * b.z + ab * (a.x * b.z + a.z * b.x)
      && w.y * w.z == - bb * a.y * a.z - aa * b.y * b.z + ab * (a.y * b.z + a.z * b.y)
  {
  }

  /** In an orthonormal frame (up, n, up x n) the outer products sum to the identity. */
  lemma FrameGram(n: V3, up: V3)
    requires Orthonormal(n, up)
    ensures var w := Cross(up, n);
      && up.x * up.x + n.x * n.x + w.x * w.x == 1.0
      && up.y * up.y + n.y * n.y + w.y * w.y == 1.0
      && up.z * up.z + n.z * n.z + w.z * w.z == 1.0
      && up.x * up.y + n.x * n.y + w.x * w.y == 0.0
      && up.x * up.z + n.x * n.z + w.x * w.z == 0.0
      && up.y * up.z + n.y * n.z + w.y * w.z == 0.0
  {
    CrossGram(up, n);
    var aa, bb, ab := Dot(up, up), Dot(n, n), Dot(up, n);
    assert aa == 1.0 && bb == 1.0 && ab == 0.0;
  }

  /** The third axis up x n of an orthonormal frame is a unit vector orthogonal to both. */
  lemma FrameAxes(n: V3, up: V3)
    requires Orthonormal(n, up)
    ensures Dot(Cross(up, n), n) == 0.0 && Dot(Cross(up, n), up) == 0.0
    ensures Dot(Cross(up, n), Cross(up, n)) == 1.0
  {
    var w := Cross(up, n);
    CrossGram(up, n);
    calc {
      Dot(w, w);
      w.x * w.x + w.y * w.y + w.z * w.z;
      3.0 - Dot(up, up) - Dot(n, n);
      1.0;
    }
  }

  /** Regrouping a weighted sum of three dot products by the components of `d`. */
  lemma Regroup(a: real, b: real, c: real, u: V3, v: V3, w: V3, d: V3)
    ensures a * Dot(u, d) + b * Dot(v, d) + c * Dot(w, d)
         == (a * u.x + b * v.x + c * w.x) * d.x + (a * u.y + b * v.y + c * w.y) * d.y
          + (a * u.z + b * v.z + c * w.z) * d.z
  {
    assert a * Dot(u, d) == a * u.x * d.x + a * u.y * d.y + a * u.z * d.z;
    assert b * Dot(v, d) == b * v.x * d.x + b * v.y * d.y + b * v.z * d.z;
    assert c * Dot(w, d) == c * w.x * d.x + c * w.y * d.y + c * w.z * d.z;
  }

  /** Any vector is the sum of its projections on an orthonormal frame. */
  lemma Decompose(n: V3, up: V3, d: V3)
    requires Orthonormal(n, up)
    ensures var w := Cross(up, n);
      Add(Add(Scale(up, Dot(up, d)), Scale(n, Dot(n, d))), Scale(w, Dot(w, d))) == d
  {
    FrameGram(n, up);
    Resolve(up, n, Cross(up, n), d);
  }

  /** Three vectors whose outer products sum to the identity resolve any vector into its projections on them. */
  lemma Resolve(u: V3, v: V3, w: V3, d: V3)
    requires u.x * u.x + v.x * v.x + w.x * w.x == 1.0
    requires u.y * u.y + v.y * v.y + w.y * w.y == 1.0
    requires u.z * u.z + v.z * v.z + w.z * w.z == 1.0
    requires u.x * u.y + v.x * v.y + w.x * w.y == 0.0
    requires u.x * u.z + v.x * v.z + w.x * w.z == 0.0
    requires u.y * u.z + v.y * v.z + w.y * w.z == 0.0
    ensures Add(Add(Scale(u, Dot(u, d)), Scale(v, Dot(v, d))), Scale(w, Dot(w, d))) == d
  {
    ResolveX(u, v, w, d);
    ResolveY(u, v, w, d);
    ResolveZ(u, v, w, d);
  }

  /** The first component of `Resolve`. */
  lemma ResolveX(u: V3, v: V3, w: V3, d: V3)
    requires u.x * u.x + v.x * v.x + w.x * w.x == 1.0
    requires u.x * u.y + v.x * v.y + w.x * w.y == 0.0
    requires u.x * u.z + v.x * v.z + w.x * w.z == 0.0
    ensures Add(Add(Scale(u, Dot(u, d)), Scale(v, Dot(v, d))), Scale(w, Dot(w, d))).x == d.x
  {
    Weighted(u.x, v.x, w.x, u, v, w, d, 1.0, 0.0, 0.0);
  }

  /** The second component of `Resolve`. */
  lemma ResolveY(u: V3, v: V3, w: V3, d: V3)
    requires u.y * u.x + v.y * v.x + w.y * w.x == 0.0
    requires u.y * u.y + v.y * v.y + w.y * w.y == 1.0
    requires u.y * u.z + v.y * v.z + w.y * w.z == 0.0
    ensures Add(Add(Scale(u, Dot(u, d)), Scale(v, Dot(v, d))), Scale(w, Dot(w, d))).y == d.y
  {
    Weighted(u.y, v.y, w.y, u, v, w, d, 0.0, 1.0, 0.0);
  }

  /** The third component of `Resolve`. */
  lemma ResolveZ(u: V3, v: V3, w: V3, d: V3)
    requires u.z * u.x + v.z * v.x + w.z * w.x == 0.0
    requires u.z * u.y + v.z * v.y + w.z * w.y == 0.0
    requires u.z * u.z + v.z * v.z + w.z * w.z == 1.0
    ensures Add(Add(Scale(u, Dot(u, d)), Scale(v, Dot(v, d))), Scale(w, Dot(w, d))).z == d.z
  {
    Weighted(u.z, v.z, w.z, u, v, w, d, 0.0, 0.0, 1.0);
  }

  /** `Regroup` with the three weights of the components of `d` known. */
  lemma Weighted(a: real, b: real, c: real, u: V3, v: V3, w: V3, d: V3, kx: real, ky: real, kz: real)
    requires kx == a * u.x + b * v.x + c * w.x
    requires ky == a * u.y + b * v.y + c * w.y
    requires kz == a * u.z + b * v.z + c * w.z
    ensures a * Dot(u, d) + b * Dot(v, d) + c * Dot(w, d) == kx * d.x + ky * d.y + kz * d.z
  {
    Regroup(a, b, c, u, v, w, d);
  }

  /** Dot products distribute over a combination of three vectors. */
  lemma DotCombination(v: V3, a: V3, b: V3, c: V3, ka: real, kb: real, kc: real)
    ensures Dot(v, Add(Add(Scale(a, ka), Scale(b, kb)), Scale(c, kc)))
         == ka * Dot(v, a) + kb * Dot(v, b) + kc * Dot(v, c)
  {
  }
}
