/**
 * Instances of a glTF model (`src/engine/render/glft/instance.rs`): a
 * position and a rotation quaternion, turned into the two matrices the
 * instance vertex buffer carries, and that buffer's layout.
 *
 * Matrices are written by rows, as nalgebra's `matrix!` lists them; the
 * raw instance stores them by columns, as `Into<[[f32; 4]; 4]>` does.
 */
module Instance {
  import opened Vec
  import opened VertexLayout

  /** `nalgebra::Quaternion` with its coordinates in storage order `[i, j, k, w]`. */
  datatype Quat = Quat(x: real, y: real, z: real, w: real)

  /** A 3x3 matrix by rows. */
  datatype M3 = M3(r0: V3, r1: V3, r2: V3)

  /** `GltfInstance`. */
  datatype GltfInstance = GltfInstance(position: V3, rotation: Quat)

  /** A 4x4 matrix by columns, `[[f32; 4]; 4]`. */
  datatype Cols4 = Cols4(c0: V4, c1: V4, c2: V4, c3: V4)

  /** A 3x3 matrix by columns, `[[f32; 3]; 3]`. */
  datatype Cols3 = Cols3(c0: V3, c1: V3, c2: V3)

  /** `InstanceRaw`: the model matrix and the normal matrix, by columns. */
  datatype InstanceRaw = InstanceRaw(model: Cols4, normal: Cols3)

  /** The nine entries both rotation functions compute, as `mRC` (row R of the 3x3 block, column C) by value. */
  datatype Entries = Entries(m11: real, m21: real, m31: real, m12: real, m22: real, m32: real, m13: real, m23: real, m33: real)

  /** The let-bound arithmetic shared by `rotation_to_matrix4` and `rotation_to_matrix3`, with `inv = 2`. */
  function RotationEntries(q: Quat): Entries {
    var inv := 2.0;
    var xs, ys, zs := inv * q.x, inv * q.y, inv * q.z;
    var xx, xy, xz, xw := q.x * xs, q.x * ys, q.x * zs, xs * q.w;
    var yy, yz, yw := q.y * ys, q.y * zs, ys * q.w;
    var zz, zw := q.z * zs, zs * q.w;
    Entries(
      1.0 - (yy + zz), xy - zw, xz + yw,
      xy + zw, 1.0 - (xx + zz), yz - xw,
      xz - yw, yz + xw, 1.0 - (xx + yy))
  }

  /** `rotation_to_matrix4`: the rotation block padded with a last row and column of the identity. */
  function RotationToMatrix4(q: Quat): (m: M4)
    ensures m.r3 == V4(0.0, 0.0, 0.0, 1.0)
    ensures m.r0.w == 0.0 && m.r1.w == 0.0 && m.r2.w == 0.0
  {
    var e := RotationEntries(q);
    M4(V4(e.m11, e.m21, e.m31, 0.0),
       V4(e.m12, e.m22, e.m32, 0.0),
       V4(e.m13, e.m23, e.m33, 0.0),
       V4(0.0, 0.0, 0.0, 1.0))
  }

  /** `rotation_to_matrix3`. */
  function RotationToMatrix3(q: Quat): M3 {
    var e := RotationEntries(q);
    M3(V3(e.m11, e.m21, e.m31),
       V3(e.m12, e.m22, e.m32),
       V3(e.m13, e.m23, e.m33))
  }

  /** The diagonal of both rotation matrices: one minus twice the squares of the other two axes. */
  lemma RotationDiagonal(q: Quat)
    ensures var m := RotationToMatrix3(q);
      && m.r0.x == 1.0 - 2.0 * (q.y * q.y + q.z * q.z)
      && m.r1.y == 1.0 - 2.0 * (q.x * q.x + q.z * q.z)
      && m.r2.z == 1.0 - 2.0 * (q.x * q.x + q.y * q.y)
    ensures var m := RotationToMatrix4(q);
      && m.r0.x == 1.0 - 2.0 * (q.y * q.y + q.z * q.z)
      && m.r1.y == 1.0 - 2.0 * (q.x * q.x + q.z * q.z)
      && m.r2.z == 1.0 - 2.0 * (q.x * q.x + q.y * q.y)
  {
    assert q.x * (2.0 * q.x) == 2.0 * (q.x * q.x);
    assert q.y * (2.0 * q.y) == 2.0 * (q.y * q.y);
    assert q.z * (2.0 * q.z) == 2.0 * (q.z * q.z);
  }

  /** The first three entries of a row. */
  function Xyz(v: V4): V3 {
    V3(v.x, v.y, v.z)
  }

  /** The upper-left 3x3 block of a 4x4 matrix. */
  function Upper(m: M4): M3 {
    M3(Xyz(m.r0), Xyz(m.r1), Xyz(m.r2))
  }

  /** The two rotation functions agree: the 4x4 one is the 3x3 one with an identity row and column added. */
  lemma UpperIsMatrix3(q: Quat)
    ensures Upper(RotationToMatrix4(q)) == RotationToMatrix3(q)
  {
  }

  const Identity3: M3 := M3(UnitX, UnitY, UnitZ)

  const Identity4: M4 := M4(V4(1.0, 0.0, 0.0, 0.0), V4(0.0, 1.0, 0.0, 0.0), V4(0.0, 0.0, 1.0, 0.0), V4(0.0, 0.0, 0.0, 1.0))

  /** The entries of the identity quaternion's rotation: ones on the diagonal, zeros elsewhere. */
  lemma IdentityEntries()
    ensures RotationEntries(Quat(0.0, 0.0, 0.0, 1.0)) == Entries(1.0, 0.0, 0.0, 0.0, 1.0, 0.0, 0.0, 0.0, 1.0)
  {
  }

  /** The identity quaternion gives the 4x4 identity. */
  lemma IdentityQuat4()
    ensures RotationToMatrix4(Quat(0.0, 0.0, 0.0, 1.0)) == Identity4
  {
    IdentityEntries();
  }

  /** The identity quaternion gives the 3x3 identity. */
  lemma IdentityQuat3()
    ensures RotationToMatrix3(Quat(0.0, 0.0, 0.0, 1.0)) == Identity3
  {
    IdentityEntries();
  }

  /** Product of two 4x4 matrices. */
  function Mul4(a: M4, b: M4): M4 {
    var c := ColumnsOf(b);
    M4(V4(Dot4(a.r0, c.c0), Dot4(a.r0, c.c1), Dot4(a.r0, c.c2), Dot4(a.r0, c.c3)),
       V4(Dot4(a.r1, c.c0), Dot4(a.r1, c.c1), Dot4(a.r1, c.c2), Dot4(a.r1, c.c3)),
       V4(Dot4(a.r2, c.c0), Dot4(a.r2, c.c1), Dot4(a.r2, c.c2), Dot4(a.r2, c.c3)),
       V4(Dot4(a.r3, c.c0), Dot4(a.r3, c.c1), Dot4(a.r3, c.c2), Dot4(a.r3, c.c3)))
  }

  /** `Matrix4::new_translation`: the identity with `p` in the last column. */
  function Translation(p: V3): M4 {
    M4(V4(1.0, 0.0, 0.0, p.x), V4(0.0, 1.0, 0.0, p.y), V4(0.0, 0.0, 1.0, p.z), V4(0.0, 0.0, 0.0, 1.0))
  }

  /** The columns of a 4x4 matrix, `Into<[[f32; 4]; 4]>`. */
  function ColumnsOf(m: M4): (c: Cols4)
    ensures c.c0 == V4(m.r0.x, m.r1.x, m.r2.x, m.r3.x) && c.c3 == V4(m.r0.w, m.r1.w, m.r2.w, m.r3.w)
  {
    Cols4(V4(m.r0.x, m.r1.x, m.r2.x, m.r3.x), V4(m.r0.y, m.r1.y, m.r2.y, m.r3.y),
          V4(m.r0.z, m.r1.z, m.r2.z, m.r3.z), V4(m.r0.w, m.r1.w, m.r2.w, m.r3.w))
  }

  /** The columns of a 3x3 matrix, `Into<[[f32; 3]; 3]>`. */
  function Columns3(m: M3): Cols3 {
    Cols3(V3(m.r0.x, m.r1.x, m.r2.x), V3(m.r0.y, m.r1.y, m.r2.y), V3(m.r0.z, m.r1.z, m.r2.z))
  }

  /** A vector extended by `w`. */
  function Extend(v: V3, w: real): V4 {
    V4(v.x, v.y, v.z, w)
  }

  /** `GltfInstance::to_raw`: the translation times the rotation, and the 3x3 rotation, both by columns. */
  function ToRaw(inst: GltfInstance): (raw: InstanceRaw)
    ensures raw.normal == Columns3(RotationToMatrix3(inst.rotation))
  {
    InstanceRaw(ColumnsOf(Mul4(Translation(inst.position), RotationToMatrix4(inst.rotation))),
                Columns3(RotationToMatrix3(inst.rotation)))
  }

  /**
   * The model matrix of an instance moves the origin to its position and
   * turns everything else by its rotation: its first three columns are the
   * rotation's with a 0 below, and its last column is `(position, 1)`.
   */
  lemma ToRawColumns(inst: GltfInstance)
    ensures var r := Columns3(RotationToMatrix3(inst.rotation));
      ToRaw(inst).model == Cols4(Extend(r.c0, 0.0), Extend(r.c1, 0.0), Extend(r.c2, 0.0), Point(inst.position))
  {
  }

  /** `size_of::<InstanceRaw>()`: sixteen and nine 4-byte floats, with no padding under `repr(C)`. */
  const InstanceRawSize: nat := (16 + 9) * 4

  /** `InstanceRaw::desc`: per instance, the four model columns at locations 5 to 8 and the three normal columns at 9 to 11. */
  const InstanceDesc: Layout := Layout(InstanceRawSize, PerInstance, [
    Attr(0, 5, Float32x4), Attr(4 * 4, 6, Float32x4), Attr(8 * 4, 7, Float32x4), Attr(12 * 4, 8, Float32x4),
    Attr(16 * 4, 9, Float32x3), Attr(19 * 4, 10, Float32x3), Attr(22 * 4, 11, Float32x3)])

  /**
   * The instance layout reads the model matrix column by column and then
   * the normal matrix: locations 5 to 11, offsets 0, 16, 32, 48, 64, 76 and
   * 88, each attribute starting where the last ends and the last ending at
   * the 100-byte stride.
   */
  lemma InstanceDescPacked()
    ensures InstanceDesc.stride == 100 && InstanceDesc.step == PerInstance
    ensures Packed(InstanceDesc) && Locations(InstanceDesc, 5)
    ensures |InstanceDesc.attrs| == 7
    ensures forall i :: 0 <= i < 7 ==> InstanceDesc.attrs[i].offset == [0, 16, 32, 48, 64, 76, 88][i]
  {
    var a := InstanceDesc.attrs;
    assert a == [Attr(0, 5, Float32x4), Attr(16, 6, Float32x4), Attr(32, 7, Float32x4), Attr(48, 8, Float32x4),
                 Attr(64, 9, Float32x3), Attr(76, 10, Float32x3), Attr(88, 11, Float32x3)];
    assert End(a[0]) == 16 && End(a[1]) == 32 && End(a[2]) == 48 && End(a[3]) == 64;
    assert End(a[4]) == 76 && End(a[5]) == 88 && End(a[6]) == 100;
  }
}
