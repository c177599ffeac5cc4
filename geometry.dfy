/**
 * The SceneKit value types the view controller touches: `SCNVector3` / `SIMD3<Float>`
 * and `SCNMatrix4`. Entries are `real`: the assembly below only places entries and
 * negates them, which is exact in single precision as well.
 *
 * SceneKit multiplies ROW vectors on the left: a point `p` is mapped to
 * `[p.x p.y p.z 1] * M`, so the translation sits in the fourth row (m41, m42, m43)
 * and an affine matrix has fourth column (0, 0, 0, 1).
 */
module Geometry {

  datatype Vec3 = Vec3(x: real, y: real, z: real)

  datatype Vec4 = Vec4(x: real, y: real, z: real, w: real)

  /** `SCNMatrix4`, entries named as SceneKit names them: m<row><column>. */
  datatype Matrix4 = Matrix4(
    m11: real, m12: real, m13: real, m14: real,
    m21: real, m22: real, m23: real, m24: real,
    m31: real, m32: real, m33: real, m34: real,
    m41: real, m42: real, m43: real, m44: real)
  {
    /** Row `i` (1-based, as in SceneKit's entry names). */
    function Row(i: nat): Vec4
      requires 1 <= i <= 4
    {
      if i == 1 then Vec4(m11, m12, m13, m14)
      else if i == 2 then Vec4(m21, m22, m23, m24)
      else if i == 3 then Vec4(m31, m32, m33, m34)
      else Vec4(m41, m42, m43, m44)
    }

    /** The fourth column is (0, 0, 0, 1): no projective part. */
    predicate IsAffine() {
      m14 == 0.0 && m24 == 0.0 && m34 == 0.0 && m44 == 1.0
    }
  }

  const Origin := Vec3(0.0, 0.0, 0.0)

  /** `SCNMatrix4Identity`. */
  const Identity := Matrix4(
    1.0, 0.0, 0.0, 0.0,
    0.0, 1.0, 0.0, 0.0,
    0.0, 0.0, 1.0, 0.0,
    0.0, 0.0, 0.0, 1.0)

  function Add(a: Vec3, b: Vec3): Vec3 {
    Vec3(a.x + b.x, a.y + b.y, a.z + b.z)
  }

  function Negate(v: Vec3): Vec3 {
    Vec3(-v.x, -v.y, -v.z)
  }

  /** `v` as a row of a 4x4 matrix, with `w` in the fourth column. */
  function Extend(v: Vec3, w: real): Vec4 {
    Vec4(v.x, v.y, v.z, w)
  }

  /** The image of point `p` under an affine `m`, row-vector convention. */
  function TransformPoint(m: Matrix4, p: Vec3): Vec3 {
    Vec3(m.m11 * p.x + m.m21 * p.y + m.m31 * p.z + m.m41,
         m.m12 * p.x + m.m22 * p.y + m.m32 * p.z + m.m42,
         m.m13 * p.x + m.m23 * p.y + m.m33 * p.z + m.m43)
  }

  /** The half-turn about the X axis: negates Y and Z. */
  function FlipYZ(v: Vec3): Vec3 {
    Vec3(v.x, -v.y, -v.z)
  }

  lemma FlipYZInvolution(v: Vec3)
    ensures FlipYZ(FlipYZ(v)) == v
    ensures FlipYZ(v) == v <==> v.y == 0.0 && v.z == 0.0
  {
  }

  function Cross(a: Vec3, b: Vec3): Vec3 {
    Vec3(a.y * b.z - a.z * b.y, a.z * b.x - a.x * b.z, a.x * b.y - a.y * b.x)
  }

  /** Negating Y and Z is a rotation, not a reflection: it commutes with the cross product. */
  lemma FlipYZPreservesOrientation(a: Vec3, b: Vec3)
    ensures Cross(FlipYZ(a), FlipYZ(b)) == FlipYZ(Cross(a, b))
  {
  }
}
