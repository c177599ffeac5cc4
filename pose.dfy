/**
 * The pose the localization engine reports, and the axis-corrected `SCNMatrix4`
 * the view controller assembles from it before anchoring the point cloud.
 */
module Pose {
  import opened Geometry

  /**
   * One localization result: the map handle (negative when nothing was found), the
   * position `(px, py, pz)` and the rotation matrix `r00 .. r22` (`r<row><column>`) of
   * the camera in the map's frame. The engine's confidence value is not read.
   */
  datatype LocalizeInfo = LocalizeInfo(
    handle: int,
    px: real, py: real, pz: real,
    r00: real, r01: real, r02: real,
    r10: real, r11: real, r12: real,
    r20: real, r21: real, r22: real)

  function Position(info: LocalizeInfo): Vec3 {
    Vec3(info.px, info.py, info.pz)
  }

  /** Column `k` of the reported rotation. */
  function RotationColumn(info: LocalizeInfo, k: nat): Vec3
    requires k < 3
  {
    if k == 0 then Vec3(info.r00, info.r10, info.r20)
    else if k == 1 then Vec3(info.r01, info.r11, info.r21)
    else Vec3(info.r02, info.r12, info.r22)
  }

  /** The reported rotation applied to a column vector: `R * v`. */
  function Rotate(info: LocalizeInfo, v: Vec3): Vec3 {
    Vec3(info.r00 * v.x + info.r01 * v.y + info.r02 * v.z,
         info.r10 * v.x + info.r11 * v.y + info.r12 * v.z,
         info.r20 * v.x + info.r21 * v.y + info.r22 * v.z)
  }

  /** The reported pose as it reaches a point: rotate, then translate. */
  function EnginePose(info: LocalizeInfo, v: Vec3): Vec3 {
    Add(Rotate(info, v), Position(info))
  }

  /**
   * The matrix `m` of the localization handler: the rotation's columns laid out as rows,
   * the second and third of them negated, and the position as the translation row.
   */
  function PoseMatrix(info: LocalizeInfo): (m: Matrix4)
    ensures m.IsAffine()
  {
    Matrix4( info.r00,  info.r10,  info.r20, 0.0,
            -info.r01, -info.r11, -info.r21, 0.0,
            -info.r02, -info.r12, -info.r22, 0.0,
             info.px,   info.py,   info.pz,  1.0)
  }

  /**
   * The same layout without the sign correction: the SceneKit matrix of the reported
   * pose read in the engine's own axes.
   */
  function UncorrectedPoseMatrix(info: LocalizeInfo): Matrix4 {
    Matrix4(info.r00, info.r10, info.r20, 0.0,
            info.r01, info.r11, info.r21, 0.0,
            info.r02, info.r12, info.r22, 0.0,
            info.px,  info.py,  info.pz,  1.0)
  }

  /** The sign pattern, row by row. */
  lemma PoseMatrixRows(info: LocalizeInfo)
    ensures PoseMatrix(info).Row(1) == Extend(RotationColumn(info, 0), 0.0)
    ensures PoseMatrix(info).Row(2) == Extend(Negate(RotationColumn(info, 1)), 0.0)
    ensures PoseMatrix(info).Row(3) == Extend(Negate(RotationColumn(info, 2)), 0.0)
    ensures PoseMatrix(info).Row(4) == Extend(Position(info), 1.0)
  {
  }

  /**
   * Against the uncorrected layout: the first and the translation rows agree, the second
   * and third are exactly negated.
   */
  lemma PoseMatrixAgainstUncorrected(info: LocalizeInfo)
    ensures PoseMatrix(info).Row(1) == UncorrectedPoseMatrix(info).Row(1)
    ensures PoseMatrix(info).Row(4) == UncorrectedPoseMatrix(info).Row(4)
    ensures forall i :: 2 <= i <= 3 ==>
      PoseMatrix(info).Row(i) == NegateRow(UncorrectedPoseMatrix(info).Row(i))
  {
  }

  function NegateRow(r: Vec4): Vec4 {
    Vec4(-r.x, -r.y, -r.z, -r.w)
  }

  /** The uncorrected layout is the reported pose itself: `p * U == R * p + t`. */
  lemma UncorrectedActsAsEnginePose(info: LocalizeInfo, p: Vec3)
    ensures TransformPoint(UncorrectedPoseMatrix(info), p) == EnginePose(info, p)
  {
    // A hint for the solver's nonlinear arithmetic, not a proof step.
    assert Rotate(info, p).z == info.r20 * p.x + info.r21 * p.y + info.r22 * p.z;
  }

  /**
   * What the correction means: a SceneKit point first has its Y and Z negated into the
   * engine's axes, then carried by the reported pose. The translation is never flipped:
   * the origin goes to the reported position.
   */
  lemma PoseMatrixFlipsThenPoses(info: LocalizeInfo, p: Vec3)
    ensures TransformPoint(PoseMatrix(info), p) == EnginePose(info, FlipYZ(p))
    ensures TransformPoint(PoseMatrix(info), Origin) == Position(info)
  {
    // Hints for the solver's nonlinear arithmetic, not proof steps: moving a sign
    // from one factor to the other.
    var q := FlipYZ(p);
    assert Rotate(info, q).x == info.r00 * p.x + -info.r01 * p.y + -info.r02 * p.z;
    assert Rotate(info, q).y == info.r10 * p.x + -info.r11 * p.y + -info.r12 * p.z;
    assert Rotate(info, q).z == info.r20 * p.x + -info.r21 * p.y + -info.r22 * p.z;
  }

  /** The reported pose is recovered by negating the SceneKit point's Y and Z first. */
  lemma PoseMatrixUndoesFlip(info: LocalizeInfo, q: Vec3)
    ensures TransformPoint(PoseMatrix(info), FlipYZ(q)) == EnginePose(info, q)
  {
    PoseMatrixFlipsThenPoses(info, FlipYZ(q));
    FlipYZInvolution(q);
  }

  /** The corrected matrix differs from the uncorrected one unless the flipped columns vanish. */
  lemma CorrectionIsVisible(info: LocalizeInfo)
    ensures PoseMatrix(info) == UncorrectedPoseMatrix(info)
        <==> RotationColumn(info, 1) == Origin && RotationColumn(info, 2) == Origin
  {
  }

  /**
   * `SCNMatrix4Invert` and `SCNMatrix4Mult`: SceneKit's own single-precision matrix
   * arithmetic, carried as functions the model does not look into.
   */
  datatype SceneKitOps = SceneKitOps(invert: Matrix4 -> Matrix4, mult: (Matrix4, Matrix4) -> Matrix4)

  /** The point cloud's transform after a successful localization: `inverse(m) * camera`. */
  function AnchorTransform(ops: SceneKitOps, m: Matrix4, camera: Matrix4): Matrix4 {
    ops.mult(ops.invert(m), camera)
  }
}
