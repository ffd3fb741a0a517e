/**
  The transform engine of ground_texture_sim/transforms.py: 4x4 homogeneous
  transforms built from 6-DOF poses (intrinsic roll-pitch-yaw), and the
  Transformer, which keeps the camera's mounting pose and intrinsic matrix and
  maps robot poses to camera poses and to the pixel pose of the image's
  top-left corner in the global image aligned with the origin.
*/
module Transforms {
  import opened Wrappers
  import opened Matrices
  import opened Numerics

  /** `rotation_roll`: rotation about X. */
  function RollMatrix(t: Trig, roll: real): (m: Matrix)
    ensures IsShape(m, 3, 3)
  {
    [[1.0, 0.0, 0.0],
     [0.0, t.cos(roll), -t.sin(roll)],
     [0.0, t.sin(roll), t.cos(roll)]]
  }

  /** `rotation_pitch`: rotation about Y. */
  function PitchMatrix(t: Trig, pitch: real): (m: Matrix)
    ensures IsShape(m, 3, 3)
  {
    [[t.cos(pitch), 0.0, t.sin(pitch)],
     [0.0, 1.0, 0.0],
     [-t.sin(pitch), 0.0, t.cos(pitch)]]
  }

  /** `rotation_yaw`: rotation about Z. */
  function YawMatrix(t: Trig, yaw: real): (m: Matrix)
    ensures IsShape(m, 3, 3)
  {
    [[t.cos(yaw), -t.sin(yaw), 0.0],
     [t.sin(yaw), t.cos(yaw), 0.0],
     [0.0, 0.0, 1.0]]
  }

  /** `rotation_roll @ rotation_pitch @ rotation_yaw`, evaluated left to right. */
  function Rotation(t: Trig, roll: real, pitch: real, yaw: real): (m: Matrix)
    ensures IsShape(m, 3, 3)
  {
    MatMul(MatMul(RollMatrix(t, roll), PitchMatrix(t, pitch)), YawMatrix(t, yaw))
  }

  /**
    The textbook closed form of the intrinsic roll-pitch-yaw rotation
    Rx(roll) Ry(pitch) Rz(yaw), written with the six sines and cosines.
  */
  function EulerClosedForm(cr: real, sr: real, cp: real, sp: real, cy: real, sy: real): Matrix {
    [[cp * cy, -(cp * sy), sp],
     [sr * sp * cy + cr * sy, cr * cy - sr * sp * sy, -(sr * cp)],
     [sr * sy - cr * sp * cy, cr * sp * sy + sr * cy, cr * cp]]
  }

  /**
    `create_transform_matrix`: identity(4), translation written into the last
    column, the rotation product written into the top-left 3x3 block.
  */
  function CreateTransformMatrix(t: Trig, x: real, y: real, z: real,
                                 roll: real, pitch: real, yaw: real): (pose: Matrix)
    ensures IsShape(pose, 4, 4)
    ensures pose[3] == [0.0, 0.0, 0.0, 1.0]
    ensures pose[0][3] == x && pose[1][3] == y && pose[2][3] == z
    ensures forall i, j :: 0 <= i < 3 && 0 <= j < 3 ==> pose[i][j] == Rotation(t, roll, pitch, yaw)[i][j]
  {
    var r := Rotation(t, roll, pitch, yaw);
    [r[0] + [x], r[1] + [y], r[2] + [z], [0.0, 0.0, 0.0, 1.0]]
  }

  /** The dot product of two 3-vectors given by their entries. */
  lemma Dot3Lit(u0: real, u1: real, u2: real, v0: real, v1: real, v2: real)
    ensures Dot([u0, u1, u2], [v0, v1, v2]) == u0 * v0 + u1 * v1 + u2 * v2
  {
    var u, v := [u0, u1, u2], [v0, v1, v2];
    Dot3(u, v);
    assert u[0] == u0 && u[1] == u1 && u[2] == u2;
    assert v[0] == v0 && v[1] == v1 && v[2] == v2;
  }

  /** A 3x3 product of two matrices given by their entries, entry by entry. */
  lemma Product3Entries(a00: real, a01: real, a02: real, a10: real, a11: real, a12: real,
                        a20: real, a21: real, a22: real,
                        b00: real, b01: real, b02: real, b10: real, b11: real, b12: real,
                        b20: real, b21: real, b22: real)
    ensures var p := MatMul([[a00, a01, a02], [a10, a11, a12], [a20, a21, a22]],
                            [[b00, b01, b02], [b10, b11, b12], [b20, b21, b22]]);
            && IsShape(p, 3, 3)
            && p[0][0] == a00 * b00 + a01 * b10 + a02 * b20
            && p[0][1] == a00 * b01 + a01 * b11 + a02 * b21
            && p[0][2] == a00 * b02 + a01 * b12 + a02 * b22
            && p[1][0] == a10 * b00 + a11 * b10 + a12 * b20
            && p[1][1] == a10 * b01 + a11 * b11 + a12 * b21
            && p[1][2] == a10 * b02 + a11 * b12 + a12 * b22
            && p[2][0] == a20 * b00 + a21 * b10 + a22 * b20
            && p[2][1] == a20 * b01 + a21 * b11 + a22 * b21
            && p[2][2] == a20 * b02 + a21 * b12 + a22 * b22
  {
    var b := [[b00, b01, b02], [b10, b11, b12], [b20, b21, b22]];
    assert Width(b) == 3;
    assert Column(b, 0) == [b00, b10, b20] && Column(b, 1) == [b01, b11, b21] && Column(b, 2) == [b02, b12, b22];
    Dot3Lit(a00, a01, a02, b00, b10, b20);
    Dot3Lit(a00, a01, a02, b01, b11, b21);
    Dot3Lit(a00, a01, a02, b02, b12, b22);
    Dot3Lit(a10, a11, a12, b00, b10, b20);
    Dot3Lit(a10, a11, a12, b01, b11, b21);
    Dot3Lit(a10, a11, a12, b02, b12, b22);
    Dot3Lit(a20, a21, a22, b00, b10, b20);
    Dot3Lit(a20, a21, a22, b01, b11, b21);
    Dot3Lit(a20, a21, a22, b02, b12, b22);
  }

  /** A 3x3 matrix is the literal of its entries. */
  lemma Matrix3Literal(m: Matrix, y00: real, y01: real, y02: real, y10: real, y11: real, y12: real,
                       y20: real, y21: real, y22: real)
    requires IsShape(m, 3, 3)
    requires m[0][0] == y00 && m[0][1] == y01 && m[0][2] == y02
    requires m[1][0] == y10 && m[1][1] == y11 && m[1][2] == y12
    requires m[2][0] == y20 && m[2][1] == y21 && m[2][2] == y22
    ensures m == [[y00, y01, y02], [y10, y11, y12], [y20, y21, y22]]
  {
    assert m[0] == [y00, y01, y02] && m[1] == [y10, y11, y12] && m[2] == [y20, y21, y22];
  }

  /** The product of the roll and pitch matrices, from their cosines and sines. */
  lemma RollPitchEntries(cr: real, sr: real, cp: real, sp: real)
    ensures MatMul([[1.0, 0.0, 0.0], [0.0, cr, -sr], [0.0, sr, cr]],
                   [[cp, 0.0, sp], [0.0, 1.0, 0.0], [-sp, 0.0, cp]])
         == [[cp, 0.0, sp], [sr * sp, cr, -(sr * cp)], [-(cr * sp), sr, cr * cp]]
  {
    Product3Entries(1.0, 0.0, 0.0, 0.0, cr, -sr, 0.0, sr, cr,
                    cp, 0.0, sp, 0.0, 1.0, 0.0, -sp, 0.0, cp);
    Matrix3Literal(MatMul([[1.0, 0.0, 0.0], [0.0, cr, -sr], [0.0, sr, cr]],
                          [[cp, 0.0, sp], [0.0, 1.0, 0.0], [-sp, 0.0, cp]]),
                   cp, 0.0, sp, sr * sp, cr, -(sr * cp), -(cr * sp), sr, cr * cp);
  }

  /** The roll-pitch product times the yaw matrix, from the six cosines and sines. */
  lemma RollPitchYawEntries(cr: real, sr: real, cp: real, sp: real, cy: real, sy: real)
    ensures MatMul([[cp, 0.0, sp], [sr * sp, cr, -(sr * cp)], [-(cr * sp), sr, cr * cp]],
                   [[cy, -sy, 0.0], [sy, cy, 0.0], [0.0, 0.0, 1.0]])
         == EulerClosedForm(cr, sr, cp, sp, cy, sy)
  {
    assert EulerClosedForm(cr, sr, cp, sp, cy, sy)
        == [[cp * cy, -(cp * sy), sp],
            [sr * sp * cy + cr * sy, cr * cy - sr * sp * sy, -(sr * cp)],
            [sr * sy - cr * sp * cy, cr * sp * sy + sr * cy, cr * cp]];
    Product3Entries(cp, 0.0, sp, sr * sp, cr, -(sr * cp), -(cr * sp), sr, cr * cp,
                    cy, -sy, 0.0, sy, cy, 0.0, 0.0, 0.0, 1.0);
    Matrix3Literal(MatMul([[cp, 0.0, sp], [sr * sp, cr, -(sr * cp)], [-(cr * sp), sr, cr * cp]],
                          [[cy, -sy, 0.0], [sy, cy, 0.0], [0.0, 0.0, 1.0]]),
                   cp * cy, -(cp * sy), sp,
                   sr * sp * cy + cr * sy, cr * cy - sr * sp * sy, -(sr * cp),
                   sr * sy - cr * sp * cy, cr * sp * sy + sr * cy, cr * cp);
  }

  /** The rotation product agrees with the closed form, entry by entry. */
  lemma RotationIsEulerClosedForm(t: Trig, roll: real, pitch: real, yaw: real)
    ensures Rotation(t, roll, pitch, yaw)
         == EulerClosedForm(t.cos(roll), t.sin(roll), t.cos(pitch), t.sin(pitch), t.cos(yaw), t.sin(yaw))
  {
    var cr, sr, cp, sp, cy, sy := t.cos(roll), t.sin(roll), t.cos(pitch), t.sin(pitch), t.cos(yaw), t.sin(yaw);
    assert RollMatrix(t, roll) == [[1.0, 0.0, 0.0], [0.0, cr, -sr], [0.0, sr, cr]];
    assert PitchMatrix(t, pitch) == [[cp, 0.0, sp], [0.0, 1.0, 0.0], [-sp, 0.0, cp]];
    assert YawMatrix(t, yaw) == [[cy, -sy, 0.0], [sy, cy, 0.0], [0.0, 0.0, 1.0]];
    RollPitchEntries(cr, sr, cp, sp);
    RollPitchYawEntries(cr, sr, cp, sp, cy, sy);
  }

  /**
    The closed form is a proper rotation when each angle's sine and cosine
    lie on the unit circle: its columns are orthonormal and its determinant
    is +1. The columns are built from the orthonormal frame
    `(1, 0, 0), (0, sr, -cr), (0, cr, sr)` by turning first by pitch, then by yaw.
  */
  lemma EulerOrthonormal(cr: real, sr: real, cp: real, sp: real, cy: real, sy: real)
    requires cr * cr + sr * sr == 1.0
    requires cp * cp + sp * sp == 1.0
    requires cy * cy + sy * sy == 1.0
    ensures var m := EulerClosedForm(cr, sr, cp, sp, cy, sy);
            IsShape(m, 3, 3) && MatMul(Transpose(m), m) == Identity(3) && Det3(m) == 1.0
  {
    EulerColumns(cr, sr, cp, sp, cy, sy);
    OrthonormalColumns(EulerClosedForm(cr, sr, cp, sp, cy, sy));
    EulerDeterminant(cr, sr, cp, sp, cy, sy);
  }

  /** The frame `(0, sr, -cr), (1, 0, 0), (0, cr, sr)` the columns are turned from. */
  lemma RollFrame(cr: real, sr: real)
    requires cr * cr + sr * sr == 1.0
    ensures Orthonormal(V3(0.0, sr, -cr), V3(1.0, 0.0, 0.0), V3(0.0, cr, sr))
  {
    assert Inner(V3(0.0, sr, -cr), V3(0.0, sr, -cr)) == sr * sr + cr * cr;
  }

  /** The pitch turn of the roll frame: its first vector and the third column. */
  function PitchedAxis(cr: real, sr: real, cp: real, sp: real): V3 {
    Combine(sp, V3(0.0, sr, -cr), cp, V3(1.0, 0.0, 0.0))
  }

  function ThirdColumn(cr: real, sr: real, cp: real, sp: real): V3 {
    Combine(-cp, V3(0.0, sr, -cr), sp, V3(1.0, 0.0, 0.0))
  }

  /** After the pitch turn the frame is still orthonormal. */
  lemma PitchedFrame(cr: real, sr: real, cp: real, sp: real)
    requires cr * cr + sr * sr == 1.0
    requires cp * cp + sp * sp == 1.0
    ensures Orthonormal(PitchedAxis(cr, sr, cp, sp), V3(0.0, cr, sr), ThirdColumn(cr, sr, cp, sp))
  {
    RollFrame(cr, sr);
    TurnKeepsOrthonormal(V3(0.0, sr, -cr), V3(1.0, 0.0, 0.0), V3(0.0, cr, sr), sp, cp);
    InnerSymmetric(ThirdColumn(cr, sr, cp, sp), V3(0.0, cr, sr));
  }

  /** ... and right-handed: the third column is the cross product of the other two. */
  lemma PitchedCross(cr: real, sr: real, cp: real, sp: real)
    requires cr * cr + sr * sr == 1.0
    ensures Cross(PitchedAxis(cr, sr, cp, sp), V3(0.0, cr, sr)) == ThirdColumn(cr, sr, cp, sp)
  {
    var a := PitchedAxis(cr, sr, cp, sp);
    assert a == V3(cp, sp * sr, sp * -cr);
    assert (sp * sr) * sr - (sp * -cr) * cr == sp * (sr * sr + cr * cr);
  }

  /** The closed form's columns are the pitched frame turned by yaw. */
  lemma EulerColumnsAreTurned(cr: real, sr: real, cp: real, sp: real, cy: real, sy: real)
    ensures var m, a, b := EulerClosedForm(cr, sr, cp, sp, cy, sy), PitchedAxis(cr, sr, cp, sp), V3(0.0, cr, sr);
            && IsShape(m, 3, 3)
            && Col3(m, 0) == Combine(cy, a, sy, b)
            && Col3(m, 1) == Combine(-sy, a, cy, b)
            && Col3(m, 2) == ThirdColumn(cr, sr, cp, sp)
  {
    FirstColumnTurned(cr, sr, cp, sp, cy, sy);
    SecondColumnTurned(cr, sr, cp, sp, cy, sy);
  }

  lemma FirstColumnTurned(cr: real, sr: real, cp: real, sp: real, cy: real, sy: real)
    ensures var m := EulerClosedForm(cr, sr, cp, sp, cy, sy);
            Col3(m, 0) == Combine(cy, PitchedAxis(cr, sr, cp, sp), sy, V3(0.0, cr, sr))
  {
  }

  lemma SecondColumnTurned(cr: real, sr: real, cp: real, sp: real, cy: real, sy: real)
    ensures var m := EulerClosedForm(cr, sr, cp, sp, cy, sy);
            Col3(m, 1) == Combine(-sy, PitchedAxis(cr, sr, cp, sp), cy, V3(0.0, cr, sr))
  {
  }

  /** The three columns of the closed form are orthonormal. */
  lemma EulerColumns(cr: real, sr: real, cp: real, sp: real, cy: real, sy: real)
    requires cr * cr + sr * sr == 1.0
    requires cp * cp + sp * sp == 1.0
    requires cy * cy + sy * sy == 1.0
    ensures var m := EulerClosedForm(cr, sr, cp, sp, cy, sy);
            IsShape(m, 3, 3) && Orthonormal(Col3(m, 0), Col3(m, 1), Col3(m, 2))
  {
    PitchedFrame(cr, sr, cp, sp);
    TurnKeepsOrthonormal(PitchedAxis(cr, sr, cp, sp), V3(0.0, cr, sr), ThirdColumn(cr, sr, cp, sp), cy, sy);
    EulerColumnsAreTurned(cr, sr, cp, sp, cy, sy);
  }

  /** The closed form has determinant +1. */
  lemma EulerDeterminant(cr: real, sr: real, cp: real, sp: real, cy: real, sy: real)
    requires cr * cr + sr * sr == 1.0
    requires cp * cp + sp * sp == 1.0
    requires cy * cy + sy * sy == 1.0
    ensures Det3(EulerClosedForm(cr, sr, cp, sp, cy, sy)) == 1.0
  {
    DetIsTripleProduct(EulerClosedForm(cr, sr, cp, sp, cy, sy));
    EulerColumnsAreTurned(cr, sr, cp, sp, cy, sy);
    PitchedFrame(cr, sr, cp, sp);
    PitchedCross(cr, sr, cp, sp);
    TurnKeepsCross(PitchedAxis(cr, sr, cp, sp), V3(0.0, cr, sr), cy, sy);
  }

  /** The rotation block of every pose is orthonormal with determinant +1. */
  lemma RotationOrthonormal(t: Trig, roll: real, pitch: real, yaw: real)
    requires PythagoreanLaw(t)
    ensures var r := Rotation(t, roll, pitch, yaw);
            MatMul(Transpose(r), r) == Identity(3) && Det3(r) == 1.0
  {
    RotationIsEulerClosedForm(t, roll, pitch, yaw);
    assert t.sin(roll) * t.sin(roll) + t.cos(roll) * t.cos(roll) == 1.0;
    assert t.sin(pitch) * t.sin(pitch) + t.cos(pitch) * t.cos(pitch) == 1.0;
    assert t.sin(yaw) * t.sin(yaw) + t.cos(yaw) * t.cos(yaw) == 1.0;
    EulerOrthonormal(t.cos(roll), t.sin(roll), t.cos(pitch), t.sin(pitch), t.cos(yaw), t.sin(yaw));
  }

  /** All-zero pose parameters give the 4x4 identity. */
  lemma ZeroPoseIsIdentity(t: Trig)
    requires ExactTrig(t)
    ensures CreateTransformMatrix(t, 0.0, 0.0, 0.0, 0.0, 0.0, 0.0) == Identity(4)
  {
    RotationIsEulerClosedForm(t, 0.0, 0.0, 0.0);
    EqualEntries(CreateTransformMatrix(t, 0.0, 0.0, 0.0, 0.0, 0.0, 0.0), Identity(4), 4, 4);
  }

  /** The pose (1, 2, 3, pi, pi/2, -pi/2) exercised by the transform tests. */
  lemma QuarterTurnExample(t: Trig)
    requires ExactTrig(t)
    ensures CreateTransformMatrix(t, 1.0, 2.0, 3.0, t.pi, t.pi / 2.0, -t.pi / 2.0)
         == [[0.0, 0.0, 1.0, 1.0],
             [1.0, 0.0, 0.0, 2.0],
             [0.0, 1.0, 0.0, 3.0],
             [0.0, 0.0, 0.0, 1.0]]
  {
    RotationIsEulerClosedForm(t, t.pi, t.pi / 2.0, -t.pi / 2.0);
    EqualEntries(CreateTransformMatrix(t, 1.0, 2.0, 3.0, t.pi, t.pi / 2.0, -t.pi / 2.0),
                 [[0.0, 0.0, 1.0, 1.0], [1.0, 0.0, 0.0, 2.0], [0.0, 1.0, 0.0, 3.0], [0.0, 0.0, 0.0, 1.0]],
                 4, 4);
  }

  /** A planar pose (x, y, theta): the yaw rotation in the top-left 2x2 block. */
  lemma PlanarPoseTransform(t: Trig, x: real, y: real, theta: real)
    requires ExactTrig(t)
    ensures CreateTransformMatrix(t, x, y, 0.0, 0.0, 0.0, theta)
         == [[t.cos(theta), -t.sin(theta), 0.0, x],
             [t.sin(theta), t.cos(theta), 0.0, y],
             [0.0, 0.0, 1.0, 0.0],
             [0.0, 0.0, 0.0, 1.0]]
  {
    RotationIsEulerClosedForm(t, 0.0, 0.0, theta);
    EqualEntries(CreateTransformMatrix(t, x, y, 0.0, 0.0, 0.0, theta),
                 [[t.cos(theta), -t.sin(theta), 0.0, x], [t.sin(theta), t.cos(theta), 0.0, y],
                  [0.0, 0.0, 1.0, 0.0], [0.0, 0.0, 0.0, 1.0]],
                 4, 4);
  }

  /** `_image_2_camera`: image axes (right, down, forward) to camera axes, no translation. */
  function ImageToCamera(): (m: Matrix)
    ensures IsShape(m, 4, 4)
  {
    [[0.0, 0.0, 1.0, 0.0],
     [-1.0, 0.0, 0.0, 0.0],
     [0.0, -1.0, 0.0, 0.0],
     [0.0, 0.0, 0.0, 1.0]]
  }

  /** The ValueError raised for a matrix that is not `rows` x `cols`. */
  datatype ShapeError = ValueError(rows: nat, cols: nat)

  /**
    Why `project_image_corner` produced no pixel pose: numpy.linalg.inv raised
    LinAlgError, or the result holds NaN or infinity (a zero camera height, or
    arccos of a value outside [-1, 1]), which numpy returns without raising.
  */
  datatype CornerError = LinAlgError | NonFinite

  /**
    The yaw recovered from a pure-yaw rotation's first column: arccos(R00),
    negated exactly when numpy.sign(R10) is -1.
  */
  function CornerYaw(t: Trig, r00: real, r10: real): (yaw: real)
    ensures r10 < 0.0 ==> yaw == -t.arccos(r00)
    ensures r10 >= 0.0 ==> yaw == t.arccos(r00)
    ensures ExactTrig(t) && -1.0 <= r00 <= 1.0 ==> -t.pi <= yaw <= t.pi
    ensures ExactTrig(t) && -1.0 <= r00 <= 1.0 ==> (yaw >= 0.0 <== r10 >= 0.0)
    ensures ExactTrig(t) && -1.0 <= r00 <= 1.0 ==> (yaw <= 0.0 <== r10 < 0.0)
  {
    if r10 < 0.0 then -t.arccos(r00) else t.arccos(r00)
  }

  /**
    `Transformer`: the camera's pose in the robot frame and its intrinsic
    matrix, both assigned through shape-checking setters.
  */
  class Transformer {
    var cameraPose: Matrix
    var cameraIntrinsicMatrix: Matrix
    const imageToCamera: Matrix

    ghost predicate Valid()
      reads this
    {
      IsShape(cameraPose, 4, 4) && IsShape(cameraIntrinsicMatrix, 3, 3) && imageToCamera == ImageToCamera()
    }

    /** The object as allocated, before `__init__` assigns through the setters. */
    constructor Allocate()
      ensures cameraPose == [] && cameraIntrinsicMatrix == []
      ensures imageToCamera == ImageToCamera()
    {
      cameraPose := [];
      cameraIntrinsicMatrix := [];
      imageToCamera := ImageToCamera();
    }

    /**
      `Transformer(camera_pose, camera_intrinsic_matrix)`: both assignments go
      through the setters, the pose first, so a bad pose is reported before a
      bad intrinsic matrix.
    */
    static method Create(cameraPose: Matrix, cameraIntrinsicMatrix: Matrix) returns (r: Result<Transformer, ShapeError>)
      ensures !IsShape(cameraPose, 4, 4) ==> r == Failure(ValueError(4, 4))
      ensures IsShape(cameraPose, 4, 4) && !IsShape(cameraIntrinsicMatrix, 3, 3) ==> r == Failure(ValueError(3, 3))
      ensures r.Success? <==> IsShape(cameraPose, 4, 4) && IsShape(cameraIntrinsicMatrix, 3, 3)
      ensures r.Success? ==> fresh(r.value) && r.value.Valid()
      ensures r.Success? ==> r.value.cameraPose == cameraPose && r.value.cameraIntrinsicMatrix == cameraIntrinsicMatrix
    {
      var t := new Transformer.Allocate();
      var outcome := t.SetCameraPose(cameraPose);
      if outcome.Fail? {
        return Failure(outcome.error);
      }
      outcome := t.SetCameraIntrinsicMatrix(cameraIntrinsicMatrix);
      if outcome.Fail? {
        return Failure(outcome.error);
      }
      return Success(t);
    }

    /** The `camera_intrinsic_matrix` setter: only a 3x3 matrix is stored. */
    method SetCameraIntrinsicMatrix(m: Matrix) returns (r: Outcome<ShapeError>)
      modifies this`cameraIntrinsicMatrix
      ensures r == if IsShape(m, 3, 3) then Pass else Fail(ValueError(3, 3))
      ensures cameraIntrinsicMatrix == if IsShape(m, 3, 3) then m else old(cameraIntrinsicMatrix)
    {
      if !IsShape(m, 3, 3) {
        return Fail(ValueError(3, 3));
      }
      cameraIntrinsicMatrix := m;
      return Pass;
    }

    /** The `camera_pose` setter: only a 4x4 matrix is stored. */
    method SetCameraPose(m: Matrix) returns (r: Outcome<ShapeError>)
      modifies this`cameraPose
      ensures r == if IsShape(m, 4, 4) then Pass else Fail(ValueError(4, 4))
      ensures cameraPose == if IsShape(m, 4, 4) then m else old(cameraPose)
    {
      if !IsShape(m, 4, 4) {
        return Fail(ValueError(4, 4));
      }
      cameraPose := m;
      return Pass;
    }

    /**
      `transform_camera_to_world`: the camera's world pose, robot_pose @
      camera_pose. The identity is neutral on either side.
    */
    function TransformCameraToWorld(robotPose: Matrix): (world: Matrix)
      reads this`cameraPose
      requires IsShape(cameraPose, 4, 4) && IsShape(robotPose, 4, 4)
      ensures IsShape(world, 4, 4)
      ensures robotPose == Identity(4) ==> world == cameraPose
      ensures cameraPose == Identity(4) ==> world == robotPose
    {
      MatMulIdentityLeft(cameraPose);
      MatMulIdentityRight(robotPose);
      MatMul(robotPose, cameraPose)
    }

    /**
      `project_image_corner`: where pixel (0, 0) of the image taken at
      `robotPose` lies in the global image aligned with the origin, and the
      robot's yaw. Reads the camera pose and intrinsic matrix, changes nothing.
    */
    function ProjectImageCorner(robotPose: Matrix, inv: Inverse, t: Trig): (r: Result<Vector, CornerError>)
      reads this
      requires Valid() && IsShape(robotPose, 4, 4) && InverseLaw(inv)
      ensures r == Failure(LinAlgError)
          <==> inv(cameraIntrinsicMatrix).None? || inv(MatMul(cameraPose, imageToCamera)).None?
      ensures r == Failure(NonFinite)
          <==> && inv(cameraIntrinsicMatrix).Some? && inv(MatMul(cameraPose, imageToCamera)).Some?
               && (cameraPose[2][3] == 0.0 || !(-1.0 <= robotPose[0][0] <= 1.0))
      ensures r.Success? ==> |r.value| == 3 && r.value[2] == CornerYaw(t, robotPose[0][0], robotPose[1][0])
    {
      var height := cameraPose[2][3];
      match inv(cameraIntrinsicMatrix)
      case None => Failure(LinAlgError)
      case Some(intrinsicInverse) =>
        var pointRobotImage := Scale(MatVec(intrinsicInverse, [0.0, 0.0, 1.0]), height) + [1.0];
        var imageToRobot := MatMul(cameraPose, imageToCamera);
        var pointRobot := MatVec(imageToRobot, pointRobotImage);
        var pointOrigin := MatVec(robotPose, pointRobot);
        match inv(imageToRobot)
        case None => Failure(LinAlgError)
        case Some(robotToImage) =>
          var pointOriginImage := MatVec(robotToImage, pointOrigin);
          if height == 0.0 || !(-1.0 <= robotPose[0][0] <= 1.0) then
            Failure(NonFinite)
          else
            var pixel := MatVec(cameraIntrinsicMatrix,
                                [pointOriginImage[0] / height, pointOriginImage[1] / height, 1.0]);
            Success([pixel[0], pixel[1], CornerYaw(t, robotPose[0][0], robotPose[1][0])])
    }
  }

  /** The camera's world pose maps camera-frame points through the camera pose, then the robot pose. */
  lemma CameraToWorldComposes(tr: Transformer, robotPose: Matrix, p: Vector)
    requires IsShape(tr.cameraPose, 4, 4) && IsShape(robotPose, 4, 4) && |p| == 4
    ensures MatVec(tr.TransformCameraToWorld(robotPose), p) == MatVec(robotPose, MatVec(tr.cameraPose, p))
  {
    MatVecOfProduct(robotPose, tr.cameraPose, p);
  }

  /** Rows of an intrinsic matrix ending in [0, 0, 1] carry over to its inverse. */
  lemma InverseKeepsLastRow(k: Matrix, kInv: Matrix)
    requires IsInverse(kInv, k) && |k| == 3 && k[2] == [0.0, 0.0, 1.0]
    ensures kInv[2] == [0.0, 0.0, 1.0]
  {
    var id := MatMul(k, kInv);
    forall j | 0 <= j < 3
      ensures kInv[2][j] == id[2][j]
    {
      DotUnitLeft(k[2], Column(kInv, j), 2);
    }
  }

  /**
    Pixel (0, 0) un-projected at depth `height` and re-projected after
    dividing by that depth is pixel (0, 0) again.
  */
  lemma UnprojectReproject(k: Matrix, kInv: Matrix, height: real)
    requires IsInverse(kInv, k) && |k| == 3 && k[2] == [0.0, 0.0, 1.0] && height != 0.0
    ensures var p := Scale(MatVec(kInv, [0.0, 0.0, 1.0]), height) + [1.0];
            MatVec(k, [p[0] / height, p[1] / height, 1.0]) == [0.0, 0.0, 1.0]
  {
    var e3 := [0.0, 0.0, 1.0];
    var u := MatVec(kInv, e3);
    InverseKeepsLastRow(k, kInv);
    Dot3(kInv[2], e3);
    var p := Scale(u, height) + [1.0];
    assert p[0] / height == u[0] && p[1] / height == u[1];
    assert [p[0] / height, p[1] / height, 1.0] == u;
    MatVecOfProduct(k, kInv, e3);
    MatVecIdentity(e3);
  }

  /** Mapping a point through `a`, the identity, then the inverse of `a` returns it. */
  lemma InverseCancels(a: Matrix, aInv: Matrix, p: Vector)
    requires IsInverse(aInv, a) && |a| == 4 && |p| == 4
    ensures MatVec(aInv, MatVec(Identity(4), MatVec(a, p))) == p
  {
    MatVecIdentity(MatVec(a, p));
    MatVecOfProduct(aInv, a, p);
    MatVecIdentity(p);
  }

  /**
    A robot at the origin sees its own top-left corner at pixel (0, 0) with
    yaw 0: un-projecting and re-projecting through the same camera chain is a
    round trip, for any camera pose with nonzero height and any invertible
    intrinsic matrix whose last row is [0, 0, 1].
  */
  lemma ProjectImageCornerAtOrigin(tr: Transformer, inv: Inverse, t: Trig)
    requires tr.Valid() && InverseLaw(inv) && ExactTrig(t)
    requires tr.cameraPose[2][3] != 0.0
    requires tr.cameraIntrinsicMatrix[2] == [0.0, 0.0, 1.0]
    requires inv(tr.cameraIntrinsicMatrix).Some?
    requires inv(MatMul(tr.cameraPose, tr.imageToCamera)).Some?
    ensures tr.ProjectImageCorner(Identity(4), inv, t) == Success([0.0, 0.0, 0.0])
  {
    var k := tr.cameraIntrinsicMatrix;
    var height := tr.cameraPose[2][3];
    var kInv := inv(k).value;
    var p := Scale(MatVec(kInv, [0.0, 0.0, 1.0]), height) + [1.0];
    var a := MatMul(tr.cameraPose, tr.imageToCamera);
    InverseCancels(a, inv(a).value, p);
    UnprojectReproject(k, kInv, height);
  }
}
