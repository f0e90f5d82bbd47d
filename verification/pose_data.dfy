/**
 The sample the subscriber produces (`PoseData`): a time, a 4x4 homogeneous
 pose matrix, a linear and an angular velocity, and a covariance vector.
 Only the fields the odometry callback writes are modelled.
 */
module PoseTypes {

  /** A 4x4 matrix as four rows of four entries. */
  type Matrix4 = m: seq<seq<real>> | |m| == 4 && forall i | 0 <= i < 4 :: |m[i]| == 4
    witness seq(4, _ => seq(4, _ => 0.0))

  /** A 3x3 matrix as three rows of three entries. */
  type Matrix3 = m: seq<seq<real>> | |m| == 3 && forall i | 0 <= i < 3 :: |m[i]| == 3
    witness seq(3, _ => seq(3, _ => 0.0))

  datatype Vec3 = Vec3(x: real, y: real, z: real)

  /** Linear velocity `v` and angular velocity `w`. */
  datatype Velocity = Velocity(v: Vec3, w: Vec3)

  /** `cov` is a growable vector: the callback fills it by appending. */
  datatype PoseData = PoseData(time: real, pose: Matrix4, vel: Velocity, cov: seq<real>)

  /** The matrix with its translation column (rows 0 to 2 of column 3) set to
      (x, y, z); the rotation block and the fourth row are kept. */
  function SetTranslation(m: Matrix4, x: real, y: real, z: real): (r: Matrix4)
    ensures r[0][3] == x && r[1][3] == y && r[2][3] == z
    ensures forall a, b | 0 <= a < 3 && 0 <= b < 3 :: r[a][b] == m[a][b]
    ensures r[3] == m[3]
  {
    seq(4, i requires 0 <= i < 4 =>
      if i < 3 then m[i][..3] + [if i == 0 then x else if i == 1 then y else z] else m[i])
  }

  /** The matrix with its top-left 3x3 block replaced by `block`; the fourth
      column and the fourth row are kept. */
  function SetRotationBlock(m: Matrix4, block: Matrix3): (r: Matrix4)
    ensures forall a, b | 0 <= a < 3 && 0 <= b < 3 :: r[a][b] == block[a][b]
    ensures forall a | 0 <= a < 3 :: r[a][3] == m[a][3]
    ensures r[3] == m[3]
  {
    seq(4, i requires 0 <= i < 4 => if i < 3 then block[i] + m[i][3..] else m[i])
  }
}
