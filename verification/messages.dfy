/**
 The part of a `nav_msgs/Odometry` message that the odometry subscriber reads.
 The record nesting mirrors the message definition (header, pose with
 covariance, twist with covariance) so that every field access of the
 callback has a counterpart here. Numeric fields are exact reals; the
 message's double precision is not modelled.
 */
module NavMessages {

  /** A row-major 6x6 covariance, flattened. The message declares it as a
      fixed array of 36 doubles, so its length is part of its type. */
  type Covariance = c: seq<real> | |c| == 36 witness seq(36, _ => 0.0)

  datatype Point = Point(x: real, y: real, z: real)

  datatype Vector3 = Vector3(x: real, y: real, z: real)

  /** Components in the message's (x, y, z, w) order. */
  datatype Quaternion = Quaternion(x: real, y: real, z: real, w: real)

  /** The header's stamp, already in seconds: the ROS time-to-seconds
      conversion is not part of this model. */
  datatype Header = Header(stamp: real)

  datatype Pose = Pose(position: Point, orientation: Quaternion)

  datatype PoseWithCovariance = PoseWithCovariance(pose: Pose, covariance: Covariance)

  datatype Twist = Twist(linear: Vector3, angular: Vector3)

  datatype TwistWithCovariance = TwistWithCovariance(twist: Twist, covariance: Covariance)

  datatype Odometry = Odometry(header: Header, pose: PoseWithCovariance, twist: TwistWithCovariance)
}
