/**
 The odometry subscriber's message callback: it converts one odometry message
 into a `PoseData` sample and appends it to the pending buffer. Handing the
 buffer to the consumer (`ParseData`) is `SampleBuffer.Drain`. The transport
 that invokes the callback is not modelled.
 */
module OdometrySubscriber {
  import opened NavMessages
  import opened PoseTypes
  import opened SampleBuffer

  /** Appends `source[i..]` to `cov` one entry at a time, as the callback's
      counted loop pushes entries i, i+1, ..., 35. */
  function PushEntries(cov: seq<real>, source: Covariance, i: nat): (r: seq<real>)
    requires i <= 36
    ensures r == cov + source[i..]
    decreases 36 - i
  {
    if i == 36 then
      cov
    else
      assert source[i..] == [source[i]] + source[i + 1..];
      PushEntries(cov + [source[i]], source, i + 1)
  }

  /** The covariance vector of a fresh sample after the callback's copy:
      the twist covariance when its first entry is positive, otherwise the
      pose covariance, all 36 entries in index order. */
  function CopyCovariance(msg: Odometry): (r: seq<real>)
    ensures msg.twist.covariance[0] > 0.0 ==> r == msg.twist.covariance
    ensures msg.twist.covariance[0] <= 0.0 ==> r == msg.pose.covariance
    ensures |r| == 36
  {
    if msg.twist.covariance[0] > 0.0 then
      PushEntries([], msg.twist.covariance, 0)
    else
      PushEntries([], msg.pose.covariance, 0)
  }

  /** The pose matrix of a fresh sample after the callback has written the
      position into the translation column and the orientation's rotation
      matrix into the top-left block; the fourth row keeps its default. */
  function PoseMatrix(defaultPose: Matrix4, pose: Pose, rotationOf: Quaternion -> Matrix3): (r: Matrix4)
    ensures r[0][3] == pose.position.x && r[1][3] == pose.position.y && r[2][3] == pose.position.z
    ensures forall a, b | 0 <= a < 3 && 0 <= b < 3 :: r[a][b] == rotationOf(pose.orientation)[a][b]
    ensures r[3] == defaultPose[3]
  {
    var translated := SetTranslation(defaultPose, pose.position.x, pose.position.y, pose.position.z);
    SetRotationBlock(translated, rotationOf(pose.orientation))
  }

  /** Converts one message into a sample. `defaultPose` is the pose matrix of a
      default-constructed `PoseData`, whose entries are not fixed here; only
      the entries the callback writes are constrained. `rotationOf` stands for
      the quaternion-to-rotation-matrix conversion of the linear-algebra
      library. */
  function Convert(msg: Odometry, defaultPose: Matrix4, rotationOf: Quaternion -> Matrix3): (r: PoseData)
    ensures r.time == msg.header.stamp
    ensures r.pose[0][3] == msg.pose.pose.position.x
    ensures r.pose[1][3] == msg.pose.pose.position.y
    ensures r.pose[2][3] == msg.pose.pose.position.z
    ensures forall a, b | 0 <= a < 3 && 0 <= b < 3 ::
      r.pose[a][b] == rotationOf(msg.pose.pose.orientation)[a][b]
    ensures r.pose[3] == defaultPose[3]
    ensures r.vel.v == Vec3(msg.twist.twist.linear.x, msg.twist.twist.linear.y, msg.twist.twist.linear.z)
    ensures r.vel.w == Vec3(msg.twist.twist.angular.x, msg.twist.twist.angular.y, msg.twist.twist.angular.z)
    ensures |r.cov| == 36
    ensures msg.twist.covariance[0] > 0.0 ==> r.cov == msg.twist.covariance
    ensures msg.twist.covariance[0] <= 0.0 ==> r.cov == msg.pose.covariance
  {
    var pose := PoseMatrix(defaultPose, msg.pose.pose, rotationOf);
    var linear := msg.twist.twist.linear;
    var angular := msg.twist.twist.angular;
    var vel := Velocity(Vec3(linear.x, linear.y, linear.z), Vec3(angular.x, angular.y, angular.z));
    PoseData(msg.header.stamp, pose, vel, CopyCovariance(msg))
  }

  /** The message callback on the pending buffer: the converted message
      joins its tail and every earlier pending sample stays where it was. */
  function MsgCallback(pending: seq<PoseData>, msg: Odometry, defaultPose: Matrix4, rotationOf: Quaternion -> Matrix3): (r: seq<PoseData>)
    ensures |r| == |pending| + 1
    ensures r[..|pending|] == pending
    ensures r[|pending|] == Convert(msg, defaultPose, rotationOf)
  {
    Append(pending, Convert(msg, defaultPose, rotationOf))
  }

  /** The callback is the delivery step of the buffer protocol with `Convert`
      as the conversion, so the conservation results about runs of `Deliver`
      and `Parse` events hold for the odometry subscriber. */
  lemma MsgCallbackIsDeliverStep(n: Node<PoseData>, msg: Odometry, defaultPose: Matrix4, rotationOf: Quaternion -> Matrix3)
    ensures Step(n, Deliver(msg), m => Convert(m, defaultPose, rotationOf))
         == Node(MsgCallback(n.pending, msg, defaultPose, rotationOf), n.consumer)
  {
  }

  /** The sentinel only looks at the first twist covariance entry: a twist
      covariance whose first entry is zero or negative is never used, even
      when it differs from the pose covariance. */
  lemma NonPositiveLeadingTwistCovarianceIsIgnored(msg: Odometry, defaultPose: Matrix4, rotationOf: Quaternion -> Matrix3)
    requires msg.twist.covariance[0] <= 0.0 && msg.twist.covariance != msg.pose.covariance
    ensures Convert(msg, defaultPose, rotationOf).cov != msg.twist.covariance
  {
  }
}
