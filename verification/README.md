# Odometry subscriber model

A Dafny model of the odometry subscriber of the `lidar_localization` package.
The subscriber receives `nav_msgs/Odometry` messages on the transport's
callback thread, converts each into a `PoseData` sample (time, 4x4 pose
matrix, linear and angular velocity, 36-entry covariance) and appends it to a
mutex-guarded pending buffer. The localization loop calls `ParseData`, which
moves every pending sample, in arrival order, to the tail of the caller's
deque and clears the buffer.

Modules:

- `NavMessages` (`messages.dfy`): the fields of the odometry message the
  callback reads, nested as in the message definition. The two covariance
  arrays are fixed at 36 entries by their type.
- `PoseTypes` (`pose_data.dfy`): the `PoseData` sample, 4x4 and 3x3 matrices,
  and the two writes the callback makes into the pose matrix.
- `SampleBuffer` (`sample_buffer.dfy`): the pending buffer's `Append` and
  `Drain` transitions. Each is atomic under the mutex, so each is one pure
  function. Any interleaving of callback and consumer is a sequence of
  `Deliver`/`Parse` events in lock-acquisition order. `Run` applies such a
  sequence. The lemmas prove that samples are conserved over every run.
- `OdometrySubscriber` (`odometry_subscriber.dfy`): the conversion `Convert`,
  the covariance-source rule and the callback `MsgCallback`.

Numeric fields are exact `real`s. The covariance sentinel test `> 0` and the
component copies are therefore stated exactly.

Facts about the code that shape the model:

- The lock is taken before the conversion (line 24), so the whole callback
  is one critical section and one atomic step of the model.
- Lines 29-31 and line 39 never write the fourth row of the pose matrix, so
  it keeps the default-constructed value (`defaultPose`).
- `q.matrix()` gets the quaternion without normalising it (line 39); the
  `rotationOf` parameter receives it unchanged too.

## Model

| member | source | states |
|---|---|---|
| `PoseTypes.SetTranslation` | lidar_localization/src/subscriber/odometry_subscriber.cpp:29-31 | Entries (0,3), (1,3), (2,3) become x, y, z. The rotation block and the fourth row are unchanged. |
| `PoseTypes.SetRotationBlock` | lidar_localization/src/subscriber/odometry_subscriber.cpp:39 | The top-left 3x3 block becomes the given block. The translation column and the fourth row are unchanged. |
| `OdometrySubscriber.PushEntries` | lidar_localization/src/subscriber/odometry_subscriber.cpp:43-45 | Pushing entries i..35 one by one onto a vector leaves that vector followed by exactly those source entries, in index order. |
| `OdometrySubscriber.CopyCovariance` | lidar_localization/src/subscriber/odometry_subscriber.cpp:42-50 | If twist covariance[0] > 0, the result is the twist covariance. Otherwise it is the pose covariance. All 36 entries are in index order, and the length is exactly 36. |
| `OdometrySubscriber.PoseMatrix` | lidar_localization/src/subscriber/odometry_subscriber.cpp:28-39 | The translation column is the message position. The top-left block is the orientation's rotation matrix. The fourth row keeps the default-constructed value. |
| `OdometrySubscriber.Convert` | lidar_localization/src/subscriber/odometry_subscriber.cpp:25-60 | Time is the header stamp. (0,3), (1,3), (2,3) are the position x, y, z. The rotation block is the orientation's matrix. `v` and `w` are twist linear and angular, component-wise. `cov` has 36 entries and follows the sentinel rule. |
| `OdometrySubscriber.MsgCallback` | lidar_localization/src/subscriber/odometry_subscriber.cpp:22-65 | The pending buffer grows by exactly one. The earlier samples keep their places, and the new tail is the converted message. |
| `OdometrySubscriber.MsgCallbackIsDeliverStep` | lidar_localization/src/subscriber/odometry_subscriber.cpp:22-65 | The callback is the protocol's delivery step, with `Convert` as the conversion. So the run lemmas apply to the subscriber. |
| `OdometrySubscriber.NonPositiveLeadingTwistCovarianceIsIgnored` | lidar_localization/src/subscriber/odometry_subscriber.cpp:42-49 | A twist covariance whose first entry is 0 or negative is never copied, even when it differs from the pose covariance. |
| `SampleBuffer.Append` | lidar_localization/src/subscriber/odometry_subscriber.cpp:62 | The length grows by one. The old contents are a prefix, and the new sample is at the tail. |
| `SampleBuffer.Drain` | lidar_localization/src/subscriber/odometry_subscriber.cpp:67-75 | The target becomes old target followed by old pending, in arrival order. Pending becomes empty. With nothing pending, both are unchanged. |
| `SampleBuffer.DrainTwiceAddsNothing` | lidar_localization/src/subscriber/odometry_subscriber.cpp:69-73 | A second drain right after a first changes nothing, so no sample is delivered twice. |
| `SampleBuffer.AppendThreeThenDrainTwice` | lidar_localization/src/subscriber/odometry_subscriber.cpp:62-73 | Appending a, b, c to an empty buffer and draining gives exactly [a, b, c] and leaves nothing pending. A second drain then changes nothing. |
| `SampleBuffer.Step` | lidar_localization/src/subscriber/odometry_subscriber.cpp:62-73 | A delivery adds its sample after all existing samples and leaves the consumer's deque alone. A parse moves everything to the consumer and leaves nothing pending. |
| `SampleBuffer.RunConservesSamples` | lidar_localization/src/subscriber/odometry_subscriber.cpp:62-73 | After any sequence of callbacks and parses, the consumer deque followed by pending equals the starting contents followed by every delivered sample in delivery order. No sample is lost or duplicated, and order is kept. |
| `SampleBuffer.RunConsumerOnlyGrows` | lidar_localization/src/subscriber/odometry_subscriber.cpp:70-71 | The consumer's deque before a run is a prefix of its deque after it. |
| `SampleBuffer.RunEndingInParseDeliversAll` | lidar_localization/src/subscriber/odometry_subscriber.cpp:67-75 | A run ending with a parse leaves nothing pending. The consumer then holds its starting contents followed by every delivered sample, in order. |
| `SampleBuffer.RunPreservesMultiplicity` | lidar_localization/src/subscriber/odometry_subscriber.cpp:62-73 | Each sample occurs in the consumer deque plus pending exactly as often as it was held at the start or delivered. |

## Left out

- Subscription setup, topic name, queue depth and transport hints (lines 11-20): transport plumbing with no logic of its own.
- The mutex (lines 24, 64, 68, 74): each operation is one atomic transition, and interleavings are modelled as event sequences in lock-acquisition order. Real thread scheduling is not modelled.
- Quaternion to rotation matrix (lines 34-39): a single-precision linear-algebra library call, modelled as the parameter `rotationOf`. Its formula and the double-to-float narrowing of the quaternion are not part of this model.
- Header stamp to seconds (line 26): the ROS time conversion is not modelled. The message carries its stamp already in seconds, and it is copied as is.
- Floating point: all numeric fields are exact reals. The narrowing of doubles into the single-precision pose matrix and velocity vectors, and rounding in general, are not modelled.
- `PoseData` fields and defaults beyond the ones the callback writes: the default-constructed pose matrix is the parameter `defaultPose`, and only its fourth row survives the callback. The covariance vector of a fresh sample is taken to be empty, as a default-constructed vector is.
- The consumer's later use of its deque (popping samples) is outside this model. Runs only ever append to it.
- Unbounded growth of the pending buffer is kept as in the code. Sequences are unbounded, and memory exhaustion is not modelled.
