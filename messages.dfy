/** The ROS messages the modelled code reads and writes (std_msgs, geometry_msgs,
    sensor_msgs, trajectory_msgs), reduced to the fields it touches. */
module Messages {

  /** std_msgs/Header. A default-constructed header has a zero stamp and an empty frame id. */
  datatype Header = Header(stampSec: int, stampNanosec: nat, frameId: string)

  const DefaultHeader: Header := Header(0, 0, "")

  datatype Point = Point(x: real, y: real, z: real)
  datatype Quaternion = Quaternion(x: real, y: real, z: real, w: real)
  datatype Pose = Pose(position: Point, orientation: Quaternion)

  /** The message form of the identity isometry: no translation, unit quaternion. */
  const IdentityPose: Pose := Pose(Point(0.0, 0.0, 0.0), Quaternion(0.0, 0.0, 0.0, 1.0))

  datatype PoseStamped = PoseStamped(header: Header, pose: Pose)

  /** geometry_msgs/PoseArray: one raster strip. */
  datatype PoseArray = PoseArray(header: Header, poses: seq<Pose>)

  datatype TransformStamped = TransformStamped(header: Header, childFrameId: string,
                                               translation: Point, rotation: Quaternion)

  /** sensor_msgs/JointState. */
  datatype JointState = JointState(header: Header, name: seq<string>, position: seq<real>,
                                   velocity: seq<real>, effort: seq<real>)

  const DefaultJointState: JointState := JointState(DefaultHeader, [], [], [], [])

  /** builtin_interfaces/Duration. */
  datatype Duration = Duration(sec: int, nanosec: nat)

  datatype JointTrajectoryPoint = JointTrajectoryPoint(positions: seq<real>, velocities: seq<real>,
                                                       accelerations: seq<real>, timeFromStart: Duration)

  /** trajectory_msgs/JointTrajectory. */
  datatype JointTrajectory = JointTrajectory(header: Header, jointNames: seq<string>,
                                             points: seq<JointTrajectoryPoint>)

  /** The element `back()` returns. */
  function Last<T>(s: seq<T>): T
    requires |s| > 0
  {
    s[|s| - 1]
  }
}
