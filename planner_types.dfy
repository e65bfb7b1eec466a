/** The data of the crs motion planner: its configuration, its results record, the
    foreign planners it calls (as oracles), and the freespace segment that every
    freespace planning step produces. */
module PlannerTypes {
  import opened Wrappers
  import opened Messages

  /** tesseract_motion_planners::JointWaypoint: positions and the joints they belong to. */
  datatype JointWaypoint = JointWaypoint(positions: seq<real>, names: seq<string>)

  /** tesseract_motion_planners::CartesianWaypoint: a goal pose of the tool. */
  datatype CartesianWaypoint = CartesianWaypoint(pose: Pose)

  /** The settings of pathPlanningConfig that the modelled code reads and never writes. */
  datatype PlannerSettings = PlannerSettings(
    rasters: seq<PoseArray>,
    minimumRasterLength: nat,
    addApproachAndRetreat: bool,
    approachDistance: real,
    retreatDistance: real,
    simplifyStartEndFreespace: bool,
    useStart: bool,
    startPose: JointWaypoint,
    useEnd: bool,
    endPose: JointWaypoint,
    useTrajoptFreespace: bool,
    useGazeboSimTiming: bool,
    worldFrame: string,
    /** The joint names of the manipulator's kinematic chain (`kin->getJointNames()`). */
    manipulatorJoints: seq<string>)

  /** pathPlanningConfig, shared by pointer between the planner and its owner. The one
      field the planner writes is `ompl_config.simplify`. */
  class PathPlanningConfig {
    const settings: PlannerSettings
    var omplSimplify: bool

    constructor(settings: PlannerSettings, omplSimplify: bool)
      ensures this.settings == settings && this.omplSimplify == omplSimplify
    {
      this.settings := settings;
      this.omplSimplify := omplSimplify;
    }
  }

  /** pathPlanningResults: the vectors the planner appends to and the failure message.
      `reachableWaypoints` and `unreachableWaypoints` are the pose lists of the two
      PoseArray fields of that name. */
  class PathPlanningResults {
    var reachableWaypoints: seq<Pose>
    var unreachableWaypoints: seq<Pose>
    var skippedRasters: seq<PoseArray>
    var failedRasters: seq<PoseArray>
    var solvedRasters: seq<PoseArray>
    var descartesTrajectoryResults: seq<JointTrajectory>
    var finalRasterTrajectories: seq<JointTrajectory>
    var omplTrajectories: seq<JointTrajectory>
    var finalFreespaceTrajectories: seq<JointTrajectory>
    var omplStartEndTrajectories: seq<JointTrajectory>
    var finalStartEndTrajectories: seq<JointTrajectory>
    var finalTrajectories: seq<JointTrajectory>
    var msgOut: string

    /** A default-constructed results record: every vector empty, no message. */
    constructor()
      ensures reachableWaypoints == [] && unreachableWaypoints == [] && skippedRasters == []
      ensures failedRasters == [] && solvedRasters == [] && descartesTrajectoryResults == []
      ensures finalRasterTrajectories == [] && omplTrajectories == [] && finalFreespaceTrajectories == []
      ensures omplStartEndTrajectories == [] && finalStartEndTrajectories == [] && finalTrajectories == []
      ensures msgOut == ""
    {
      reachableWaypoints, unreachableWaypoints, skippedRasters := [], [], [];
      failedRasters, solvedRasters, descartesTrajectoryResults := [], [], [];
      finalRasterTrajectories, omplTrajectories, finalFreespaceTrajectories := [], [], [];
      omplStartEndTrajectories, finalStartEndTrajectories, finalTrajectories := [], [], [];
      msgOut := "";
    }
  }

  /** generateDescartesSeed: a joint trajectory through every pose of the strip, or the
      indices of the vertices the graph builder could not sample (empty when the graph was
      built but the search failed). */
  datatype DescartesOutcome = Seeded(trajectory: JointTrajectory) | Unreachable(failedVertices: seq<nat>)

  /** cleanRasterStrip: the reachable pieces of a strip and the poses that were dropped. */
  datatype CleanedStrip = CleanedStrip(splits: seq<PoseArray>, failedVertexPoses: seq<Pose>)

  /** What the surface stage after routing (Descartes round 3, surface TrajOpt and time
      stamping) adds to the results: appended descartes results, skipped, failed and solved
      rasters, and the final raster trajectories it assigns. */
  datatype SurfaceRefinement = SurfaceRefinement(descartesResults: seq<JointTrajectory>,
                                                 skipped: seq<PoseArray>, failed: seq<PoseArray>,
                                                 solved: seq<PoseArray>, finalRasters: seq<JointTrajectory>)

  /** The foreign computations the planner depends on. Each receives the settings it
      reads, so a different configuration may give a different answer. */
  datatype Oracles = Oracles(
    /** generateDescartesSeed (Descartes graph build and search). */
    descartesSeed: (PlannerSettings, PoseArray) -> DescartesOutcome,
    /** crs_motion_planning::cleanRasterStrip. */
    cleanRasterStrip: (PoseArray, seq<nat>) -> CleanedStrip,
    /** crs_motion_planning::addApproachAndRetreat with the given distances. */
    addApproachAndRetreat: (PoseArray, real, real) -> PoseArray,
    /** Lines 193-399 of generateSurfacePlans, given the routed trajectories and rasters. */
    refineSurface: (PlannerSettings, seq<JointTrajectory>, seq<PoseArray>) -> SurfaceRefinement,
    /** generateOMPLSeed followed by the conversion to a message; the flag is the
        `ompl_config.simplify` in force at the call. */
    omplSeed: (PlannerSettings, bool, JointWaypoint, JointWaypoint) -> Option<JointTrajectory>,
    /** trajoptFreespaceFromOMPL, given the OMPL seed. */
    trajoptFreespace: (PlannerSettings, JointWaypoint, JointWaypoint, JointTrajectory) -> Option<JointTrajectory>,
    /** The Cartesian point sampler: joint solutions for a goal pose, concatenated. */
    sampleGoal: (PlannerSettings, Pose) -> seq<real>,
    /** JointWaypoint::getPositions reordered to the given joint names. */
    orderedPositions: (JointWaypoint, seq<string>) -> seq<real>,
    /** The Euclidean norm of the difference of two joint vectors. */
    jointDistance: (seq<real>, seq<real>) -> real)

  const SeedFailureMsg: string := "Failed to generate ompl seed"
  const TrajoptFailureMsg: string := "Failed to perform trajopt on first freespace motion"
  const SurfaceFailureMsg: string := "Failed to create surface plans"

  /** The time stamp gazebo timing gives every freespace point: 0 s and 1e8 ns. */
  const GazeboStep: Duration := Duration(0, 100000000)

  /** The waypoint at the first point of a trajectory. */
  function Entry(t: JointTrajectory): JointWaypoint
    requires |t.points| > 0
  {
    JointWaypoint(t.points[0].positions, t.jointNames)
  }

  /** The waypoint at the last point of a trajectory. */
  function Exit(t: JointTrajectory): JointWaypoint
    requires |t.points| > 0
  {
    JointWaypoint(Last(t.points).positions, t.jointNames)
  }

  function WithFrame(t: JointTrajectory, frame: string): (r: JointTrajectory)
    ensures r.header.frameId == frame && r.jointNames == t.jointNames && r.points == t.points
  {
    t.(header := t.header.(frameId := frame))
  }

  /** The trajectory with every point re-stamped for gazebo: same points otherwise. */
  function SimTimed(t: JointTrajectory): (r: JointTrajectory)
    ensures r.header == t.header && r.jointNames == t.jointNames
    ensures |r.points| == |t.points|
    ensures forall i :: 0 <= i < |r.points| ==>
              r.points[i] == t.points[i].(timeFromStart := GazeboStep)
  {
    t.(points := seq(|t.points|, i requires 0 <= i < |t.points| => t.points[i].(timeFromStart := GazeboStep)))
  }

  /** How one freespace planning step ends. */
  datatype Segment =
    | SeedFailed
    | TrajoptFailed
    | Planned(ompl: JointTrajectory, final: JointTrajectory)

  /** What follows a successful OMPL seed: the seed in the world frame, and the final
      trajectory, which is the seed itself without TrajOpt, or the TrajOpt result in the
      world frame, re-stamped when gazebo timing is on. */
  function AfterSeed(s: PlannerSettings, o: Oracles, from: JointWaypoint, to: JointWaypoint,
                     seed: JointTrajectory): Segment
  {
    var ompl := WithFrame(seed, s.worldFrame);
    if !s.useTrajoptFreespace then Planned(ompl, ompl)
    else match o.trajoptFreespace(s, from, to, seed)
      case None => TrajoptFailed
      case Some(t) =>
        var framed := WithFrame(t, s.worldFrame);
        Planned(ompl, if s.useGazeboSimTiming then SimTimed(framed) else framed)
  }

  /** One freespace planning step from `from` to `to` with the given simplify flag. */
  function PlanSegment(s: PlannerSettings, simplify: bool, o: Oracles,
                       from: JointWaypoint, to: JointWaypoint): Segment
  {
    match o.omplSeed(s, simplify, from, to)
    case None => SeedFailed
    case Some(seed) => AfterSeed(s, o, from, to, seed)
  }

  /** A freespace step fails at the seed exactly when OMPL finds none, fails at TrajOpt
      only when TrajOpt is used and finds nothing, and otherwise gives a world-frame OMPL
      trajectory and a world-frame final trajectory that is the OMPL one without TrajOpt,
      and otherwise has TrajOpt's points unchanged, or each re-stamped to the gazebo step
      under gazebo timing. */
  lemma PlanSegmentCases(s: PlannerSettings, simplify: bool, o: Oracles, from: JointWaypoint, to: JointWaypoint)
    ensures PlanSegment(s, simplify, o, from, to).SeedFailed? <==> o.omplSeed(s, simplify, from, to).None?
    ensures PlanSegment(s, simplify, o, from, to).TrajoptFailed? <==>
              o.omplSeed(s, simplify, from, to).Some? && s.useTrajoptFreespace
              && o.trajoptFreespace(s, from, to, o.omplSeed(s, simplify, from, to).value).None?
    ensures PlanSegment(s, simplify, o, from, to).Planned? ==>
              var seg := PlanSegment(s, simplify, o, from, to);
              var seed := o.omplSeed(s, simplify, from, to).value;
              && seg.ompl.header.frameId == s.worldFrame && seg.ompl.points == seed.points
              && seg.final.header.frameId == s.worldFrame
              && (!s.useTrajoptFreespace ==> seg.final == seg.ompl)
              && (s.useTrajoptFreespace ==>
                    var t := o.trajoptFreespace(s, from, to, seed).value;
                    && seg.final.jointNames == t.jointNames
                    && |seg.final.points| == |t.points|
                    && forall i :: 0 <= i < |t.points| ==>
                         seg.final.points[i]
                         == (if s.useGazeboSimTiming then t.points[i].(timeFromStart := GazeboStep) else t.points[i]))
  {
  }
}
