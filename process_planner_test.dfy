/** The process planner test node: it keeps the latest joint state, turns a trigger into a
    process-planning request for the toolpath expressed in the world frame, and plays the
    returned plans back on its trajectory publisher.

    ROS transport is modelled directly: a subscription message is a call of JointCallback,
    `async_send_request` appends the request to `sentRequests`, `publish`, `sleep_for` and
    console output append to `output`, and the response of the planning service is a call
    of ProcessPlanCallback. */
module ProcessPlannerTest {
  import opened Messages
  import opened Playback

  /** crs_msgs/ToolProcessPath: the rasters of one process path. */
  datatype ToolProcessPath = ToolProcessPath(rasters: seq<PoseArray>)

  /** crs_msgs/PlanProcessMotions request. */
  datatype PlanRequest = PlanRequest(toolLink: string, toolSpeed: real, approachDist: real, retreatDist: real,
                                     startPosition: JointState, endPosition: JointState, toolOffset: Pose,
                                     processPaths: seq<ToolProcessPath>)

  /** std_srvs/Trigger response. */
  datatype TriggerResponse = TriggerResponse(success: bool, message: string)

  /** What `lookupTransform("world", "part", TimePointZero)` does: return a transform, throw
      tf2::LookupException, or throw one of the other tf2 exceptions, which the service does
      not catch. */
  datatype TfLookup =
    | Found(transform: TransformStamped)
    | LookupFailure(what: string)
    | OtherTfFailure(what: string)

  /** How a service call ends: with a response, or with an exception leaving the handler. */
  datatype ServiceOutcome = Responded(response: TriggerResponse) | Raised(what: string)

  /** The pose a strip pose has in the world frame. `doTransform` is tf2::doTransform with
      the looked-up transform; it is not interpreted. */
  function WorldPose(strip: PoseArray, i: nat, tf: TransformStamped,
                     doTransform: (PoseStamped, TransformStamped) -> PoseStamped): Pose
    requires i < |strip.poses|
  {
    doTransform(PoseStamped(strip.header, strip.poses[i]), tf).pose
  }

  /** `world` is the path `strips` re-expressed in the world frame: same strips in the same
      order, same poses in the same order, each one transformed, and default headers. */
  ghost predicate IsWorldFrame(strips: seq<PoseArray>, tf: TransformStamped,
                               doTransform: (PoseStamped, TransformStamped) -> PoseStamped,
                               world: seq<PoseArray>)
  {
    && |world| == |strips|
    && forall k :: 0 <= k < |world| ==>
         && world[k].header == DefaultHeader
         && |world[k].poses| == |strips[k].poses|
         && forall i :: 0 <= i < |world[k].poses| ==> world[k].poses[i] == WorldPose(strips[k], i, tf, doTransform)
  }

  function ToWorldFrame(strips: seq<PoseArray>, tf: TransformStamped,
                        doTransform: (PoseStamped, TransformStamped) -> PoseStamped): (world: seq<PoseArray>)
    ensures IsWorldFrame(strips, tf, doTransform, world)
  {
    seq(|strips|, k requires 0 <= k < |strips| =>
      PoseArray(DefaultHeader, seq(|strips[k].poses|, i requires 0 <= i < |strips[k].poses| =>
        WorldPose(strips[k], i, tf, doTransform))))
  }

  /** The world-frame path is determined by the input path and the transform. */
  lemma WorldFrameUnique(strips: seq<PoseArray>, tf: TransformStamped,
                         doTransform: (PoseStamped, TransformStamped) -> PoseStamped,
                         w1: seq<PoseArray>, w2: seq<PoseArray>)
    requires IsWorldFrame(strips, tf, doTransform, w1) && IsWorldFrame(strips, tf, doTransform, w2)
    ensures w1 == w2
  {
    forall k | 0 <= k < |w1|
      ensures w1[k] == w2[k]
    {
      assert w1[k].poses == w2[k].poses;
    }
  }

  /** A transform that leaves every pose where it is leaves every strip's poses unchanged. */
  lemma IdentityKeepsPoses(strips: seq<PoseArray>, tf: TransformStamped,
                           doTransform: (PoseStamped, TransformStamped) -> PoseStamped)
    requires forall ps :: doTransform(ps, tf).pose == ps.pose
    ensures |ToWorldFrame(strips, tf, doTransform)| == |strips|
    ensures forall k :: 0 <= k < |strips| ==> ToWorldFrame(strips, tf, doTransform)[k].poses == strips[k].poses
  {
    var world := ToWorldFrame(strips, tf, doTransform);
    forall k | 0 <= k < |strips|
      ensures world[k].poses == strips[k].poses
    {
      forall i | 0 <= i < |strips[k].poses|
        ensures world[k].poses[i] == strips[k].poses[i]
      {
        assert doTransform(PoseStamped(strips[k].header, strips[k].poses[i]), tf).pose == strips[k].poses[i];
      }
    }
  }

  /** Transforming a world-frame path again with an identity transform gives the same path. */
  lemma IdentityIdempotent(strips: seq<PoseArray>, tf: TransformStamped, id: TransformStamped,
                           doTransform: (PoseStamped, TransformStamped) -> PoseStamped)
    requires forall ps :: doTransform(ps, id).pose == ps.pose
    ensures ToWorldFrame(ToWorldFrame(strips, tf, doTransform), id, doTransform) == ToWorldFrame(strips, tf, doTransform)
  {
    var once := ToWorldFrame(strips, tf, doTransform);
    var twice := ToWorldFrame(once, id, doTransform);
    IdentityKeepsPoses(once, id, doTransform);
    forall k | 0 <= k < |once|
      ensures twice[k] == once[k]
    {
      assert twice[k].poses == once[k].poses;
    }
  }

  const ToolLink: string := "sander_center_link"
  const ToolSpeed: real := 0.4
  const ApproachDist: real := 0.05
  const RetreatDist: real := 0.05
  const PublishedMessage: string := "TRAJECTORIES PUBLISHED"
  const TfFailurePrefix: string := "TF lookup failed: "

  /** The fixed request the service fills in for the world-frame rasters and the stored joint state. */
  function ProcessRequest(world: seq<PoseArray>, joints: JointState): PlanRequest
  {
    PlanRequest(ToolLink, ToolSpeed, ApproachDist, RetreatDist, joints, joints, IdentityPose,
                [ToolProcessPath(world)])
  }

  /** Reading the request back gives the tool parameters, the joint snapshot as both start and
      end, the identity offset and exactly one path holding the given rasters. */
  lemma RequestFields(world: seq<PoseArray>, joints: JointState)
    ensures var r := ProcessRequest(world, joints);
            && r.toolLink == "sander_center_link" && r.toolSpeed == 0.4
            && r.approachDist == 0.05 && r.retreatDist == 0.05
            && r.startPosition == joints && r.endPosition == joints
            && r.toolOffset == Pose(Point(0.0, 0.0, 0.0), Quaternion(0.0, 0.0, 0.0, 1.0))
            && |r.processPaths| == 1 && r.processPaths[0].rasters == world
  {
  }

  /** The nested loop of the service that builds `raster_strips_world_frame` with push_back. */
  method TransformStrips(strips: seq<PoseArray>, tf: TransformStamped,
                         doTransform: (PoseStamped, TransformStamped) -> PoseStamped)
    returns (world: seq<PoseArray>)
    ensures IsWorldFrame(strips, tf, doTransform, world)
  {
    world := [];
    var k := 0;
    while k < |strips|
      invariant 0 <= k <= |strips|
      invariant IsWorldFrame(strips[..k], tf, doTransform, world)
    {
      var strip := strips[k];
      var currStrip := PoseArray(DefaultHeader, []);
      var i := 0;
      while i < |strip.poses|
        invariant 0 <= i <= |strip.poses|
        invariant currStrip.header == DefaultHeader && |currStrip.poses| == i
        invariant forall m :: 0 <= m < i ==> currStrip.poses[m] == WorldPose(strip, m, tf, doTransform)
      {
        var surfacePoseWorld := doTransform(PoseStamped(strip.header, strip.poses[i]), tf);
        currStrip := currStrip.(poses := currStrip.poses + [surfacePoseWorld.pose]);
        i := i + 1;
      }
      world := world + [currStrip];
      k := k + 1;
    }
    assert strips[..k] == strips;
  }

  class ProcessPlannerTestServer {
    /** `curr_joint_state_`. */
    var currJointState: JointState
    /** Requests handed to the planning client, oldest first. */
    var sentRequests: seq<PlanRequest>
    /** Everything published, slept and printed, oldest first. */
    var output: seq<Event>

    constructor ()
      ensures currJointState == DefaultJointState && sentRequests == [] && output == []
    {
      currJointState := DefaultJointState;
      sentRequests := [];
      output := [];
    }

    /** Subscription callback on crs/joint_states. */
    method JointCallback(jointMsg: JointState)
      modifies this`currJointState
      ensures currJointState == jointMsg
    {
      currJointState := jointMsg;
    }

    /** The advertised test_process_planner trigger. `rasterStrips` is what parsePathFromFile
        reads from the toolpath file in the "part" frame. */
    method PlanService(rasterStrips: seq<PoseArray>, lookup: TfLookup,
                       doTransform: (PoseStamped, TransformStamped) -> PoseStamped)
      returns (outcome: ServiceOutcome)
      modifies this`sentRequests
      ensures lookup.LookupFailure? ==>
                outcome == Responded(TriggerResponse(false, "TF lookup failed: " + lookup.what))
                && sentRequests == old(sentRequests)
      ensures lookup.OtherTfFailure? ==> outcome == Raised(lookup.what) && sentRequests == old(sentRequests)
      ensures lookup.Found? ==>
                outcome == Responded(TriggerResponse(true, "TRAJECTORIES PUBLISHED"))
                && sentRequests == old(sentRequests)
                   + [ProcessRequest(ToWorldFrame(rasterStrips, lookup.transform, doTransform), currJointState)]
    {
      match lookup {
        case LookupFailure(what) =>
          return Responded(TriggerResponse(false, TfFailurePrefix + what));
        case OtherTfFailure(what) =>
          return Raised(what);
        case Found(worldToGoalFrame) =>
          var world := TransformStrips(rasterStrips, worldToGoalFrame, doTransform);
          WorldFrameUnique(rasterStrips, worldToGoalFrame, doTransform, world,
                           ToWorldFrame(rasterStrips, worldToGoalFrame, doTransform));
          var procReq := ProcessRequest(world, currJointState);
          sentRequests := sentRequests + [procReq];
          return Responded(TriggerResponse(true, PublishedMessage));
      }
    }

    method PublishTrajectory(t: JointTrajectory)
      modifies this`output
      ensures output == old(output) + [Publish(t)]
    {
      output := output + [Publish(t)];
    }

    method SleepFor(seconds: nat)
      modifies this`output
      ensures output == old(output) + [Sleep(seconds)]
    {
      output := output + [Sleep(seconds)];
    }

    method Log(line: ConsoleLine)
      modifies this`output
      ensures output == old(output) + [Print(line)]
    {
      output := output + [Print(line)];
    }

    /** Continuation of the plan request: plays every plan back, in index order. */
    method ProcessPlanCallback(response: PlanResponse)
      requires PlayableResponse(response)
      modifies this`output
      ensures output == old(output) + CallbackEvents(response)
      ensures Schedule(output[|old(output)|..])
              == (if response.succeeded then AllSlots(response.plans, |response.plans|) else [])
    {
      ghost var before := output;
      if response.succeeded {
        PlayPlans(response.plans);
        Log(Text(DoneMessage));
      } else {
        Log(Text(response.errMsg));
      }
      assert output == before + CallbackEvents(response);
      assert output[|before|..] == CallbackEvents(response);
      CallbackSchedule(response);
    }

    /** The callback's loop over plans, in index order. */
    method PlayPlans(processPlans: seq<ProcessMotionPlan>)
      requires forall j :: 0 <= j < |processPlans| ==> Playable(processPlans[j])
      modifies this`output
      ensures output == old(output) + PlansEvents(processPlans, |processPlans|)
    {
      var j := 0;
      while j < |processPlans|
        invariant 0 <= j <= |processPlans|
        invariant output == old(output) + PlansEvents(processPlans, j)
      {
        PlansEventsStep(processPlans, j);
        Assoc(old(output), PlansEvents(processPlans, j), PlanEvents(processPlans[j], j, |processPlans|));
        PlayPlan(processPlans[j], j, |processPlans|);
        j := j + 1;
      }
    }

    /** The body of the callback's loop over plans, for plan `j` of `total`. */
    method PlayPlan(plan: ProcessMotionPlan, j: nat, total: nat)
      requires Playable(plan)
      modifies this`output
      ensures output == old(output) + PlanEvents(plan, j, total)
    {
      Log(Progress(ProcessCaption, j + 1, total));
      ghost var head := output;
      PlayStart(plan);
      PlayPairs(plan);
      PlayFinish(plan);
      assert output == head + StartEvents(plan) + InterleaveEvents(plan, |plan.freeMotions|)
                      + (FinishEvents(plan) + EndEvents(plan));
    }

    /** The start trajectory, when it has points, and the pause after it. */
    method PlayStart(plan: ProcessMotionPlan)
      modifies this`output
      ensures output == old(output) + StartEvents(plan)
    {
      if |plan.start.points| > 0 {
        PublishTrajectory(plan.start);
        SleepFor(|plan.start.points| / 10 + 1);
      }
    }

    /** The last process motion, its pause, and the end trajectory when it has points. */
    method PlayFinish(plan: ProcessMotionPlan)
      requires Playable(plan)
      modifies this`output
      ensures output == old(output) + (FinishEvents(plan) + EndEvents(plan))
    {
      Log(Progress(SurfaceCaption, |plan.processMotions|, |plan.processMotions|));
      PublishTrajectory(plan.processMotions[|plan.processMotions| - 1]);
      SleepFor(2);
      ghost var body := output;
      assert body == old(output) + FinishEvents(plan);
      if |plan.end.points| > 0 {
        PublishTrajectory(plan.end);
      }
      assert output == body + EndEvents(plan);
    }

    /** The callback's inner loop: process[i] then free[i] for every freespace index. */
    method PlayPairs(plan: ProcessMotionPlan)
      requires Playable(plan)
      modifies this`output
      ensures output == old(output) + InterleaveEvents(plan, |plan.freeMotions|)
    {
      var i := 0;
      while i < |plan.freeMotions|
        invariant 0 <= i <= |plan.freeMotions|
        invariant output == old(output) + InterleaveEvents(plan, i)
      {
        ghost var round := output;
        Log(Progress(SurfaceCaption, i + 1, |plan.processMotions|));
        PublishTrajectory(plan.processMotions[i]);
        SleepFor(2);
        Log(Progress(FreespaceCaption, i + 1, |plan.freeMotions|));
        PublishTrajectory(plan.freeMotions[i]);
        SleepFor(|plan.freeMotions[i].points| / 10 + 1);
        assert output == round + PairEvents(plan, i);
        i := i + 1;
      }
    }
  }
}
