/** crsMotionPlanner (path_planning_utils.cpp): the strip routing of generateSurfacePlans,
    generateFreespacePlans, generateProcessPlan and both generateFreespacePlan overloads,
    as methods of a planner that holds the shared configuration and updates the results
    record in place. Each method is proved against the functions of SurfaceRouting,
    FreespaceAssembly, PlannerTypes and GoalSelection. */
module PathPlanningUtils {
  import opened Wrappers
  import opened Messages
  import opened PlannerTypes
  import opened SurfaceRouting
  import opened FreespaceAssembly
  import opened GoalSelection

  /** The routing state held by the results record and the loop's local vectors. */
  function RoutingOf(results: PathPlanningResults, splitTraj: seq<JointTrajectory>,
                     splitRasters: seq<PoseArray>, anySuccesses: bool): Routing
    reads results
  {
    Routing(results.reachableWaypoints, results.unreachableWaypoints, results.skippedRasters,
            splitTraj, splitRasters, anySuccesses)
  }

  /** The five vectors generateFreespacePlans appends to. */
  function OutOf(results: PathPlanningResults): Appended
    reads results
  {
    Appended(results.finalTrajectories, results.finalFreespaceTrajectories, results.omplTrajectories,
             results.finalStartEndTrajectories, results.omplStartEndTrajectories)
  }

  /** The gazebo time override (lines 538-546, 592-600, 647-655, 709-717): every point's
      time from start becomes 0 s and 1e8 ns, point by point. */
  method OverrideTimes(t: JointTrajectory) returns (r: JointTrajectory)
    ensures r == SimTimed(t)
  {
    r := t;
    var i := 0;
    while i < |r.points|
      invariant 0 <= i <= |r.points| == |t.points|
      invariant r.header == t.header && r.jointNames == t.jointNames
      invariant forall k :: 0 <= k < i ==> r.points[k] == t.points[k].(timeFromStart := GazeboStep)
      invariant forall k :: i <= k < |r.points| ==> r.points[k] == t.points[k]
    {
      var p := r.points[i];
      p := p.(timeFromStart := p.timeFromStart.(sec := 0));
      p := p.(timeFromStart := p.timeFromStart.(nanosec := 100000000));
      r := r.(points := r.points[i := p]);
      i := i + 1;
    }
    assert r.points == SimTimed(t).points;
  }

  class CrsMotionPlanner {
    var config: PathPlanningConfig
    const oracles: Oracles

    constructor(config: PathPlanningConfig, oracles: Oracles)
      ensures this.config == config && this.oracles == oracles
    {
      this.config := config;
      this.oracles := oracles;
    }

    /** updateConfiguration (line 8): the planner now shares the given configuration. */
    method UpdateConfiguration(config: PathPlanningConfig)
      modifies this`config
      ensures this.config == config
    {
      this.config := config;
    }

    // -------------------------------------------------------------------------
    // generateSurfacePlans

    /** The second Descartes round for one strip or piece (lines 123-153 and 158-186). */
    method RouteAttempt(results: PathPlanningResults, strip: PoseArray, splitTraj: seq<JointTrajectory>,
                        splitRasters: seq<PoseArray>, anySuccesses: bool)
      returns (splitTraj': seq<JointTrajectory>, splitRasters': seq<PoseArray>, anySuccesses': bool)
      modifies results`reachableWaypoints, results`unreachableWaypoints
      ensures RoutingOf(results, splitTraj', splitRasters', anySuccesses')
              == Attempt(config.settings, oracles, strip, old(RoutingOf(results, splitTraj, splitRasters, anySuccesses)))
    {
      var s := config.settings;
      var stripAr := if s.addApproachAndRetreat then oracles.addApproachAndRetreat(strip, s.approachDistance, s.retreatDistance)
                     else strip;
      results.reachableWaypoints := results.reachableWaypoints + strip.poses;
      match oracles.descartesSeed(s, stripAr) {
        case Seeded(t) =>
          splitTraj', splitRasters', anySuccesses' := splitTraj + [t], splitRasters + [stripAr], true;
        case Unreachable(_) =>
          results.unreachableWaypoints := results.unreachableWaypoints + stripAr.poses;
          splitTraj', splitRasters', anySuccesses' := splitTraj, splitRasters, anySuccesses;
      }
    }

    /** The loop over the pieces of a cleaned strip (lines 120-149). */
    method RoutePieces(results: PathPlanningResults, splits: seq<PoseArray>, splitTraj: seq<JointTrajectory>,
                       splitRasters: seq<PoseArray>, anySuccesses: bool)
      returns (splitTraj': seq<JointTrajectory>, splitRasters': seq<PoseArray>, anySuccesses': bool)
      modifies results`reachableWaypoints, results`unreachableWaypoints, results`skippedRasters
      ensures RoutingOf(results, splitTraj', splitRasters', anySuccesses')
              == RouteSplits(config.settings, oracles, splits, old(RoutingOf(results, splitTraj, splitRasters, anySuccesses)))
    {
      ghost var start := RoutingOf(results, splitTraj, splitRasters, anySuccesses);
      splitTraj', splitRasters', anySuccesses' := splitTraj, splitRasters, anySuccesses;
      var m := 0;
      while m < |splits|
        invariant 0 <= m <= |splits|
        invariant RoutingOf(results, splitTraj', splitRasters', anySuccesses')
                  == RouteSplits(config.settings, oracles, splits[..m], start)
      {
        var splitStrip := splits[m];
        if |splitStrip.poses| >= config.settings.minimumRasterLength {
          splitTraj', splitRasters', anySuccesses' := RouteAttempt(results, splitStrip, splitTraj', splitRasters', anySuccesses');
        } else {
          results.skippedRasters := results.skippedRasters + [splitStrip];
        }
        assert splits[..m + 1][..m] == splits[..m];
        m := m + 1;
      }
      assert splits[..|splits|] == splits;
    }

    /** The loop over the strips (lines 100-188). */
    method RouteAll(results: PathPlanningResults)
      returns (splitTraj: seq<JointTrajectory>, splitRasters: seq<PoseArray>, anySuccesses: bool)
      modifies results`reachableWaypoints, results`unreachableWaypoints, results`skippedRasters
      ensures RoutingOf(results, splitTraj, splitRasters, anySuccesses)
              == RouteStrips(config.settings, oracles, config.settings.rasters,
                             Initial(old(results.reachableWaypoints), old(results.unreachableWaypoints),
                                     old(results.skippedRasters)))
    {
      var rasterStrips := config.settings.rasters;
      ghost var init := Initial(results.reachableWaypoints, results.unreachableWaypoints, results.skippedRasters);
      splitTraj, splitRasters, anySuccesses := [], [], false;
      var k := 0;
      while k < |rasterStrips|
        invariant 0 <= k <= |rasterStrips|
        invariant RoutingOf(results, splitTraj, splitRasters, anySuccesses)
                  == RouteStrips(config.settings, oracles, rasterStrips[..k], init)
      {
        var strip := rasterStrips[k];
        match oracles.descartesSeed(config.settings, strip) {
          case Unreachable(failedVertices) =>
            var cleaned := oracles.cleanRasterStrip(strip, failedVertices);
            results.unreachableWaypoints := results.unreachableWaypoints + cleaned.failedVertexPoses;
            splitTraj, splitRasters, anySuccesses := RoutePieces(results, cleaned.splits, splitTraj, splitRasters, anySuccesses);
          case Seeded(_) =>
            splitTraj, splitRasters, anySuccesses := RouteAttempt(results, strip, splitTraj, splitRasters, anySuccesses);
        }
        assert rasterStrips[..k + 1][..k] == rasterStrips[..k];
        k := k + 1;
      }
      assert rasterStrips[..|rasterStrips|] == rasterStrips;
    }

    /** generateSurfacePlans: routing appends to the reachable, unreachable and skipped
        vectors as RouteStrips says; when something was kept, the later surface stages
        append their descartes results, skipped, failed and solved rasters and set the
        final raster trajectories, and the call succeeds; otherwise it fails with the
        surface failure message (lines 401-405). */
    method GenerateSurfacePlans(results: PathPlanningResults) returns (ok: bool)
      modifies results`reachableWaypoints, results`unreachableWaypoints, results`skippedRasters,
               results`descartesTrajectoryResults, results`failedRasters, results`solvedRasters,
               results`finalRasterTrajectories, results`msgOut
      ensures var s := config.settings;
              var routed := RouteStrips(s, oracles, s.rasters,
                                        Initial(old(results.reachableWaypoints), old(results.unreachableWaypoints),
                                                old(results.skippedRasters)));
              var refined := oracles.refineSurface(s, routed.splitTraj, routed.splitRasters);
              && ok == routed.anySuccesses
              && results.reachableWaypoints == routed.reachable
              && results.unreachableWaypoints == routed.unreachable
              && results.skippedRasters == routed.skipped + (if ok then refined.skipped else [])
              && results.descartesTrajectoryResults
                 == old(results.descartesTrajectoryResults) + (if ok then refined.descartesResults else [])
              && results.failedRasters == old(results.failedRasters) + (if ok then refined.failed else [])
              && results.solvedRasters == old(results.solvedRasters) + (if ok then refined.solved else [])
              && results.finalRasterTrajectories
                 == (if ok then refined.finalRasters else old(results.finalRasterTrajectories))
              && results.msgOut == (if ok then old(results.msgOut) else SurfaceFailureMsg)
    {
      var splitTraj, splitRasters, anySuccesses := RouteAll(results);
      if anySuccesses {
        var refined := oracles.refineSurface(config.settings, splitTraj, splitRasters);
        results.descartesTrajectoryResults := results.descartesTrajectoryResults + refined.descartesResults;
        results.skippedRasters := results.skippedRasters + refined.skipped;
        results.failedRasters := results.failedRasters + refined.failed;
        results.solvedRasters := results.solvedRasters + refined.solved;
        results.finalRasterTrajectories := refined.finalRasters;
        ok := true;
      } else {
        results.msgOut := SurfaceFailureMsg;
        ok := false;
      }
    }

    // -------------------------------------------------------------------------
    // Freespace planning

    /** What follows a successful OMPL seed (lines 523-551, 577-606, 632-660, 693-722). */
    method FinishSegment(from: JointWaypoint, to: JointWaypoint, seed: JointTrajectory) returns (seg: Segment)
      ensures seg == AfterSeed(config.settings, oracles, from, to, seed)
    {
      var s := config.settings;
      var omplTraj := seed.(header := seed.header.(frameId := s.worldFrame));
      if s.useTrajoptFreespace {
        match oracles.trajoptFreespace(s, from, to, seed) {
          case None =>
            return TrajoptFailed;
          case Some(t) =>
            var curr := t.(header := t.header.(frameId := s.worldFrame));
            if s.useGazeboSimTiming {
              curr := OverrideTimes(curr);
            }
            return Planned(omplTraj, curr);
        }
      } else {
        return Planned(omplTraj, omplTraj);
      }
    }

    /** One freespace step with the flag in force: the OMPL seed, then what follows it. */
    method PlanStep(from: JointWaypoint, to: JointWaypoint) returns (seg: Segment)
      ensures seg == PlanSegment(config.settings, config.omplSimplify, oracles, from, to)
    {
      var seed := oracles.omplSeed(config.settings, config.omplSimplify, from, to);
      if seed.None? {
        return SeedFailed;
      }
      seg := FinishSegment(from, to, seed.value);
    }

    /** The start or end block of generateFreespacePlans (lines 508-556 and 617-665):
        the flag is set to `simplify_start_end_freespace` for the seed and restored only
        after a seed was found; a planned step is stored in the start/end and final vectors. */
    method BoundaryStep(results: PathPlanningResults, from: JointWaypoint, to: JointWaypoint) returns (ok: bool)
      modifies results`finalTrajectories, results`finalStartEndTrajectories, results`omplStartEndTrajectories,
               results`msgOut, config`omplSimplify
      ensures var s := config.settings;
              var run := BoundaryRun(Some(PlanSegment(s, s.simplifyStartEndFreespace, oracles, from, to)),
                                     old(config.omplSimplify), s.simplifyStartEndFreespace, old(OutOf(results)));
              && ok == run.ok && OutOf(results) == run.out && config.omplSimplify == run.simplify
              && results.msgOut == (if ok then old(results.msgOut) else run.msg)
              && results.finalFreespaceTrajectories == old(results.finalFreespaceTrajectories)
              && results.omplTrajectories == old(results.omplTrajectories)
    {
      var s := config.settings;
      var omplSimplify := config.omplSimplify;
      config.omplSimplify := s.simplifyStartEndFreespace;
      var seed := oracles.omplSeed(s, config.omplSimplify, from, to);
      if seed.None? {
        results.msgOut := SeedFailureMsg;
        return false;
      }
      config.omplSimplify := omplSimplify;
      var seg := FinishSegment(from, to, seed.value);
      if !seg.Planned? {
        results.msgOut := TrajoptFailureMsg;
        return false;
      }
      results.omplStartEndTrajectories := results.omplStartEndTrajectories + [seg.ompl];
      results.finalStartEndTrajectories := results.finalStartEndTrajectories + [seg.final];
      results.finalTrajectories := results.finalTrajectories + [seg.final];
      return true;
    }

    /** A planned interior step is stored, then the raster it leads to (lines 607-612). */
    method StoreInterior(results: PathPlanningResults, seg: Segment, raster: JointTrajectory)
      requires seg.Planned?
      modifies results`finalTrajectories, results`finalFreespaceTrajectories, results`omplTrajectories
      ensures OutOf(results) == old(OutOf(results)).(finals := old(results.finalTrajectories) + [seg.final, raster],
                                                     freespace := old(results.finalFreespaceTrajectories) + [seg.final],
                                                     ompl := old(results.omplTrajectories) + [seg.ompl])
    {
      results.omplTrajectories := results.omplTrajectories + [seg.ompl];
      results.finalFreespaceTrajectories := results.finalFreespaceTrajectories + [seg.final];
      results.finalTrajectories := results.finalTrajectories + [seg.final];
      results.finalTrajectories := results.finalTrajectories + [raster];
    }

    /** The loop between neighbouring rasters (lines 560-613), from the state after raster 0
        was stored: it runs as InteriorRun over the interior steps. */
    method InteriorSteps(results: PathPlanningResults, ghost segs: seq<Segment>, ghost base: Appended) returns (ok: bool)
      requires |segs| == |results.finalRasterTrajectories| - 1
      requires forall j {:trigger InteriorSegment(config.settings, config.omplSimplify, oracles, results.finalRasterTrajectories, j)} ::
                 0 <= j < |segs| ==>
                 segs[j] == InteriorSegment(config.settings, config.omplSimplify, oracles, results.finalRasterTrajectories, j)
      requires ReadableFrom(config.settings, results.finalRasterTrajectories, segs, 0)
      requires OutOf(results) == base
      modifies results`finalTrajectories, results`finalFreespaceTrajectories, results`omplTrajectories,
               results`msgOut
      ensures var run := InteriorRun(results.finalRasterTrajectories, segs, |segs|, base, config.omplSimplify);
              && ok == run.ok && OutOf(results) == run.out
              && results.msgOut == (if ok then old(results.msgOut) else run.msg)
      ensures ok ==> ReadableFrom(config.settings, results.finalRasterTrajectories, segs, |segs|)
    {
      var rasters := results.finalRasterTrajectories;
      var i := 0;
      while i < |rasters| - 1
        invariant 0 <= i <= |rasters| - 1
        invariant InteriorRun(rasters, segs, i, base, config.omplSimplify) == Run(true, "", OutOf(results), config.omplSimplify)
        invariant results.msgOut == old(results.msgOut)
        invariant ReadableFrom(config.settings, rasters, segs, i)
      {
        ok := InteriorRound(results, segs, base, i);
        if !ok {
          InteriorStays(rasters, segs, i + 1, |segs|, base, config.omplSimplify);
          return;
        }
        i := i + 1;
      }
      assert i == |segs|;
      return true;
    }

    /** Round `i` of the loop between neighbouring rasters (lines 562-612). */
    method InteriorRound(results: PathPlanningResults, ghost segs: seq<Segment>, ghost base: Appended, i: nat)
      returns (ok: bool)
      requires i < |segs| == |results.finalRasterTrajectories| - 1
      requires segs[i] == InteriorSegment(config.settings, config.omplSimplify, oracles, results.finalRasterTrajectories, i)
      requires ReadableFrom(config.settings, results.finalRasterTrajectories, segs, i)
      requires InteriorRun(results.finalRasterTrajectories, segs, i, base, config.omplSimplify)
               == Run(true, "", OutOf(results), config.omplSimplify)
      modifies results`finalTrajectories, results`finalFreespaceTrajectories, results`omplTrajectories,
               results`msgOut
      ensures var run := InteriorRun(results.finalRasterTrajectories, segs, i + 1, base, config.omplSimplify);
              && ok == run.ok && OutOf(results) == run.out
              && results.msgOut == (if ok then old(results.msgOut) else run.msg)
    {
      var rasters := results.finalRasterTrajectories;
      var seg := PlanStep(Exit(rasters[i]), Entry(rasters[i + 1]));
      if !seg.Planned? {
        results.msgOut := FailureMsg(seg);
        return false;
      }
      StoreInterior(results, seg, rasters[i + 1]);
      return true;
    }

    /** generateFreespacePlans (lines 504-668): the five vectors gain what FreespaceRun
        appends for the configured steps and the flag the call started with, the failure
        message is that of the first failed step, and the flag is left as the run leaves it. */
    method GenerateFreespacePlans(results: PathPlanningResults) returns (ok: bool)
      requires !Faults(config.settings, config.omplSimplify, oracles, results.finalRasterTrajectories)
      modifies results`finalTrajectories, results`finalFreespaceTrajectories, results`omplTrajectories,
               results`finalStartEndTrajectories, results`omplStartEndTrajectories, results`msgOut,
               config`omplSimplify
      ensures var run := FreespaceRun(config.settings, old(config.omplSimplify), oracles, results.finalRasterTrajectories);
              && ok == run.ok && OutOf(results) == Plus(old(OutOf(results)), run.out)
              && results.msgOut == (if ok then old(results.msgOut) else run.msg)
              && config.omplSimplify == run.simplify
    {
      var s := config.settings;
      ghost var st := StepsOf(s, config.omplSimplify, oracles, results.finalRasterTrajectories);
      AssembleAfter(results.finalRasterTrajectories, st, config.omplSimplify, s.simplifyStartEndFreespace, OutOf(results));
      if s.useStart {
        ok := BoundaryStep(results, s.startPose, Entry(results.finalRasterTrajectories[0]));
        if !ok {
          return;
        }
      }
      ok := RastersAndEnd(results, st);
    }

    /** Lines 557-666 of generateFreespacePlans: raster 0, the interior loop and the end
        block, as AfterStart says. */
    method RastersAndEnd(results: PathPlanningResults, ghost st: Steps) returns (ok: bool)
      requires |results.finalRasterTrajectories| > 0
      requires st == StepsOf(config.settings, config.omplSimplify, oracles, results.finalRasterTrajectories)
      requires ReadableFrom(config.settings, results.finalRasterTrajectories, st.interior, 0)
      modifies results`finalTrajectories, results`finalFreespaceTrajectories, results`omplTrajectories,
               results`finalStartEndTrajectories, results`omplStartEndTrajectories, results`msgOut,
               config`omplSimplify
      ensures var run := AfterStart(results.finalRasterTrajectories, st, old(config.omplSimplify),
                                    config.settings.simplifyStartEndFreespace, old(OutOf(results)));
              && ok == run.ok && OutOf(results) == run.out
              && results.msgOut == (if ok then old(results.msgOut) else run.msg)
              && config.omplSimplify == run.simplify
    {
      var s := config.settings;
      var rasters := results.finalRasterTrajectories;
      results.finalTrajectories := results.finalTrajectories + [rasters[0]];
      ghost var first := OutOf(results);
      ok := InteriorSteps(results, st.interior, first);
      InteriorKeepsFlag(rasters, st.interior, |st.interior|, first, config.omplSimplify);
      if !ok {
        return;
      }
      if s.useEnd {
        ok := BoundaryStep(results, Exit(Last(rasters)), s.endPose);
      } else {
        ok := true;
      }
    }

    /** generateProcessPlan (lines 670-683), with the guard the freespace stage needs: the
        surface stage runs first; when it fails, so does the call; when it succeeds with
        raster trajectories on which the freespace stage would read outside a vector
        (Faults), the call fails and nothing else changes; otherwise the call is the
        freespace stage's. */
    method GenerateProcessPlan(results: PathPlanningResults) returns (ok: bool)
      modifies results`reachableWaypoints, results`unreachableWaypoints, results`skippedRasters,
               results`descartesTrajectoryResults, results`failedRasters, results`solvedRasters,
               results`finalRasterTrajectories, results`msgOut,
               results`finalTrajectories, results`finalFreespaceTrajectories, results`omplTrajectories,
               results`finalStartEndTrajectories, results`omplStartEndTrajectories,
               config`omplSimplify
      ensures var s := config.settings;
              var routed := RouteStrips(s, oracles, s.rasters,
                                        Initial(old(results.reachableWaypoints), old(results.unreachableWaypoints),
                                                old(results.skippedRasters)));
              var refined := oracles.refineSurface(s, routed.splitTraj, routed.splitRasters);
              && results.reachableWaypoints == routed.reachable
              && results.unreachableWaypoints == routed.unreachable
              && results.skippedRasters == routed.skipped + (if routed.anySuccesses then refined.skipped else [])
              && results.descartesTrajectoryResults
                 == old(results.descartesTrajectoryResults) + (if routed.anySuccesses then refined.descartesResults else [])
              && results.failedRasters == old(results.failedRasters) + (if routed.anySuccesses then refined.failed else [])
              && results.solvedRasters == old(results.solvedRasters) + (if routed.anySuccesses then refined.solved else [])
              && results.finalRasterTrajectories
                 == (if routed.anySuccesses then refined.finalRasters else old(results.finalRasterTrajectories))
              && (!routed.anySuccesses ==>
                    && !ok && results.msgOut == SurfaceFailureMsg
                    && OutOf(results) == old(OutOf(results)) && config.omplSimplify == old(config.omplSimplify))
              && (routed.anySuccesses && Faults(s, old(config.omplSimplify), oracles, refined.finalRasters) ==>
                    && !ok && results.msgOut == old(results.msgOut)
                    && OutOf(results) == old(OutOf(results)) && config.omplSimplify == old(config.omplSimplify))
              && (routed.anySuccesses && !Faults(s, old(config.omplSimplify), oracles, refined.finalRasters) ==>
                    var run := FreespaceRun(s, old(config.omplSimplify), oracles, refined.finalRasters);
                    && ok == run.ok && OutOf(results) == Plus(old(OutOf(results)), run.out)
                    && results.msgOut == (if ok then old(results.msgOut) else run.msg)
                    && config.omplSimplify == run.simplify)
    {
      var successPath := GenerateSurfacePlans(results);
      if !successPath {
        return false;
      }
      if Faults(config.settings, config.omplSimplify, oracles, results.finalRasterTrajectories) {
        return false;
      }
      ok := GenerateFreespacePlans(results);
    }

    // -------------------------------------------------------------------------
    // Single freespace plans

    /** generateFreespacePlan between joint waypoints (lines 685-725): it succeeds exactly
        when the step with the flag in force is planned, and then gives its final
        trajectory; on failure the caller's trajectory is left as it was. */
    method GenerateFreespacePlan(start: JointWaypoint, end: JointWaypoint, trajectory: JointTrajectory)
      returns (ok: bool, r: JointTrajectory)
      ensures var seg := PlanSegment(config.settings, config.omplSimplify, oracles, start, end);
              && ok == seg.Planned?
              && r == (if ok then seg.final else trajectory)
    {
      var seg := PlanStep(start, end);
      if !seg.Planned? {
        return false, trajectory;
      }
      return true, seg.final;
    }

    /** generateFreespacePlan to a Cartesian goal (lines 727-797): no sampled solution
        fails the call; otherwise the goal is the last solution nearest the start within
        the sentinel distance (the start positions when there is none), and the call is the
        joint-waypoint plan to it. */
    method GenerateFreespacePlanToCartesian(start: JointWaypoint, end: CartesianWaypoint, trajectory: JointTrajectory)
      returns (ok: bool, r: JointTrajectory)
      requires Readable(oracles.sampleGoal(config.settings, end.pose), |start.names|)
      ensures var s := config.settings;
              var soln := oracles.sampleGoal(s, end.pose);
              var jNum := |start.names|;
              var startEig := oracles.orderedPositions(start, s.manipulatorJoints);
              var goal := JointWaypoint(GoalPositions(oracles.jointDistance, soln, jNum, startEig), s.manipulatorJoints);
              var seg := PlanSegment(s, config.omplSimplify, oracles, start, goal);
              if SolutionCount(soln, jNum) < 1 then !ok && r == trajectory
              else ok == seg.Planned? && r == (if ok then seg.final else trajectory)
    {
      var s := config.settings;
      var solnSet := oracles.sampleGoal(s, end.pose);
      var jNum := |start.names|;
      var numSols := |solnSet| / jNum;
      if numSols < 1 {
        return false, trajectory;
      }
      var startEig := oracles.orderedPositions(start, s.manipulatorJoints);
      var minJDist := NoSolutionDistance;
      var endEig := startEig;
      ghost var d := Distances(oracles.jointDistance, solnSet, jNum, startEig);
      ghost var choice: Option<nat> := None;
      var i := 0;
      while i < numSols
        invariant 0 <= i <= numSols
        invariant IsGoalChoice(d[..i], choice)
        invariant choice.Some? ==> choice.value < i
        invariant minJDist == (if choice.Some? then d[choice.value] else NoSolutionDistance)
        invariant endEig == (if choice.Some? then Candidate(solnSet, jNum, choice.value) else startEig)
      {
        CandidateInBounds(solnSet, jNum, i);
        var currSol := solnSet[i * jNum .. i * jNum + 6];
        var jDist := oracles.jointDistance(currSol, startEig);
        assert currSol == Candidate(solnSet, jNum, i) && jDist == d[i];
        ChoiceStep(d, i, choice, minJDist);
        if jDist <= minJDist {
          minJDist := jDist;
          endEig := currSol;
          choice := Some(i);
        }
        i := i + 1;
      }
      assert d[..numSols] == d;
      GoalIndexIsGoalChoice(d);
      var goalWaypoint := JointWaypoint(endEig, s.manipulatorJoints);
      ok, r := GenerateFreespacePlan(start, goalWaypoint, trajectory);
    }
  }

  // ---------------------------------------------------------------------------
  // Proof steps of the planner's methods

  /** One turn of the argmin loop keeps IsGoalChoice. */
  lemma ChoiceStep(d: seq<real>, i: nat, choice: Option<nat>, minD: real)
    requires i < |d| && IsGoalChoice(d[..i], choice) && (choice.Some? ==> choice.value < i)
    requires minD == (if choice.Some? then d[choice.value] else NoSolutionDistance)
    ensures d[i] <= minD ==> IsGoalChoice(d[..i + 1], Some(i))
    ensures d[i] > minD ==> IsGoalChoice(d[..i + 1], choice)
  {
    assert forall j :: 0 <= j < i ==> d[..i + 1][j] == d[..i][j];
  }
}

module SurfaceFinding {
  import opened Wrappers
  import opened Messages
  import opened PlannerTypes
  import opened SurfaceRouting
  import opened FreespaceAssembly

  /** The condition under which generateProcessPlan as written (lines 670-683) goes on to
      generateFreespacePlans: the surface stage succeeded, that is, routing kept a strip. */
  predicate CallsFreespaceAsWritten(s: PlannerSettings, o: Oracles)
  {
    RouteStrips(s, o, s.rasters, Initial([], [], [])).anySuccesses
  }

  /** One strip of one pose, seeded by Descartes, whose surface TrajOpt fails: the surface
      stage succeeds and leaves no raster trajectory, so the freespace stage as written
      would read `final_raster_trajectories[0]` of an empty vector (line 558). */
  lemma SurfaceSuccessWithoutRasters(simplify: bool) returns (s: PlannerSettings, o: Oracles)
    ensures CallsFreespaceAsWritten(s, o)
    ensures var routed := RouteStrips(s, o, s.rasters, Initial([], [], []));
            Faults(s, simplify, o, o.refineSurface(s, routed.splitTraj, routed.splitRasters).finalRasters)
  {
    var home := JointWaypoint([], []);
    var strip := PoseArray(DefaultHeader, [IdentityPose]);
    var empty := JointTrajectory(DefaultHeader, [], []);
    s := PlannerSettings([strip], 1, false, 0.0, 0.0, false, false, home, false, home,
                         false, false, "world", []);
    o := Oracles((_, _) => Seeded(empty),
                 (p, _) => CleanedStrip([p], []),
                 (p, _, _) => p,
                 (_, _, rasters) => SurfaceRefinement([], [], rasters, [], []),
                 (_, _, _, _) => None,
                 (_, _, _, _) => None,
                 (_, _) => [],
                 (w: JointWaypoint, _) => w.positions,
                 (_, _) => 0.0);
    assert [strip][..0] == [];
  }
}
