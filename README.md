# Motion planning core of the collaborative robotic sanding system

This project models two parts of `crs_motion_planning` in Dafny and proves properties of the model.

- **The process planner test node** (`process_planner_test.cpp`):
  - It keeps the latest joint state from `crs/joint_states`.
  - On the `test_process_planner` trigger it looks up the `world` ← `part` transform and re-expresses the toolpath's raster strips in the world frame. It then sends one `PlanProcessMotions` request, with fixed tool parameters and the stored joint state as both start and end.
  - When the response arrives, it publishes every returned plan on its trajectory topic and sleeps between publishes. The order is start, then process motion i followed by freespace motion i, then the last process motion, then end.
- **The motion planner `crsMotionPlanner`** (`path_planning_utils.cpp`):
  - **Surface routing.** Descartes first tries to seed each raster strip whole. A strip it cannot seed is cleaned into pieces: the long enough pieces are seeded again and the short ones are skipped.
  - **Freespace assembly.** This stage plans OMPL (optionally refined by TrajOpt) freespace motions:
    - from the start pose into the first raster;
    - between each pair of neighbouring rasters;
    - out of the last raster to the end pose.
  - While the OMPL seeds of the start and end segments are generated, OMPL's `simplify` flag is overridden.
  - **Single freespace plans.** One plan goes to a joint goal. The other goes to a Cartesian goal, whose joint solution is the sampled solution closest to the start.

## Modelling notes

- Objects that the source updates in place are classes, with `modifies` clauses on their methods. These are the test node, the planner, its shared configuration (including `ompl_config.simplify`) and the results record.
- The loops are `while` loops with invariants, each proved against a specification function:
  - **strip routing**: `SurfaceRouting.RouteStrips`;
  - **freespace assembly**: `FreespaceAssembly.FreespaceRun`;
  - **gazebo time override**: `PlannerTypes.SimTimed`;
  - **goal choice**: `GoalSelection.GoalIndex`;
  - **playback**: the event log `Playback.CallbackEvents`.
- The playback log is read back as a publication schedule: each published trajectory is paired with the seconds slept before the next publish.
- The following libraries are function-valued parameters (`PlannerTypes.Oracles`) and are not interpreted:
  - OMPL and TrajOpt;
  - the Descartes seed, the strip cleaner and approach/retreat;
  - surface refinement (lines 193-399 of `path_planning_utils.cpp`);
  - the Cartesian sampler, the joint distance norm and `tf2::doTransform`.
- The transform lookup's outcome is a parameter: a transform, a `tf2::LookupException`, or another tf2 exception.
- Behaviour of the code that the model keeps:
  - The pause after a start or freespace trajectory is `points / 10 + 1` seconds in integer division: 20 points give 3 s, 37 points 4 s and 9 points 1 s.
  - The service handler catches only `tf2::LookupException`. Any other tf2 exception leaves the handler.
  - When the start or end OMPL seed fails, `generateFreespacePlans` returns before it restores `ompl_config.simplify`, so `simplify_start_end_freespace` stays in force.
  - In the Cartesian overload, when every sampled distance exceeds 999999 the goal stays at the start positions.
- The freespace stage reads raster points lazily: a step reads its points only when the steps before it were planned. `FreespaceAssembly.Faults` holds exactly when a read that the run reaches falls outside a vector.

## Model

| member | source | states |
|---|---|---|
| ProcessPlannerTest.ProcessPlannerTestServer.constructor | crs_motion_planning/src/process_planner_test.cpp:25-42 | the stored joint state starts default-constructed; nothing has been sent or logged |
| ProcessPlannerTest.ProcessPlannerTestServer.JointCallback | crs_motion_planning/src/process_planner_test.cpp:45 | the stored joint state becomes the received message; nothing else changes |
| ProcessPlannerTest.ProcessPlannerTestServer.PlanService | crs_motion_planning/src/process_planner_test.cpp:46-111 | a LookupException answers false with "TF lookup failed: " and its text and sends nothing; any other tf error escapes and sends nothing; a found transform sends exactly one request (the world-frame strips and the stored joint state) and answers true "TRAJECTORIES PUBLISHED" |
| ProcessPlannerTest.TransformStrips | crs_motion_planning/src/process_planner_test.cpp:73-87 | the built path has the same strips in the same order, each with the same number of poses, every pose transformed and every header default |
| ProcessPlannerTest.ToWorldFrame | crs_motion_planning/src/process_planner_test.cpp:73-87 | its result is a world-frame version of the path in the sense above |
| ProcessPlannerTest.WorldFrameUnique | crs_motion_planning/src/process_planner_test.cpp:73-87 | the world-frame path is determined by the path and the transform |
| ProcessPlannerTest.IdentityKeepsPoses | crs_motion_planning/src/process_planner_test.cpp:73-87 | a transform that moves no pose leaves every strip's poses as they were |
| ProcessPlannerTest.IdentityIdempotent | crs_motion_planning/src/process_planner_test.cpp:73-87 | re-expressing a world-frame path with such a transform gives the same path |
| ProcessPlannerTest.RequestFields | crs_motion_planning/src/process_planner_test.cpp:89-104 | the request carries tool link sander_center_link, speed 0.4, approach and retreat 0.05, the joint snapshot as start and end, the identity offset and exactly one process path holding the given rasters |
| ProcessPlannerTest.ProcessPlannerTestServer.ProcessPlanCallback | crs_motion_planning/src/process_planner_test.cpp:113-157 | the log gains exactly the callback's events; what gets published is the schedule of every plan in index order on success, and nothing on failure |
| ProcessPlannerTest.ProcessPlannerTestServer.PlayPlans | crs_motion_planning/src/process_planner_test.cpp:120-149 | the loop over plans emits the events of every plan in index order |
| ProcessPlannerTest.ProcessPlannerTestServer.PlayPlan | crs_motion_planning/src/process_planner_test.cpp:122-148 | one plan emits its progress line, start, pairs, last process motion and end events |
| ProcessPlannerTest.ProcessPlannerTestServer.PlayStart | crs_motion_planning/src/process_planner_test.cpp:127-131 | the start trajectory and its pause are emitted exactly when it has points |
| ProcessPlannerTest.ProcessPlannerTestServer.PlayPairs | crs_motion_planning/src/process_planner_test.cpp:133-141 | for every freespace index i: process[i], 2 s, free[i] and its pause, with their progress lines |
| ProcessPlannerTest.ProcessPlannerTestServer.PlayFinish | crs_motion_planning/src/process_planner_test.cpp:142-148 | the last process motion and 2 s, then the end trajectory only when it has points |
| ProcessPlannerTest.ProcessPlannerTestServer.PublishTrajectory | crs_motion_planning/src/process_planner_test.cpp:129 | a publish appends that trajectory to the log and nothing else |
| ProcessPlannerTest.ProcessPlannerTestServer.SleepFor | crs_motion_planning/src/process_planner_test.cpp:130 | a sleep appends its duration to the log and nothing else |
| ProcessPlannerTest.ProcessPlannerTestServer.Log | crs_motion_planning/src/process_planner_test.cpp:122 | a console line is appended to the log and nothing else |
| Playback.CallbackSchedule | crs_motion_planning/src/process_planner_test.cpp:115-156 | a failed response prints only its error message and publishes nothing; a successful one publishes the plans' schedules in index order |
| Playback.PlansSchedule | crs_motion_planning/src/process_planner_test.cpp:120-149 | the schedule of the first k plans is their plan schedules concatenated in index order |
| Playback.PlanSchedule | crs_motion_planning/src/process_planner_test.cpp:122-148 | one plan publishes start (if it has points), process[i] then free[i], the last process motion, end (if it has points), waiting Pause(start), 2 s, Pause(free[i]), 2 s and nothing after end |
| Playback.PlanSlotsAt | crs_motion_planning/src/process_planner_test.cpp:127-148 | position by position, a plan yields s + 2·\|free\| + 1 + e publishes, with s and e one exactly when start and end have points |
| Playback.PairSlotsAt | crs_motion_planning/src/process_planner_test.cpp:133-141 | the pair loop's schedule holds process[i] at 2i and free[i] at 2i+1 |
| Playback.PairSchedule | crs_motion_planning/src/process_planner_test.cpp:133-141 | one round publishes process[i] with a 2 s pause and free[i] with its own pause |
| Playback.InterleaveSchedule | crs_motion_planning/src/process_planner_test.cpp:133-141 | k rounds publish the first k pairs in order, with no sleep before the first publish |
| Playback.StartSchedule | crs_motion_planning/src/process_planner_test.cpp:127-131 | the start block publishes the start with its pause exactly when it has points |
| Playback.TailSchedule | crs_motion_planning/src/process_planner_test.cpp:142-148 | the last process motion is followed by 2 s and then by the end trajectory when it has points |
| Playback.SingleProcessMotion | crs_motion_planning/src/process_planner_test.cpp:142-144 | a plan with one process motion and no freespace publishes the start block, that motion exactly once with a 2 s pause, then the end block |
| Playback.PauseExamples | crs_motion_planning/src/process_planner_test.cpp:130-140 | 20 points pause 3 s, 37 points 4 s, 9 points 1 s |
| PathPlanningUtils.CrsMotionPlanner.constructor | crs_motion_planning/src/path_planning_utils.cpp:6 | the planner shares the given configuration and uses the given oracles |
| PathPlanningUtils.CrsMotionPlanner.UpdateConfiguration | crs_motion_planning/src/path_planning_utils.cpp:8 | the planner now shares the given configuration object |
| PathPlanningUtils.CrsMotionPlanner.RouteAttempt | crs_motion_planning/src/path_planning_utils.cpp:123-153 | the second Descartes round: the strip's poses become reachable; a seeded prepared copy is kept with its trajectory, otherwise the copy's poses become unreachable |
| PathPlanningUtils.CrsMotionPlanner.RoutePieces | crs_motion_planning/src/path_planning_utils.cpp:120-149 | the loop over the cleaned pieces gives the routing of the pieces in order |
| PathPlanningUtils.CrsMotionPlanner.RouteAll | crs_motion_planning/src/path_planning_utils.cpp:100-188 | the loop over strips gives the routing of every configured strip in order |
| PathPlanningUtils.CrsMotionPlanner.GenerateSurfacePlans | crs_motion_planning/src/path_planning_utils.cpp:84-406 | succeeds exactly when some trajectory was seeded; reachable, unreachable and skipped are as routed; on success the refinement's vectors are appended and its rasters become the final rasters; on failure the message is set and the final rasters are kept |
| SurfaceRouting.RoutingOutcome | crs_motion_planning/src/path_planning_utils.cpp:100-191 | any_successes is set exactly when a trajectory was kept; the kept trajectories are Descartes seeds of the kept rasters index by index; every skipped piece is shorter than the minimum length |
| SurfaceRouting.RouteStripsExtends | crs_motion_planning/src/path_planning_utils.cpp:100-188 | routing only appends, keeps trajectories and rasters in step, and skips only short pieces |
| SurfaceRouting.RouteStripExtends | crs_motion_planning/src/path_planning_utils.cpp:107-186 | the same for one strip, via either branch |
| SurfaceRouting.RouteSplitsExtends | crs_motion_planning/src/path_planning_utils.cpp:120-149 | the same for the pieces of one cleaned strip |
| SurfaceRouting.RouteSplitExtends | crs_motion_planning/src/path_planning_utils.cpp:123-153 | the same for one piece |
| SurfaceRouting.AttemptExtends | crs_motion_planning/src/path_planning_utils.cpp:127-152 | the same for the second Descartes round |
| SurfaceRouting.Short | crs_motion_planning/src/path_planning_utils.cpp:122-153 | holds exactly the pieces shorter than the minimum |
| SurfaceRouting.RouteStripsSkipped | crs_motion_planning/src/path_planning_utils.cpp:107-156 | exactly the short pieces of strips Descartes could not seed whole are skipped, unchanged and in order; a strip seeded whole is never skipped |
| SurfaceRouting.RouteStripSkipped | crs_motion_planning/src/path_planning_utils.cpp:107-156 | one strip contributes its short pieces, or none when seeded whole |
| SurfaceRouting.RouteSplitsSkipped | crs_motion_planning/src/path_planning_utils.cpp:120-156 | the pieces loop skips exactly the short pieces in order |
| PathPlanningUtils.OverrideTimes | crs_motion_planning/src/path_planning_utils.cpp:538-546 | every point is re-stamped to 0 s and 1e8 ns, nothing else changes |
| PlannerTypes.SimTimed | crs_motion_planning/src/path_planning_utils.cpp:538-546 | same header, names and point count; each point differs only in its time stamp, set to 0 s and 1e8 ns |
| PlannerTypes.WithFrame | crs_motion_planning/src/path_planning_utils.cpp:527-536 | the frame id becomes the world frame; names and points are kept |
| PlannerTypes.PlanSegmentCases | crs_motion_planning/src/path_planning_utils.cpp:685-725 | a step fails at the seed exactly when OMPL finds none, at TrajOpt exactly when TrajOpt is on and finds nothing, and otherwise yields world-frame OMPL and final trajectories, the final being the OMPL one without TrajOpt and gazebo-timed TrajOpt points under gazebo timing |
| PathPlanningUtils.CrsMotionPlanner.FinishSegment | crs_motion_planning/src/path_planning_utils.cpp:523-551 | what follows a successful seed is the specified segment |
| PathPlanningUtils.CrsMotionPlanner.PlanStep | crs_motion_planning/src/path_planning_utils.cpp:687-724 | one freespace step with the flag in force is the specified segment |
| PathPlanningUtils.CrsMotionPlanner.BoundaryStep | crs_motion_planning/src/path_planning_utils.cpp:508-556 | the start/end block plans under simplify_start_end_freespace, restores the saved flag unless the seed fails, stores final, start/end and OMPL trajectories on success, sets the failure message otherwise, and leaves the interior vectors alone |
| PathPlanningUtils.CrsMotionPlanner.StoreInterior | crs_motion_planning/src/path_planning_utils.cpp:607-612 | a planned interior step appends its final trajectory and then the next raster to the final trajectories, its final and OMPL trajectories to their vectors |
| PathPlanningUtils.CrsMotionPlanner.InteriorSteps | crs_motion_planning/src/path_planning_utils.cpp:560-613 | the loop between neighbouring rasters does what the specified interior run does, stopping at the first failed step with its message |
| PathPlanningUtils.CrsMotionPlanner.InteriorRound | crs_motion_planning/src/path_planning_utils.cpp:562-612 | round i plans raster i's last point to raster i+1's first point and stores or fails as specified |
| PathPlanningUtils.CrsMotionPlanner.RastersAndEnd | crs_motion_planning/src/path_planning_utils.cpp:557-666 | raster 0, the interior loop and the end block together do what the specification does after the start step |
| PathPlanningUtils.CrsMotionPlanner.GenerateFreespacePlans | crs_motion_planning/src/path_planning_utils.cpp:504-668 | the five vectors gain exactly what the specified run appends, the message is set exactly on failure, and the simplify flag ends as specified |
| FreespaceAssembly.PlannableFaultFree | crs_motion_planning/src/path_planning_utils.cpp:511-622 | raster trajectories that all have points (all but a lone raster with neither start nor end) never make the run read outside a vector |
| FreespaceAssembly.StartSeedFailureFaultFree | crs_motion_planning/src/path_planning_utils.cpp:508-520 | when the start seed fails, only raster 0's first point has been read: whatever the other rasters hold, the run reads nothing outside a vector, fails with the seed message, appends nothing and leaves the start/end flag in force |
| FreespaceAssembly.InteriorFailureFaultFree | crs_motion_planning/src/path_planning_utils.cpp:557-589 | when interior step i is the first that fails and rasters 0 to i+1 have points, the run reads nothing outside a vector, whatever the later rasters hold |
| FreespaceAssembly.StepsOf | crs_motion_planning/src/path_planning_utils.cpp:560 | there is one interior step per pair of neighbouring rasters |
| FreespaceAssembly.InteriorAt | crs_motion_planning/src/path_planning_utils.cpp:565-570 | when rasters i and i+1 have points, interior step i goes from the last point of raster i to the first point of raster i+1 with the flag in force |
| FreespaceAssembly.AssembleSucceeds | crs_motion_planning/src/path_planning_utils.cpp:504-668 | on success final_trajectories is start (when used), raster 0, then freespace i and raster i+1 alternately, then end (when used), 2·\|rasters\|−1 plus start and end long; freespace and OMPL vectors hold one entry per interior step; simplify is unchanged |
| FreespaceAssembly.AssembleStartFails | crs_motion_planning/src/path_planning_utils.cpp:508-534 | a failed start step appends nothing and leaves its message; a failed seed leaves the override flag behind |
| FreespaceAssembly.AssembleInteriorFails | crs_motion_planning/src/path_planning_utils.cpp:557-589 | when interior step i fails first, the run fails with its message after appending start, raster 0 and the first i steps with their rasters to final_trajectories, the first i steps' final and OMPL trajectories to their vectors and only the start step's to the start/end vectors, keeping the flag |
| FreespaceAssembly.AssembleEndFails | crs_motion_planning/src/path_planning_utils.cpp:617-643 | when only the end step fails, everything but the end is appended (every vector, OMPL ones included, holds its success contents minus the end step) and its message is left; a failed seed leaves the override flag behind |
| FreespaceAssembly.AssembleOkIff | crs_motion_planning/src/path_planning_utils.cpp:504-668 | the run succeeds exactly when every step is planned |
| FreespaceAssembly.InteriorSucceeds | crs_motion_planning/src/path_planning_utils.cpp:560-613 | when the first k interior steps are planned, k rounds append exactly them interleaved with their rasters |
| FreespaceAssembly.InteriorFails | crs_motion_planning/src/path_planning_utils.cpp:572-589 | the first failed interior step determines the message and what was appended before it |
| FreespaceAssembly.InteriorStays | crs_motion_planning/src/path_planning_utils.cpp:572-589 | after a failed round nothing more happens |
| FreespaceAssembly.InteriorKeepsFlag | crs_motion_planning/src/path_planning_utils.cpp:560-613 | the interior rounds never change the simplify flag |
| FreespaceAssembly.InterleavedAt | crs_motion_planning/src/path_planning_utils.cpp:607-612 | position 2g of the interleaving is freespace step g, position 2g+1 is raster g+1 |
| FreespaceAssembly.BoundaryFails | crs_motion_planning/src/path_planning_utils.cpp:514-534 | a failed start/end step appends nothing; the flag stays overridden exactly when the seed failed |
| PathPlanningUtils.CrsMotionPlanner.GenerateProcessPlan | crs_motion_planning/src/path_planning_utils.cpp:670-683 | the surface-stage vectors, final rasters and routing change exactly as in GenerateSurfacePlans; surface failure returns false with the surface message and no freespace vector changes; otherwise, when the freespace stage would read nothing outside a vector on the refined rasters, it runs and its outcome is the result; when it would (Faults), false is returned, the message and flag are kept and nothing is appended |
| PathPlanningUtils.CrsMotionPlanner.GenerateFreespacePlan | crs_motion_planning/src/path_planning_utils.cpp:685-725 | succeeds exactly when the step is planned, and then yields its final trajectory; otherwise the caller's trajectory is left |
| PathPlanningUtils.CrsMotionPlanner.GenerateFreespacePlanToCartesian | crs_motion_planning/src/path_planning_utils.cpp:727-797 | fails without planning when no solution is sampled; otherwise it is the joint plan from the start to the chosen goal solution |
| PathPlanningUtils.ChoiceStep | crs_motion_planning/src/path_planning_utils.cpp:774-789 | one turn of the argmin loop keeps the choice description |
| GoalSelection.Candidate | crs_motion_planning/src/path_planning_utils.cpp:777-779 | solution i is the six values from i·j_num on |
| GoalSelection.CandidateInBounds | crs_motion_planning/src/path_planning_utils.cpp:765-779 | every solution read lies inside the sampled vector |
| GoalSelection.Distances | crs_motion_planning/src/path_planning_utils.cpp:779-781 | one distance per solution |
| GoalSelection.ScanIsGoalChoice | crs_motion_planning/src/path_planning_utils.cpp:773-789 | after k solutions the running choice is the last minimum within 999999 and the running minimum is its distance |
| GoalSelection.GoalChoiceUnique | crs_motion_planning/src/path_planning_utils.cpp:773-789 | at most one choice fits that description |
| GoalSelection.GoalIndexIsGoalChoice | crs_motion_planning/src/path_planning_utils.cpp:773-789 | the loop picks the last solution of minimal distance within 999999, none when all exceed it, and that choice is the only one fitting |
| SurfaceFinding.SurfaceSuccessWithoutRasters | crs_motion_planning/src/path_planning_utils.cpp:670-683 | a surface stage can succeed with no final raster, after which the code as written calls a freespace stage that reads raster 0 of an empty vector (Faults) |

## Left out

- ROS transport, threads and executors: subscriptions, service calls and responses are direct method calls, and publishing, sleeping and console output are appended to an event log.
- The ROS communications (service, publisher, subscription, client) and the toolpath file path that the test node's constructor sets up are not modelled.
- Reading the toolpath file (parsePathFromFile) is not modelled: its result is a parameter.
- Console output of path_planning_utils.cpp is not modelled: it changes no state.
- The foreign planners and libraries are parameters given by `Oracles`: OMPL seeding, TrajOpt, Descartes, cleanRasterStrip, addApproachAndRetreat, the Cartesian sampler, the joint-distance norm and tf2::doTransform. The surface refinement of lines 193-399 is also an oracle, including its re-split time steps and float time stamps. Its outputs are only constrained by the code around it. Being functions, these oracles make OMPL, TrajOpt and Descartes deterministic, whereas OMPL's RRTConnect planner is randomized: two calls on the same problem may give different seeds in the source, and the model's guard in `GenerateProcessPlan` evaluates the planners on the same inputs as the freespace run that follows it.
- The refinement oracle receives only the kept trajectories and rasters. The source indexes `descartes_trajectory_results` from 0, which can include entries from earlier calls. The model does not capture that dependence.
- Doubles are Dafny reals, with no NaN, no rounding and no overflow.
- `strip_of_interset` (lines 53-57) is built and never read, so it is not modelled.
- The reachable and unreachable waypoint arrays are modelled as pose sequences, without their headers.
- The results record and the configuration are objects shared through pointers. Their aliasing is modelled only to the extent that methods declare what they modify.
- PathPlanningUtils.CrsMotionPlanner.GenerateFreespacePlans: this member requires `!Faults`, and `RastersAndEnd`, `InteriorSteps` and `InteriorRound` require the parts of it they need. `Faults` holds exactly when the run reaches a read outside a vector before it returns. That is an empty raster vector (lines 558-560), or `use_start` with a raster 0 that has no points (lines 511-512). Once the start step is planned or not used, it is also a reached interior step whose two rasters lack the points it reads (lines 565-570), or a reached end step when the last raster has no points (lines 620-622). A read that an earlier failed step returns before does not count. The source's behaviour on those inputs is undefined, and the model does not say what it is. `GenerateProcessPlan` returns false for them instead of calling the freespace stage.
- PathPlanningUtils.CrsMotionPlanner.GenerateFreespacePlanToCartesian: this member requires that `j_num` is positive and that every solution read lies inside the sampled vector. With `j_num == 0` the source divides by zero, and a short sample vector would be read out of bounds.
- ProcessPlannerTest.ProcessPlannerTestServer.ProcessPlanCallback: this member requires the returned plans to be indexable. The source reads `process_motions[i]` for every freespace index and `process_motions.back()`, which are out of bounds otherwise.
- Process planner configuration fields that no core function reads (collision margins, kinematic frames) are not modelled.

## Findings

| source | as written | input that shows it | evidently intended | confidence | as-written member | corrected member |
|---|---|---|---|---|---|---|
| crs_motion_planning/src/path_planning_utils.cpp:670-683 | generateProcessPlan calls generateFreespacePlans whenever generateSurfacePlans succeeds. The surface stage succeeds as soon as one Descartes seed is kept, even when every surface TrajOpt fails and `final_raster_trajectories` ends up empty. generateFreespacePlans then reads `final_raster_trajectories[0]` (line 558), and `size() - 1` underflows (line 560) | one strip of one pose, minimum raster length 1, Descartes always seeding, and a refinement that yields no final raster | return false before planning freespace motions when there is no raster trajectory to index; the corrected member guards every read the freespace stage would make outside a vector (Faults) | not executed | SurfaceFinding.SurfaceSuccessWithoutRasters | PathPlanningUtils.CrsMotionPlanner.GenerateProcessPlan |
