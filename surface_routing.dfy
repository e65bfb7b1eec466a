/** The strip routing of generateSurfacePlans (path_planning_utils.cpp, lines 100-191):
    every raster strip is either seeded whole by Descartes, or cleaned into pieces of which
    the long enough ones are seeded again and the short ones skipped. The functions here
    describe the state after routing a prefix of the strips; the planner's loops are
    proved against them. */
module SurfaceRouting {
  import opened Messages
  import opened PlannerTypes

  /** What routing builds: three vectors of the results record and the loop's
      `split_traj`, `split_reachable_rasters` and `any_successes`. */
  datatype Routing = Routing(reachable: seq<Pose>, unreachable: seq<Pose>, skipped: seq<PoseArray>,
                             splitTraj: seq<JointTrajectory>, splitRasters: seq<PoseArray>,
                             anySuccesses: bool)

  /** The state before the first strip, given the results' vectors. */
  function Initial(reachable: seq<Pose>, unreachable: seq<Pose>, skipped: seq<PoseArray>): Routing
  {
    Routing(reachable, unreachable, skipped, [], [], false)
  }

  /** `split_strip_ar`: the strip with approach and retreat added when configured. */
  function Prepared(s: PlannerSettings, o: Oracles, strip: PoseArray): PoseArray
  {
    if s.addApproachAndRetreat then o.addApproachAndRetreat(strip, s.approachDistance, s.retreatDistance)
    else strip
  }

  /** A strip that goes on to the second Descartes round: its own poses count as reachable;
      when its prepared copy is seeded, the trajectory and the copy are kept, otherwise the
      copy's poses count as unreachable. */
  function Attempt(s: PlannerSettings, o: Oracles, strip: PoseArray, r: Routing): Routing
  {
    var ar := Prepared(s, o, strip);
    var r1 := r.(reachable := r.reachable + strip.poses);
    match o.descartesSeed(s, ar)
    case Seeded(t) => r1.(splitTraj := r1.splitTraj + [t], splitRasters := r1.splitRasters + [ar], anySuccesses := true)
    case Unreachable(_) => r1.(unreachable := r1.unreachable + ar.poses)
  }

  /** One piece of a cleaned strip: attempted when it has at least the minimum number of
      poses, skipped unchanged otherwise. */
  function RouteSplit(s: PlannerSettings, o: Oracles, split: PoseArray, r: Routing): Routing
  {
    if |split.poses| >= s.minimumRasterLength then Attempt(s, o, split, r)
    else r.(skipped := r.skipped + [split])
  }

  /** The pieces of a cleaned strip, in order. */
  function RouteSplits(s: PlannerSettings, o: Oracles, splits: seq<PoseArray>, r: Routing): Routing
    decreases |splits|
  {
    if splits == [] then r
    else RouteSplit(s, o, Last(splits), RouteSplits(s, o, splits[..|splits| - 1], r))
  }

  /** One strip of the toolpath. */
  function RouteStrip(s: PlannerSettings, o: Oracles, strip: PoseArray, r: Routing): Routing
  {
    match o.descartesSeed(s, strip)
    case Seeded(_) => Attempt(s, o, strip, r)
    case Unreachable(failedVertices) =>
      var cleaned := o.cleanRasterStrip(strip, failedVertices);
      RouteSplits(s, o, cleaned.splits, r.(unreachable := r.unreachable + cleaned.failedVertexPoses))
  }

  /** The strips, in order. */
  function RouteStrips(s: PlannerSettings, o: Oracles, strips: seq<PoseArray>, r: Routing): Routing
    decreases |strips|
  {
    if strips == [] then r
    else RouteStrip(s, o, Last(strips), RouteStrips(s, o, strips[..|strips| - 1], r))
  }

  // ---------------------------------------------------------------------------
  // What routing keeps

  /** Every kept trajectory is paired, index by index, with the raster it was seeded on. */
  predicate Aligned(r: Routing)
  {
    |r.splitTraj| == |r.splitRasters|
  }

  predicate SeededAt(s: PlannerSettings, o: Oracles, r: Routing, i: nat)
  {
    i < |r.splitTraj| && i < |r.splitRasters| && o.descartesSeed(s, r.splitRasters[i]) == Seeded(r.splitTraj[i])
  }

  /** `b` is a later routing state than `a`: every vector only grew; the kept trajectories
      and rasters grew in step, each new pair being a Descartes seed and the raster it was
      seeded on; `any_successes` is set exactly when something was kept; and every newly
      skipped piece is shorter than the minimum raster length. */
  ghost predicate Extends(s: PlannerSettings, o: Oracles, a: Routing, b: Routing)
  {
    && a.reachable <= b.reachable && a.unreachable <= b.unreachable && a.skipped <= b.skipped
    && a.splitTraj <= b.splitTraj && a.splitRasters <= b.splitRasters
    && |b.splitTraj| - |a.splitTraj| == |b.splitRasters| - |a.splitRasters|
    && (b.anySuccesses <==> a.anySuccesses || |b.splitTraj| > |a.splitTraj|)
    && (forall i :: |a.skipped| <= i < |b.skipped| ==> |b.skipped[i].poses| < s.minimumRasterLength)
    && (forall i :: |a.splitRasters| <= i < |b.splitRasters| ==> SeededAt(s, o, b, i))
  }

  lemma ExtendsTrans(s: PlannerSettings, o: Oracles, a: Routing, b: Routing, c: Routing)
    requires Aligned(a) && Extends(s, o, a, b) && Extends(s, o, b, c)
    ensures Extends(s, o, a, c)
  {
    forall i | |a.splitRasters| <= i < |c.splitRasters|
      ensures SeededAt(s, o, c, i)
    {
      if i < |b.splitRasters| {
        assert SeededAt(s, o, b, i);
        assert b.splitRasters[i] == c.splitRasters[i] && b.splitTraj[i] == c.splitTraj[i];
      }
    }
  }

  lemma AttemptExtends(s: PlannerSettings, o: Oracles, strip: PoseArray, r: Routing)
    requires Aligned(r)
    ensures Extends(s, o, r, Attempt(s, o, strip, r))
  {
    var r2 := Attempt(s, o, strip, r);
    if o.descartesSeed(s, Prepared(s, o, strip)).Seeded? {
      assert SeededAt(s, o, r2, |r.splitRasters|);
    }
  }

  lemma RouteSplitExtends(s: PlannerSettings, o: Oracles, split: PoseArray, r: Routing)
    requires Aligned(r)
    ensures Extends(s, o, r, RouteSplit(s, o, split, r))
  {
    if |split.poses| >= s.minimumRasterLength {
      AttemptExtends(s, o, split, r);
    }
  }

  lemma {:induction false} RouteSplitsExtends(s: PlannerSettings, o: Oracles, splits: seq<PoseArray>, r: Routing)
    requires Aligned(r)
    ensures Extends(s, o, r, RouteSplits(s, o, splits, r))
    decreases |splits|
  {
    if splits != [] {
      var mid := RouteSplits(s, o, splits[..|splits| - 1], r);
      RouteSplitsExtends(s, o, splits[..|splits| - 1], r);
      RouteSplitExtends(s, o, Last(splits), mid);
      ExtendsTrans(s, o, r, mid, RouteSplits(s, o, splits, r));
    }
  }

  lemma RouteStripExtends(s: PlannerSettings, o: Oracles, strip: PoseArray, r: Routing)
    requires Aligned(r)
    ensures Extends(s, o, r, RouteStrip(s, o, strip, r))
  {
    match o.descartesSeed(s, strip)
    case Seeded(_) =>
      AttemptExtends(s, o, strip, r);
    case Unreachable(failedVertices) =>
      var cleaned := o.cleanRasterStrip(strip, failedVertices);
      var r1 := r.(unreachable := r.unreachable + cleaned.failedVertexPoses);
      RouteSplitsExtends(s, o, cleaned.splits, r1);
      ExtendsTrans(s, o, r, r1, RouteStrip(s, o, strip, r));
  }

  /** Routing any number of strips only extends the state it starts from. */
  lemma {:induction false} RouteStripsExtends(s: PlannerSettings, o: Oracles, strips: seq<PoseArray>, r: Routing)
    requires Aligned(r)
    ensures Extends(s, o, r, RouteStrips(s, o, strips, r))
    decreases |strips|
  {
    if strips != [] {
      var mid := RouteStrips(s, o, strips[..|strips| - 1], r);
      RouteStripsExtends(s, o, strips[..|strips| - 1], r);
      RouteStripExtends(s, o, Last(strips), mid);
      ExtendsTrans(s, o, r, mid, RouteStrips(s, o, strips, r));
    }
  }

  /** Starting from a fresh loop state, `any_successes` ends set exactly when at least one
      trajectory was kept, and the kept trajectories are Descartes seeds of the kept
      rasters, index by index. */
  lemma RoutingOutcome(s: PlannerSettings, o: Oracles, strips: seq<PoseArray>,
                       reachable: seq<Pose>, unreachable: seq<Pose>, skipped: seq<PoseArray>)
    ensures var r := RouteStrips(s, o, strips, Initial(reachable, unreachable, skipped));
            && (r.anySuccesses <==> |r.splitTraj| > 0)
            && |r.splitTraj| == |r.splitRasters|
            && (forall i :: 0 <= i < |r.splitRasters| ==> o.descartesSeed(s, r.splitRasters[i]) == Seeded(r.splitTraj[i]))
            && skipped <= r.skipped
            && (forall i :: |skipped| <= i < |r.skipped| ==> |r.skipped[i].poses| < s.minimumRasterLength)
  {
    var r := RouteStrips(s, o, strips, Initial(reachable, unreachable, skipped));
    RouteStripsExtends(s, o, strips, Initial(reachable, unreachable, skipped));
    forall i | 0 <= i < |r.splitRasters|
      ensures o.descartesSeed(s, r.splitRasters[i]) == Seeded(r.splitTraj[i])
    {
      assert SeededAt(s, o, r, i);
    }
  }

  // ---------------------------------------------------------------------------
  // Which pieces are skipped

  /** The pieces shorter than `min`, in order. */
  function Short(splits: seq<PoseArray>, min: nat): (r: seq<PoseArray>)
    ensures forall x :: x in r ==> x in splits && |x.poses| < min
    ensures forall x :: x in splits && |x.poses| < min ==> x in r
    decreases |splits|
  {
    if splits == [] then []
    else Short(splits[..|splits| - 1], min) + (if |Last(splits).poses| < min then [Last(splits)] else [])
  }

  /** The pieces a strip contributes to `skipped_rasters`: none when it is seeded whole,
      otherwise the short pieces of its cleaned form. */
  function StripSkipped(s: PlannerSettings, o: Oracles, strip: PoseArray): seq<PoseArray>
  {
    match o.descartesSeed(s, strip)
    case Seeded(_) => []
    case Unreachable(failedVertices) => Short(o.cleanRasterStrip(strip, failedVertices).splits, s.minimumRasterLength)
  }

  function AllSkipped(s: PlannerSettings, o: Oracles, strips: seq<PoseArray>): seq<PoseArray>
    decreases |strips|
  {
    if strips == [] then [] else AllSkipped(s, o, strips[..|strips| - 1]) + StripSkipped(s, o, Last(strips))
  }

  lemma {:induction false} RouteSplitsSkipped(s: PlannerSettings, o: Oracles, splits: seq<PoseArray>, r: Routing)
    ensures RouteSplits(s, o, splits, r).skipped == r.skipped + Short(splits, s.minimumRasterLength)
    decreases |splits|
  {
    if splits != [] {
      RouteSplitsSkipped(s, o, splits[..|splits| - 1], r);
      var mid := RouteSplits(s, o, splits[..|splits| - 1], r);
      var tail: seq<PoseArray> := if |Last(splits).poses| < s.minimumRasterLength then [Last(splits)] else [];
      assert RouteSplit(s, o, Last(splits), mid).skipped == mid.skipped + tail;
      assert r.skipped + Short(splits[..|splits| - 1], s.minimumRasterLength) + tail
             == r.skipped + (Short(splits[..|splits| - 1], s.minimumRasterLength) + tail);
    }
  }

  lemma RouteStripSkipped(s: PlannerSettings, o: Oracles, strip: PoseArray, r: Routing)
    ensures RouteStrip(s, o, strip, r).skipped == r.skipped + StripSkipped(s, o, strip)
  {
    match o.descartesSeed(s, strip)
    case Seeded(_) =>
      assert RouteStrip(s, o, strip, r).skipped == r.skipped;
    case Unreachable(failedVertices) =>
      var cleaned := o.cleanRasterStrip(strip, failedVertices);
      RouteSplitsSkipped(s, o, cleaned.splits, r.(unreachable := r.unreachable + cleaned.failedVertexPoses));
  }

  /** Exactly the short pieces of the strips Descartes could not seed whole are skipped,
      unchanged and in strip order; no strip seeded whole is ever skipped. */
  lemma {:induction false} RouteStripsSkipped(s: PlannerSettings, o: Oracles, strips: seq<PoseArray>, r: Routing)
    ensures RouteStrips(s, o, strips, r).skipped == r.skipped + AllSkipped(s, o, strips)
    decreases |strips|
  {
    if strips != [] {
      var front := strips[..|strips| - 1];
      var mid := RouteStrips(s, o, front, r);
      var a := AllSkipped(s, o, front);
      var b := StripSkipped(s, o, Last(strips));
      assert RouteStrips(s, o, strips, r) == RouteStrip(s, o, Last(strips), mid);
      assert AllSkipped(s, o, strips) == a + b;
      RouteStripsSkipped(s, o, front, r);
      RouteStripSkipped(s, o, Last(strips), mid);
      assert r.skipped + a + b == r.skipped + (a + b);
    }
  }
}
