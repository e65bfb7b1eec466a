/** generateFreespacePlans (path_planning_utils.cpp, lines 504-668) as a function of the
    settings, the `ompl_config.simplify` flag it starts with, the oracles and the final
    raster trajectories: which vectors of the results record it appends to, with what,
    the message it leaves on failure and the simplify flag it leaves behind. The planner's
    method is proved against FreespaceRun; the lemmas state the shape of the result. */
module FreespaceAssembly {
  import opened Wrappers
  import opened Messages
  import opened PlannerTypes

  /** The waypoint a step takes at the first point of a raster. A run without Faults
      takes it only from a raster with points; the empty waypoint stands in for the
      others, which no such run reads. */
  function EntryAt(t: JointTrajectory): (w: JointWaypoint)
    ensures |t.points| > 0 ==> w == Entry(t)
  {
    if |t.points| > 0 then Entry(t) else JointWaypoint([], t.jointNames)
  }

  /** The waypoint a step takes at the last point of a raster, as EntryAt. */
  function ExitAt(t: JointTrajectory): (w: JointWaypoint)
    ensures |t.points| > 0 ==> w == Exit(t)
  {
    if |t.points| > 0 then Exit(t) else JointWaypoint([], t.jointNames)
  }

  /** The freespace step into the first raster, planned with the start/end simplify flag. */
  function StartSegment(s: PlannerSettings, o: Oracles, rasters: seq<JointTrajectory>): Segment
    requires |rasters| > 0 && s.useStart
  {
    PlanSegment(s, s.simplifyStartEndFreespace, o, s.startPose, EntryAt(rasters[0]))
  }

  /** The freespace step from the last point of raster `i` to the first point of raster
      `i + 1`, planned with the simplify flag in force. */
  function InteriorSegment(s: PlannerSettings, simplify: bool, o: Oracles, rasters: seq<JointTrajectory>, i: nat): Segment
    requires i + 1 < |rasters|
  {
    PlanSegment(s, simplify, o, ExitAt(rasters[i]), EntryAt(rasters[i + 1]))
  }

  /** The freespace step out of the last raster, planned with the start/end simplify flag. */
  function EndSegment(s: PlannerSettings, o: Oracles, rasters: seq<JointTrajectory>): Segment
    requires |rasters| > 0 && s.useEnd
  {
    PlanSegment(s, s.simplifyStartEndFreespace, o, ExitAt(Last(rasters)), s.endPose)
  }

  /** The outcomes of the steps of one run, in planning order: the start step (when
      `use_start`), one step per pair of neighbouring rasters, and the end step (when
      `use_end`). */
  datatype Steps = Steps(start: Option<Segment>, interior: seq<Segment>, end: Option<Segment>)

  function StepsOf(s: PlannerSettings, simplify: bool, o: Oracles, rasters: seq<JointTrajectory>): (st: Steps)
    requires |rasters| > 0
    ensures |st.interior| == |rasters| - 1
  {
    Steps(if s.useStart then Some(StartSegment(s, o, rasters)) else None,
          seq(|rasters| - 1, i requires 0 <= i < |rasters| - 1 => InteriorSegment(s, simplify, o, rasters, i)),
          if s.useEnd then Some(EndSegment(s, o, rasters)) else None)
  }

  lemma InteriorAt(s: PlannerSettings, simplify: bool, o: Oracles, rasters: seq<JointTrajectory>, i: nat)
    requires i + 1 < |rasters| && |rasters[i].points| > 0 && |rasters[i + 1].points| > 0
    ensures StepsOf(s, simplify, o, rasters).interior[i] == PlanSegment(s, simplify, o, Exit(rasters[i]), Entry(rasters[i + 1]))
  {
  }

  /** Every read from interior step `k` on finds its point: step `k` reads the last point
      of raster `k` and the first point of raster `k + 1` (lines 565-570), the steps after
      it are reached only when it is planned (the loop of lines 560-613 returns at the
      first failure), and the end step, reached once every interior step was planned,
      reads the last point of the last raster (lines 620-622). */
  predicate ReadableFrom(s: PlannerSettings, rasters: seq<JointTrajectory>, segs: seq<Segment>, k: nat)
    requires k <= |segs| < |rasters|
    decreases |segs| - k
  {
    if k == |segs| then s.useEnd ==> |Last(rasters).points| > 0
    else
      && |rasters[k].points| > 0 && |rasters[k + 1].points| > 0
      && (segs[k].Planned? ==> ReadableFrom(s, rasters, segs, k + 1))
  }

  /** generateFreespacePlans reads outside a vector before it returns: the raster vector
      is empty (line 558), the start step reads the first point of raster 0 and it has
      none (lines 511-512), or the start step is passed and a later read finds no point.
      A read that a failed step returns before is no fault. */
  predicate Faults(s: PlannerSettings, simplify: bool, o: Oracles, rasters: seq<JointTrajectory>)
  {
    || |rasters| == 0
    || (s.useStart && |rasters[0].points| == 0)
    || (var st := StepsOf(s, simplify, o, rasters);
        StepPlanned(st.start) && !ReadableFrom(s, rasters, st.interior, 0))
  }

  /** Raster trajectories that all have points (all but a lone raster with neither start
      nor end, whose points are never read) never make the run fault. */
  predicate Plannable(s: PlannerSettings, rasters: seq<JointTrajectory>)
  {
    && |rasters| > 0
    && forall i :: 0 <= i < |rasters| && (|rasters| > 1 || s.useStart || s.useEnd) ==> |rasters[i].points| > 0
  }

  lemma PlannableFaultFree(s: PlannerSettings, simplify: bool, o: Oracles, rasters: seq<JointTrajectory>)
    requires Plannable(s, rasters)
    ensures !Faults(s, simplify, o, rasters)
  {
    PlannableReadable(s, rasters, StepsOf(s, simplify, o, rasters).interior, 0);
  }

  lemma {:induction false} PlannableReadable(s: PlannerSettings, rasters: seq<JointTrajectory>, segs: seq<Segment>, k: nat)
    requires Plannable(s, rasters) && k <= |segs| == |rasters| - 1
    ensures ReadableFrom(s, rasters, segs, k)
    decreases |segs| - k
  {
    if k < |segs| {
      PlannableReadable(s, rasters, segs, k + 1);
    }
  }

  /** The start seed failing returns before anything beyond the first point of raster 0
      is read: whatever the other rasters hold, the run is free of faults, fails with the
      seed message, appends nothing and leaves the start/end flag in force (lines 514-520). */
  lemma StartSeedFailureFaultFree(s: PlannerSettings, simplify: bool, o: Oracles, rasters: seq<JointTrajectory>)
    requires |rasters| > 0 && s.useStart && |rasters[0].points| > 0
    requires o.omplSeed(s, s.simplifyStartEndFreespace, s.startPose, Entry(rasters[0])).None?
    ensures !Faults(s, simplify, o, rasters)
    ensures FreespaceRun(s, simplify, o, rasters) == Run(false, SeedFailureMsg, Nothing, s.simplifyStartEndFreespace)
  {
  }

  /** An interior step failing returns before any later raster is read: when the rasters
      up to `i + 1` have points and step `i` is the first interior step not planned, the
      run is free of faults whatever the later rasters hold. */
  lemma InteriorFailureFaultFree(s: PlannerSettings, simplify: bool, o: Oracles, rasters: seq<JointTrajectory>, i: nat)
    requires i + 1 < |rasters| && forall j :: 0 <= j <= i + 1 ==> |rasters[j].points| > 0
    requires var segs := StepsOf(s, simplify, o, rasters).interior; PlannedUpTo(segs, i) && !segs[i].Planned?
    ensures !Faults(s, simplify, o, rasters)
  {
    ReadableUpTo(s, rasters, StepsOf(s, simplify, o, rasters).interior, i, 0);
  }

  lemma {:induction false} ReadableUpTo(s: PlannerSettings, rasters: seq<JointTrajectory>, segs: seq<Segment>, i: nat, k: nat)
    requires k <= i < |segs| < |rasters| && forall j :: k <= j <= i + 1 ==> |rasters[j].points| > 0
    requires PlannedUpTo(segs, i) && !segs[i].Planned?
    ensures ReadableFrom(s, rasters, segs, k)
    decreases i - k
  {
    if k < i {
      ReadableUpTo(s, rasters, segs, i, k + 1);
    }
  }

  function FailureMsg(seg: Segment): string
  {
    if seg.SeedFailed? then SeedFailureMsg else TrajoptFailureMsg
  }

  /** What a run appends to `final_trajectories`, `final_freespace_trajectories`,
      `ompl_trajectories`, `final_start_end_trajectories` and `ompl_start_end_trajectories`. */
  datatype Appended = Appended(finals: seq<JointTrajectory>, freespace: seq<JointTrajectory>,
                               ompl: seq<JointTrajectory>, startEnd: seq<JointTrajectory>,
                               omplStartEnd: seq<JointTrajectory>)

  const Nothing: Appended := Appended([], [], [], [], [])

  /** `a` followed by `b`, vector by vector. */
  function Plus(a: Appended, b: Appended): Appended
  {
    Appended(a.finals + b.finals, a.freespace + b.freespace, a.ompl + b.ompl,
             a.startEnd + b.startEnd, a.omplStartEnd + b.omplStartEnd)
  }

  /** How far a run got: its result, the message it sets when it fails, what it appended
      and the value `ompl_config.simplify` has afterwards. */
  datatype Run = Run(ok: bool, msg: string, out: Appended, simplify: bool)

  /** A start or end step: a failed seed returns before the flag, set to `override` for
      the step, is restored; a planned step is appended to the final and start/end vectors. */
  function BoundaryRun(step: Option<Segment>, simplify: bool, override: bool, base: Appended): Run
  {
    match step
    case None => Run(true, "", base, simplify)
    case Some(SeedFailed) => Run(false, SeedFailureMsg, base, override)
    case Some(TrajoptFailed) => Run(false, TrajoptFailureMsg, base, simplify)
    case Some(Planned(ompl, final)) =>
      Run(true, "", base.(finals := base.finals + [final], startEnd := base.startEnd + [final],
                          omplStartEnd := base.omplStartEnd + [ompl]), simplify)
  }

  /** The loop of lines 560-613 after `k` rounds, starting from what was appended before. */
  function InteriorRun(rasters: seq<JointTrajectory>, segs: seq<Segment>, k: nat, base: Appended, simplify: bool): Run
    requires k <= |segs| && |segs| < |rasters|
  {
    if k == 0 then Run(true, "", base, simplify)
    else
      var prev := InteriorRun(rasters, segs, k - 1, base, simplify);
      if !prev.ok then prev
      else match segs[k - 1]
        case Planned(ompl, final) =>
          Run(true, "", prev.out.(finals := prev.out.finals + [final, rasters[k]],
                                  freespace := prev.out.freespace + [final],
                                  ompl := prev.out.ompl + [ompl]), simplify)
        case seg => Run(false, FailureMsg(seg), prev.out, simplify)
  }

  /** Raster 0, the interior steps and the end step, after what `base` holds. */
  function AfterStart(rasters: seq<JointTrajectory>, st: Steps, simplify: bool, override: bool, base: Appended): Run
    requires |rasters| > 0 && |st.interior| == |rasters| - 1
  {
    var first := base.(finals := base.finals + [rasters[0]]);
    var interior := InteriorRun(rasters, st.interior, |st.interior|, first, simplify);
    if !interior.ok then interior
    else BoundaryRun(st.end, interior.simplify, override, interior.out)
  }

  /** Start step, raster 0, the interior steps, end step; each failure returns at once. */
  function Assemble(rasters: seq<JointTrajectory>, st: Steps, simplify: bool, override: bool): Run
    requires |rasters| > 0 && |st.interior| == |rasters| - 1
  {
    var start := BoundaryRun(st.start, simplify, override, Nothing);
    if !start.ok then start
    else AfterStart(rasters, st, start.simplify, override, start.out)
  }

  /** The whole of generateFreespacePlans. */
  function FreespaceRun(s: PlannerSettings, simplify: bool, o: Oracles, rasters: seq<JointTrajectory>): Run
    requires |rasters| > 0
  {
    Assemble(rasters, StepsOf(s, simplify, o, rasters), simplify, s.simplifyStartEndFreespace)
  }

  // ---------------------------------------------------------------------------
  // The shape of the result

  predicate PlannedUpTo(segs: seq<Segment>, k: nat)
    requires k <= |segs|
  {
    forall g :: 0 <= g < k ==> segs[g].Planned?
  }

  /** free_0, raster_1, free_1, raster_2, ..., free_{k-1}, raster_k. */
  function Interleaved(rasters: seq<JointTrajectory>, segs: seq<Segment>, k: nat): seq<JointTrajectory>
    requires k <= |segs| && |segs| < |rasters| && PlannedUpTo(segs, k)
  {
    if k == 0 then [] else Interleaved(rasters, segs, k - 1) + [segs[k - 1].final, rasters[k]]
  }

  function Finals(segs: seq<Segment>, k: nat): seq<JointTrajectory>
    requires k <= |segs| && PlannedUpTo(segs, k)
  {
    seq(k, g requires 0 <= g < k => segs[g].final)
  }

  function Ompls(segs: seq<Segment>, k: nat): seq<JointTrajectory>
    requires k <= |segs| && PlannedUpTo(segs, k)
  {
    seq(k, g requires 0 <= g < k => segs[g].ompl)
  }

  /** `base` with the first `k` interior steps appended. */
  function WithInterior(rasters: seq<JointTrajectory>, segs: seq<Segment>, k: nat, base: Appended): Appended
    requires k <= |segs| && |segs| < |rasters| && PlannedUpTo(segs, k)
  {
    base.(finals := base.finals + Interleaved(rasters, segs, k),
          freespace := base.freespace + Finals(segs, k),
          ompl := base.ompl + Ompls(segs, k))
  }

  /** Position 2g of the interleaving is freespace step g, position 2g+1 is raster g+1. */
  lemma {:induction false} InterleavedAt(rasters: seq<JointTrajectory>, segs: seq<Segment>, k: nat)
    requires k <= |segs| && |segs| < |rasters| && PlannedUpTo(segs, k)
    ensures |Interleaved(rasters, segs, k)| == 2 * k
    ensures forall g :: 0 <= g < k ==>
              Interleaved(rasters, segs, k)[2 * g] == segs[g].final && Interleaved(rasters, segs, k)[2 * g + 1] == rasters[g + 1]
  {
    if k > 0 {
      InterleavedAt(rasters, segs, k - 1);
    }
  }

  /** When the first `k` interior steps are planned, `k` rounds append exactly them and
      keep the simplify flag. */
  lemma {:induction false} InteriorSucceeds(rasters: seq<JointTrajectory>, segs: seq<Segment>, k: nat,
                                            base: Appended, simplify: bool)
    requires k <= |segs| && |segs| < |rasters| && PlannedUpTo(segs, k)
    ensures InteriorRun(rasters, segs, k, base, simplify) == Run(true, "", WithInterior(rasters, segs, k, base), simplify)
  {
    if k > 0 {
      InteriorSucceeds(rasters, segs, k - 1, base, simplify);
      var seg := segs[k - 1];
      assert Finals(segs, k) == Finals(segs, k - 1) + [seg.final];
      assert Ompls(segs, k) == Ompls(segs, k - 1) + [seg.ompl];
      assert base.finals + Interleaved(rasters, segs, k - 1) + [seg.final, rasters[k]]
             == base.finals + (Interleaved(rasters, segs, k - 1) + [seg.final, rasters[k]]);
    }
  }

  /** When interior step `i` is the first that fails, every later round count gives the
      failure of step `i`: its message, the steps before it appended, and nothing after. */
  lemma {:induction false} InteriorFails(rasters: seq<JointTrajectory>, segs: seq<Segment>, i: nat, k: nat,
                                         base: Appended, simplify: bool)
    requires i < k <= |segs| && |segs| < |rasters| && PlannedUpTo(segs, i) && !segs[i].Planned?
    ensures InteriorRun(rasters, segs, k, base, simplify)
            == Run(false, FailureMsg(segs[i]), WithInterior(rasters, segs, i, base), simplify)
  {
    if k == i + 1 {
      InteriorSucceeds(rasters, segs, i, base, simplify);
    } else {
      InteriorFails(rasters, segs, i, k - 1, base, simplify);
    }
  }

  /** The interior rounds never change the flag. */
  lemma {:induction false} InteriorKeepsFlag(rasters: seq<JointTrajectory>, segs: seq<Segment>, k: nat,
                                             base: Appended, simplify: bool)
    requires k <= |segs| && |segs| < |rasters|
    ensures InteriorRun(rasters, segs, k, base, simplify).simplify == simplify
  {
    if k > 0 {
      InteriorKeepsFlag(rasters, segs, k - 1, base, simplify);
    }
  }

  /** Once a round has failed, later round counts change nothing. */
  lemma {:induction false} InteriorStays(rasters: seq<JointTrajectory>, segs: seq<Segment>, k: nat, m: nat,
                                         base: Appended, simplify: bool)
    requires k <= m <= |segs| && |segs| < |rasters| && !InteriorRun(rasters, segs, k, base, simplify).ok
    ensures InteriorRun(rasters, segs, m, base, simplify) == InteriorRun(rasters, segs, k, base, simplify)
    decreases m
  {
    if m > k {
      InteriorStays(rasters, segs, k, m - 1, base, simplify);
    }
  }

  /** The first interior step below `k` that is not planned. */
  lemma {:induction false} FirstUnplanned(segs: seq<Segment>, k: nat) returns (i: nat)
    requires k <= |segs| && !PlannedUpTo(segs, k)
    ensures i < k && PlannedUpTo(segs, i) && !segs[i].Planned?
  {
    if PlannedUpTo(segs, k - 1) {
      i := k - 1;
    } else {
      i := FirstUnplanned(segs, k - 1);
    }
  }

  predicate StepPlanned(step: Option<Segment>)
  {
    step.Some? ==> step.value.Planned?
  }

  function FinalOf(step: Option<Segment>): seq<JointTrajectory>
    requires StepPlanned(step)
  {
    if step.Some? then [step.value.final] else []
  }

  function OmplOf(step: Option<Segment>): seq<JointTrajectory>
    requires StepPlanned(step)
  {
    if step.Some? then [step.value.ompl] else []
  }

  predicate AllPlanned(st: Steps)
  {
    StepPlanned(st.start) && PlannedUpTo(st.interior, |st.interior|) && StepPlanned(st.end)
  }

  /** A planned (or absent) boundary step appends its final and OMPL trajectories. */
  lemma BoundaryPlanned(step: Option<Segment>, simplify: bool, override: bool, base: Appended)
    requires StepPlanned(step)
    ensures BoundaryRun(step, simplify, override, base)
            == Run(true, "", base.(finals := base.finals + FinalOf(step), startEnd := base.startEnd + FinalOf(step),
                                   omplStartEnd := base.omplStartEnd + OmplOf(step)), simplify)
  {
    if step.None? {
      assert base.finals + [] == base.finals && base.startEnd + [] == base.startEnd;
      assert base.omplStartEnd + [] == base.omplStartEnd;
    }
  }

  /** A planned (or absent) start step, run on nothing, holds just its own trajectories. */
  lemma StartPlanned(step: Option<Segment>, simplify: bool, override: bool)
    requires StepPlanned(step)
    ensures BoundaryRun(step, simplify, override, Nothing)
            == Run(true, "", Appended(FinalOf(step), [], [], FinalOf(step), OmplOf(step)), simplify)
  {
    if step.Some? {
      assert [] + [step.value.final] == [step.value.final];
      assert [] + [step.value.ompl] == [step.value.ompl];
    }
  }

  /** A failed boundary step appends nothing and reports its failure. */
  lemma BoundaryFails(step: Option<Segment>, simplify: bool, override: bool, base: Appended)
    requires !StepPlanned(step)
    ensures BoundaryRun(step, simplify, override, base)
            == Run(false, FailureMsg(step.value), base, if step.value.SeedFailed? then override else simplify)
  {
  }

  /** Success: `final_trajectories` gains start (when used), raster 0, then freespace step
      i and raster i+1 for every i, then end (when used); `final_freespace_trajectories`
      and `ompl_trajectories` gain one entry per pair of neighbouring rasters; the start
      and end steps go to the start/end vectors; and the simplify flag is unchanged. */
  lemma AssembleSucceeds(rasters: seq<JointTrajectory>, st: Steps, simplify: bool, override: bool)
    requires |rasters| > 0 && |st.interior| == |rasters| - 1 && AllPlanned(st)
    ensures var run := Assemble(rasters, st, simplify, override);
            && run.ok && run.simplify == simplify
            && run.out.finals == FinalOf(st.start) + [rasters[0]] + Interleaved(rasters, st.interior, |st.interior|)
                                 + FinalOf(st.end)
            && run.out.freespace == Finals(st.interior, |st.interior|)
            && run.out.ompl == Ompls(st.interior, |st.interior|)
            && run.out.startEnd == FinalOf(st.start) + FinalOf(st.end)
            && run.out.omplStartEnd == OmplOf(st.start) + OmplOf(st.end)
            && |run.out.finals| == 2 * |rasters| - 1 + |FinalOf(st.start)| + |FinalOf(st.end)|
            && |run.out.freespace| == |rasters| - 1
  {
    var n := |st.interior|;
    StartPlanned(st.start, simplify, override);
    var start := BoundaryRun(st.start, simplify, override, Nothing);
    var base := start.out.(finals := start.out.finals + [rasters[0]]);
    InteriorSucceeds(rasters, st.interior, n, base, simplify);
    var mid := WithInterior(rasters, st.interior, n, base);
    BoundaryPlanned(st.end, simplify, override, mid);
    assert Assemble(rasters, st, simplify, override) == BoundaryRun(st.end, simplify, override, mid);
    InterleavedAt(rasters, st.interior, n);
    assert |Finals(st.interior, n)| == n;
    assert [] + Finals(st.interior, n) == Finals(st.interior, n);
    assert [] + Ompls(st.interior, n) == Ompls(st.interior, n);
  }

  /** A failed start step fails the run with its message and appends nothing; a failed
      seed leaves the override flag behind. */
  lemma AssembleStartFails(rasters: seq<JointTrajectory>, st: Steps, simplify: bool, override: bool)
    requires |rasters| > 0 && |st.interior| == |rasters| - 1 && !StepPlanned(st.start)
    ensures var run := Assemble(rasters, st, simplify, override);
            && !run.ok && run.msg == FailureMsg(st.start.value) && run.out == Nothing
            && run.simplify == (if st.start.value.SeedFailed? then override else simplify)
  {
  }

  /** When interior step `i` is the first step that fails, the run fails with its message,
      having appended the start step, raster 0 and the pairs before `i` only, and keeps the
      flag. */
  lemma AssembleInteriorFails(rasters: seq<JointTrajectory>, st: Steps, simplify: bool, override: bool, i: nat)
    requires |rasters| > 0 && |st.interior| == |rasters| - 1 && i < |st.interior|
    requires StepPlanned(st.start) && PlannedUpTo(st.interior, i) && !st.interior[i].Planned?
    ensures var run := Assemble(rasters, st, simplify, override);
            && !run.ok && run.msg == FailureMsg(st.interior[i]) && run.simplify == simplify
            && run.out.finals == FinalOf(st.start) + [rasters[0]] + Interleaved(rasters, st.interior, i)
            && run.out.freespace == Finals(st.interior, i)
            && run.out.ompl == Ompls(st.interior, i)
            && run.out.startEnd == FinalOf(st.start)
            && run.out.omplStartEnd == OmplOf(st.start)
  {
    StartPlanned(st.start, simplify, override);
    var start := BoundaryRun(st.start, simplify, override, Nothing);
    var base := start.out.(finals := start.out.finals + [rasters[0]]);
    InteriorFails(rasters, st.interior, i, |st.interior|, base, simplify);
    assert Assemble(rasters, st, simplify, override) == InteriorRun(rasters, st.interior, |st.interior|, base, simplify);
    assert [] + Finals(st.interior, i) == Finals(st.interior, i);
    assert [] + Ompls(st.interior, i) == Ompls(st.interior, i);
  }

  /** When only the end step fails, the run fails with its message after appending all of
      the success shape but the end; a failed seed leaves the override flag behind. */
  lemma AssembleEndFails(rasters: seq<JointTrajectory>, st: Steps, simplify: bool, override: bool)
    requires |rasters| > 0 && |st.interior| == |rasters| - 1
    requires StepPlanned(st.start) && PlannedUpTo(st.interior, |st.interior|) && !StepPlanned(st.end)
    ensures var run := Assemble(rasters, st, simplify, override);
            && !run.ok && run.msg == FailureMsg(st.end.value)
            && run.simplify == (if st.end.value.SeedFailed? then override else simplify)
            && run.out.finals == FinalOf(st.start) + [rasters[0]] + Interleaved(rasters, st.interior, |st.interior|)
            && run.out.freespace == Finals(st.interior, |st.interior|)
            && run.out.ompl == Ompls(st.interior, |st.interior|)
            && run.out.startEnd == FinalOf(st.start)
            && run.out.omplStartEnd == OmplOf(st.start)
  {
    var n := |st.interior|;
    var start := BoundaryRun(st.start, simplify, override, Nothing);
    var base := Appended(FinalOf(st.start) + [rasters[0]], [], [], FinalOf(st.start), OmplOf(st.start));
    var mid := WithInterior(rasters, st.interior, n, base);
    assert Assemble(rasters, st, simplify, override) == BoundaryRun(st.end, simplify, override, mid) by {
      StartPlanned(st.start, simplify, override);
      assert start == Run(true, "", base.(finals := FinalOf(st.start)), simplify);
      InteriorSucceeds(rasters, st.interior, n, base, simplify);
    }
    BoundaryFails(st.end, simplify, override, mid);
    assert [] + Finals(st.interior, n) == Finals(st.interior, n);
    assert [] + Ompls(st.interior, n) == Ompls(st.interior, n);
  }

  /** A run succeeds exactly when every one of its steps is planned. */
  lemma AssembleOkIff(rasters: seq<JointTrajectory>, st: Steps, simplify: bool, override: bool)
    requires |rasters| > 0 && |st.interior| == |rasters| - 1
    ensures Assemble(rasters, st, simplify, override).ok <==> AllPlanned(st)
  {
    if AllPlanned(st) {
      AssembleSucceeds(rasters, st, simplify, override);
    } else if !StepPlanned(st.start) {
      AssembleStartFails(rasters, st, simplify, override);
    } else if !PlannedUpTo(st.interior, |st.interior|) {
      var i := FirstUnplanned(st.interior, |st.interior|);
      AssembleInteriorFails(rasters, st, simplify, override, i);
    } else {
      AssembleEndFails(rasters, st, simplify, override);
    }
  }

  // ---------------------------------------------------------------------------
  // Runs that start after earlier entries

  /** A boundary step after `out0` appends what it appends to its own base. */
  lemma BoundaryLifts(step: Option<Segment>, simplify: bool, override: bool, base: Appended, out0: Appended)
    ensures var a := BoundaryRun(step, simplify, override, Plus(out0, base));
            var b := BoundaryRun(step, simplify, override, base);
            a.ok == b.ok && a.msg == b.msg && a.simplify == b.simplify && a.out == Plus(out0, b.out)
  {
    if step.Some? && step.value.Planned? {
      var seg := step.value;
      assert out0.finals + base.finals + [seg.final] == out0.finals + (base.finals + [seg.final]);
      assert out0.startEnd + base.startEnd + [seg.final] == out0.startEnd + (base.startEnd + [seg.final]);
      assert out0.omplStartEnd + base.omplStartEnd + [seg.ompl] == out0.omplStartEnd + (base.omplStartEnd + [seg.ompl]);
    }
  }

  /** The interior rounds after `out0` append what they append to their own base, and
      keep the flag. */
  lemma {:induction false} InteriorLifts(rasters: seq<JointTrajectory>, segs: seq<Segment>, k: nat,
                                         base: Appended, out0: Appended, simplify: bool)
    requires k <= |segs| && |segs| < |rasters|
    ensures var a := InteriorRun(rasters, segs, k, Plus(out0, base), simplify);
            var b := InteriorRun(rasters, segs, k, base, simplify);
            a.ok == b.ok && a.msg == b.msg && a.simplify == b.simplify == simplify && a.out == Plus(out0, b.out)
  {
    if k > 0 {
      InteriorLifts(rasters, segs, k - 1, base, out0, simplify);
      var prev := InteriorRun(rasters, segs, k - 1, base, simplify);
      if prev.ok && segs[k - 1].Planned? {
        var seg := segs[k - 1];
        assert out0.finals + prev.out.finals + [seg.final, rasters[k]]
               == out0.finals + (prev.out.finals + [seg.final, rasters[k]]);
        assert out0.freespace + prev.out.freespace + [seg.final] == out0.freespace + (prev.out.freespace + [seg.final]);
        assert out0.ompl + prev.out.ompl + [seg.ompl] == out0.ompl + (prev.out.ompl + [seg.ompl]);
      }
    }
  }

  /** Everything after the start step, run after `out0`, appends what it appends alone. */
  lemma AfterStartLifts(rasters: seq<JointTrajectory>, st: Steps, simplify: bool, override: bool,
                        base: Appended, out0: Appended)
    requires |rasters| > 0 && |st.interior| == |rasters| - 1
    ensures var a := AfterStart(rasters, st, simplify, override, Plus(out0, base));
            var b := AfterStart(rasters, st, simplify, override, base);
            a.ok == b.ok && a.msg == b.msg && a.simplify == b.simplify && a.out == Plus(out0, b.out)
  {
    var first := base.(finals := base.finals + [rasters[0]]);
    assert Plus(out0, base).(finals := Plus(out0, base).finals + [rasters[0]]) == Plus(out0, first);
    InteriorLifts(rasters, st.interior, |st.interior|, first, out0, simplify);
    var interior := InteriorRun(rasters, st.interior, |st.interior|, first, simplify);
    BoundaryLifts(st.end, interior.simplify, override, interior.out, out0);
  }

  /** The whole run, after `out0`: what Assemble appends, after `out0`. */
  lemma AssembleAfter(rasters: seq<JointTrajectory>, st: Steps, simplify: bool, override: bool, out0: Appended)
    requires |rasters| > 0 && |st.interior| == |rasters| - 1
    ensures var start := BoundaryRun(st.start, simplify, override, out0);
            var run := Assemble(rasters, st, simplify, override);
            && (!start.ok ==> start == run.(out := Plus(out0, run.out)))
            && (start.ok ==> AfterStart(rasters, st, start.simplify, override, start.out) == run.(out := Plus(out0, run.out)))
  {
    assert Plus(out0, Nothing) == out0;
    BoundaryLifts(st.start, simplify, override, Nothing, out0);
    var start := BoundaryRun(st.start, simplify, override, Nothing);
    if start.ok {
      AfterStartLifts(rasters, st, start.simplify, override, start.out, out0);
    }
  }
}
