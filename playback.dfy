/** What the trajectory playback of the process planner test node emits.

    The node's observable output is one log of events: trajectories handed to the
    publisher, the blocking sleeps between them, and the console lines. The functions
    below give the exact log the plan callback produces; `Schedule` reads that log as
    "which trajectory was published, and how long the node waited before publishing the
    next one", and the lemmas state that schedule in closed form. */
module Playback {
  import opened Messages

  /** crs_msgs/ProcessMotionPlan. */
  datatype ProcessMotionPlan = ProcessMotionPlan(start: JointTrajectory,
                                                 processMotions: seq<JointTrajectory>,
                                                 freeMotions: seq<JointTrajectory>,
                                                 end: JointTrajectory)

  /** The response of the plan_process_motion service. */
  datatype PlanResponse = PlanResponse(succeeded: bool, errMsg: string, plans: seq<ProcessMotionPlan>)

  /** A console line: free text, or a progress line printed as "<caption>\t<count> OF <total>". */
  datatype ConsoleLine = Text(text: string) | Progress(caption: string, count: nat, total: nat)

  datatype Event =
    | Publish(trajectory: JointTrajectory)
    | Sleep(seconds: nat)
    | Print(line: ConsoleLine)

  /** Captions of the progress lines and the closing line. */
  const ProcessCaption: string := "PUBLISHING PROCESS"
  const SurfaceCaption: string := "PUBLISHING SURFACE"
  const FreespaceCaption: string := "PUBLISHING FREESPACE"
  const DoneMessage: string := "ALL DONE"

  /** Seconds slept after publishing a process motion. */
  const ProcessPause: nat := 2

  /** Seconds slept after publishing a start or freespace trajectory (integer division). */
  function Pause(t: JointTrajectory): nat
  {
    |t.points| / 10 + 1
  }

  /** The callback indexes `process_motions[i]` for every freespace index and calls
      `process_motions.back()`: both are in bounds exactly when this holds. */
  predicate Playable(p: ProcessMotionPlan)
  {
    1 <= |p.processMotions| && |p.freeMotions| <= |p.processMotions|
  }

  predicate PlayableResponse(r: PlanResponse)
  {
    r.succeeded ==> forall j :: 0 <= j < |r.plans| ==> Playable(r.plans[j])
  }

  // ---------------------------------------------------------------------------
  // The event log, step by step as the callback writes it

  function StartEvents(p: ProcessMotionPlan): seq<Event>
  {
    if |p.start.points| > 0 then [Publish(p.start), Sleep(Pause(p.start))] else []
  }

  function PairEvents(p: ProcessMotionPlan, i: nat): seq<Event>
    requires Playable(p) && i < |p.freeMotions|
  {
    [ Print(Progress(SurfaceCaption, i + 1, |p.processMotions|)),
      Publish(p.processMotions[i]),
      Sleep(ProcessPause),
      Print(Progress(FreespaceCaption, i + 1, |p.freeMotions|)),
      Publish(p.freeMotions[i]),
      Sleep(Pause(p.freeMotions[i])) ]
  }

  /** The events of the first `k` rounds of the process/freespace loop. */
  function InterleaveEvents(p: ProcessMotionPlan, k: nat): seq<Event>
    requires Playable(p) && k <= |p.freeMotions|
  {
    if k == 0 then [] else InterleaveEvents(p, k - 1) + PairEvents(p, k - 1)
  }

  function FinishEvents(p: ProcessMotionPlan): seq<Event>
    requires Playable(p)
  {
    [ Print(Progress(SurfaceCaption, |p.processMotions|, |p.processMotions|)),
      Publish(Last(p.processMotions)),
      Sleep(ProcessPause) ]
  }

  function EndEvents(p: ProcessMotionPlan): seq<Event>
  {
    if |p.end.points| > 0 then [Publish(p.end)] else []
  }

  /** Everything plan number `j` (0-based) of `total` emits. */
  function PlanEvents(p: ProcessMotionPlan, j: nat, total: nat): seq<Event>
    requires Playable(p)
  {
    [Print(Progress(ProcessCaption, j + 1, total))]
    + StartEvents(p) + InterleaveEvents(p, |p.freeMotions|) + FinishEvents(p) + EndEvents(p)
  }

  /** The events of the first `k` plans, in index order. */
  function PlansEvents(plans: seq<ProcessMotionPlan>, k: nat): seq<Event>
    requires k <= |plans|
    requires forall j :: 0 <= j < |plans| ==> Playable(plans[j])
  {
    if k == 0 then [] else PlansEvents(plans, k - 1) + PlanEvents(plans[k - 1], k - 1, |plans|)
  }

  /** One more plan appends its events. */
  lemma PlansEventsStep(plans: seq<ProcessMotionPlan>, k: nat)
    requires k < |plans|
    requires forall j :: 0 <= j < |plans| ==> Playable(plans[j])
    ensures PlansEvents(plans, k + 1) == PlansEvents(plans, k) + PlanEvents(plans[k], k, |plans|)
  {
  }

  /** The whole log of one call of the plan callback. */
  function CallbackEvents(r: PlanResponse): seq<Event>
    requires PlayableResponse(r)
  {
    if r.succeeded then PlansEvents(r.plans, |r.plans|) + [Print(Text(DoneMessage))]
    else [Print(Text(r.errMsg))]
  }

  // ---------------------------------------------------------------------------
  // Reading a log as a publication schedule

  /** A published trajectory and the seconds slept before the next publish. */
  datatype Slot = Slot(trajectory: JointTrajectory, pause: nat)

  function HasPublish(s: seq<Event>): bool
  {
    if s == [] then false else s[0].Publish? || HasPublish(s[1..])
  }

  /** Seconds slept before the first publish of `s` (all of them when nothing is published). */
  function SleepBeforePublish(s: seq<Event>): nat
  {
    if s == [] then 0
    else match s[0]
      case Publish(_) => 0
      case Sleep(d) => d + SleepBeforePublish(s[1..])
      case Print(_) => SleepBeforePublish(s[1..])
  }

  function Schedule(s: seq<Event>): seq<Slot>
  {
    if s == [] then []
    else match s[0]
      case Publish(t) => [Slot(t, SleepBeforePublish(s[1..]))] + Schedule(s[1..])
      case _ => Schedule(s[1..])
  }

  // ---------------------------------------------------------------------------
  // The schedule in closed form

  function StartSlots(p: ProcessMotionPlan): seq<Slot>
  {
    if |p.start.points| > 0 then [Slot(p.start, Pause(p.start))] else []
  }

  /** process[i] then free[i], for i < k. */
  function PairSlots(p: ProcessMotionPlan, k: nat): seq<Slot>
    requires Playable(p) && k <= |p.freeMotions|
  {
    if k == 0 then []
    else PairSlots(p, k - 1)
         + [Slot(p.processMotions[k - 1], ProcessPause), Slot(p.freeMotions[k - 1], Pause(p.freeMotions[k - 1]))]
  }

  function EndSlots(p: ProcessMotionPlan): seq<Slot>
  {
    if |p.end.points| > 0 then [Slot(p.end, 0)] else []
  }

  function PlanSlots(p: ProcessMotionPlan): seq<Slot>
    requires Playable(p)
  {
    StartSlots(p) + PairSlots(p, |p.freeMotions|) + [Slot(Last(p.processMotions), ProcessPause)] + EndSlots(p)
  }

  function AllSlots(plans: seq<ProcessMotionPlan>, k: nat): seq<Slot>
    requires k <= |plans|
    requires forall j :: 0 <= j < |plans| ==> Playable(plans[j])
  {
    if k == 0 then [] else AllSlots(plans, k - 1) + PlanSlots(plans[k - 1])
  }

  // ---------------------------------------------------------------------------
  // Lemmas

  lemma {:induction false} SleepBeforePublishConcat(a: seq<Event>, b: seq<Event>)
    ensures SleepBeforePublish(a + b)
            == SleepBeforePublish(a) + (if HasPublish(a) then 0 else SleepBeforePublish(b))
  {
    if a != [] {
      assert (a + b)[1..] == a[1..] + b;
      SleepBeforePublishConcat(a[1..], b);
    } else {
      assert a + b == b;
    }
  }

  /** A log whose second part starts publishing without sleeping splits into two schedules. */
  lemma {:induction false} ScheduleConcat(a: seq<Event>, b: seq<Event>)
    requires SleepBeforePublish(b) == 0
    ensures Schedule(a + b) == Schedule(a) + Schedule(b)
  {
    if a == [] {
      assert a + b == b;
    } else {
      assert (a + b)[1..] == a[1..] + b;
      ScheduleConcat(a[1..], b);
      SleepBeforePublishConcat(a[1..], b);
    }
  }

  /** How one event in front of a log changes its schedule. */
  lemma ScheduleCons(e: Event, s: seq<Event>)
    ensures SleepBeforePublish([e] + s)
            == (match e case Publish(_) => 0 case Sleep(d) => d + SleepBeforePublish(s)
                        case Print(_) => SleepBeforePublish(s))
    ensures Schedule([e] + s)
            == (if e.Publish? then [Slot(e.trajectory, SleepBeforePublish(s))] else []) + Schedule(s)
  {
    assert ([e] + s)[0] == e;
    assert ([e] + s)[1..] == s;
  }

  lemma PairSchedule(p: ProcessMotionPlan, i: nat)
    requires Playable(p) && i < |p.freeMotions|
    ensures SleepBeforePublish(PairEvents(p, i)) == 0
    ensures Schedule(PairEvents(p, i))
            == [Slot(p.processMotions[i], ProcessPause), Slot(p.freeMotions[i], Pause(p.freeMotions[i]))]
  {
    var free := p.freeMotions[i];
    var e6: seq<Event> := [Sleep(Pause(free))];
    var e5 := [Publish(free)] + e6;
    var e4 := [Print(Progress(FreespaceCaption, i + 1, |p.freeMotions|))] + e5;
    var e3 := [Sleep(ProcessPause)] + e4;
    var e2 := [Publish(p.processMotions[i])] + e3;
    var e1 := [Print(Progress(SurfaceCaption, i + 1, |p.processMotions|))] + e2;
    ScheduleCons(Sleep(Pause(free)), []);
    assert [Sleep(Pause(free))] + [] == e6;
    ScheduleCons(Publish(free), e6);
    ScheduleCons(Print(Progress(FreespaceCaption, i + 1, |p.freeMotions|)), e5);
    ScheduleCons(Sleep(ProcessPause), e4);
    ScheduleCons(Publish(p.processMotions[i]), e3);
    ScheduleCons(Print(Progress(SurfaceCaption, i + 1, |p.processMotions|)), e2);
    assert PairEvents(p, i) == e1;
  }

  lemma {:induction false} InterleaveSchedule(p: ProcessMotionPlan, k: nat)
    requires Playable(p) && k <= |p.freeMotions|
    ensures SleepBeforePublish(InterleaveEvents(p, k)) == 0
    ensures Schedule(InterleaveEvents(p, k)) == PairSlots(p, k)
  {
    if k > 0 {
      InterleaveSchedule(p, k - 1);
      PairSchedule(p, k - 1);
      SleepBeforePublishConcat(InterleaveEvents(p, k - 1), PairEvents(p, k - 1));
      ScheduleConcat(InterleaveEvents(p, k - 1), PairEvents(p, k - 1));
    }
  }

  lemma TailSchedule(p: ProcessMotionPlan)
    requires Playable(p)
    ensures SleepBeforePublish(FinishEvents(p) + EndEvents(p)) == 0
    ensures Schedule(FinishEvents(p) + EndEvents(p)) == [Slot(Last(p.processMotions), ProcessPause)] + EndSlots(p)
  {
    var e3 := [Sleep(ProcessPause)] + EndEvents(p);
    var e2 := [Publish(Last(p.processMotions))] + e3;
    var e1 := [Print(Progress(SurfaceCaption, |p.processMotions|, |p.processMotions|))] + e2;
    if |p.end.points| > 0 {
      ScheduleCons(Publish(p.end), []);
      assert [Publish(p.end)] + [] == EndEvents(p);
    }
    ScheduleCons(Sleep(ProcessPause), EndEvents(p));
    ScheduleCons(Publish(Last(p.processMotions)), e3);
    ScheduleCons(Print(Progress(SurfaceCaption, |p.processMotions|, |p.processMotions|)), e2);
    assert FinishEvents(p) + EndEvents(p) == e1;
  }

  lemma StartSchedule(p: ProcessMotionPlan)
    ensures SleepBeforePublish(StartEvents(p)) == 0
    ensures Schedule(StartEvents(p)) == StartSlots(p)
  {
    if |p.start.points| > 0 {
      var e2: seq<Event> := [Sleep(Pause(p.start))];
      ScheduleCons(Sleep(Pause(p.start)), []);
      assert [Sleep(Pause(p.start))] + [] == e2;
      ScheduleCons(Publish(p.start), e2);
      assert [Publish(p.start)] + e2 == StartEvents(p);
    }
  }

  /** One plan is published in the order start (if it has points), process[i] and free[i]
      for every freespace index, the last process motion again, and end (if it has points);
      the node then waits Pause(start), 2 s, Pause(free[i]), 2 s, and nothing after end. */
  lemma PlanSchedule(p: ProcessMotionPlan, j: nat, total: nat)
    requires Playable(p)
    ensures SleepBeforePublish(PlanEvents(p, j, total)) == 0
    ensures Schedule(PlanEvents(p, j, total)) == PlanSlots(p)
  {
    var start, body := StartEvents(p), InterleaveEvents(p, |p.freeMotions|);
    var tail := FinishEvents(p) + EndEvents(p);
    var line := Print(Progress(ProcessCaption, j + 1, total));
    var rest := start + (body + tail);
    var slots := StartSlots(p) + (PairSlots(p, |p.freeMotions|) + ([Slot(Last(p.processMotions), ProcessPause)] + EndSlots(p)));
    assert SleepBeforePublish(rest) == 0 && Schedule(rest) == slots by {
      BodyTailSchedule(p);
      StartSchedule(p);
      ScheduleConcat(start, body + tail);
      SleepBeforePublishConcat(start, body + tail);
    }
    assert PlanEvents(p, j, total) == [line] + rest by {
      Assoc([line] + start + body, FinishEvents(p), EndEvents(p));
      Regroup([line], start, body, tail);
    }
    assert SleepBeforePublish([line] + rest) == 0 && Schedule([line] + rest) == slots by {
      ScheduleCons(line, rest);
    }
    assert PlanSlots(p) == slots by {
      Regroup(StartSlots(p), PairSlots(p, |p.freeMotions|), [Slot(Last(p.processMotions), ProcessPause)], EndSlots(p));
    }
  }

  /** The pairs and the finishing step together: published without a sleep in front. */
  lemma BodyTailSchedule(p: ProcessMotionPlan)
    requires Playable(p)
    ensures var bt := InterleaveEvents(p, |p.freeMotions|) + (FinishEvents(p) + EndEvents(p));
            && SleepBeforePublish(bt) == 0
            && Schedule(bt) == PairSlots(p, |p.freeMotions|) + ([Slot(Last(p.processMotions), ProcessPause)] + EndSlots(p))
  {
    var body := InterleaveEvents(p, |p.freeMotions|);
    var tail := FinishEvents(p) + EndEvents(p);
    InterleaveSchedule(p, |p.freeMotions|);
    TailSchedule(p);
    ScheduleConcat(body, tail);
    SleepBeforePublishConcat(body, tail);
  }

  lemma Regroup<T>(a: seq<T>, b: seq<T>, c: seq<T>, d: seq<T>)
    ensures a + (b + (c + d)) == a + b + c + d
  {
  }

  lemma Assoc<T>(a: seq<T>, b: seq<T>, c: seq<T>)
    ensures a + b + c == a + (b + c)
  {
  }

  lemma {:induction false} PlansSchedule(plans: seq<ProcessMotionPlan>, k: nat)
    requires k <= |plans|
    requires forall j :: 0 <= j < |plans| ==> Playable(plans[j])
    ensures Schedule(PlansEvents(plans, k)) == AllSlots(plans, k)
  {
    if k > 0 {
      PlansSchedule(plans, k - 1);
      PlanSchedule(plans[k - 1], k - 1, |plans|);
      ScheduleConcat(PlansEvents(plans, k - 1), PlanEvents(plans[k - 1], k - 1, |plans|));
    }
  }

  /** A failed response publishes nothing and prints its error message and nothing else;
      a successful one publishes the plans' schedules in index order. */
  lemma CallbackSchedule(r: PlanResponse)
    requires PlayableResponse(r)
    ensures !r.succeeded ==> CallbackEvents(r) == [Print(Text(r.errMsg))] && Schedule(CallbackEvents(r)) == []
    ensures r.succeeded ==> Schedule(CallbackEvents(r)) == AllSlots(r.plans, |r.plans|)
  {
    if r.succeeded {
      PlansSchedule(r.plans, |r.plans|);
      ScheduleConcat(PlansEvents(r.plans, |r.plans|), [Print(Text(DoneMessage))]);
    }
  }

  lemma {:induction false} PairSlotsAt(p: ProcessMotionPlan, k: nat)
    requires Playable(p) && k <= |p.freeMotions|
    ensures |PairSlots(p, k)| == 2 * k
    ensures forall i :: 0 <= i < k ==>
              PairSlots(p, k)[2 * i] == Slot(p.processMotions[i], ProcessPause)
              && PairSlots(p, k)[2 * i + 1] == Slot(p.freeMotions[i], Pause(p.freeMotions[i]))
  {
    if k > 0 {
      PairSlotsAt(p, k - 1);
    }
  }

  /** Position by position: with s = (start has points ? 1 : 0) and e likewise for end,
      a plan yields s + 2·|free| + 1 + e publishes. */
  lemma PlanSlotsAt(p: ProcessMotionPlan)
    requires Playable(p)
    ensures var s := if |p.start.points| > 0 then 1 else 0;
            var e := if |p.end.points| > 0 then 1 else 0;
            var n := |p.freeMotions|;
            && |PlanSlots(p)| == s + 2 * n + 1 + e
            && (s == 1 ==> PlanSlots(p)[0] == Slot(p.start, Pause(p.start)))
            && (forall i :: 0 <= i < n ==>
                  PlanSlots(p)[s + 2 * i] == Slot(p.processMotions[i], ProcessPause)
                  && PlanSlots(p)[s + 2 * i + 1] == Slot(p.freeMotions[i], Pause(p.freeMotions[i])))
            && PlanSlots(p)[s + 2 * n] == Slot(Last(p.processMotions), ProcessPause)
            && (e == 1 ==> PlanSlots(p)[s + 2 * n + 1] == Slot(p.end, 0))
  {
    var n := |p.freeMotions|;
    var s := if |p.start.points| > 0 then 1 else 0;
    var a, b := StartSlots(p), PairSlots(p, n);
    var c := [Slot(Last(p.processMotions), ProcessPause)] + EndSlots(p);
    var all := PlanSlots(p);
    assert |a| == s;
    assert |b| == 2 * n by {
      PairSlotsAt(p, n);
    }
    assert all == a + b + c by {
      Assoc(a + b, [Slot(Last(p.processMotions), ProcessPause)], EndSlots(p));
    }
    forall i | 0 <= i < n
      ensures all[s + 2 * i] == Slot(p.processMotions[i], ProcessPause)
      ensures all[s + 2 * i + 1] == Slot(p.freeMotions[i], Pause(p.freeMotions[i]))
    {
      PairSlotsAt(p, n);
      assert all[s + 2 * i] == b[2 * i];
      assert all[s + 2 * i + 1] == b[2 * i + 1];
    }
    assert all[s + 2 * n] == c[0];
    if |p.end.points| > 0 {
      assert all[s + 2 * n + 1] == c[1];
    }
  }

  /** With no freespace motion, the one process motion is published once, by the finishing
      step, between the start and end blocks. */
  lemma SingleProcessMotion(p: ProcessMotionPlan)
    requires |p.processMotions| == 1 && p.freeMotions == []
    ensures Playable(p)
    ensures PlanSlots(p) == StartSlots(p) + [Slot(p.processMotions[0], ProcessPause)] + EndSlots(p)
  {
  }

  /** A start trajectory of 20 points is followed by 3 s, a freespace one of 37 points by 4 s. */
  lemma PauseExamples(t: JointTrajectory)
    ensures |t.points| == 20 ==> Pause(t) == 3
    ensures |t.points| == 37 ==> Pause(t) == 4
    ensures |t.points| == 9 ==> Pause(t) == 1
  {
  }
}
