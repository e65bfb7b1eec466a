/** The goal choice of the Cartesian generateFreespacePlan (path_planning_utils.cpp, lines
    763-790): the sampler's solutions are read six joint values at a time, `j_num` apart,
    and the loop keeps the last one whose distance to the start is at most every distance
    seen so far, starting from the sentinel distance 999999. */
module GoalSelection {
  import opened Wrappers

  /** The starting value of the running minimum. */
  const NoSolutionDistance: real := 999999.0

  /** The solutions the loop reads: solution i is the six values from i * jNum on, for
      every i below |soln| / jNum; all of them must lie inside the sampler's vector. */
  predicate Readable(soln: seq<real>, jNum: nat)
  {
    jNum > 0 && (|soln| / jNum == 0 || (|soln| / jNum - 1) * jNum + 6 <= |soln|)
  }

  function SolutionCount(soln: seq<real>, jNum: nat): nat
    requires jNum > 0
  {
    |soln| / jNum
  }

  lemma CandidateInBounds(soln: seq<real>, jNum: nat, i: nat)
    requires Readable(soln, jNum) && i < SolutionCount(soln, jNum)
    ensures i * jNum + 6 <= |soln|
  {
    var c := SolutionCount(soln, jNum);
    assert i <= c - 1;
    assert i * jNum <= (c - 1) * jNum by {
      MulLeq(i, c - 1, jNum);
    }
  }

  lemma {:induction false} MulLeq(a: nat, b: nat, m: nat)
    requires a <= b
    ensures a * m <= b * m
  {
    if m > 0 {
      MulLeq(a, b, m - 1);
      assert a * m == a * (m - 1) + a;
      assert b * m == b * (m - 1) + b;
    }
  }

  /** Solution i: `curr_sol`. */
  function Candidate(soln: seq<real>, jNum: nat, i: nat): (c: seq<real>)
    requires Readable(soln, jNum) && i < SolutionCount(soln, jNum)
    ensures |c| == 6 && forall k :: 0 <= k < 6 ==> c[k] == soln[i * jNum + k]
  {
    CandidateInBounds(soln, jNum, i);
    soln[i * jNum .. i * jNum + 6]
  }

  /** The distance of every solution to the start. */
  function Distances(dist: (seq<real>, seq<real>) -> real, soln: seq<real>, jNum: nat, start: seq<real>): (d: seq<real>)
    requires Readable(soln, jNum)
    ensures |d| == SolutionCount(soln, jNum)
  {
    seq(SolutionCount(soln, jNum), i requires 0 <= i < SolutionCount(soln, jNum) => dist(Candidate(soln, jNum, i), start))
  }

  /** The loop settles on solution `b` when its distance is within the sentinel, no
      distance is smaller, and every later solution is strictly farther (ties go to the
      last); it settles on none when every distance exceeds the sentinel. */
  ghost predicate IsGoalChoice(d: seq<real>, choice: Option<nat>)
  {
    match choice
    case Some(b) =>
      && b < |d| && d[b] <= NoSolutionDistance
      && (forall j :: 0 <= j < |d| ==> d[b] <= d[j])
      && (forall j :: b < j < |d| ==> d[b] < d[j])
    case None => forall j :: 0 <= j < |d| ==> d[j] > NoSolutionDistance
  }

  /** The running choice and minimum after the first `k` distances. */
  function Scan(d: seq<real>, k: nat): (Option<nat>, real)
    requires k <= |d|
  {
    if k == 0 then (None, NoSolutionDistance)
    else
      var prev := Scan(d, k - 1);
      if d[k - 1] <= prev.1 then (Some(k - 1), d[k - 1]) else prev
  }

  function GoalIndex(d: seq<real>): Option<nat>
  {
    Scan(d, |d|).0
  }

  lemma {:induction false} ScanIsGoalChoice(d: seq<real>, k: nat)
    requires k <= |d|
    ensures IsGoalChoice(d[..k], Scan(d, k).0)
    ensures Scan(d, k).1 == (if Scan(d, k).0.Some? then d[Scan(d, k).0.value] else NoSolutionDistance)
  {
    if k > 0 {
      ScanIsGoalChoice(d, k - 1);
      assert d[..k - 1] == d[..k][..k - 1];
    }
  }

  /** At most one choice fits the description. */
  lemma GoalChoiceUnique(d: seq<real>, a: Option<nat>, b: Option<nat>)
    requires IsGoalChoice(d, a) && IsGoalChoice(d, b)
    ensures a == b
  {
  }

  /** GoalIndex picks the last minimum within the sentinel, and so is the only such choice. */
  lemma GoalIndexIsGoalChoice(d: seq<real>)
    ensures IsGoalChoice(d, GoalIndex(d))
    ensures forall c :: IsGoalChoice(d, c) ==> c == GoalIndex(d)
  {
    ScanIsGoalChoice(d, |d|);
    assert d[..|d|] == d;
    forall c | IsGoalChoice(d, c)
      ensures c == GoalIndex(d)
    {
      GoalChoiceUnique(d, c, GoalIndex(d));
    }
  }

  /** The joint goal: the chosen solution, or the start positions when no solution is
      within the sentinel. */
  function GoalPositions(dist: (seq<real>, seq<real>) -> real, soln: seq<real>, jNum: nat, start: seq<real>): seq<real>
    requires Readable(soln, jNum)
  {
    var d := Distances(dist, soln, jNum, start);
    var choice := GoalIndex(d);
    GoalIndexIsGoalChoice(d);
    if choice.Some? then Candidate(soln, jNum, choice.value) else start
  }
}
