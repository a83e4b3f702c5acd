/** The lattice planner's selection loop: pairs arrive from the evaluator
    in ranked order; each is checked as a pair of one-dimensional curves,
    then combined and checked as a trajectory, then checked for collision.
    The first pair to pass all three is written into the reference-line
    result holder and the cycle succeeds; if none passes, it fails. */
module LatticePlanner {
  import opened LatticeTypes
  import opened TrajectoryCombiner

  /** What the planner learns from everything outside the loop: the ranked
      pair stream of the evaluator, the three filters, the coordinate
      collaborators of the combiner and the sampling horizon. */
  datatype Collaborators = Collaborators(
    rankedPairs: seq<TrajectoryPair>,
    checkers: Checkers,
    geometry: Geometry,
    horizon: Horizon)

  predicate WellFormed(referenceLine: seq<PathPoint>, env: Collaborators)
  {
    |referenceLine| > 0 && env.horizon.trajectoryTimeResolution > 0.0
  }

  /** The trajectory the combiner builds for a pair: `lon` is the pair's
      first curve, `lat` its second. */
  function CombinedOf(referenceLine: seq<PathPoint>, initRelativeTime: real, env: Collaborators,
                      p: TrajectoryPair): seq<TrajectoryPoint>
    requires WellFormed(referenceLine, env)
  {
    Combined(referenceLine, p.lon, p.lat, initRelativeTime, env.horizon, env.geometry)
  }

  /** The first filter a pair fails, or Accepted. */
  datatype Verdict = RejectedAsPair | RejectedAsTrajectory | RejectedForCollision | Accepted

  function VerdictOf(referenceLine: seq<PathPoint>, initRelativeTime: real, env: Collaborators,
                     p: TrajectoryPair): Verdict
    requires WellFormed(referenceLine, env)
  {
    if !env.checkers.isValidTrajectoryPair(p.lat, p.lon) then RejectedAsPair
    else
      var traj := CombinedOf(referenceLine, initRelativeTime, env, p);
      if !env.checkers.isValidTrajectory(traj) then RejectedAsTrajectory
      else if env.checkers.inCollision(traj) then RejectedForCollision
      else Accepted
  }

  /** The verdict names the first filter the pair fails, in the order pair
      check, trajectory check, collision check: it is a pair rejection
      exactly when the pair check fails, a trajectory rejection exactly when
      the pair check passes and the trajectory check fails, a collision
      rejection exactly when both pass and the trajectory collides, and
      Accepted exactly when all three pass. */
  lemma VerdictOrder(referenceLine: seq<PathPoint>, initRelativeTime: real, env: Collaborators,
                     p: TrajectoryPair)
    requires WellFormed(referenceLine, env)
    ensures var v := VerdictOf(referenceLine, initRelativeTime, env, p);
            var traj := CombinedOf(referenceLine, initRelativeTime, env, p);
            var pairOk := env.checkers.isValidTrajectoryPair(p.lat, p.lon);
            && (v == RejectedAsPair <==> !pairOk)
            && (v == RejectedAsTrajectory <==> pairOk && !env.checkers.isValidTrajectory(traj))
            && (v == RejectedForCollision <==>
                  pairOk && env.checkers.isValidTrajectory(traj) && env.checkers.inCollision(traj))
            && (v == Accepted <==>
                  pairOk && env.checkers.isValidTrajectory(traj) && !env.checkers.inCollision(traj))
  {
  }

  /** The index of the first pair, at `from` or after it in ranked order,
      that passes all three filters, if any. */
  function FirstAcceptable(referenceLine: seq<PathPoint>, initRelativeTime: real, env: Collaborators,
                           pairs: seq<TrajectoryPair>, from: nat): (r: Option<nat>)
    requires WellFormed(referenceLine, env)
    requires from <= |pairs|
    ensures r.Some? ==> from <= r.value < |pairs|
    decreases |pairs| - from
  {
    if from == |pairs| then None
    else if VerdictOf(referenceLine, initRelativeTime, env, pairs[from]) == Accepted then Some(from)
    else FirstAcceptable(referenceLine, initRelativeTime, env, pairs, from + 1)
  }

  /** FirstAcceptable finds an accepted pair exactly when there is one, and
      the pair it finds is accepted while every pair ranked before it (from
      `from` on) is rejected. */
  lemma {:induction false} FirstAcceptableSpec(referenceLine: seq<PathPoint>, initRelativeTime: real,
                                               env: Collaborators, pairs: seq<TrajectoryPair>, from: nat)
    requires WellFormed(referenceLine, env)
    requires from <= |pairs|
    ensures var r := FirstAcceptable(referenceLine, initRelativeTime, env, pairs, from);
            && (r.Some? ==>
                  && from <= r.value < |pairs|
                  && VerdictOf(referenceLine, initRelativeTime, env, pairs[r.value]) == Accepted
                  && forall j :: from <= j < r.value ==>
                       VerdictOf(referenceLine, initRelativeTime, env, pairs[j]) != Accepted)
            && (r.None? <==>
                  forall j :: from <= j < |pairs| ==>
                    VerdictOf(referenceLine, initRelativeTime, env, pairs[j]) != Accepted)
    decreases |pairs| - from
  {
    if from < |pairs| && VerdictOf(referenceLine, initRelativeTime, env, pairs[from]) != Accepted {
      FirstAcceptableSpec(referenceLine, initRelativeTime, env, pairs, from + 1);
    }
  }

  /** An accepted pair with only rejected pairs ranked before it is the one
      FirstAcceptable returns. */
  lemma FirstAcceptableIs(referenceLine: seq<PathPoint>, initRelativeTime: real, env: Collaborators,
                          pairs: seq<TrajectoryPair>, k: nat)
    requires WellFormed(referenceLine, env)
    requires k < |pairs|
    requires VerdictOf(referenceLine, initRelativeTime, env, pairs[k]) == Accepted
    requires forall j :: 0 <= j < k ==> VerdictOf(referenceLine, initRelativeTime, env, pairs[j]) != Accepted
    ensures FirstAcceptable(referenceLine, initRelativeTime, env, pairs, 0) == Some(k)
  {
    FirstAcceptableSpec(referenceLine, initRelativeTime, env, pairs, 0);
  }

  /** The three rejection counters of one cycle. */
  datatype FailureCounts = FailureCounts(constraint: nat, combinedConstraint: nat, collision: nat)
  {
    function Total(): nat
    {
      constraint + combinedConstraint + collision
    }

    /** Counts one more pair with verdict `v`. */
    function Record(v: Verdict): (r: FailureCounts)
      ensures r.Total() == if v == Accepted then Total() else Total() + 1
    {
      match v
      case RejectedAsPair => this.(constraint := constraint + 1)
      case RejectedAsTrajectory => this.(combinedConstraint := combinedConstraint + 1)
      case RejectedForCollision => this.(collision := collision + 1)
      case Accepted => this
    }
  }

  /** The counters after the first `n` pairs have been examined in order. */
  function Tally(referenceLine: seq<PathPoint>, initRelativeTime: real, env: Collaborators,
                 pairs: seq<TrajectoryPair>, n: nat): FailureCounts
    requires WellFormed(referenceLine, env)
    requires n <= |pairs|
  {
    if n == 0 then FailureCounts(0, 0, 0)
    else
      Tally(referenceLine, initRelativeTime, env, pairs, n - 1)
        .Record(VerdictOf(referenceLine, initRelativeTime, env, pairs[n - 1]))
  }

  /** When every pair examined was rejected, each one was counted exactly
      once: the counters add up to the number of pairs examined. */
  lemma {:induction false} TallyAllRejected(referenceLine: seq<PathPoint>, initRelativeTime: real,
                                            env: Collaborators, pairs: seq<TrajectoryPair>, n: nat)
    requires WellFormed(referenceLine, env)
    requires n <= |pairs|
    requires forall j :: 0 <= j < n ==> VerdictOf(referenceLine, initRelativeTime, env, pairs[j]) != Accepted
    ensures Tally(referenceLine, initRelativeTime, env, pairs, n).Total() == n
  {
    if n > 0 {
      TallyAllRejected(referenceLine, initRelativeTime, env, pairs, n - 1);
    }
  }

  /** The number of pairs among the first `n` whose verdict is `v`. */
  function CountVerdict(referenceLine: seq<PathPoint>, initRelativeTime: real, env: Collaborators,
                        pairs: seq<TrajectoryPair>, n: nat, v: Verdict): (c: nat)
    requires WellFormed(referenceLine, env)
    requires n <= |pairs|
    ensures c <= n
  {
    if n == 0 then 0
    else
      CountVerdict(referenceLine, initRelativeTime, env, pairs, n - 1, v)
        + (if VerdictOf(referenceLine, initRelativeTime, env, pairs[n - 1]) == v then 1 else 0)
  }

  /** Each counter counts exactly the pairs rejected by its own filter: the
      pair-constraint counter the pair rejections, the combined-constraint
      counter the trajectory rejections, the collision counter the collision
      rejections. */
  lemma {:induction false} TallyCounts(referenceLine: seq<PathPoint>, initRelativeTime: real,
                                       env: Collaborators, pairs: seq<TrajectoryPair>, n: nat)
    requires WellFormed(referenceLine, env)
    requires n <= |pairs|
    ensures var t := Tally(referenceLine, initRelativeTime, env, pairs, n);
            && t.constraint == CountVerdict(referenceLine, initRelativeTime, env, pairs, n, RejectedAsPair)
            && t.combinedConstraint
               == CountVerdict(referenceLine, initRelativeTime, env, pairs, n, RejectedAsTrajectory)
            && t.collision == CountVerdict(referenceLine, initRelativeTime, env, pairs, n, RejectedForCollision)
  {
    if n > 0 {
      TallyCounts(referenceLine, initRelativeTime, env, pairs, n - 1);
      var v := VerdictOf(referenceLine, initRelativeTime, env, pairs[n - 1]);
      assert Tally(referenceLine, initRelativeTime, env, pairs, n)
             == Tally(referenceLine, initRelativeTime, env, pairs, n - 1).Record(v);
    }
  }

  /** The collision counter counts only collision rejections: a stream in
      which no pair was rejected for collision leaves it at zero. */
  lemma {:induction false} TallyNoCollisionRejections(referenceLine: seq<PathPoint>, initRelativeTime: real,
                                                      env: Collaborators, pairs: seq<TrajectoryPair>, n: nat)
    requires WellFormed(referenceLine, env)
    requires n <= |pairs|
    requires forall j :: 0 <= j < n ==> VerdictOf(referenceLine, initRelativeTime, env, pairs[j]) != RejectedForCollision
    ensures Tally(referenceLine, initRelativeTime, env, pairs, n).collision == 0
  {
    if n > 0 {
      TallyNoCollisionRejections(referenceLine, initRelativeTime, env, pairs, n - 1);
    }
  }

  /** Every pair examined before the loop stops is counted exactly once: up
      to the selected pair when there is one, otherwise the whole stream. */
  lemma FailuresCountExamined(referenceLine: seq<PathPoint>, initRelativeTime: real,
                              env: Collaborators, pairs: seq<TrajectoryPair>)
    requires WellFormed(referenceLine, env)
    ensures match FirstAcceptable(referenceLine, initRelativeTime, env, pairs, 0)
            case Some(k) => Tally(referenceLine, initRelativeTime, env, pairs, k).Total() == k
            case None => Tally(referenceLine, initRelativeTime, env, pairs, |pairs|).Total() == |pairs|
  {
    FirstAcceptableSpec(referenceLine, initRelativeTime, env, pairs, 0);
    match FirstAcceptable(referenceLine, initRelativeTime, env, pairs, 0)
    case Some(k) => TallyAllRejected(referenceLine, initRelativeTime, env, pairs, k);
    case None => TallyAllRejected(referenceLine, initRelativeTime, env, pairs, |pairs|);
  }

  /** The result holder of one reference line. */
  class ReferenceLineInfo {
    const referenceLine: seq<PathPoint>
    var priorityCost: real
    var trajectory: seq<TrajectoryPoint>
    var cost: real
    var drivable: bool

    constructor (referenceLine: seq<PathPoint>, priorityCost: real)
      ensures this.referenceLine == referenceLine && this.priorityCost == priorityCost
      ensures trajectory == [] && cost == 0.0 && !drivable
    {
      this.referenceLine := referenceLine;
      this.priorityCost := priorityCost;
      trajectory := [];
      cost := 0.0;
      drivable := false;
    }

    method SetTrajectory(t: seq<TrajectoryPoint>)
      modifies this`trajectory
      ensures trajectory == t
    {
      trajectory := t;
    }

    method SetCost(c: real)
      modifies this`cost
      ensures cost == c
    {
      cost := c;
    }

    method SetDrivable(d: bool)
      modifies this`drivable
      ensures drivable == d
    {
      drivable := d;
    }
  }

  /** The two process-wide cycle counters. */
  class CycleCounters {
    var numPlanningCycles: nat
    var numPlanningSucceededCycles: nat

    predicate Valid()
      reads this
    {
      numPlanningSucceededCycles <= numPlanningCycles
    }

    constructor ()
      ensures Valid() && numPlanningCycles == 0 && numPlanningSucceededCycles == 0
    {
      numPlanningCycles := 0;
      numPlanningSucceededCycles := 0;
    }
  }

  datatype ErrorCode = PlanningError

  datatype Status = Ok | Error(code: ErrorCode, message: string)

  /** The three filters applied to one pair, in the planner's order: the
      pair check on the two curves (lateral first), then, on the trajectory
      the combiner builds from them, the trajectory check and the collision
      check. `combined` is that trajectory whenever it was built. */
  method CheckPair(referenceLine: seq<PathPoint>, initRelativeTime: real, env: Collaborators,
                   pair: TrajectoryPair)
    returns (verdict: Verdict, combined: seq<TrajectoryPoint>)
    requires WellFormed(referenceLine, env)
    ensures verdict == VerdictOf(referenceLine, initRelativeTime, env, pair)
    ensures verdict != RejectedAsPair ==> combined == CombinedOf(referenceLine, initRelativeTime, env, pair)
  {
    combined := [];
    if !env.checkers.isValidTrajectoryPair(pair.lat, pair.lon) {
      return RejectedAsPair, combined;
    }
    combined := CombineTrajectory(referenceLine, pair.lon, pair.lat, initRelativeTime,
                                  env.horizon, env.geometry);
    if !env.checkers.isValidTrajectory(combined) {
      return RejectedAsTrajectory, combined;
    }
    if env.checkers.inCollision(combined) {
      return RejectedForCollision, combined;
    }
    return Accepted, combined;
  }

  /** The selection loop: pops the ranked pairs in order, counts each
      rejection under the filter that made it, and stops at the first pair
      that passes all three filters. `selected` is that pair's rank, and
      `combined` its trajectory. */
  method SelectTrajectory(referenceLine: seq<PathPoint>, initRelativeTime: real, env: Collaborators)
    returns (selected: Option<nat>, combined: seq<TrajectoryPoint>, failures: FailureCounts)
    requires WellFormed(referenceLine, env)
    ensures selected == FirstAcceptable(referenceLine, initRelativeTime, env, env.rankedPairs, 0)
    ensures selected.Some? ==>
              combined == CombinedOf(referenceLine, initRelativeTime, env, env.rankedPairs[selected.value])
    ensures failures == Tally(referenceLine, initRelativeTime, env, env.rankedPairs,
                              if selected.Some? then selected.value else |env.rankedPairs|)
  {
    var pairs := env.rankedPairs;
    failures := FailureCounts(0, 0, 0);
    combined := [];
    selected := None;
    var i := 0;
    while i < |pairs|
      invariant 0 <= i <= |pairs|
      invariant failures == Tally(referenceLine, initRelativeTime, env, pairs, i)
      invariant FirstAcceptable(referenceLine, initRelativeTime, env, pairs, 0)
                == FirstAcceptable(referenceLine, initRelativeTime, env, pairs, i)
      invariant selected == None
    {
      var pair := pairs[i];
      i := i + 1;

      var verdict, trajectory := CheckPair(referenceLine, initRelativeTime, env, pair);
      if verdict == RejectedAsPair {
        failures := failures.(constraint := failures.constraint + 1);
        continue;
      } else if verdict == RejectedAsTrajectory {
        failures := failures.(combinedConstraint := failures.combinedConstraint + 1);
        continue;
      } else if verdict == RejectedForCollision {
        failures := failures.(collision := failures.collision + 1);
        continue;
      }

      combined := trajectory;
      selected := Some(i - 1);
      return;
    }
  }

  /** One planning cycle. `initRelativeTime` is the relative time of the
      planning start point. */
  method Plan(initRelativeTime: real, info: ReferenceLineInfo, counters: CycleCounters, env: Collaborators)
    returns (status: Status, failures: FailureCounts)
    requires WellFormed(info.referenceLine, env)
    requires counters.Valid()
    modifies info, counters
    ensures counters.Valid()
    ensures counters.numPlanningCycles == old(counters.numPlanningCycles) + 1
    ensures info.priorityCost == old(info.priorityCost)
    ensures match FirstAcceptable(info.referenceLine, initRelativeTime, env, env.rankedPairs, 0)
            case Some(k) =>
              && status == Ok
              && info.trajectory == CombinedOf(info.referenceLine, initRelativeTime, env, env.rankedPairs[k])
              && info.cost == old(info.priorityCost) + env.rankedPairs[k].cost
              && info.drivable
              && counters.numPlanningSucceededCycles == old(counters.numPlanningSucceededCycles) + 1
              && failures == Tally(info.referenceLine, initRelativeTime, env, env.rankedPairs, k)
            case None =>
              && status == Error(PlanningError, "No feasible trajectories")
              && info.trajectory == old(info.trajectory)
              && info.cost == old(info.cost)
              && info.drivable == old(info.drivable)
              && counters.numPlanningSucceededCycles == old(counters.numPlanningSucceededCycles)
              && failures == Tally(info.referenceLine, initRelativeTime, env, env.rankedPairs, |env.rankedPairs|)
  {
    counters.numPlanningCycles := counters.numPlanningCycles + 1;
    var selected, combined;
    selected, combined, failures := SelectTrajectory(info.referenceLine, initRelativeTime, env);

    var numLatticeTraj := 0;
    if selected.Some? {
      numLatticeTraj := numLatticeTraj + 1;
      info.SetTrajectory(combined);
      info.SetCost(info.priorityCost + env.rankedPairs[selected.value].cost);
      info.SetDrivable(true);
      var shown := DebugDump(combined);
    }

    if numLatticeTraj > 0 {
      counters.numPlanningSucceededCycles := counters.numPlanningSucceededCycles + 1;
      info.SetDrivable(true);
      status := Ok;
    } else {
      status := Error(PlanningError, "No feasible trajectories");
    }
  }


  /** The debug listing of the selected trajectory as the planner writes it:
      it reads the first ten points whatever the trajectory's length, so it
      is only defined on trajectories of at least ten points. */
  method DebugDumpAsWritten(points: seq<TrajectoryPoint>) returns (shown: seq<TrajectoryPoint>)
    requires |points| >= 10
    ensures shown == points[..10]
  {
    shown := [];
    var i := 0;
    while i < 10
      invariant 0 <= i <= 10
      invariant shown == points[..i]
    {
      shown := shown + [points[i]];
      i := i + 1;
    }
  }

  /** The debug listing bounded by the trajectory's length: at most the
      first ten points, and never an index beyond the last point. */
  method DebugDump(points: seq<TrajectoryPoint>) returns (shown: seq<TrajectoryPoint>)
    ensures |shown| == if |points| < 10 then |points| else 10
    ensures shown == points[..|shown|]
  {
    shown := [];
    var i := 0;
    while i < 10 && i < |points|
      invariant 0 <= i <= 10 && i <= |points|
      invariant shown == points[..i]
    {
      shown := shown + [points[i]];
      i := i + 1;
    }
  }

  /** A cycle in which the planner accepts a pair whose combined trajectory
      has fewer than ten points. The longitudinal curve is s = 10 t and
      starts on a reference line that ends at s = 0, as a curve generated
      from the matched start point does; it leaves the line after the first
      step, so the combiner breaks after one point, and all three filters
      accept that one-point trajectory. The listing as written would read
      past its end. */
  lemma SelectedTrajectoryCanBeShort()
    ensures var line := [PathPoint(0.0, 0.0, 0.0, 0.0, 0.0, 0.0)];
            var lon := Curve1d((order: nat, t: real) => if order == 0 then 10.0 * t else 0.0, 8.0);
            var lat := Curve1d((order: nat, s: real) => 0.0, 8.0);
            var env := Collaborators(
              [TrajectoryPair(lon, lat, 0.0)],
              Checkers((lat: Curve1d, lon: Curve1d) => true,
                       (traj: seq<TrajectoryPoint>) => true,
                       (traj: seq<TrajectoryPoint>) => false),
              Geometry((l: seq<PathPoint>, s: real) => PathPoint(0.0, 0.0, 0.0, 0.0, 0.0, s),
                       (m: PathPoint, sc: FrenetState, dc: FrenetState) =>
                         CartesianState(0.0, 0.0, 0.0, 0.0, 0.0, 0.0)),
              Horizon(8.0, 0.1));
            && WellFormed(line, env)
            && lon.evaluate(0, 0.0) <= line[|line| - 1].s
            && FirstAcceptable(line, 0.0, env, env.rankedPairs, 0) == Some(0)
            && |CombinedOf(line, 0.0, env, env.rankedPairs[0])| == 1
  {
    var line := [PathPoint(0.0, 0.0, 0.0, 0.0, 0.0, 0.0)];
    var lon := Curve1d((order: nat, t: real) => if order == 0 then 10.0 * t else 0.0, 8.0);
    var lat := Curve1d((order: nat, s: real) => 0.0, 8.0);
    var env := Collaborators(
      [TrajectoryPair(lon, lat, 0.0)],
      Checkers((lat: Curve1d, lon: Curve1d) => true,
               (traj: seq<TrajectoryPoint>) => true,
               (traj: seq<TrajectoryPoint>) => false),
      Geometry((l: seq<PathPoint>, s: real) => PathPoint(0.0, 0.0, 0.0, 0.0, 0.0, s),
               (m: PathPoint, sc: FrenetState, dc: FrenetState) =>
                 CartesianState(0.0, 0.0, 0.0, 0.0, 0.0, 0.0)),
      Horizon(8.0, 0.1));
    StepInsideHorizon(env.horizon, 0);
    StepInsideHorizon(env.horizon, 1);
    assert StepTime(env.horizon, 1) == 0.1;
    assert PointsFrom(line, lon, lat, 0.0, env.horizon, env.geometry, 1) == [];
    assert |CombinedOf(line, 0.0, env, env.rankedPairs[0])| == 1;
    assert VerdictOf(line, 0.0, env, env.rankedPairs[0]) == Accepted;
  }

}
