# Lattice planner: candidate selection and trajectory combination

This project models the core of one planning cycle of the lattice planner
of the Apollo planning module, `LatticePlanner::Plan` and
`LatticePlanner::CombineTrajectory` in
`modules/planning/planner/lattice/lattice_planner.cc`.

- **Selection loop.** The trajectory evaluator yields
  (longitudinal curve, lateral curve, cost) pairs in ranked order. The
  planner applies three filters to each pair in a fixed order:
  - the one-dimensional pair check;
  - the check of the combined two-dimensional trajectory;
  - the collision check.

  Each rejection is counted under the first filter that failed. The first
  pair that passes all three is written into the reference line's result
  holder: its trajectory, its cost (the line's priority cost plus the
  pair's cost) and the drivable flag. The cycle then returns OK. If no
  pair passes, the cycle returns `PLANNING_ERROR` with
  "No feasible trajectories". Two process-wide counters record how many
  cycles ran and how many succeeded.
- **Combiner.** It samples the longitudinal curve at `t = 0, res, 2·res, …`
  while `t` stays below the planned horizon. It stops early at the first
  sample whose arc length `s` lies beyond the last point of the reference
  line. The lateral curve is sampled at `s - s0`. Each sample is converted
  to Cartesian coordinates and stamped with `t + init_relative_time`.

The collaborators defined in other files are fields of function type:
- the two curves;
- the reference-line matcher;
- the Frenet-to-Cartesian conversion;
- the constraint and collision checkers.

The proofs therefore hold for every choice of these functions.

Files:
- `lattice_types.dfy` (module `LatticeTypes`) holds the value types.
- `trajectory_combiner.dfy` (module `TrajectoryCombiner`) holds the
  combiner. It has:
  - a specification function `Combined`;
  - the loop method `CombineTrajectory`, proved equal to it;
  - lemmas on the length, contents and time stamps of the result.
- `lattice_planner.dfy` (module `LatticePlanner`) holds:
  - the verdict of one pair;
  - `FirstAcceptable`, the rank of the first accepted pair;
  - `Tally`, the failure counters after `n` pairs;
  - the classes `ReferenceLineInfo` and `CycleCounters`;
  - the selection loop and `Plan`;
  - the debug listing finding.

## Model

| member | source | states |
|---|---|---|
| TrajectoryCombiner.CombineTrajectory | modules/planning/planner/lattice/lattice_planner.cc:309-374 | The sampling loop, with its early break, produces exactly the trajectory `Combined` describes. |
| TrajectoryCombiner.CombinedAt | modules/planning/planner/lattice/lattice_planner.cc:314-369 | Point j is sampled at t = j·res, with t below the horizon and s = lon(0,t) ≤ s_ref_max. The lateral curve is queried at s − lon(0,0). The conversion receives (matched.s, lon′(t), lon″(t)) and (d, d′, d″) at that parameter. The relative time is init_relative_time + j·res. |
| TrajectoryCombiner.CombinedLength | modules/planning/planner/lattice/lattice_planner.cc:315-328 | The output has at most as many points as there are steps below the horizon. It is shorter only when the longitudinal curve at the first missing step lies beyond s_ref_max. |
| TrajectoryCombiner.CombinedEmpty | modules/planning/planner/lattice/lattice_planner.cc:320-328 | With at least one step below the horizon, the output is empty exactly when lon(0,0) > s_ref_max. With none, it is always empty. |
| TrajectoryCombiner.CombinedTimes | modules/planning/planner/lattice/lattice_planner.cc:319-371 | The first point carries init_relative_time, and relative times strictly increase along the trajectory. |
| TrajectoryCombiner.StepInsideHorizon | modules/planning/planner/lattice/lattice_planner.cc:319-320 | Step k runs (k·res below the horizon) exactly when k < StepCount, the ceiling of horizon / res. |
| TrajectoryCombiner.HorizonSteps | modules/planning/planner/lattice/lattice_planner.cc:319-320 | There is a step count n such that step k runs exactly when k < n. |
| TrajectoryCombiner.StepTimeIsProduct | modules/planning/planner/lattice/lattice_planner.cc:319-371 | The time accumulated by k additions of res equals k·res. |
| TrajectoryCombiner.StepTimeIncreasing | modules/planning/planner/lattice/lattice_planner.cc:319-371 | With a positive resolution, a later step has a strictly later time. |
| TrajectoryCombiner.PointsFromAt | modules/planning/planner/lattice/lattice_planner.cc:320-371 | From step k on, element j of the remaining output is the sample at step k+j. That step lies below the horizon and within the reference line. |
| TrajectoryCombiner.PointsFromLength | modules/planning/planner/lattice/lattice_planner.cc:320-328 | From step k on, the remaining output stops either at the horizon or at the first step beyond s_ref_max. |
| LatticePlanner.CheckPair | modules/planning/planner/lattice/lattice_planner.cc:173-196 | Applies the filters in the order pair check (lateral curve first), trajectory check, collision check. The verdict is the first that fails. The trajectory checked is the one the combiner builds from (pair.first, pair.second) as (lon, lat). |
| LatticePlanner.SelectTrajectory | modules/planning/planner/lattice/lattice_planner.cc:164-267 | The loop selects the first pair in ranked order that all filters accept, or none. It returns that pair's combined trajectory. Its counters equal Tally over exactly the pairs popped before it stopped. |
| LatticePlanner.FirstAcceptable | modules/planning/planner/lattice/lattice_planner.cc:164-267 | The selected rank, when there is one, lies within the stream and not before the starting rank. |
| LatticePlanner.FirstAcceptableSpec | modules/planning/planner/lattice/lattice_planner.cc:164-267 | The selected pair is accepted and every pair ranked before it is rejected. No pair is selected exactly when every pair is rejected. |
| LatticePlanner.FirstAcceptableIs | modules/planning/planner/lattice/lattice_planner.cc:164-267 | An accepted pair whose predecessors are all rejected is the selected one. |
| LatticePlanner.VerdictOrder | modules/planning/planner/lattice/lattice_planner.cc:173-196 | The verdict is the first filter failed, as four if-and-only-ifs. A pair rejection iff the pair check fails. A trajectory rejection iff the pair check passes and the trajectory check fails. A collision rejection iff both pass and the trajectory collides. Accepted iff all three pass. |
| LatticePlanner.FailureCounts.Record | modules/planning/planner/lattice/lattice_planner.cc:174-196 | A rejection adds exactly one to the total of the three counters, and an acceptance adds nothing. Which counter each verdict increments is stated by TallyCounts. |
| LatticePlanner.TallyAllRejected | modules/planning/planner/lattice/lattice_planner.cc:140-196 | When every examined pair is rejected, the three counters add up to the number examined. |
| LatticePlanner.FailuresCountExamined | modules/planning/planner/lattice/lattice_planner.cc:140-267 | On success, the counters sum to the selected pair's rank. On exhaustion, they sum to the length of the stream. |
| LatticePlanner.TallyCounts | modules/planning/planner/lattice/lattice_planner.cc:140-196 | Each counter equals the number of examined pairs whose first failed filter is its own: pair check, trajectory check, collision check. |
| LatticePlanner.TallyNoCollisionRejections | modules/planning/planner/lattice/lattice_planner.cc:141-196 | The collision counter stays at zero when no examined pair was rejected for collision. |
| LatticePlanner.Plan | modules/planning/planner/lattice/lattice_planner.cc:54-307 | The cycle counter rises by one and the succeeded count never exceeds it. If a pair is selected: the status is OK; the holder gets its combined trajectory, the cost priority cost + the pair's cost, and drivable; the success counter rises by one. Otherwise: the status is PLANNING_ERROR "No feasible trajectories"; trajectory, cost, drivable flag and success counter are unchanged. In both cases the failure counts are the Tally of the pairs popped. |
| LatticePlanner.CycleCounters.constructor | modules/planning/planner/lattice/lattice_planner.cc:57-58 | Both static counters start at zero. |
| LatticePlanner.ReferenceLineInfo.SetTrajectory | modules/planning/planner/lattice/lattice_planner.cc:202-202 | Stores the trajectory and changes nothing else. |
| LatticePlanner.ReferenceLineInfo.SetCost | modules/planning/planner/lattice/lattice_planner.cc:203-204 | Stores the cost and changes nothing else. |
| LatticePlanner.ReferenceLineInfo.SetDrivable | modules/planning/planner/lattice/lattice_planner.cc:205-205 | Stores the drivable flag and changes nothing else. |
| LatticePlanner.DebugDumpAsWritten | modules/planning/planner/lattice/lattice_planner.cc:263-265 | The debug loop as written lists the first ten points. It is defined only for trajectories of at least ten points. |
| LatticePlanner.DebugDump | modules/planning/planner/lattice/lattice_planner.cc:263-265 | Lists min(10, length) points, the prefix of the trajectory, and never reads past its end. |
| LatticePlanner.SelectedTrajectoryCanBeShort | modules/planning/planner/lattice/lattice_planner.cc:263-265 | There is a well-formed cycle whose selected pair has a combined trajectory of fewer than ten points (exactly one). Its longitudinal curve starts on the reference line, as a curve generated from the matched start point does. |

## Left out

- Logging and timing: every log statement and clock reading is left out. They do not affect control flow.
- Steps 1 to 6 of `Plan` (lines 69-138) are left out. These are:
  - discretizing the reference line;
  - matching the start point;
  - computing the initial Frenet state;
  - the decider and the path-time neighbourhood;
  - generating the curve bundles;
  - constructing the evaluator.

  The discretized reference line of step 1 enters as the `referenceLine` of the `ReferenceLineInfo` object. The ranked pair stream of step 6 enters as `Collaborators.rankedPairs`. The checkers and geometry are the other collaborators.
- The planned trajectory time and the time resolution are configuration constants the combiner reads. They enter as the `Horizon` value of `Collaborators`.
- The evaluator's ranking and cost terms live in another file. The stream is an already-ordered sequence, so the monotonicity of its costs is not modelled. The cost stored is the one carried with the popped pair.
- The per-component costs (line 168) only feed logging and are not modelled.
- The auto-tuning branch (lines 207-233) is left out. It reads the localization adapter, calls `GetFutureTrajectory` and `MapFutureTrajectoryToSL`, and discards the cost it computes.
- The diagnostic cast (lines 239-246) is left out. It dereferences the result of `dynamic_pointer_cast` even when it is null, but it only feeds logging.
- The bodies of the matcher, the Frenet-to-Cartesian conversion, the constraint checker and the collision checker are not part of this model. They are function-valued parameters.
- Floating point: time is an exact `real`, and the accumulated `t_param` equals `k·res` exactly. Rounding drift of the double sum is not modelled. Drift can change the number of samples, not only their time stamps. For example, 80 additions of 0.1 in doubles stay just below 8.0, so the loop at line 320 takes an 81st step where `StepCount` gives 80.
- Integer widths: the `size_t` and `int` counters are unbounded naturals, so their wrap-around is not modelled.
- The two `ParamLength` reads in the combiner (lines 316-317) are unused and are not modelled.
- The protobuf trajectory point and `DiscretizedTrajectory` are a plain record and a sequence.
- The three failure counters are locals of `Plan` that are only logged. The model returns them from `Plan` so that their values can be stated.
- The two static counters are an explicit `CycleCounters` object passed to `Plan`.
- Plan: the loop that selects the pair is the method `SelectTrajectory`, and `Plan` writes the result holder after it returns. In the source those writes happen inside the loop, just before the `break`. The state after the call is the same.
- Plan: the debug listing of the selected trajectory uses the bounded `DebugDump`, not the listing as written (see Findings).

## Findings

| source | as written | input that shows it | evidently intended | confidence | as-written member | corrected member |
|---|---|---|---|---|---|---|
| modules/planning/planner/lattice/lattice_planner.cc:263-265 | The debug listing reads points 0 to 9 of the selected trajectory whatever its length. | A one-point reference line ending at s = 0, the longitudinal curve s = 10 t (which starts on the line), and checkers that accept everything. The combiner breaks at the second step, and a one-point trajectory is selected (`SelectedTrajectoryCanBeShort`). Whether the out-of-range read happens at run time also depends on `ADEBUG` evaluating its operands. That macro is defined in modules/common/log.h, which is not part of this model. | List min(10, length) points. | high, not executed | LatticePlanner.DebugDumpAsWritten | LatticePlanner.DebugDump |
