/** The combiner: samples a longitudinal and a lateral curve every
    `trajectoryTimeResolution` seconds up to the planning horizon and turns
    each sample into a Cartesian trajectory point, stopping early once the
    longitudinal position runs past the end of the reference line. */
module TrajectoryCombiner {
  import opened LatticeTypes

  /** The number of sampling steps k >= 0 with k * resolution < horizon,
      that is the length of an output that never stops early. */
  function StepCount(h: Horizon): (n: nat)
    requires h.trajectoryTimeResolution > 0.0
  {
    var q := h.plannedTrajectoryTime / h.trajectoryTimeResolution;
    var c := -((-q).Floor);
    if c <= 0 then 0 else c
  }

  /** Step k is inside the horizon exactly when k < StepCount(h). */
  lemma StepInsideHorizon(h: Horizon, k: nat)
    requires h.trajectoryTimeResolution > 0.0
    ensures StepTime(h, k) < h.plannedTrajectoryTime <==> k < StepCount(h)
  {
    var res := h.trajectoryTimeResolution;
    var q := h.plannedTrajectoryTime / res;
    StepTimeIsProduct(h, k);
    DivideBack(h.plannedTrajectoryTime, res);
    ScaleStrict(k as real, q, res);
    BelowCeiling(q, k);
  }

  lemma DivideBack(x: real, r: real)
    requires r > 0.0
    ensures x / r * r == x
  {
  }

  /** An integer is below q exactly when it is below q rounded up. */
  lemma BelowCeiling(q: real, k: int)
    ensures (k as real) < q <==> k < -((-q).Floor)
  {
    var f := (-q).Floor;
    assert f as real <= -q < f as real + 1.0;
  }

  /** StepCount(h) as a bound on the loop: the steps inside the horizon are
      exactly those below it. */
  lemma HorizonSteps(h: Horizon) returns (n: nat)
    requires h.trajectoryTimeResolution > 0.0
    ensures forall k: nat :: StepTime(h, k) < h.plannedTrajectoryTime <==> k < n
  {
    n := StepCount(h);
    forall k: nat
      ensures StepTime(h, k) < h.plannedTrajectoryTime <==> k < n
    {
      StepInsideHorizon(h, k);
    }
  }

  lemma ScaleStrict(a: real, b: real, r: real)
    requires r > 0.0
    ensures a * r < b * r <==> a < b
  {
    if a < b {
      assert b * r - a * r == (b - a) * r;
    } else {
      assert a * r - b * r == (a - b) * r;
    }
  }

  /** The time parameter of step k, as the loop reaches it: the resolution
      added k times to 0. */
  function StepTime(h: Horizon, k: nat): real
  {
    if k == 0 then 0.0 else StepTime(h, k - 1) + h.trajectoryTimeResolution
  }

  /** Accumulating the resolution k times gives k * resolution. */
  lemma {:induction false} StepTimeIsProduct(h: Horizon, k: nat)
    ensures StepTime(h, k) == k as real * h.trajectoryTimeResolution
  {
    if k > 0 {
      StepTimeIsProduct(h, k - 1);
      assert (k - 1) as real * h.trajectoryTimeResolution + h.trajectoryTimeResolution
             == k as real * h.trajectoryTimeResolution;
    }
  }

  lemma {:induction false} StepTimeIncreasing(h: Horizon, i: nat, j: nat)
    requires h.trajectoryTimeResolution > 0.0
    requires i < j
    ensures StepTime(h, i) < StepTime(h, j)
    decreases j
  {
    if i < j - 1 {
      StepTimeIncreasing(h, i, j - 1);
    }
  }

  /** The point emitted at time parameter `t`: the longitudinal curve gives
      s and its derivatives at `t`, the lateral curve is queried at `s - s0`,
      and the reference point matched at `s` anchors the conversion. */
  function SamplePoint(referenceLine: seq<PathPoint>, lon: Curve1d, lat: Curve1d, s0: real,
                       initRelativeTime: real, geo: Geometry, t: real): TrajectoryPoint
  {
    var s := lon.evaluate(0, t);
    var sParam := s - s0;
    var matched := geo.matchToReferenceLine(referenceLine, s);
    var c := geo.frenetToCartesian(
      matched,
      FrenetState(matched.s, lon.evaluate(1, t), lon.evaluate(2, t)),
      FrenetState(lat.evaluate(0, sParam), lat.evaluate(1, sParam), lat.evaluate(2, sParam)));
    TrajectoryPoint(c.x, c.y, c.theta, c.kappa, c.v, c.a, t + initRelativeTime)
  }

  /** The points the combiner emits from step k on. */
  function PointsFrom(referenceLine: seq<PathPoint>, lon: Curve1d, lat: Curve1d,
                      initRelativeTime: real, h: Horizon, geo: Geometry, k: nat): seq<TrajectoryPoint>
    requires |referenceLine| > 0 && h.trajectoryTimeResolution > 0.0
    decreases StepCount(h) - k
  {
    var t := StepTime(h, k);
    if !(t < h.plannedTrajectoryTime) then []
    else if lon.evaluate(0, t) > referenceLine[|referenceLine| - 1].s then []
    else
      StepInsideHorizon(h, k);
      [SamplePoint(referenceLine, lon, lat, lon.evaluate(0, 0.0), initRelativeTime, geo, t)]
        + PointsFrom(referenceLine, lon, lat, initRelativeTime, h, geo, k + 1)
  }

  /** The whole combined trajectory of one longitudinal/lateral pair. */
  function Combined(referenceLine: seq<PathPoint>, lon: Curve1d, lat: Curve1d,
                    initRelativeTime: real, h: Horizon, geo: Geometry): seq<TrajectoryPoint>
    requires |referenceLine| > 0 && h.trajectoryTimeResolution > 0.0
  {
    PointsFrom(referenceLine, lon, lat, initRelativeTime, h, geo, 0)
  }

  /** The sampling loop. */
  method CombineTrajectory(referenceLine: seq<PathPoint>, lon: Curve1d, lat: Curve1d,
                           initRelativeTime: real, h: Horizon, geo: Geometry)
    returns (combined: seq<TrajectoryPoint>)
    requires |referenceLine| > 0 && h.trajectoryTimeResolution > 0.0
    ensures combined == Combined(referenceLine, lon, lat, initRelativeTime, h, geo)
  {
    combined := [];
    var s0 := lon.evaluate(0, 0.0);
    var sRefMax := referenceLine[|referenceLine| - 1].s;
    var tParam := 0.0;
    ghost var k: nat := 0;
    ghost var steps := HorizonSteps(h);
    while tParam < h.plannedTrajectoryTime
      invariant tParam == StepTime(h, k)
      invariant k <= steps
      invariant combined + PointsFrom(referenceLine, lon, lat, initRelativeTime, h, geo, k)
                == Combined(referenceLine, lon, lat, initRelativeTime, h, geo)
      decreases steps - k
    {
      var s := lon.evaluate(0, tParam);
      var sDot := lon.evaluate(1, tParam);
      var sDdot := lon.evaluate(2, tParam);
      if s > sRefMax {
        assert PointsFrom(referenceLine, lon, lat, initRelativeTime, h, geo, k) == [];
        break;
      }
      var sParam := s - s0;
      var d := lat.evaluate(0, sParam);
      var dPrime := lat.evaluate(1, sParam);
      var dPprime := lat.evaluate(2, sParam);
      var matched := geo.matchToReferenceLine(referenceLine, s);
      var c := geo.frenetToCartesian(matched, FrenetState(matched.s, sDot, sDdot),
                                     FrenetState(d, dPrime, dPprime));
      var point := TrajectoryPoint(c.x, c.y, c.theta, c.kappa, c.v, c.a, tParam + initRelativeTime);
      assert point == SamplePoint(referenceLine, lon, lat, s0, initRelativeTime, geo, tParam);
      assert PointsFrom(referenceLine, lon, lat, initRelativeTime, h, geo, k)
             == [point] + PointsFrom(referenceLine, lon, lat, initRelativeTime, h, geo, k + 1);
      combined := combined + [point];
      tParam := tParam + h.trajectoryTimeResolution;
      k := k + 1;
    }
  }

  /** Every emitted point sits at its own step: the j-th point is stamped
      `initRelativeTime + j * resolution`, its step stayed within the
      reference line, and it was built from the longitudinal curve at that
      time, the lateral curve at `s - s0` and the reference point matched
      at `s`. */
  lemma {:induction false} PointsFromAt(referenceLine: seq<PathPoint>, lon: Curve1d, lat: Curve1d,
                                        initRelativeTime: real, h: Horizon, geo: Geometry, k: nat, j: nat)
    requires |referenceLine| > 0 && h.trajectoryTimeResolution > 0.0
    requires j < |PointsFrom(referenceLine, lon, lat, initRelativeTime, h, geo, k)|
    ensures StepTime(h, k + j) < h.plannedTrajectoryTime
    ensures lon.evaluate(0, StepTime(h, k + j)) <= referenceLine[|referenceLine| - 1].s
    ensures PointsFrom(referenceLine, lon, lat, initRelativeTime, h, geo, k)[j]
            == SamplePoint(referenceLine, lon, lat, lon.evaluate(0, 0.0), initRelativeTime, geo, StepTime(h, k + j))
    decreases j
  {
    if j > 0 {
      PointsFromAt(referenceLine, lon, lat, initRelativeTime, h, geo, k + 1, j - 1);
    }
  }

  lemma CombinedAt(referenceLine: seq<PathPoint>, lon: Curve1d, lat: Curve1d,
                   initRelativeTime: real, h: Horizon, geo: Geometry, j: nat)
    requires |referenceLine| > 0 && h.trajectoryTimeResolution > 0.0
    requires j < |Combined(referenceLine, lon, lat, initRelativeTime, h, geo)|
    ensures var t := j as real * h.trajectoryTimeResolution;
            var s := lon.evaluate(0, t);
            var sParam := s - lon.evaluate(0, 0.0);
            var matched := geo.matchToReferenceLine(referenceLine, s);
            var c := geo.frenetToCartesian(
              matched,
              FrenetState(matched.s, lon.evaluate(1, t), lon.evaluate(2, t)),
              FrenetState(lat.evaluate(0, sParam), lat.evaluate(1, sParam), lat.evaluate(2, sParam)));
            && t < h.plannedTrajectoryTime
            && s <= referenceLine[|referenceLine| - 1].s
            && Combined(referenceLine, lon, lat, initRelativeTime, h, geo)[j]
               == TrajectoryPoint(c.x, c.y, c.theta, c.kappa, c.v, c.a, initRelativeTime + t)
  {
    PointsFromAt(referenceLine, lon, lat, initRelativeTime, h, geo, 0, j);
    StepTimeIsProduct(h, j);
  }

  /** From step k on, the combiner emits at most the steps left in the
      horizon, and it falls short of them only because the longitudinal
      position of the first step it did not emit ran past the reference
      line's last arc length. */
  lemma {:induction false} PointsFromLength(referenceLine: seq<PathPoint>, lon: Curve1d, lat: Curve1d,
                                            initRelativeTime: real, h: Horizon, geo: Geometry, k: nat)
    requires |referenceLine| > 0 && h.trajectoryTimeResolution > 0.0
    requires k <= StepCount(h)
    ensures var n := |PointsFrom(referenceLine, lon, lat, initRelativeTime, h, geo, k)|;
            && k + n <= StepCount(h)
            && (k + n < StepCount(h) ==> lon.evaluate(0, StepTime(h, k + n)) > referenceLine[|referenceLine| - 1].s)
    decreases StepCount(h) - k
  {
    StepInsideHorizon(h, k);
    if k < StepCount(h) && lon.evaluate(0, StepTime(h, k)) <= referenceLine[|referenceLine| - 1].s {
      PointsFromLength(referenceLine, lon, lat, initRelativeTime, h, geo, k + 1);
    }
  }

  /** The combined trajectory has at most StepCount(h) points; when it has
      fewer, the step right after its last point is the first whose s exceeds
      the reference line's last arc length. */
  lemma CombinedLength(referenceLine: seq<PathPoint>, lon: Curve1d, lat: Curve1d,
                       initRelativeTime: real, h: Horizon, geo: Geometry)
    requires |referenceLine| > 0 && h.trajectoryTimeResolution > 0.0
    ensures var n := |Combined(referenceLine, lon, lat, initRelativeTime, h, geo)|;
            && n <= StepCount(h)
            && (n < StepCount(h) ==>
                  lon.evaluate(0, StepTime(h, n)) > referenceLine[|referenceLine| - 1].s)
  {
    PointsFromLength(referenceLine, lon, lat, initRelativeTime, h, geo, 0);
  }

  /** Within a non-empty horizon the combined trajectory is empty exactly
      when the curve already starts beyond the reference line; an empty
      horizon gives an empty trajectory. */
  lemma CombinedEmpty(referenceLine: seq<PathPoint>, lon: Curve1d, lat: Curve1d,
                      initRelativeTime: real, h: Horizon, geo: Geometry)
    requires |referenceLine| > 0 && h.trajectoryTimeResolution > 0.0
    ensures StepCount(h) == 0 ==> Combined(referenceLine, lon, lat, initRelativeTime, h, geo) == []
    ensures StepCount(h) > 0 ==>
              (Combined(referenceLine, lon, lat, initRelativeTime, h, geo) == []
               <==> lon.evaluate(0, 0.0) > referenceLine[|referenceLine| - 1].s)
  {
    StepInsideHorizon(h, 0);
  }

  /** Relative times start at the initial point's relative time and are
      strictly increasing. */
  lemma CombinedTimes(referenceLine: seq<PathPoint>, lon: Curve1d, lat: Curve1d,
                      initRelativeTime: real, h: Horizon, geo: Geometry)
    requires |referenceLine| > 0 && h.trajectoryTimeResolution > 0.0
    ensures var traj := Combined(referenceLine, lon, lat, initRelativeTime, h, geo);
            && (|traj| > 0 ==> traj[0].relativeTime == initRelativeTime)
            && (forall i, j :: 0 <= i < j < |traj| ==> traj[i].relativeTime < traj[j].relativeTime)
  {
    var traj := Combined(referenceLine, lon, lat, initRelativeTime, h, geo);
    if |traj| > 0 {
      CombinedAt(referenceLine, lon, lat, initRelativeTime, h, geo, 0);
    }
    forall i, j | 0 <= i < j < |traj|
      ensures traj[i].relativeTime < traj[j].relativeTime
    {
      PointsFromAt(referenceLine, lon, lat, initRelativeTime, h, geo, 0, i);
      PointsFromAt(referenceLine, lon, lat, initRelativeTime, h, geo, 0, j);
      StepTimeIncreasing(h, i, j);
    }
  }
}
