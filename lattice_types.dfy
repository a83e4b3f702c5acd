/** Value types shared by the lattice planner's selection loop and its
    trajectory combiner. The numeric collaborators whose bodies live in other
    files (the one-dimensional curves, the reference-line matcher, the
    Frenet-to-Cartesian conversion, the constraint and collision checkers) are
    carried as function-valued fields: the model fixes how they are queried,
    not what they compute. */
module LatticeTypes {

  datatype Option<T> = None | Some(value: T)

  /** A sample of the discretized reference line. */
  datatype PathPoint = PathPoint(x: real, y: real, theta: real, kappa: real, dkappa: real, s: real)

  /** A one-dimensional motion profile: `evaluate(order, param)` is the
      value (order 0) or a derivative (orders 1 and 2) at `param`. The curve
      extrapolates on its own beyond `paramLength`, so callers never look at
      it. Longitudinal curves are indexed by time, lateral ones by arc length. */
  datatype Curve1d = Curve1d(evaluate: (nat, real) -> real, paramLength: real)

  /** Position and its first two derivatives in one Frenet direction:
      (s, s_dot, s_ddot) longitudinally, (d, d', d'') laterally. */
  datatype FrenetState = FrenetState(value: real, first: real, second: real)

  /** What the Frenet-to-Cartesian conversion produces. */
  datatype CartesianState = CartesianState(x: real, y: real, theta: real, kappa: real, v: real, a: real)

  /** One time-stamped point of a combined trajectory. */
  datatype TrajectoryPoint = TrajectoryPoint(
    x: real, y: real, theta: real, kappa: real, v: real, a: real, relativeTime: real)

  /** The planning horizon and the sampling step of the combiner. */
  datatype Horizon = Horizon(plannedTrajectoryTime: real, trajectoryTimeResolution: real)

  /** The coordinate collaborators of the combiner: the matcher that finds
      the reference point at arc length `s`, and the conversion that takes
      the matched point and the two Frenet states to Cartesian coordinates. */
  datatype Geometry = Geometry(
    matchToReferenceLine: (seq<PathPoint>, real) -> PathPoint,
    frenetToCartesian: (PathPoint, FrenetState, FrenetState) -> CartesianState)

  /** The three filters of the selection loop. `isValidTrajectoryPair` takes
      the LATERAL curve first and the longitudinal one second, as the planner
      calls it. */
  datatype Checkers = Checkers(
    isValidTrajectoryPair: (Curve1d, Curve1d) -> bool,
    isValidTrajectory: seq<TrajectoryPoint> -> bool,
    inCollision: seq<TrajectoryPoint> -> bool)

  /** One entry of the evaluator's ranked stream: the pair and the cost read
      for it just before it is popped. */
  datatype TrajectoryPair = TrajectoryPair(lon: Curve1d, lat: Curve1d, cost: real)
}
