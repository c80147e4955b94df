/** src/core/temporal/temporalEngine.ts and src/core/trajectory/trajectory.ts: how a
    price moves, from the last points of its series. */
module PriceTrajectory {
  import opened Results
  import opened StableSort
  import opened StateMachine

  datatype Point = Point(at: int, value: real)

  predicate NotAfter(a: Point, b: Point) { if a.at != b.at then a.at < b.at else a.value <= b.value }

  function InOrder(): (Point, Point) -> bool { (a, b) => NotAfter(a, b) }

  /** Sorted by time and value, exact repeats dropped. */
  function Deduped(sorted: seq<Point>): seq<Point> {
    if sorted == [] then []
    else
      var n := |sorted| - 1;
      Deduped(sorted[..n]) + if n > 0 && sorted[n] == sorted[n - 1] then [] else [sorted[n]]
  }

  function Normalized(points: seq<Point>): seq<Point> { Deduped(Sort(points, InOrder())) }

  method Normalize(points: seq<Point>) returns (out: seq<Point>)
    ensures out == Normalized(points)
  {
    var sorted := Sort(points, InOrder());
    out := [];
    var last: Option<Point> := None;
    for n := 0 to |sorted|
      invariant out == Deduped(sorted[..n])
      invariant last == if n == 0 then None else Some(sorted[n - 1])
    {
      assert sorted[..n + 1][..n] == sorted[..n];
      if last != Some(sorted[n]) {
        out := out + [sorted[n]];
        last := Some(sorted[n]);
      }
    }
    assert sorted[..|sorted|] == sorted;
  }

  function Slope(a: Point, b: Point): Option<real> {
    if b.at - a.at <= 0 then None else Some((b.value - a.value) / (b.at - a.at) as real)
  }

  /** Between the last two points; none when they are at one time. */
  function Velocity(points: seq<Point>): Option<real> {
    if |points| < 2 then None else Slope(points[|points| - 2], points[|points| - 1])
  }

  function Acceleration(points: seq<Point>): Option<real> {
    if |points| < 3 then None
    else
      var (a, b, c) := (points[|points| - 3], points[|points| - 2], points[|points| - 1]);
      var (v1, v2) := (Slope(a, b), Slope(b, c));
      if v1.None? || v2.None? then None else Some((v2.value - v1.value) / (c.at - a.at) as real)
  }

  const VELOCITY_FLAT := 0.000000001
  const ACCEL_FLAT := 0.000000000001

  datatype Sign = POS | NEG | ZERO

  function SignOf(n: real, epsilon: real): Sign {
    if -epsilon <= n <= epsilon then ZERO else if n > 0.0 then POS else NEG
  }

  function Classify(v: Sign, a: Sign): Trajectory {
    match v
    case POS => (match a case POS => ACCELERATING_UP case NEG => DECELERATING case ZERO => RISING)
    case NEG => (match a case NEG => ACCELERATING_DOWN case POS => DECELERATING case ZERO => FALLING)
    case ZERO => if a == ZERO then FLATTENING else REVERSING
  }

  /** The class of a move with these derivatives, where known. */
  function Motion(velocity: Option<real>, acceleration: Option<real>): Trajectory {
    if velocity.None? then UNKNOWN
    else Classify(SignOf(velocity.value, VELOCITY_FLAT),
                  if acceleration.None? then ZERO else SignOf(acceleration.value, ACCEL_FLAT))
  }

  function TrajectoryOf(prices: seq<Point>): Trajectory {
    Motion(Velocity(Normalized(prices)), Acceleration(Normalized(prices)))
  }

  lemma InOrderTotal()
    ensures TotalPreorder(InOrder())
  {
  }

  /** The trajectory depends only on which observations there are, not on their order. */
  lemma OrderIrrelevant(prices: seq<Point>, other: seq<Point>)
    requires multiset(prices) == multiset(other)
    ensures TrajectoryOf(prices) == TrajectoryOf(other)
  {
    InOrderTotal();
    SortSorted(prices, InOrder());
    SortSorted(other, InOrder());
    SortedUnique(Sort(prices, InOrder()), Sort(other, InOrder()), InOrder());
  }
}
