/** The state of a scan told from its prices, its flow and its latest analytics row. */
module ScanPrices {
  import opened PowerEngine
  import opened PriceTrajectory
  import opened Results
  import opened ScanState
  import opened StableSort
  import opened StateMachine
  import F = FlowClusters

  // ------------------------------------------------------------------
  // The price series
  // ------------------------------------------------------------------

  predicate Before(a: Point, b: Point) { a.at < b.at || (a.at == b.at && a.value < b.value) }

  /** The observed prices, each once, by time and then by value. */
  ghost predicate IsSeries(series: seq<Point>, prices: seq<Point>) {
    && (forall i, j :: 0 <= i < j < |series| ==> Before(series[i], series[j]))
    && (forall p :: p in series <==> p in prices)
  }

  lemma {:induction false} DedupedIsSeries(sorted: seq<Point>)
    requires Sorted(sorted, InOrder())
    ensures IsSeries(Deduped(sorted), sorted)
    ensures sorted != [] ==> Deduped(sorted) != [] && Deduped(sorted)[|Deduped(sorted)| - 1] == sorted[|sorted| - 1]
    decreases |sorted|
  {
    if sorted != [] {
      var n := |sorted| - 1;
      DedupedIsSeries(sorted[..n]);
      assert sorted == sorted[..n] + [sorted[n]];
      if n > 0 {
        assert InOrder()(sorted[n - 1], sorted[n]);
      }
    }
  }

  lemma NormalizedIsSeries(prices: seq<Point>)
    ensures IsSeries(Normalized(prices), prices)
  {
    InOrderTotal();
    SortSorted(prices, InOrder());
    SortMembers(prices, InOrder());
    DedupedIsSeries(Sort(prices, InOrder()));
  }

  /** The first of a series is its least. */
  lemma SameFirst(a: seq<Point>, b: seq<Point>, prices: seq<Point>)
    requires IsSeries(a, prices) && IsSeries(b, prices) && a != []
    ensures b != [] && a[0] == b[0]
  {
    assert a[0] in b;
    assert b[0] in a;
    var i :| 0 <= i < |b| && b[i] == a[0];
    var j :| 0 <= j < |a| && a[j] == b[0];
    assert i == 0 || Before(b[0], b[i]);
    assert j == 0 || Before(a[0], a[j]);
  }

  lemma RestIsSeries(a: seq<Point>, prices: seq<Point>, rest: seq<Point>)
    requires IsSeries(a, prices) && a != [] && rest == a[1..]
    ensures IsSeries(rest, rest) && forall p :: p in rest <==> p in prices && p != a[0]
  {
    forall p ensures p in rest <==> p in prices && p != a[0] {
      if p in rest {
        var k :| 0 <= k < |rest| && rest[k] == p;
        assert Before(a[0], a[k + 1]);
      }
      assert a == [a[0]] + rest;
    }
  }

  lemma {:induction false} SeriesUnique(a: seq<Point>, b: seq<Point>, prices: seq<Point>)
    requires IsSeries(a, prices) && IsSeries(b, prices)
    ensures a == b
    decreases |a|
  {
    if a == [] {
      if b != [] {
        SameFirst(b, a, prices);
      }
    } else {
      SameFirst(a, b, prices);
      RestIsSeries(a, prices, a[1..]);
      RestIsSeries(b, prices, b[1..]);
      SeriesUnique(a[1..], b[1..], a[1..]);
    }
  }

  // ------------------------------------------------------------------
  // How the price moves
  // ------------------------------------------------------------------

  /** What the price gains in a unit of time. */
  function Rate(p: Point, q: Point): real
    requires p.at < q.at
  {
    (q.value - p.value) / (q.at - p.at) as real
  }

  /** From the last price but one to the last it falls, by more than a billionth. */
  predicate LastFalls(series: seq<Point>) {
    |series| >= 2 &&
    var (a, b) := (series[|series| - 2], series[|series| - 1]);
    a.at < b.at && Rate(a, b) < -0.000000001
  }

  /** By how much the last rate is greater than the one before, in a unit of time; 0
      without two rates. */
  function RateChange(series: seq<Point>): real {
    if |series| < 3 then 0.0
    else
      var (a, b, c) := (series[|series| - 3], series[|series| - 2], series[|series| - 1]);
      if a.at < b.at < c.at then (Rate(b, c) - Rate(a, b)) / (c.at - a.at) as real else 0.0
  }

  /** Falling, and not slowing down by more than a trillionth. */
  predicate Falls(series: seq<Point>) { LastFalls(series) && RateChange(series) <= 0.000000000001 }

  /** Falling faster and faster. */
  predicate FallsFaster(series: seq<Point>) { LastFalls(series) && RateChange(series) < -0.000000000001 }

  lemma TrajectoryIs(series: seq<Point>, prices: seq<Point>)
    requires IsSeries(series, prices)
    ensures TrajectoryOf(prices) in {FALLING, ACCELERATING_DOWN} <==> Falls(series)
    ensures TrajectoryOf(prices) == ACCELERATING_DOWN <==> FallsFaster(series)
  {
    NormalizedIsSeries(prices);
    SeriesUnique(series, Normalized(prices), prices);
    MotionIs(series);
  }

  lemma MotionIs(series: seq<Point>)
    ensures var m := Motion(Velocity(series), Acceleration(series));
      && (m in {FALLING, ACCELERATING_DOWN} <==> Falls(series)) && (m == ACCELERATING_DOWN <==> FallsFaster(series))
  {
    if |series| >= 2 {
      var b, c := series[|series| - 2], series[|series| - 1];
      assert Slope(b, c) == if b.at < c.at then Some(Rate(b, c)) else None;
    }
    if |series| >= 3 {
      var a, b := series[|series| - 3], series[|series| - 2];
      assert Slope(a, b) == if a.at < b.at then Some(Rate(a, b)) else None;
    }
  }

  // ------------------------------------------------------------------
  // The flow and the analytics
  // ------------------------------------------------------------------

  function OnSide(side: F.Side): F.Flow -> bool { (f: F.Flow) => f.side == side }

  /** At least three fifths of the flow are on one side. */
  predicate OneSided(flow: seq<F.Flow>) {
    flow != [] && (5 * |Filter(flow, OnSide(F.BUY))| >= 3 * |flow| || 5 * |Filter(flow, OnSide(F.SELL))| >= 3 * |flow|)
  }

  lemma {:induction false} CountIsFilter(flow: seq<F.Flow>, side: F.Side)
    ensures CountSide(flow, side) == |Filter(flow, OnSide(side))|
    decreases |flow|
  {
    if flow != [] {
      var n := |flow| - 1;
      CountIsFilter(flow[..n], side);
      assert flow == flow[..n] + [flow[n]];
      FilterAppend(flow[..n], [flow[n]], OnSide(side));
    }
  }

  lemma SignOfProduct(a: real, b: real)
    requires b > 0.0
    ensures a * b >= 0.0 <==> a >= 0.0
  {
  }

  lemma ThreeFifths(part: nat, whole: nat)
    requires whole > 0
    ensures part as real / whole as real >= 0.6 <==> 5 * part >= 3 * whole
  {
    var q, w := part as real / whole as real, whole as real;
    assert (q - 0.6) * w == part as real - 0.6 * w by {
      assert q * w == part as real;
    }
    SignOfProduct(q - 0.6, w);
  }

  lemma PersistentIff(flow: seq<F.Flow>)
    ensures Persistence(flow) >= 0.6 <==> OneSided(flow)
  {
    CountIsFilter(flow, F.BUY);
    CountIsFilter(flow, F.SELL);
    if flow != [] {
      ThreeFifths(CountSide(flow, F.BUY), |flow|);
      ThreeFifths(CountSide(flow, F.SELL), |flow|);
    }
  }

  /** A rate as a share: unknown or below 0 is none, above 1 is all. */
  function Share(v: Option<real>): real {
    if v.None? || v.value < 0.0 then 0.0 else if v.value > 1.0 then 1.0 else v.value
  }

  /** The last row flags wash trading, and rug ratio and top-10 rate together weigh enough. */
  predicate LastRowDangerous(analytics: seq<Analytics>) {
    analytics != [] &&
    var row := analytics[|analytics| - 1];
    row.isWashTrading == Some(true) && 30.0 * Share(row.rugRatio) + 25.0 * Share(row.top10HolderRate) >= 50.0
  }

  // ------------------------------------------------------------------
  // The state
  // ------------------------------------------------------------------

  /** Whatever the other engines find, a scan is in OBSERVING, BLEEDING or COLLAPSE: it has
      left OBSERVING exactly when its last row is dangerous and the price falls, and it
      collapses exactly when the price falls faster and faster while the flow is one-sided. */
  lemma StateMeans(b: Bundle, series: seq<Point>, power: real, confidence: real, netCoherence: real)
    requires IsSeries(series, b.market)
    ensures StateOf(b, power, confidence, netCoherence)
         == if LastRowDangerous(b.analytics) && FallsFaster(series) && OneSided(b.flow) then COLLAPSE
            else if LastRowDangerous(b.analytics) && Falls(series) then BLEEDING
            else OBSERVING
  {
    ScanStateIff(b, power, confidence, netCoherence);
    TrajectoryIs(series, b.market);
    PersistentIff(b.flow);
    assert LastRowDangerous(b.analytics) <==> Dangerous(Latest(b.analytics));
  }
}
