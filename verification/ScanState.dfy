/** The state of a scan: src/core/features/warEvaluation.ts from the observation bundle
    through threat, trajectory and flow to one step of the state machine. */
module ScanState {
  import opened Numbers
  import opened PowerEngine
  import opened PriceTrajectory
  import opened Results
  import opened StateMachine
  import F = FlowClusters

  datatype Bundle = Bundle(market: seq<Point>, analytics: seq<Analytics>, flow: seq<F.Flow>, evaluationAt: int)

  function Latest(analytics: seq<Analytics>): Option<Analytics> {
    if analytics == [] then None else Some(analytics[|analytics| - 1])
  }

  function CountSide(flow: seq<F.Flow>, side: F.Side): nat {
    if flow == [] then 0 else CountSide(flow[..|flow| - 1], side) + if flow[|flow| - 1].side == side then 1 else 0
  }

  /** The share of the dominant side; 0 without any flow. */
  function Persistence(flow: seq<F.Flow>): real {
    if flow == [] then 0.0
    else
      var (buys, sells) := (CountSide(flow, F.BUY), CountSide(flow, F.SELL));
      (if buys > sells then buys else sells) as real / |flow| as real
  }

  method FlowPersistence(flow: seq<F.Flow>) returns (persistence: real)
    ensures persistence == Persistence(flow)
    ensures flow != [] ==> 0.5 <= persistence <= 1.0
  {
    if flow == [] {
      return 0.0;
    }
    var buys := 0;
    for n := 0 to |flow|
      invariant buys == CountSide(flow[..n], F.BUY) && CountSide(flow[..n], F.SELL) == n - buys
    {
      assert flow[..n + 1][..n] == flow[..n];
      if flow[n].side == F.BUY {
        buys := buys + 1;
      }
    }
    assert flow[..|flow|] == flow;
    var sells := |flow| - buys;
    var dominant := if buys > sells then buys else sells;
    persistence := dominant as real / |flow| as real;
    Halves(dominant, |flow|);
  }

  lemma Halves(d: nat, n: nat)
    requires n > 0 && n <= 2 * d && d <= n
    ensures 0.5 <= d as real / n as real <= 1.0
  {
    var x, m := d as real, n as real;
    DivideMonotone(0.5 * m, x, m);
    DivideMonotone(x, m, m);
    Cancel(0.5, m);
    Cancel(1.0, m);
    assert 1.0 * m == m;
  }

  function InputsOf(b: Bundle, power: real, confidence: real, netCoherence: real): StateInputs {
    StateInputs(b.evaluationAt, power, Threat(ThreatActivations(Latest(b.analytics))), confidence, netCoherence,
                Persistence(b.flow), TrajectoryOf(b.market))
  }

  /** The state for whatever power, confidence and coherence the other engines find. */
  function StateOf(b: Bundle, power: real, confidence: real, netCoherence: real): MarketState {
    Step(InitialContext(b.evaluationAt), InputsOf(b, power, confidence, netCoherence), STATE_MACHINE_CONFIG).state
  }

  method EvaluateState(b: Bundle, power: real, confidence: real, netCoherence: real) returns (state: MarketState)
    ensures state == StateOf(b, power, confidence, netCoherence)
  {
    var activations, _ := ComputeThreatActivations(Latest(b.analytics));
    var threat := ComputeThreat(activations);
    var persistence := FlowPersistence(b.flow);
    var inputs := StateInputs(b.evaluationAt, power, threat.score, confidence, netCoherence, persistence,
      TrajectoryOf(b.market));
    state := Step(InitialContext(b.evaluationAt), inputs, STATE_MACHINE_CONFIG).state;
  }

  /** The latest analytics row flags wash trading and is dangerous enough on top of it. */
  predicate Dangerous(latest: Option<Analytics>) {
    && latest.Some? && latest.value.isWashTrading == Some(true)
    && 30.0 * Known(latest.value.rugRatio) + 25.0 * Known(latest.value.top10HolderRate) >= 50.0
  }

  lemma ThreatHighIff(latest: Option<Analytics>)
    ensures Threat(ThreatActivations(latest)) >= 70.0 <==> Dangerous(latest)
  {
    ThreatIs(latest);
  }

  /** A scan ends in OBSERVING, BLEEDING or COLLAPSE, whatever the other engines find:
      it leaves OBSERVING exactly when the latest row is dangerous and the price is
      moving down, and collapses exactly when that move accelerates and the flow persists. */
  lemma ScanStateIff(b: Bundle, power: real, confidence: real, netCoherence: real)
    ensures var state := StateOf(b, power, confidence, netCoherence);
      var collapsing := TrajectoryOf(b.market) == ACCELERATING_DOWN && Persistence(b.flow) >= 0.6;
      && state in {OBSERVING, BLEEDING, COLLAPSE}
      && (state != OBSERVING <==> Dangerous(Latest(b.analytics)) && Down(TrajectoryOf(b.market)))
      && (state == COLLAPSE <==> Dangerous(Latest(b.analytics)) && collapsing)
  {
    ThreatHighIff(Latest(b.analytics));
    FreshStep(b.evaluationAt, InputsOf(b, power, confidence, netCoherence), STATE_MACHINE_CONFIG);
  }

  /** Both rates must be known for that, and both high: the rug ratio at least 5/6, the
      top-10 rate at least 4/5. */
  lemma DangerNeedsBoth(row: Analytics)
    requires Dangerous(Some(row))
    ensures row.rugRatio.Some? && row.top10HolderRate.Some?
    ensures 6.0 * row.rugRatio.value >= 5.0 && 5.0 * row.top10HolderRate.value >= 4.0
  {
  }

  /** Older rows do not matter, however dangerous. */
  lemma OnlyLatestRow(b: Bundle, older: seq<Analytics>, power: real, confidence: real, netCoherence: real)
    requires b.analytics != []
    ensures StateOf(b.(analytics := older + b.analytics), power, confidence, netCoherence) ==
      StateOf(b, power, confidence, netCoherence)
  {
    assert (older + b.analytics)[|older + b.analytics| - 1] == b.analytics[|b.analytics| - 1];
  }
}
