/** src/core/power/powerEngine.ts and src/core/features/threatActivations.ts: scores as
    weighted sums of factor activations. */
module PowerEngine {
  import opened Results

  datatype Weight = Weight(factor: string, weight: real)

  datatype Contribution = Contribution(factor: string, magnitude: real, weight: real)

  const SUPPORTING := [Weight("trajectoryUp", 30.0), Weight("coherenceAlignment", 25.0),
                       Weight("smartMoneyInflow", 25.0), Weight("liquidityDepth", 20.0)]
  const OPPOSING := [Weight("sellPressure", 30.0), Weight("vectorConflict", 25.0)]
  const DANGERS := [Weight("rugRisk", 30.0), Weight("holderConcentration", 25.0),
                    Weight("washTrading", 20.0), Weight("liquidityFragility", 25.0)]

  function Clamp01(n: real): real { if n < 0.0 then 0.0 else if n > 1.0 then 1.0 else n }

  function ClampScore(n: real): real { if n < 0.0 then 0.0 else if n > 100.0 then 100.0 else n }

  /** How strongly a factor is present; an unknown one not at all. */
  function Activation(activations: map<string, real>, factor: string): real {
    if factor in activations then Clamp01(activations[factor]) else 0.0
  }

  /** What one weighted factor contributes. */
  function PartOf(w: Weight, activations: map<string, real>): Contribution {
    Contribution(w.factor, Activation(activations, w.factor) * w.weight, w.weight)
  }

  function Total(weights: seq<Weight>, activations: map<string, real>): real {
    if weights == [] then 0.0
    else Total(weights[..|weights| - 1], activations) + PartOf(weights[|weights| - 1], activations).magnitude
  }

  function Magnitudes(contributions: seq<Contribution>): real {
    if contributions == [] then 0.0
    else Magnitudes(contributions[..|contributions| - 1]) + contributions[|contributions| - 1].magnitude
  }

  /** Every weighted factor's part, in order. */
  function Parts(weights: seq<Weight>, activations: map<string, real>): (parts: seq<Contribution>)
    ensures |parts| == |weights| && forall k :: 0 <= k < |weights| ==> parts[k] == PartOf(weights[k], activations)
  {
    seq(|weights|, k requires 0 <= k < |weights| => PartOf(weights[k], activations))
  }

  lemma {:induction false} PartsAddUp(weights: seq<Weight>, activations: map<string, real>)
    ensures Magnitudes(Parts(weights, activations)) == Total(weights, activations)
    decreases |weights|
  {
    if weights != [] {
      var n := |weights| - 1;
      PartsAddUp(weights[..n], activations);
      assert Parts(weights, activations)[..n] == Parts(weights[..n], activations);
    }
  }

  method ContributionsOf(weights: seq<Weight>, activations: map<string, real>)
      returns (contributions: seq<Contribution>, total: real)
    ensures contributions == Parts(weights, activations)
    ensures total == Total(weights, activations) == Magnitudes(contributions)
  {
    contributions, total := [], 0.0;
    for n := 0 to |weights|
      invariant |contributions| == n && total == Total(weights[..n], activations)
      invariant forall k :: 0 <= k < n ==> contributions[k] == PartOf(weights[k], activations)
    {
      assert weights[..n + 1][..n] == weights[..n];
      var part := PartOf(weights[n], activations);
      total := total + part.magnitude;
      contributions := contributions + [part];
    }
    assert weights[..|weights|] == weights;
    PartsAddUp(weights, activations);
  }

  function Power(activations: map<string, real>): real {
    ClampScore(Total(SUPPORTING, activations) - Total(OPPOSING, activations))
  }

  function Threat(activations: map<string, real>): real { ClampScore(Total(DANGERS, activations)) }

  datatype PowerReading = PowerReading(
    score: real, supporting: seq<Contribution>, opposing: seq<Contribution>, netCoherence: real)

  datatype ThreatReading = ThreatReading(score: real, supporting: seq<Contribution>)

  /** The score, and the parts that add up to its two sides; coherence is carried along. */
  method ComputePower(activations: map<string, real>, netCoherence: real) returns (power: PowerReading)
    ensures power.score == Power(activations) == ClampScore(Magnitudes(power.supporting) - Magnitudes(power.opposing))
    ensures power.supporting == Parts(SUPPORTING, activations) && power.opposing == Parts(OPPOSING, activations)
    ensures power.netCoherence == Clamp01(netCoherence)
  {
    var supporting, support := ContributionsOf(SUPPORTING, activations);
    var opposing, oppose := ContributionsOf(OPPOSING, activations);
    power := PowerReading(ClampScore(support - oppose), supporting, opposing, Clamp01(netCoherence));
  }

  method ComputeThreat(activations: map<string, real>) returns (threat: ThreatReading)
    ensures threat.score == Threat(activations) == ClampScore(Magnitudes(threat.supporting))
    ensures threat.supporting == Parts(DANGERS, activations)
  {
    var parts, total := ContributionsOf(DANGERS, activations);
    threat := ThreatReading(ClampScore(total), parts);
  }

  predicate NonNegative(weights: seq<Weight>) { forall k :: 0 <= k < |weights| ==> weights[k].weight >= 0.0 }

  lemma PartMonotone(w: Weight, a: map<string, real>, b: map<string, real>)
    requires w.weight >= 0.0 && Activation(a, w.factor) <= Activation(b, w.factor)
    ensures 0.0 <= PartOf(w, a).magnitude <= PartOf(w, b).magnitude
  {
    var x, y := Activation(a, w.factor), Activation(b, w.factor);
    assert x * w.weight >= 0.0 && (y - x) * w.weight >= 0.0;
    assert y * w.weight == x * w.weight + (y - x) * w.weight;
  }

  lemma {:induction false} TotalMonotone(weights: seq<Weight>, a: map<string, real>, b: map<string, real>)
    requires NonNegative(weights)
    requires forall k :: 0 <= k < |weights| ==> Activation(a, weights[k].factor) <= Activation(b, weights[k].factor)
    ensures 0.0 <= Total(weights, a) <= Total(weights, b)
    decreases |weights|
  {
    if weights != [] {
      var n := |weights| - 1;
      TotalMonotone(weights[..n], a, b);
      PartMonotone(weights[n], a, b);
    }
  }

  /** Every factor of the weights is at least as active in `b`. */
  predicate NoWeaker(weights: seq<Weight>, a: map<string, real>, b: map<string, real>) {
    forall k :: 0 <= k < |weights| ==> Activation(a, weights[k].factor) <= Activation(b, weights[k].factor)
  }

  /** Stronger support and weaker opposition never lower power, whatever the dangers. */
  lemma PowerMonotone(a: map<string, real>, b: map<string, real>)
    requires NoWeaker(SUPPORTING, a, b) && NoWeaker(OPPOSING, b, a)
    ensures 0.0 <= Power(a) <= Power(b) <= 100.0
  {
    TotalMonotone(SUPPORTING, a, b);
    TotalMonotone(OPPOSING, b, a);
  }

  /** Stronger dangers never lower threat, whatever the power. */
  lemma ThreatMonotone(a: map<string, real>, b: map<string, real>)
    requires NoWeaker(DANGERS, a, b)
    ensures 0.0 <= Threat(a) <= Threat(b) <= 100.0
  {
    TotalMonotone(DANGERS, a, b);
  }

  // ------------------------------------------------------------------
  // Threat activations
  // ------------------------------------------------------------------

  datatype Analytics = Analytics(rugRatio: Option<real>, top10HolderRate: Option<real>, isWashTrading: Option<bool>)

  /** Only what the latest row knows is activated; the rest is listed as unknown. */
  method ComputeThreatActivations(latest: Option<Analytics>)
      returns (activations: map<string, real>, insufficient: seq<string>)
    ensures activations == ThreatActivations(latest)
    ensures forall k :: 0 <= k < |DANGERS| ==>
      (DANGERS[k].factor in insufficient <==> DANGERS[k].factor !in activations)
  {
    activations, insufficient := map[], [];
    if latest.None? {
      return map[], ["rugRisk", "holderConcentration", "washTrading", "liquidityFragility"];
    }
    var row := latest.value;
    if row.rugRatio.Some? {
      activations := activations["rugRisk" := row.rugRatio.value];
    } else {
      insufficient := insufficient + ["rugRisk"];
    }
    if row.top10HolderRate.Some? {
      activations := activations["holderConcentration" := row.top10HolderRate.value];
    } else {
      insufficient := insufficient + ["holderConcentration"];
    }
    if row.isWashTrading.Some? {
      activations := activations["washTrading" := if row.isWashTrading.value then 1.0 else 0.0];
    } else {
      insufficient := insufficient + ["washTrading"];
    }
    insufficient := insufficient + ["liquidityFragility"];
  }

  function ThreatActivations(latest: Option<Analytics>): map<string, real> {
    if latest.None? then map[]
    else
      var row := latest.value;
      (if row.rugRatio.Some? then map["rugRisk" := row.rugRatio.value] else map[])
      + (if row.top10HolderRate.Some? then map["holderConcentration" := row.top10HolderRate.value] else map[])
      + (if row.isWashTrading.Some? then map["washTrading" := if row.isWashTrading.value then 1.0 else 0.0] else map[])
  }

  function Known(v: Option<real>): real { if v.Some? then Clamp01(v.value) else 0.0 }

  /** The threat of a scan in terms of its latest analytics row. */
  lemma ThreatIs(latest: Option<Analytics>)
    ensures Threat(ThreatActivations(latest)) ==
      if latest.None? then 0.0
      else 30.0 * Known(latest.value.rugRatio) + 25.0 * Known(latest.value.top10HolderRate)
           + (if latest.value.isWashTrading == Some(true) then 20.0 else 0.0)
  {
    var a := ThreatActivations(latest);
    assert DANGERS[..3] == [DANGERS[0], DANGERS[1], DANGERS[2]];
    assert DANGERS[..3][..2] == [DANGERS[0], DANGERS[1]] && DANGERS[..3][..2][..1] == [DANGERS[0]];
    assert DANGERS[..3][..2][..1][..0] == [];
    assert Total(DANGERS[..3][..2][..1], a) == Activation(a, "rugRisk") * 30.0;
    assert Total(DANGERS[..3][..2], a) == Activation(a, "rugRisk") * 30.0 + Activation(a, "holderConcentration") * 25.0;
    assert Total(DANGERS[..3], a) == Total(DANGERS[..3][..2], a) + Activation(a, "washTrading") * 20.0;
    assert "liquidityFragility" !in a;
  }
}
