/** The lifecycle with the constants it runs on, and power in terms of its factors. */
module StateTable {
  import opened PowerEngine
  import opened StateMachine

  // ------------------------------------------------------------------
  // One step
  // ------------------------------------------------------------------

  /** Danger: a high threat and a falling price - faster and faster, in a persistent flow, for a collapse. */
  predicate Collapsing(i: StateInputs) {
    i.threat >= 70.0 && i.trajectory == ACCELERATING_DOWN && i.persistence >= 0.6
  }

  predicate Bleeding(i: StateInputs) { i.threat >= 70.0 && i.trajectory in {FALLING, ACCELERATING_DOWN} }

  /** Power held without coherence, under some threat. */
  predicate Distributing(i: StateInputs) { i.power >= 45.0 && i.netCoherence < 0.6 && i.threat > 0.0 }

  /** Coherent power, with the least there must be of it, known well enough. */
  predicate Strong(i: StateInputs, least: real) {
    i.power >= least && i.netCoherence >= 0.6 && i.confidence >= 25.0
  }

  predicate Rising(i: StateInputs) { i.trajectory in {ACCELERATING_UP, RISING} }

  predicate Emerging(i: StateInputs) { i.power >= 30.0 && i.confidence >= 25.0 }

  /** A state other than the present one, if the minute is over or it is one of danger. */
  predicate MayEnter(target: MarketState, ctx: StateContext, now: int) {
    target != ctx.state && (now - ctx.enteredAt >= 60_000 || target in {COLLAPSE, BLEEDING})
  }

  lemma OpenIff(ctx: StateContext, i: StateInputs)
    ensures Open(COLLAPSE, ctx, i, STATE_MACHINE_CONFIG) <==> MayEnter(COLLAPSE, ctx, i.now) && Collapsing(i)
    ensures Open(BLEEDING, ctx, i, STATE_MACHINE_CONFIG) <==> MayEnter(BLEEDING, ctx, i.now) && Bleeding(i)
    ensures Open(DISTRIBUTION, ctx, i, STATE_MACHINE_CONFIG) <==> MayEnter(DISTRIBUTION, ctx, i.now) && Distributing(i)
    ensures Open(DOMINANCE, ctx, i, STATE_MACHINE_CONFIG) <==>
      MayEnter(DOMINANCE, ctx, i.now) && Strong(i, 82.0) && Rising(i)
    ensures Open(ATTACK, ctx, i, STATE_MACHINE_CONFIG) <==>
      MayEnter(ATTACK, ctx, i.now) && Strong(i, 65.0) && i.persistence >= 0.6 && Rising(i)
    ensures Open(ACCUMULATION, ctx, i, STATE_MACHINE_CONFIG) <==>
      MayEnter(ACCUMULATION, ctx, i.now) && Strong(i, 45.0) && i.trajectory !in {FALLING, ACCELERATING_DOWN}
    ensures Open(EMERGING, ctx, i, STATE_MACHINE_CONFIG) <==> MayEnter(EMERGING, ctx, i.now) && Emerging(i)
    ensures Open(OBSERVING, ctx, i, STATE_MACHINE_CONFIG) <==> MayEnter(OBSERVING, ctx, i.now)
  {
  }

  /** The first that applies, from the worst to the weakest, and otherwise no change. */
  lemma StepEnters(ctx: StateContext, i: StateInputs)
    ensures Step(ctx, i, STATE_MACHINE_CONFIG).state
         == if MayEnter(COLLAPSE, ctx, i.now) && Collapsing(i) then COLLAPSE
            else if MayEnter(BLEEDING, ctx, i.now) && Bleeding(i) then BLEEDING
            else if MayEnter(DISTRIBUTION, ctx, i.now) && Distributing(i) then DISTRIBUTION
            else if MayEnter(DOMINANCE, ctx, i.now) && Strong(i, 82.0) && Rising(i) then DOMINANCE
            else if MayEnter(ATTACK, ctx, i.now) && Strong(i, 65.0) && i.persistence >= 0.6 && Rising(i) then ATTACK
            else if MayEnter(ACCUMULATION, ctx, i.now) && Strong(i, 45.0)
                    && i.trajectory !in {FALLING, ACCELERATING_DOWN} then ACCUMULATION
            else if MayEnter(EMERGING, ctx, i.now) && Emerging(i) then EMERGING
            else if MayEnter(OBSERVING, ctx, i.now) then OBSERVING
            else ctx.state
  {
    var c, order := STATE_MACHINE_CONFIG, EVALUATION_ORDER;
    FirstOpenIs(order, ctx, i, c);
    OpenIff(ctx, i);
    var k := if Open(COLLAPSE, ctx, i, c) then 0
      else if Open(BLEEDING, ctx, i, c) then 1
      else if Open(DISTRIBUTION, ctx, i, c) then 2
      else if Open(DOMINANCE, ctx, i, c) then 3
      else if Open(ATTACK, ctx, i, c) then 4
      else if Open(ACCUMULATION, ctx, i, c) then 5
      else if Open(EMERGING, ctx, i, c) then 6
      else 7;
    assert order == [COLLAPSE, BLEEDING, DISTRIBUTION, DOMINANCE, ATTACK, ACCUMULATION, EMERGING, OBSERVING];
    if Open(order[k], ctx, i, c) {
      assert IsFirst(order, k, ctx, i, c);
    }
  }

  // ------------------------------------------------------------------
  // Power
  // ------------------------------------------------------------------

  /** How far a factor is active: absent or below 0 not at all, above 1 fully. */
  function Part(activations: map<string, real>, factor: string): real {
    if factor !in activations || activations[factor] < 0.0 then 0.0
    else if activations[factor] > 1.0 then 1.0
    else activations[factor]
  }

  lemma TotalOfLast(weights: seq<Weight>, n: nat, a: map<string, real>)
    requires n < |weights|
    ensures Total(weights[..n + 1], a)
         == Total(weights[..n], a) + Part(a, weights[n].factor) * weights[n].weight
  {
    assert weights[..n + 1][..n] == weights[..n];
  }

  /** Power: the supporting factors by their weights less the opposing ones, between 0 and 100. */
  lemma PowerIs(a: map<string, real>)
    ensures var p := 30.0 * Part(a, "trajectoryUp") + 25.0 * Part(a, "coherenceAlignment")
        + 25.0 * Part(a, "smartMoneyInflow") + 20.0 * Part(a, "liquidityDepth")
        - 30.0 * Part(a, "sellPressure") - 25.0 * Part(a, "vectorConflict");
      Power(a) == if p < 0.0 then 0.0 else if p > 100.0 then 100.0 else p
  {
    TotalOfLast(SUPPORTING, 0, a);
    TotalOfLast(SUPPORTING, 1, a);
    TotalOfLast(SUPPORTING, 2, a);
    TotalOfLast(SUPPORTING, 3, a);
    TotalOfLast(OPPOSING, 0, a);
    TotalOfLast(OPPOSING, 1, a);
    assert SUPPORTING[..4] == SUPPORTING && OPPOSING[..2] == OPPOSING;
    assert SUPPORTING[..0] == [] && OPPOSING[..0] == [];
  }
}
