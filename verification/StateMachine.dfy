/** src/core/state/stateMachine.ts: the market lifecycle, one step at a time. */
module StateMachine {

  datatype MarketState = OBSERVING | EMERGING | ACCUMULATION | ATTACK | DOMINANCE | DISTRIBUTION | BLEEDING | COLLAPSE

  datatype Trajectory =
    | ACCELERATING_UP | RISING | FLATTENING | FALLING | ACCELERATING_DOWN | DECELERATING | REVERSING | UNKNOWN

  datatype StateInputs = StateInputs(
    now: int, power: real, threat: real, confidence: real, netCoherence: real, persistence: real,
    trajectory: Trajectory)

  datatype StateContext = StateContext(state: MarketState, enteredAt: int)

  datatype Config = Config(
    minDwellMs: int, powerEmerging: real, powerAccumulation: real, powerAttack: real, powerDominance: real,
    coherenceMin: real, persistenceMin: real, confidenceFloor: real, threatHigh: real)

  const STATE_MACHINE_CONFIG := Config(60_000, 30.0, 45.0, 65.0, 82.0, 0.6, 0.6, 25.0, 70.0)

  predicate Up(t: Trajectory) { t == ACCELERATING_UP || t == RISING }

  predicate Down(t: Trajectory) { t == FALLING || t == ACCELERATING_DOWN }

  /** The evidence justifies entering `target`. */
  predicate Justified(target: MarketState, i: StateInputs, c: Config) {
    var coherent := i.netCoherence >= c.coherenceMin;
    var persistent := i.persistence >= c.persistenceMin;
    var confident := i.confidence >= c.confidenceFloor;
    match target
    case BLEEDING => i.threat >= c.threatHigh && Down(i.trajectory)
    case COLLAPSE => i.threat >= c.threatHigh && i.trajectory == ACCELERATING_DOWN && persistent
    case DOMINANCE => i.power >= c.powerDominance && coherent && confident && Up(i.trajectory)
    case ATTACK => i.power >= c.powerAttack && coherent && persistent && confident && Up(i.trajectory)
    case ACCUMULATION => i.power >= c.powerAccumulation && coherent && confident && !Down(i.trajectory)
    case DISTRIBUTION => i.power >= c.powerAccumulation && i.netCoherence < c.coherenceMin && i.threat > 0.0
    case EMERGING => i.power >= c.powerEmerging && confident
    case OBSERVING => true
  }

  const EVALUATION_ORDER := [COLLAPSE, BLEEDING, DISTRIBUTION, DOMINANCE, ATTACK, ACCUMULATION, EMERGING, OBSERVING]

  predicate IsDanger(s: MarketState) { s == COLLAPSE || s == BLEEDING }

  predicate DwellSatisfied(ctx: StateContext, i: StateInputs, c: Config) { i.now - ctx.enteredAt >= c.minDwellMs }

  /** A state the step may move to: another one, justified, and not held back by the dwell. */
  predicate Open(target: MarketState, ctx: StateContext, i: StateInputs, c: Config) {
    target != ctx.state && (DwellSatisfied(ctx, i, c) || IsDanger(target)) && Justified(target, i, c)
  }

  /** The first open state of the order; the context itself when none is. */
  function FirstOpen(order: seq<MarketState>, ctx: StateContext, i: StateInputs, c: Config): StateContext {
    if order == [] then ctx
    else if Open(order[0], ctx, i, c) then StateContext(order[0], i.now)
    else FirstOpen(order[1..], ctx, i, c)
  }

  function Step(ctx: StateContext, i: StateInputs, c: Config): StateContext { FirstOpen(EVALUATION_ORDER, ctx, i, c) }

  function InitialContext(at: int): StateContext { StateContext(OBSERVING, at) }

  lemma {:induction false} FirstOpenIs(order: seq<MarketState>, ctx: StateContext, i: StateInputs, c: Config)
    ensures FirstOpen(order, ctx, i, c) == ctx || exists k :: 0 <= k < |order| && IsFirst(order, k, ctx, i, c)
    ensures forall k :: IsFirst(order, k, ctx, i, c) ==> FirstOpen(order, ctx, i, c) == StateContext(order[k], i.now)
    ensures (forall k :: 0 <= k < |order| ==> !Open(order[k], ctx, i, c)) ==> FirstOpen(order, ctx, i, c) == ctx
  {
    if order != [] && !Open(order[0], ctx, i, c) {
      var rest := order[1..];
      FirstOpenIs(rest, ctx, i, c);
      forall k | IsFirst(order, k, ctx, i, c) ensures FirstOpen(order, ctx, i, c) == StateContext(order[k], i.now) {
        assert IsFirst(rest, k - 1, ctx, i, c) by {
          assert forall j :: 0 <= j < k - 1 ==> rest[j] == order[j + 1];
        }
      }
      if FirstOpen(rest, ctx, i, c) != ctx {
        var k :| 0 <= k < |rest| && IsFirst(rest, k, ctx, i, c);
        assert forall j :: 1 <= j < k + 1 ==> order[j] == rest[j - 1];
        assert IsFirst(order, k + 1, ctx, i, c);
      }
    } else if order != [] {
      assert IsFirst(order, 0, ctx, i, c);
    }
  }

  predicate IsFirst(order: seq<MarketState>, k: int, ctx: StateContext, i: StateInputs, c: Config) {
    0 <= k < |order| && Open(order[k], ctx, i, c) && forall j :: 0 <= j < k ==> !Open(order[j], ctx, i, c)
  }

  lemma PlaceInOrder(s: MarketState) returns (k: nat)
    ensures k < |EVALUATION_ORDER| && EVALUATION_ORDER[k] == s
  {
    k := match s
      case COLLAPSE => 0 case BLEEDING => 1 case DISTRIBUTION => 2 case DOMINANCE => 3
      case ATTACK => 4 case ACCUMULATION => 5 case EMERGING => 6 case OBSERVING => 7;
  }

  /** A step stays exactly when no other state is open; otherwise it enters an open
      one, now, and no open state stands before it in the order. */
  lemma StepIs(ctx: StateContext, i: StateInputs, c: Config)
    ensures (forall s :: !Open(s, ctx, i, c)) <==> Step(ctx, i, c) == ctx
    ensures Step(ctx, i, c) != ctx ==>
      Open(Step(ctx, i, c).state, ctx, i, c) && Step(ctx, i, c).enteredAt == i.now
      && exists k :: IsFirst(EVALUATION_ORDER, k, ctx, i, c) && EVALUATION_ORDER[k] == Step(ctx, i, c).state
  {
    FirstOpenIs(EVALUATION_ORDER, ctx, i, c);
    if s :| Open(s, ctx, i, c) {
      var k := PlaceInOrder(s);
      if Step(ctx, i, c) == ctx {
        FirstExists(EVALUATION_ORDER, k, ctx, i, c);
      }
    }
  }

  lemma {:induction false} FirstExists(order: seq<MarketState>, k: nat, ctx: StateContext, i: StateInputs, c: Config)
    requires k < |order| && Open(order[k], ctx, i, c)
    ensures FirstOpen(order, ctx, i, c).state != ctx.state
  {
    if !Open(order[0], ctx, i, c) {
      FirstExists(order[1..], k - 1, ctx, i, c);
    }
  }

  /** Before the dwell is over only a danger state can be entered. */
  lemma OnlyDangerBeforeDwell(ctx: StateContext, i: StateInputs, c: Config)
    requires !DwellSatisfied(ctx, i, c)
    ensures Step(ctx, i, c) == ctx || IsDanger(Step(ctx, i, c).state)
  {
    StepIs(ctx, i, c);
  }

  /** Once it is over, a step leaves every state but OBSERVING: its own state is not
      a candidate, however well justified, and OBSERVING always is. */
  lemma LeavesAfterDwell(ctx: StateContext, i: StateInputs, c: Config)
    requires DwellSatisfied(ctx, i, c)
    ensures ctx.state != OBSERVING ==> Step(ctx, i, c).state != ctx.state
    ensures ctx.state == OBSERVING ==>
      (Step(ctx, i, c).state == OBSERVING <==> forall s :: s != OBSERVING ==> !Justified(s, i, c))
  {
    StepIs(ctx, i, c);
    if ctx.state != OBSERVING {
      assert Open(OBSERVING, ctx, i, c);
      FirstExists(EVALUATION_ORDER, 7, ctx, i, c);
    } else if s :| s != OBSERVING && Justified(s, i, c) {
      assert Open(s, ctx, i, c);
      var k := PlaceInOrder(s);
      FirstExists(EVALUATION_ORDER, k, ctx, i, c);
    }
  }

  /** With no dwell behind it a fresh machine stays, or enters a danger state on the
      evidence for that state alone. */
  lemma FreshStep(at: int, i: StateInputs, c: Config)
    requires i.now == at && c.minDwellMs > 0
    ensures Step(InitialContext(at), i, c).state ==
      if Justified(COLLAPSE, i, c) then COLLAPSE else if Justified(BLEEDING, i, c) then BLEEDING else OBSERVING
  {
    var ctx := InitialContext(at);
    StepIs(ctx, i, c);
    OnlyDangerBeforeDwell(ctx, i, c);
    FirstOpenIs(EVALUATION_ORDER, ctx, i, c);
    if Justified(COLLAPSE, i, c) {
      assert IsFirst(EVALUATION_ORDER, 0, ctx, i, c);
    } else if Justified(BLEEDING, i, c) {
      assert IsFirst(EVALUATION_ORDER, 1, ctx, i, c);
    }
  }
}
