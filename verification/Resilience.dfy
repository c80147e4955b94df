/** src/hardening: the circuit breaker of guards.ts, the retry policy of retryPolicy.ts
    and the executor of ResilientCliExecutor.ts that puts them around a CLI call. */
module Resilience {
  import opened Numbers
  import opened Results

  // ------------------------------------------------------------------
  // Retry policy
  // ------------------------------------------------------------------

  datatype ErrorKind =
    | AUTH_ERROR | RATE_LIMIT | MALFORMED_FIELD | MISSING_FIELD | CHAIN_ERROR | FORMAT_ERROR | CLI_MISSING
    | NETWORK_ERROR

  datatype RetryPolicy = RetryPolicy(maxAttempts: int, baseDelayMs: real, maxDelayMs: real, factor: real)

  predicate IsRetryable(kind: ErrorKind) { kind == RATE_LIMIT || kind == NETWORK_ERROR }

  datatype RetryDecision = RetryDecision(retry: bool, delayMs: real)

  function Pow(b: real, n: nat): real { if n == 0 then 1.0 else b * Pow(b, n - 1) }

  function Backoff(attempt: nat, policy: RetryPolicy): real
    requires attempt >= 1
  {
    Min(policy.maxDelayMs, policy.baseDelayMs * Pow(policy.factor, attempt - 1))
  }

  /** What follows the failure of attempt number `attempt`. */
  function DecideRetry(attempt: nat, kind: ErrorKind, policy: RetryPolicy, resetAtMs: Option<real>, nowMs: real)
      : RetryDecision
    requires attempt >= 1
  {
    if !IsRetryable(kind) then RetryDecision(false, 0.0)
    else if attempt >= policy.maxAttempts then RetryDecision(false, 0.0)
    else if kind == RATE_LIMIT && resetAtMs.Some? then
      RetryDecision(true, Max(Backoff(attempt, policy), Max(0.0, resetAtMs.value - nowMs)))
    else RetryDecision(true, Backoff(attempt, policy))
  }

  /** A retry waits at least its backoff, and never before a known reset. */
  lemma RetryWaits(attempt: nat, kind: ErrorKind, policy: RetryPolicy, resetAtMs: Option<real>, nowMs: real)
    requires attempt >= 1
    ensures var d := DecideRetry(attempt, kind, policy, resetAtMs, nowMs);
      && (d.retry <==> kind in {RATE_LIMIT, NETWORK_ERROR} && attempt < policy.maxAttempts)
      && (d.retry ==> d.delayMs >= Backoff(attempt, policy))
      && (d.retry && kind == RATE_LIMIT && resetAtMs.Some? ==> nowMs + d.delayMs >= resetAtMs.value)
      && (d.retry && d.delayMs > Max(policy.maxDelayMs, 0.0) ==>
           resetAtMs.Some? && nowMs + d.delayMs == resetAtMs.value)
  {
  }

  lemma {:induction false} PowGrows(b: real, n: nat)
    requires b >= 1.0
    ensures Pow(b, n) >= 1.0 && Pow(b, n + 1) >= Pow(b, n)
  {
    if n > 0 {
      PowGrows(b, n - 1);
      assert (b - 1.0) * Pow(b, n) >= 0.0;
    }
  }

  /** The delays of a run that fails every attempt with one kind: one before each
      further attempt, never shrinking, none above the cap. */
  method DelaySchedule(kind: ErrorKind, policy: RetryPolicy) returns (out: seq<real>)
    requires policy.factor >= 1.0 && policy.baseDelayMs >= 0.0
    ensures |out| == if kind in {RATE_LIMIT, NETWORK_ERROR} && policy.maxAttempts > 1 then policy.maxAttempts - 1 else 0
    ensures forall i, j :: 0 <= i < j < |out| ==> out[i] <= out[j] <= policy.maxDelayMs
    ensures forall i :: 0 <= i < |out| ==> out[i] == Backoff(i + 1, policy)
  {
    out := [];
    var attempt := 1;
    while attempt < policy.maxAttempts
      invariant attempt >= 1 && attempt <= if policy.maxAttempts >= 1 then policy.maxAttempts else 1
      invariant attempt > 1 ==> IsRetryable(kind)
      invariant |out| == attempt - 1
      invariant forall i :: 0 <= i < |out| ==> out[i] == Backoff(i + 1, policy)
    {
      var d := DecideRetry(attempt, kind, policy, None, 0.0);
      if !d.retry {
        assert !IsRetryable(kind) && attempt == 1;
        break;
      }
      out := out + [d.delayMs];
      attempt := attempt + 1;
    }
    forall i, j | 0 <= i < j < |out| ensures out[i] <= out[j] <= policy.maxDelayMs {
      BackoffGrows(i + 1, j + 1, policy);
    }
  }

  lemma {:induction false} BackoffGrows(a: nat, b: nat, policy: RetryPolicy)
    requires 1 <= a <= b && policy.factor >= 1.0 && policy.baseDelayMs >= 0.0
    ensures Backoff(a, policy) <= Backoff(b, policy) <= policy.maxDelayMs
    decreases b
  {
    if a < b {
      BackoffGrows(a, b - 1, policy);
      PowGrows(policy.factor, b - 2);
      var p, q := Pow(policy.factor, b - 2), Pow(policy.factor, b - 1);
      assert policy.baseDelayMs * (q - p) >= 0.0;
      assert policy.baseDelayMs * q == policy.baseDelayMs * p + policy.baseDelayMs * (q - p);
    }
  }

  // ------------------------------------------------------------------
  // Circuit breaker
  // ------------------------------------------------------------------

  datatype Phase = CLOSED | OPEN | HALF_OPEN

  datatype BreakerConfig = BreakerConfig(failureThreshold: int, cooldownMs: real)

  datatype Breaker = Breaker(phase: Phase, consecutiveFailures: nat, openedAt: Option<real>)

  const INIT_BREAKER := Breaker(CLOSED, 0, None)

  function BreakerAllows(b: Breaker, config: BreakerConfig, now: real): (bool, Breaker) {
    if b.phase == OPEN then
      if b.openedAt.Some? && now - b.openedAt.value >= config.cooldownMs
      then (true, b.(phase := HALF_OPEN)) else (false, b)
    else (true, b)
  }

  function BreakerOnFailure(b: Breaker, config: BreakerConfig, now: real): Breaker {
    var failures := b.consecutiveFailures + 1;
    if failures >= config.failureThreshold then Breaker(OPEN, failures, Some(now))
    else Breaker(if b.phase == HALF_OPEN then OPEN else CLOSED, failures,
                 if b.phase == HALF_OPEN then Some(now) else b.openedAt)
  }

  // ------------------------------------------------------------------
  // One run
  // ------------------------------------------------------------------

  datatype Config = Config(retry: RetryPolicy, breaker: BreakerConfig)

  /** The classified result of one inner call; `Rejects` is a call that throws. */
  datatype Outcome = Succeeds | Fails(kind: ErrorKind, resetAtMs: Option<real>) | Rejects

  /** The call, and the clock as its failure is counted and its retry decided. */
  datatype Call = Call(outcome: Outcome, failedAt: real, decidedAt: real)

  /** How the run ended, and the inner calls it made. */
  datatype Report = Killed | Refused | Admitted(calls: seq<Call>)

  datatype Run = Run(killed: bool, gateAt: real, reply: nat -> Call)

  function AttemptsOn(b: Breaker, config: Config, reply: nat -> Call, attempt: nat): (Breaker, seq<Call>)
    decreases config.retry.maxAttempts - attempt
  {
    if attempt >= config.retry.maxAttempts then (b, [])
    else
      var c := reply(attempt);
      match c.outcome
      case Succeeds => (INIT_BREAKER, [c])
      case Rejects => (b, [c])
      case Fails(kind, resetAt) =>
        var counted := BreakerOnFailure(b, config.breaker, c.failedAt);
        if !DecideRetry(attempt + 1, kind, config.retry, resetAt, c.decidedAt).retry then (counted, [c])
        else
          var (after, rest) := AttemptsOn(counted, config, reply, attempt + 1);
          (after, [c] + rest)
  }

  function RunOn(b: Breaker, config: Config, run: Run): (Breaker, Report) {
    if run.killed then (b, Killed)
    else
      var (allowed, gated) := BreakerAllows(b, config.breaker, run.gateAt);
      if !allowed then (gated, Refused)
      else
        var (after, calls) := AttemptsOn(gated, config, run.reply, 0);
        (after, Admitted(calls))
  }

  class ResilientCliExecutor {
    var breaker: Breaker
    const config: Config

    constructor (config: Config)
      ensures breaker == INIT_BREAKER && this.config == config
    {
      this.config := config;
      breaker := INIT_BREAKER;
    }

    method Execute(run: Run) returns (report: Report)
      modifies this`breaker
      ensures (breaker, report) == RunOn(old(breaker), config, run)
    {
      if run.killed {
        return Killed;
      }
      var gate := BreakerAllows(breaker, config.breaker, run.gateAt);
      breaker := gate.1;
      if !gate.0 {
        return Refused;
      }
      ghost var gated := breaker;
      var attempt := 0;
      var calls: seq<Call> := [];
      assert calls + AttemptsOn(gated, config, run.reply, 0).1 == AttemptsOn(gated, config, run.reply, 0).1;
      while attempt < config.retry.maxAttempts
        invariant AttemptsOn(gated, config, run.reply, 0)
          == var (after, rest) := AttemptsOn(breaker, config, run.reply, attempt); (after, calls + rest)
        invariant attempt <= config.retry.maxAttempts || attempt == 0
      {
        var c := run.reply(attempt);
        attempt := attempt + 1;
        if c.outcome.Succeeds? {
          breaker := INIT_BREAKER;
          return Admitted(calls + [c]);
        }
        if c.outcome.Rejects? {
          return Admitted(calls + [c]);
        }
        breaker := BreakerOnFailure(breaker, config.breaker, c.failedAt);
        if !DecideRetry(attempt, c.outcome.kind, config.retry, c.outcome.resetAtMs, c.decidedAt).retry {
          return Admitted(calls + [c]);
        }
        ghost var rest := AttemptsOn(breaker, config, run.reply, attempt).1;
        assert calls + ([c] + rest) == (calls + [c]) + rest;
        calls := calls + [c];
      }
      assert calls + [] == calls;
      return Admitted(calls);
    }
  }

  // ------------------------------------------------------------------
  // The breaker as a function of what happened
  // ------------------------------------------------------------------

  /** Failures since the last success; a call that threw counts as neither. */
  function Failures(log: seq<Call>): nat {
    if log == [] then 0
    else match log[|log| - 1].outcome
      case Succeeds => 0
      case Fails(_, _) => Failures(log[..|log| - 1]) + 1
      case Rejects => Failures(log[..|log| - 1])
  }

  /** The time of the last failure, when no success has followed it. */
  function LastFailure(log: seq<Call>): (r: Option<real>)
    ensures Failures(log) > 0 ==> r.Some?
  {
    if log == [] then None
    else match log[|log| - 1].outcome
      case Succeeds => None
      case Fails(_, _) => Some(log[|log| - 1].failedAt)
      case Rejects => LastFailure(log[..|log| - 1])
  }

  /** The breaker holds exactly the failures since the last success; it is open - or
      being tried again - exactly when they have reached the threshold, since the last one. */
  predicate Reflects(b: Breaker, config: BreakerConfig, log: seq<Call>) {
    && b.consecutiveFailures == Failures(log)
    && (b.phase == CLOSED <==> Failures(log) < config.failureThreshold)
    && (b.phase != CLOSED ==> b.openedAt.Some? && b.openedAt == LastFailure(log))
  }

  lemma CallReflects(b: Breaker, config: BreakerConfig, log: seq<Call>, c: Call)
    requires Reflects(b, config, log) && config.failureThreshold >= 1
    ensures match c.outcome
      case Succeeds => Reflects(INIT_BREAKER, config, log + [c])
      case Fails(_, _) => Reflects(BreakerOnFailure(b, config, c.failedAt), config, log + [c])
      case Rejects => Reflects(b, config, log + [c])
  {
    assert (log + [c])[..|log|] == log;
  }

  lemma {:induction false} AttemptsReflect(b: Breaker, config: Config, reply: nat -> Call, attempt: nat, log: seq<Call>)
    requires Reflects(b, config.breaker, log) && config.breaker.failureThreshold >= 1
    ensures var (after, calls) := AttemptsOn(b, config, reply, attempt);
      && Reflects(after, config.breaker, log + calls)
      && |calls| <= if attempt < config.retry.maxAttempts then config.retry.maxAttempts - attempt else 0
    decreases config.retry.maxAttempts - attempt
  {
    if attempt >= config.retry.maxAttempts {
      assert log + [] == log;
    } else {
      var c := reply(attempt);
      CallReflects(b, config.breaker, log, c);
      if c.outcome.Fails? {
        var counted := BreakerOnFailure(b, config.breaker, c.failedAt);
        AttemptsReflect(counted, config, reply, attempt + 1, log + [c]);
        var rest := AttemptsOn(counted, config, reply, attempt + 1).1;
        assert log + ([c] + rest) == (log + [c]) + rest;
      }
    }
  }

  /** A breaker being tried again has waited out its cooldown, by the clock of the last gate. */
  predicate Rested(b: Breaker, config: BreakerConfig, clock: real) {
    b.phase == HALF_OPEN && b.openedAt.Some? ==> clock - b.openedAt.value >= config.cooldownMs
  }

  lemma {:induction false} AttemptsRested(b: Breaker, config: Config, reply: nat -> Call, attempt: nat, clock: real)
    requires Rested(b, config.breaker, clock)
    ensures Rested(AttemptsOn(b, config, reply, attempt).0, config.breaker, clock)
    decreases config.retry.maxAttempts - attempt
  {
    if attempt < config.retry.maxAttempts && reply(attempt).outcome.Fails? {
      var c := reply(attempt);
      AttemptsRested(BreakerOnFailure(b, config.breaker, c.failedAt), config, reply, attempt + 1, clock);
    }
  }

  // ------------------------------------------------------------------
  // Histories of sequential runs
  // ------------------------------------------------------------------

  function CallsOf(r: Report): seq<Call> { if r.Admitted? then r.calls else [] }

  /** The breaker and the inner calls after a history of runs, starting closed. */
  function After(config: Config, runs: seq<Run>): (Breaker, seq<Call>) {
    if runs == [] then (INIT_BREAKER, [])
    else
      var (b, log) := After(config, runs[..|runs| - 1]);
      var (c, report) := RunOn(b, config, runs[|runs| - 1]);
      (c, log + CallsOf(report))
  }

  function ReportOf(config: Config, runs: seq<Run>, n: nat): Report
    requires n < |runs|
  {
    RunOn(After(config, runs[..n]).0, config, runs[n]).1
  }

  function LogBefore(config: Config, runs: seq<Run>, n: nat): seq<Call>
    requires n <= |runs|
  {
    After(config, runs[..n]).1
  }

  predicate GatesForward(runs: seq<Run>) {
    forall i, j :: 0 <= i < j < |runs| ==> runs[i].gateAt <= runs[j].gateAt
  }

  function Clock(runs: seq<Run>): real
    requires runs != []
  {
    runs[|runs| - 1].gateAt
  }

  lemma GateReflects(b: Breaker, config: BreakerConfig, now: real, log: seq<Call>)
    requires Reflects(b, config, log)
    ensures Reflects(BreakerAllows(b, config, now).1, config, log)
  {
  }

  lemma {:induction false} HistoryReflects(config: Config, runs: seq<Run>)
    requires config.breaker.failureThreshold >= 1 && GatesForward(runs)
    ensures Reflects(After(config, runs).0, config.breaker, After(config, runs).1)
    ensures runs != [] ==> Rested(After(config, runs).0, config.breaker, Clock(runs))
    ensures runs == [] ==> After(config, runs).0 == INIT_BREAKER
    decreases |runs|
  {
    if runs != [] {
      var before, run := runs[..|runs| - 1], runs[|runs| - 1];
      HistoryReflects(config, before);
      var (b, log) := After(config, before);
      assert Rested(b, config.breaker, run.gateAt);
      GateReflects(b, config.breaker, run.gateAt, log);
      var (allowed, gated) := BreakerAllows(b, config.breaker, run.gateAt);
      assert log + [] == log;
      AttemptsReflect(gated, config, run.reply, 0, log);
      AttemptsRested(gated, config, run.reply, 0, run.gateAt);
    }
  }

  /** A run makes calls if and only if it is not killed and either fewer failures than
      the threshold stand since the last success, or the cooldown has passed since
      the last of them; and it makes at most `maxAttempts`. */
  lemma AdmittedIff(config: Config, runs: seq<Run>, n: nat)
    requires config.breaker.failureThreshold >= 1 && GatesForward(runs) && n < |runs|
    ensures var (run, report, log) := (runs[n], ReportOf(config, runs, n), LogBefore(config, runs, n));
      && report.Admitted? == (!run.killed
            && (Failures(log) < config.breaker.failureThreshold
                || run.gateAt - LastFailure(log).value >= config.breaker.cooldownMs))
      && |CallsOf(report)| <= if config.retry.maxAttempts > 0 then config.retry.maxAttempts else 0
  {
    HistoryReflects(config, runs[..n]);
    var (b, log) := After(config, runs[..n]);
    assert n > 0 ==> Rested(b, config.breaker, runs[n].gateAt);
    GateReflects(b, config.breaker, runs[n].gateAt, log);
    AttemptsReflect(BreakerAllows(b, config.breaker, runs[n].gateAt).1, config, runs[n].reply, 0, log);
  }

  // ------------------------------------------------------------------
  // The trial of a half-open breaker
  // ------------------------------------------------------------------

  /** The run finds the breaker open and is let through to try it again. */
  predicate IsTrial(config: Config, runs: seq<Run>, n: nat)
    requires n < |runs|
  {
    After(config, runs[..n]).0.phase == OPEN && ReportOf(config, runs, n).Admitted?
  }

  /** The first call of a run is answered by a failure worth retrying. */
  predicate RetryableFirst(run: Run) {
    run.reply(0).outcome.Fails? && run.reply(0).outcome.kind in {RATE_LIMIT, NETWORK_ERROR}
  }

  lemma OneAttemptIff(b: Breaker, config: Config, reply: nat -> Call)
    requires config.retry.maxAttempts >= 1
    ensures |AttemptsOn(b, config, reply, 0).1| >= 1
    ensures |AttemptsOn(b, config, reply, 0).1| == 1 <==>
      config.retry.maxAttempts == 1
      || !(reply(0).outcome.Fails? && reply(0).outcome.kind in {RATE_LIMIT, NETWORK_ERROR})
  {
    var c := reply(0);
    if c.outcome.Fails? && config.retry.maxAttempts > 1 {
      var counted := BreakerOnFailure(b, config.breaker, c.failedAt);
      assert AttemptsOn(counted, config, reply, 1).1 != [];
    }
  }

  /** An admitted run - so the trial of an open breaker too - makes exactly one inner
      call if and only if only one attempt is allowed or its first call does not fail
      in a way worth retrying. */
  lemma OneCallIff(config: Config, runs: seq<Run>, n: nat)
    requires n < |runs| && ReportOf(config, runs, n).Admitted? && config.retry.maxAttempts >= 1
    ensures |CallsOf(ReportOf(config, runs, n))| == 1 <==> config.retry.maxAttempts == 1 || !RetryableFirst(runs[n])
    ensures IsTrial(config, runs, n) ==>
      runs[n].gateAt - After(config, runs[..n]).0.openedAt.value >= config.breaker.cooldownMs
  {
    var b := BreakerAllows(After(config, runs[..n]).0, config.breaker, runs[n].gateAt).1;
    OneAttemptIff(b, config, runs[n].reply);
  }

  function FailsAt(kind: ErrorKind, t: real): Call { Call(Fails(kind, None), t, t) }

  /** A run at `t` whose calls all fail with `kind`. */
  function FailingRun(kind: ErrorKind, t: real): Run { Run(false, t, n => FailsAt(kind, t)) }

  /** `k` runs of one failing call each. */
  function FailingRuns(k: nat): (runs: seq<Run>)
    ensures |runs| == k && forall i :: 0 <= i < k ==> runs[i] == FailingRun(AUTH_ERROR, 0.0)
  {
    seq(k, i => FailingRun(AUTH_ERROR, 0.0))
  }

  lemma {:induction false} FailingRunsOpen(config: Config, k: nat)
    requires config.retry.maxAttempts >= 1 && k <= config.breaker.failureThreshold
    ensures After(config, FailingRuns(k)).0 ==
      if k == 0 then INIT_BREAKER
      else if k == config.breaker.failureThreshold then Breaker(OPEN, k, Some(0.0)) else Breaker(CLOSED, k, None)
  {
    if k > 0 {
      FailingRunsOpen(config, k - 1);
      assert FailingRuns(k)[..k - 1] == FailingRuns(k - 1);
    }
  }

  /** Enough failures to open the breaker, and a trial once it has cooled down. */
  function TrialHistory(config: Config): seq<Run>
    requires config.breaker.failureThreshold >= 1
  {
    FailingRuns(config.breaker.failureThreshold) + [FailingRun(NETWORK_ERROR, Max(config.breaker.cooldownMs, 0.0))]
  }

  lemma TrialRetries(config: Config)
    requires config.breaker.failureThreshold >= 1 && config.retry.maxAttempts >= 2
    ensures var (runs, n) := (TrialHistory(config), config.breaker.failureThreshold);
      GatesForward(runs) && IsTrial(config, runs, n) && |CallsOf(ReportOf(config, runs, n))| >= 2
  {
    var runs, n := TrialHistory(config), config.breaker.failureThreshold;
    FailingRunsOpen(config, n);
    assert runs[..n] == FailingRuns(n);
    assert ReportOf(config, runs, n).Admitted?;
    OneCallIff(config, runs, n);
    OneAttemptIff(BreakerAllows(After(config, runs[..n]).0, config.breaker, runs[n].gateAt).1, config, runs[n].reply);
  }

  /** The breaker gives every trial a single call if and only if runs never retry. */
  lemma OneTrialIff(config: Config)
    requires config.breaker.failureThreshold >= 1
    ensures (forall runs, n: nat :: n < |runs| && GatesForward(runs) && IsTrial(config, runs, n) ==>
              |CallsOf(ReportOf(config, runs, n))| <= 1)
      <==> config.retry.maxAttempts <= 1
  {
    if config.retry.maxAttempts <= 1 {
      forall runs, n: nat | n < |runs| && GatesForward(runs) && IsTrial(config, runs, n)
        ensures |CallsOf(ReportOf(config, runs, n))| <= 1
      {
        AdmittedIff(config, runs, n);
      }
    } else {
      TrialRetries(config);
    }
  }

  /** For instance: one failure opens the breaker, and the trial ten seconds later
      calls twice. */
  lemma TrialCallsTwice()
    ensures var config := Config(RetryPolicy(2, 0.0, 0.0, 1.0), BreakerConfig(1, 10_000.0));
      var runs := [FailingRun(AUTH_ERROR, 0.0), FailingRun(NETWORK_ERROR, 10_000.0)];
      && After(config, runs[..1]).0.phase == OPEN
      && ReportOf(config, runs, 1) == Admitted([FailsAt(NETWORK_ERROR, 10_000.0), FailsAt(NETWORK_ERROR, 10_000.0)])
  {
    var config := Config(RetryPolicy(2, 0.0, 0.0, 1.0), BreakerConfig(1, 10_000.0));
    var first, trial := FailingRun(AUTH_ERROR, 0.0), FailingRun(NETWORK_ERROR, 10_000.0);
    var runs := [first, trial];
    FailingRunsOpen(config, 1);
    assert runs[..1] == FailingRuns(1);
    var c := trial.reply(0);
    var gated := Breaker(HALF_OPEN, 1, Some(0.0));
    var once := BreakerOnFailure(gated, config.breaker, c.failedAt);
    var twice := BreakerOnFailure(once, config.breaker, c.failedAt);
    assert AttemptsOn(once, config, trial.reply, 1) == (twice, [c]);
    assert [c] + [c] == [c, c];
    assert AttemptsOn(gated, config, trial.reply, 0) == (twice, [c, c]);
  }

  ghost predicate AllFail(log: seq<Call>) { forall i :: 0 <= i < |log| ==> log[i].outcome.Fails? }

  lemma {:induction false} AllFailCounted(log: seq<Call>)
    requires AllFail(log)
    ensures Failures(log) == |log|
    ensures log != [] ==> LastFailure(log) == Some(log[|log| - 1].failedAt)
  {
    if log != [] {
      AllFailCounted(log[..|log| - 1]);
    }
  }

  lemma {:induction false} LogGrows(config: Config, runs: seq<Run>, n: nat)
    requires n <= |runs|
    ensures LogBefore(config, runs, n) <= After(config, runs).1
    ensures n < |runs| ==> LogBefore(config, runs, n) + CallsOf(ReportOf(config, runs, n)) <= After(config, runs).1
    decreases |runs|
  {
    if n == |runs| {
      assert runs[..n] == runs;
    } else if n == |runs| - 1 {
    } else {
      var before := runs[..|runs| - 1];
      assert before[..n] == runs[..n] && before[n] == runs[n];
      LogGrows(config, before, n);
    }
  }

  /** The run waited for a full cooldown after the failure before it. */
  predicate Paused(config: Config, runs: seq<Run>, n: nat)
    requires n < |runs|
  {
    var log := LogBefore(config, runs, n);
    LastFailure(log).Some? && runs[n].gateAt - LastFailure(log).value >= config.breaker.cooldownMs
  }

  function MaxCalls(config: Config): nat { if config.retry.maxAttempts > 0 then config.retry.maxAttempts else 0 }

  /** When every inner call fails: a run that finds fewer calls made than the threshold -
      however long after the last - leaves at most `failureThreshold - 1 + maxAttempts`
      behind it; one admitted past the threshold has waited a full cooldown, so before the
      first such pause no more are made. */
  lemma BurstBound(config: Config, runs: seq<Run>, n: nat)
    requires config.breaker.failureThreshold >= 1 && GatesForward(runs) && n < |runs| && AllFail(After(config, runs).1)
    ensures var (report, log) := (ReportOf(config, runs, n), LogBefore(config, runs, n));
      && (|log| < config.breaker.failureThreshold ==>
            |log + CallsOf(report)| <= config.breaker.failureThreshold - 1 + MaxCalls(config))
      && (report.Admitted? && |log| >= config.breaker.failureThreshold ==> Paused(config, runs, n))
      && (report.Admitted? && !Paused(config, runs, n) ==> |log| <= config.breaker.failureThreshold - 1)
  {
    AdmittedIff(config, runs, n);
    LogGrows(config, runs, n);
    var log, all := LogBefore(config, runs, n), After(config, runs).1;
    assert forall i :: 0 <= i < |log| ==> log[i] == all[i];
    AllFailCounted(log);
  }

  /** So the first run at or past the threshold finds at most that many calls made, and
      that many is all there is when no run gets there. */
  lemma {:induction false} FirstBurst(config: Config, runs: seq<Run>, n: nat)
    requires config.breaker.failureThreshold >= 1 && GatesForward(runs) && n <= |runs| && AllFail(After(config, runs).1)
    requires forall k :: 0 <= k < n ==> |LogBefore(config, runs, k)| < config.breaker.failureThreshold
    ensures |LogBefore(config, runs, n)| <= config.breaker.failureThreshold - 1 + MaxCalls(config)
  {
    if n > 0 {
      BurstBound(config, runs, n - 1);
      assert runs[..n][..n - 1] == runs[..n - 1];
    }
  }
}
