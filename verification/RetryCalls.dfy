/** Which calls a run makes and how long it waits between them, told from the replies. */
module RetryCalls {
  import opened Numbers
  import opened Resilience
  import opened Results

  /** A call that failed on a rate limit or on the network. */
  predicate Transient(c: Call) {
    c.outcome.Fails? && (c.outcome.kind == RATE_LIMIT || c.outcome.kind == NETWORK_ERROR)
  }

  /** The replies from number `from` on, up to the first that is not transient or the last allowed. */
  ghost predicate AreReplies(calls: seq<Call>, reply: nat -> Call, from: nat, attempts: int) {
    && (forall k :: 0 <= k < |calls| ==> calls[k] == reply(from + k))
    && (forall k :: 0 <= k < |calls| - 1 ==> Transient(calls[k]))
    && from + |calls| <= (if attempts > from then attempts else from)
    && (from + |calls| < attempts ==> calls != [] && !Transient(calls[|calls| - 1]))
  }

  lemma {:induction false} AttemptsAre(b: Breaker, config: Config, reply: nat -> Call, attempt: nat)
    ensures AreReplies(AttemptsOn(b, config, reply, attempt).1, reply, attempt, config.retry.maxAttempts)
    decreases config.retry.maxAttempts - attempt
  {
    if attempt < config.retry.maxAttempts {
      var c := reply(attempt);
      if c.outcome.Fails?
         && DecideRetry(attempt + 1, c.outcome.kind, config.retry, c.outcome.resetAtMs, c.decidedAt).retry {
        var counted := BreakerOnFailure(b, config.breaker, c.failedAt);
        AttemptsAre(counted, config, reply, attempt + 1);
        var rest := AttemptsOn(counted, config, reply, attempt + 1).1;
        assert forall k :: 0 <= k < |rest| ==> rest[k] == reply(attempt + 1 + k);
      }
    }
  }

  /** In any history, an admitted run makes the calls its replies ask for: it goes on past
      each rate limit and network failure and past nothing else, until its attempts are
      used up; a run that is not admitted makes none. */
  lemma CallsAre(config: Config, runs: seq<Run>, n: nat)
    requires n < |runs|
    ensures var (report, calls) := (ReportOf(config, runs, n), CallsOf(ReportOf(config, runs, n)));
      if report.Admitted? then AreReplies(calls, runs[n].reply, 0, config.retry.maxAttempts) else calls == []
  {
    var gated := BreakerAllows(After(config, runs[..n]).0, config.breaker, runs[n].gateAt).1;
    AttemptsAre(gated, config, runs[n].reply, 0);
  }

  lemma CapLater(f: real, p: real, cap: real)
    requires f >= 1.0 && cap >= 0.0
    ensures Min(cap, f * p) == Min(cap, f * Min(cap, p))
  {
    assert (f - 1.0) * cap >= 0.0;
    if p > cap {
      assert (f - 1.0) * p >= 0.0;
    }
  }

  lemma Regroup(b: real, f: real, q: real)
    ensures b * (f * q) == f * (b * q)
  {
  }

  /** The first backoff is the base delay and each further one the factor times the one
      before, none above the cap. */
  lemma BackoffSteps(policy: RetryPolicy, attempt: nat)
    requires attempt >= 1 && policy.factor >= 1.0 && policy.maxDelayMs >= 0.0
    ensures Backoff(1, policy) == Min(policy.maxDelayMs, policy.baseDelayMs)
    ensures Backoff(attempt + 1, policy) == Min(policy.maxDelayMs, policy.factor * Backoff(attempt, policy))
  {
    var q := Pow(policy.factor, attempt - 1);
    Regroup(policy.baseDelayMs, policy.factor, q);
    CapLater(policy.factor, policy.baseDelayMs * q, policy.maxDelayMs);
  }
}
