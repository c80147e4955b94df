/** The leaky bucket of src/runtime/rateLimiter.ts: its state is a value threaded
    through time.  Token amounts are reals, instants are integer milliseconds. */
module TokenBucket {
  import opened Numbers

  datatype Config = Config(rate: real, capacity: real)

  datatype Bucket = Bucket(available: real, at: int)

  datatype AdmitResult =
    | Admitted(state: Bucket)
    | Deferred(state: Bucket, retryAfterMs: int)

  /** Tokens leaked in over `ms` milliseconds. */
  function Gain(config: Config, ms: int): real {
    ms as real / 1000.0 * config.rate
  }

  function InitBucket(config: Config, atMs: int): Bucket {
    Bucket(config.capacity, atMs)
  }

  function Refill(state: Bucket, config: Config, now: int): Bucket {
    if now <= state.at then state
    else Bucket(Min(config.capacity, state.available + Gain(config, now - state.at)), now)
  }

  function TryAdmit(state: Bucket, config: Config, weight: real, now: int): AdmitResult
    requires config.rate > 0.0
  {
    var refilled := Refill(state, config, now);
    if refilled.available >= weight then
      Admitted(Bucket(refilled.available - weight, now))
    else
      var deficit := weight - refilled.available;
      Deferred(refilled, Ceil(deficit / config.rate * 1000.0))
  }

  /** The bucket holds `weight` tokens at instant `now`. */
  predicate Fits(state: Bucket, config: Config, weight: real, now: int) {
    Refill(state, config, now).available >= weight
  }

  lemma GainAdds(config: Config, a: int, b: int)
    ensures Gain(config, a + b) == Gain(config, a) + Gain(config, b)
  {
    assert (a + b) as real == a as real + b as real;
  }

  lemma GainMonotone(config: Config, a: int, b: int)
    requires config.rate >= 0.0 && a <= b
    ensures Gain(config, a) <= Gain(config, b)
  {
    GainAdds(config, a, b - a);
    assert (b - a) as real / 1000.0 >= 0.0;
  }

  /** Refilling in two steps is refilling once. */
  lemma RefillComposes(state: Bucket, config: Config, mid: int, now: int)
    requires config.rate >= 0.0 && state.available <= config.capacity && state.at <= mid <= now
    ensures Refill(Refill(state, config, mid), config, now) == Refill(state, config, now)
  {
    GainAdds(config, mid - state.at, now - mid);
    GainMonotone(config, 0, now - mid);
  }

  lemma RefillMonotone(state: Bucket, config: Config, mid: int, now: int)
    requires config.rate >= 0.0 && state.available <= config.capacity && state.at <= mid <= now
    ensures Refill(state, config, mid).available <= Refill(state, config, now).available <= config.capacity
  {
    RefillComposes(state, config, mid, now);
    GainMonotone(config, 0, now - mid);
    GainMonotone(config, 0, mid - state.at);
  }

  lemma CeilExact(x: real, n: int)
    ensures n >= Ceil(x) <==> n as real >= x
  {
  }

  lemma DelayCoversDeficit(config: Config, deficit: real, n: int)
    requires config.rate > 0.0
    ensures n >= Ceil(deficit / config.rate * 1000.0) <==> Gain(config, n) >= deficit
  {
    var x := deficit / config.rate * 1000.0;
    CeilExact(x, n);
    var y := n as real;
    assert Gain(config, n) == y / 1000.0 * config.rate;
    assert deficit == x / 1000.0 * config.rate;
    assert Gain(config, n) - deficit == (y - x) / 1000.0 * config.rate;
    if y >= x {
      assert (y - x) / 1000.0 * config.rate >= 0.0;
    } else {
      assert (y - x) / 1000.0 < 0.0;
      assert (y - x) / 1000.0 * config.rate < 0.0;
    }
  }

  /** The reported delay is exact: with no request in between, the refused weight
      fits from `now + retryAfterMs` on and at no earlier millisecond. */
  lemma RetryIsExact(state: Bucket, config: Config, weight: real, now: int, later: int)
    requires config.rate > 0.0 && state.available <= config.capacity && weight <= config.capacity
    requires state.at <= now <= later
    requires TryAdmit(state, config, weight, now).Deferred?
    ensures Fits(state, config, weight, later) <==> later >= now + TryAdmit(state, config, weight, now).retryAfterMs
    ensures TryAdmit(state, config, weight, now).retryAfterMs >= 1
  {
    var refilled := Refill(state, config, now);
    var deficit := weight - refilled.available;
    RefillComposes(state, config, now, later);
    DelayCoversDeficit(config, deficit, later - now);
    DelayCoversDeficit(config, deficit, 0);
  }

  /** A weight above the capacity is refused at every instant, so waiting never helps. */
  lemma OverweightNeverFits(state: Bucket, config: Config, weight: real, now: int)
    requires config.rate > 0.0 && state.available <= config.capacity
    requires weight > config.capacity
    ensures TryAdmit(state, config, weight, now).Deferred?
    ensures TryAdmit(state, config, weight, now).state.available <= config.capacity
  {
  }
}
