/** The per-key rate limiter of src/api/security.ts: a bucket for every key that
    has called, and a prune that forgets idle keys. */
module ApiRateLimiter {
  import opened Numbers
  import TokenBucket

  datatype Config = Config(capacity: real, refillPerSecond: real)

  datatype Bucket = Bucket(tokens: real, lastRefillMs: int)

  datatype Taken = Taken(allowed: bool, remaining: int, retryAfterMs: int)

  type Buckets = map<string, Bucket>

  /** The key's tokens at `nowMs`. */
  function Refilled(cfg: Config, b: Bucket, nowMs: int): real {
    var elapsedS := Max(0.0, (nowMs - b.lastRefillMs) as real / 1000.0);
    Min(cfg.capacity, b.tokens + elapsedS * cfg.refillPerSecond)
  }

  function BucketOf(buckets: Buckets, cfg: Config, key: string, nowMs: int): Bucket {
    if key in buckets then buckets[key] else Bucket(cfg.capacity, nowMs)
  }

  function Spend(cfg: Config, tokens: real, nowMs: int): (Bucket, Taken)
    requires cfg.refillPerSecond > 0.0
  {
    if tokens >= 1.0 then
      (Bucket(tokens - 1.0, nowMs), Taken(true, (tokens - 1.0).Floor, 0))
    else
      (Bucket(tokens, nowMs), Taken(false, 0, Ceil((1.0 - tokens) / cfg.refillPerSecond * 1000.0)))
  }

  /** One call's answer and the buckets after it. */
  function TakeOn(buckets: Buckets, cfg: Config, key: string, nowMs: int): (Buckets, Taken)
    requires cfg.refillPerSecond > 0.0
  {
    var (b, taken) := Spend(cfg, Refilled(cfg, BucketOf(buckets, cfg, key, nowMs), nowMs), nowMs);
    (buckets[key := b], taken)
  }

  predicate Idle(b: Bucket, nowMs: int, idleMs: int) { nowMs - b.lastRefillMs > idleMs }

  function PruneOn(buckets: Buckets, nowMs: int, idleMs: int): Buckets {
    map k | k in buckets && !Idle(buckets[k], nowMs, idleMs) :: buckets[k]
  }

  class RateLimiter {
    const cfg: Config
    var buckets: Buckets

    constructor (cfg: Config)
      ensures this.cfg == cfg && buckets == map[]
    {
      this.cfg := cfg;
      buckets := map[];
    }

    method Take(key: string, nowMs: int) returns (taken: Taken)
      requires cfg.refillPerSecond > 0.0
      modifies this
      ensures (buckets, taken) == TakeOn(old(buckets), cfg, key, nowMs)
    {
      var b := if key in buckets then buckets[key] else Bucket(cfg.capacity, nowMs);
      var elapsedS := Max(0.0, (nowMs - b.lastRefillMs) as real / 1000.0);
      b := b.(tokens := Min(cfg.capacity, b.tokens + elapsedS * cfg.refillPerSecond));
      b := b.(lastRefillMs := nowMs);
      assert b == Bucket(Refilled(cfg, BucketOf(buckets, cfg, key, nowMs), nowMs), nowMs);
      if b.tokens >= 1.0 {
        b := b.(tokens := b.tokens - 1.0);
        buckets := buckets[key := b];
        return Taken(true, b.tokens.Floor, 0);
      }
      buckets := buckets[key := b];
      var needed := 1.0 - b.tokens;
      return Taken(false, 0, Ceil(needed / cfg.refillPerSecond * 1000.0));
    }

    method Prune(nowMs: int, idleMs: int)
      modifies this
      ensures buckets == PruneOn(old(buckets), nowMs, idleMs)
    {
      ghost var before := buckets;
      var left := buckets.Keys;
      while left != {}
        invariant left <= before.Keys
        invariant buckets == map k | k in before && (k in left || !Idle(before[k], nowMs, idleMs)) :: before[k]
        decreases left
      {
        var k :| k in left;
        if Idle(buckets[k], nowMs, idleMs) {
          buckets := buckets - {k};
        }
        left := left - {k};
      }
    }
  }

  // ------------------------------------------------------------------
  // Histories of calls
  // ------------------------------------------------------------------

  datatype Op = Take(key: string, nowMs: int) | Prune(nowMs: int, idleMs: int)

  /** The answers of the takes of a history, in order. */
  function Answers(buckets: Buckets, cfg: Config, ops: seq<Op>): seq<Taken>
    requires cfg.refillPerSecond > 0.0
    decreases |ops|
  {
    if ops == [] then []
    else match ops[0]
      case Take(key, now) =>
        var (next, taken) := TakeOn(buckets, cfg, key, now);
        [taken] + Answers(next, cfg, ops[1..])
      case Prune(now, idle) => Answers(PruneOn(buckets, now, idle), cfg, ops[1..])
  }

  /** The history with its prunes left out. */
  function Takes(ops: seq<Op>): seq<Op> {
    if ops == [] then []
    else if ops[0].Take? then [ops[0]] + Takes(ops[1..])
    else Takes(ops[1..])
  }

  predicate ClockForward(ops: seq<Op>) {
    forall i, j :: 0 <= i < j < |ops| ==> ops[i].nowMs <= ops[j].nowMs
  }

  /** A key idle for longer than `idleMs` has had time to fill up. */
  predicate IdleRefills(cfg: Config, idleMs: int) {
    idleMs >= 0 && cfg.refillPerSecond * (idleMs + 1) as real / 1000.0 >= cfg.capacity
  }

  predicate PrunesRefill(cfg: Config, ops: seq<Op>) {
    forall i :: 0 <= i < |ops| && ops[i].Prune? ==> IdleRefills(cfg, ops[i].idleMs)
  }

  predicate Sound(buckets: Buckets, cfg: Config, now: int) {
    forall k :: k in buckets ==> 0.0 <= buckets[k].tokens <= cfg.capacity && buckets[k].lastRefillMs <= now
  }

  /** The key's bucket is full at every instant from `now` on. */
  ghost predicate FullFrom(cfg: Config, b: Bucket, now: int) {
    forall t: int :: now <= t ==> Refilled(cfg, b, t) == cfg.capacity
  }

  /** `pruned` is `full` without some keys that would be full anyway. */
  ghost predicate Simulates(pruned: Buckets, full: Buckets, cfg: Config, now: int) {
    && Sound(full, cfg, now)
    && (forall k :: k in pruned ==> k in full && pruned[k] == full[k])
    && (forall k :: k in full && k !in pruned ==> FullFrom(cfg, full[k], now))
  }

  lemma RefilledMonotone(cfg: Config, b: Bucket, s: int, t: int)
    requires cfg.refillPerSecond > 0.0 && b.lastRefillMs <= s <= t
    ensures Refilled(cfg, b, s) <= Refilled(cfg, b, t) <= cfg.capacity
    ensures b.tokens <= cfg.capacity ==> b.tokens <= Refilled(cfg, b, s)
  {
    var x, y := (s - b.lastRefillMs) as real / 1000.0, (t - b.lastRefillMs) as real / 1000.0;
    assert 0.0 <= x <= y;
    assert (y - x) * cfg.refillPerSecond >= 0.0;
    assert x * cfg.refillPerSecond >= 0.0;
  }

  lemma IdleIsFull(cfg: Config, b: Bucket, now: int, idleMs: int)
    requires cfg.refillPerSecond > 0.0 && IdleRefills(cfg, idleMs) && b.tokens >= 0.0 && Idle(b, now, idleMs)
    ensures FullFrom(cfg, b, now)
  {
    var need := (idleMs + 1) as real;
    assert need * cfg.refillPerSecond / 1000.0 >= cfg.capacity;
    forall t: int | now <= t ensures Refilled(cfg, b, t) == cfg.capacity {
      var have := (t - b.lastRefillMs) as real;
      assert have >= need;
      assert (have - need) * cfg.refillPerSecond >= 0.0;
      assert have / 1000.0 * cfg.refillPerSecond == have * cfg.refillPerSecond / 1000.0;
    }
  }

  lemma TakeAgrees(pruned: Buckets, full: Buckets, cfg: Config, key: string, last: int, now: int)
    requires cfg.refillPerSecond > 0.0 && cfg.capacity >= 0.0
    requires Simulates(pruned, full, cfg, last) && last <= now
    ensures TakeOn(pruned, cfg, key, now).1 == TakeOn(full, cfg, key, now).1
    ensures Simulates(TakeOn(pruned, cfg, key, now).0, TakeOn(full, cfg, key, now).0, cfg, now)
  {
    var b := BucketOf(full, cfg, key, now);
    RefilledMonotone(cfg, b, now, now);
    assert key in full && key !in pruned ==> FullFrom(cfg, full[key], last);
    assert Refilled(cfg, BucketOf(pruned, cfg, key, now), now) == Refilled(cfg, b, now);
  }

  lemma PruneAgrees(pruned: Buckets, full: Buckets, cfg: Config, last: int, now: int, idleMs: int)
    requires cfg.refillPerSecond > 0.0 && IdleRefills(cfg, idleMs)
    requires Simulates(pruned, full, cfg, last) && last <= now
    ensures Simulates(PruneOn(pruned, now, idleMs), full, cfg, now)
  {
    var next := PruneOn(pruned, now, idleMs);
    forall k | k in full && k !in next ensures FullFrom(cfg, full[k], now) {
      if k in pruned {
        IdleIsFull(cfg, full[k], now, idleMs);
      } else {
        assert FullFrom(cfg, full[k], last);
      }
    }
  }

  lemma {:induction false} AnswersAgree(pruned: Buckets, full: Buckets, cfg: Config, ops: seq<Op>, last: int)
    requires cfg.refillPerSecond > 0.0 && cfg.capacity >= 0.0
    requires Simulates(pruned, full, cfg, last)
    requires ClockForward(ops) && (ops != [] ==> last <= ops[0].nowMs) && PrunesRefill(cfg, ops)
    ensures Answers(pruned, cfg, ops) == Answers(full, cfg, Takes(ops))
    decreases |ops|
  {
    if ops != [] {
      var now := ops[0].nowMs;
      match ops[0]
      case Take(key, _) =>
        TakeAgrees(pruned, full, cfg, key, last, now);
        AnswersAgree(TakeOn(pruned, cfg, key, now).0, TakeOn(full, cfg, key, now).0, cfg, ops[1..], now);
        assert Takes(ops)[1..] == Takes(ops[1..]);
      case Prune(_, idle) =>
        assert IdleRefills(cfg, ops[0].idleMs);
        PruneAgrees(pruned, full, cfg, last, now, idle);
        AnswersAgree(PruneOn(pruned, now, idle), full, cfg, ops[1..], now);
    }
  }

  /** Pruning keys that have been idle long enough to fill up changes no answer,
      wherever the prunes stand in the history and whatever the keys. */
  lemma PruningIsInvisible(cfg: Config, ops: seq<Op>)
    requires cfg.refillPerSecond > 0.0 && cfg.capacity >= 0.0
    requires ClockForward(ops) && PrunesRefill(cfg, ops)
    ensures Answers(map[], cfg, ops) == Answers(map[], cfg, Takes(ops))
  {
    AnswersAgree(map[], map[], cfg, ops, if ops == [] then 0 else ops[0].nowMs);
  }

  // ------------------------------------------------------------------
  // The condition is exact
  // ------------------------------------------------------------------

  function Repeat(op: Op, n: nat): (ops: seq<Op>)
    ensures |ops| == n && forall i | 0 <= i < n :: ops[i] == op
  {
    if n == 0 then [] else [op] + Repeat(op, n - 1)
  }

  lemma {:induction false} Drain(buckets: Buckets, cfg: Config, n: nat, m: nat, rest: seq<Op>)
    requires cfg.refillPerSecond > 0.0 && m + n <= cfg.capacity.Floor
    requires buckets == (if m == 0 then map[] else map["k" := Bucket(cfg.capacity - m as real, 0)])
    requires m + n >= 1
    ensures |Answers(buckets, cfg, Repeat(Take("k", 0), n) + rest)| >= n
    ensures Answers(buckets, cfg, Repeat(Take("k", 0), n) + rest)[n..]
         == Answers(map["k" := Bucket(cfg.capacity - (m + n) as real, 0)], cfg, rest)
    decreases n
  {
    var ops := Repeat(Take("k", 0), n) + rest;
    if n == 0 {
      assert ops == rest;
      assert Answers(buckets, cfg, ops)[0..] == Answers(buckets, cfg, rest);
    } else {
      assert ops[0] == Take("k", 0);
      assert ops[1..] == Repeat(Take("k", 0), n - 1) + rest;
      var next := TakeOn(buckets, cfg, "k", 0).0;
      assert Refilled(cfg, BucketOf(buckets, cfg, "k", 0), 0) == cfg.capacity - m as real;
      assert next == map["k" := Bucket(cfg.capacity - (m + 1) as real, 0)];
      Drain(next, cfg, n - 1, m + 1, rest);
    }
  }

  /** For a whole capacity, an idle time too short to fill a drained bucket shows:
      drain a key, wait, prune, take. */
  lemma ShortIdleShows(cfg: Config, idleMs: int) returns (ops: seq<Op>)
    requires cfg.refillPerSecond > 0.0 && cfg.capacity >= 1.0 && cfg.capacity == cfg.capacity.Floor as real
    requires idleMs >= 0 && !IdleRefills(cfg, idleMs)
    ensures ClockForward(ops) && (forall i :: 0 <= i < |ops| && ops[i].Prune? ==> ops[i].idleMs == idleMs)
    ensures Answers(map[], cfg, ops) != Answers(map[], cfg, Takes(ops))
  {
    var n := cfg.capacity.Floor;
    var now := idleMs + 1;
    var drained := map["k" := Bucket(0.0, 0)];
    var prune, last := Prune(now, idleMs), Take("k", now);
    var drain := Repeat(Take("k", 0), n);
    ops := drain + [prune, last];
    Drain(map[], cfg, n, 0, [prune, last]);
    Drain(map[], cfg, n, 0, [last]);
    TakesOfDrain(n, [prune, last]);
    assert [prune, last][1..] == [last] && [last][1..] == [];
    assert Takes([prune, last]) == [last] by {
      assert Takes([last]) == [last];
    }
    assert PruneOn(drained, now, idleMs) == map[];
    assert Answers(map[], cfg, ops)[n..] == Answers(map[], cfg, [last]);
    assert Answers(map[], cfg, Takes(ops))[n..] == Answers(drained, cfg, [last]);
    LastAnswerDiffers(cfg, idleMs);
  }

  lemma LastAnswerDiffers(cfg: Config, idleMs: int)
    requires cfg.refillPerSecond > 0.0 && cfg.capacity >= 1.0 && cfg.capacity == cfg.capacity.Floor as real
    requires idleMs >= 0 && !IdleRefills(cfg, idleMs)
    ensures Answers(map[], cfg, [Take("k", idleMs + 1)])
      != Answers(map["k" := Bucket(0.0, 0)], cfg, [Take("k", idleMs + 1)])
  {
    var now, drained := idleMs + 1, map["k" := Bucket(0.0, 0)];
    assert now as real / 1000.0 * cfg.refillPerSecond == cfg.refillPerSecond * now as real / 1000.0;
    assert Refilled(cfg, drained["k"], now) < cfg.capacity;
    var full, worn := TakeOn(map[], cfg, "k", now).1, TakeOn(drained, cfg, "k", now).1;
    assert full.remaining == cfg.capacity.Floor - 1 && worn != full;
    assert Answers(map[], cfg, [Take("k", now)])[0] == full;
    assert Answers(drained, cfg, [Take("k", now)])[0] == worn;
  }

  lemma {:induction false} TakesOfDrain(n: nat, rest: seq<Op>)
    ensures Takes(Repeat(Take("k", 0), n) + rest) == Repeat(Take("k", 0), n) + Takes(rest)
  {
    var ops := Repeat(Take("k", 0), n) + rest;
    if n == 0 {
      assert ops == rest;
    } else {
      assert ops[1..] == Repeat(Take("k", 0), n - 1) + rest;
      TakesOfDrain(n - 1, rest);
    }
  }

  ghost predicate PruneSafe(cfg: Config, idleMs: int)
    requires cfg.refillPerSecond > 0.0
  {
    forall ops: seq<Op> | ClockForward(ops)
      && (forall i :: 0 <= i < |ops| && ops[i].Prune? ==> ops[i].idleMs == idleMs) ::
      Answers(map[], cfg, ops) == Answers(map[], cfg, Takes(ops))
  }

  /** With a whole capacity, pruning at `idleMs` is invisible in every history
      exactly when a bucket fills up in `idleMs + 1` milliseconds. */
  lemma PruneSafeIff(cfg: Config, idleMs: int)
    requires cfg.refillPerSecond > 0.0 && cfg.capacity >= 1.0 && cfg.capacity == cfg.capacity.Floor as real
    requires idleMs >= 0
    ensures PruneSafe(cfg, idleMs) <==> cfg.refillPerSecond * (idleMs + 1) as real / 1000.0 >= cfg.capacity
  {
    if IdleRefills(cfg, idleMs) {
      forall ops: seq<Op> | ClockForward(ops)
        && (forall i :: 0 <= i < |ops| && ops[i].Prune? ==> ops[i].idleMs == idleMs)
        ensures Answers(map[], cfg, ops) == Answers(map[], cfg, Takes(ops))
      {
        PruningIsInvisible(cfg, ops);
      }
    } else {
      var ops := ShortIdleShows(cfg, idleMs);
    }
  }

  /** A refused call's delay is exact: the next call on that key is allowed from
      then on and at no earlier millisecond. */
  lemma RetryIsExact(buckets: Buckets, cfg: Config, key: string, now: int, later: int)
    requires cfg.refillPerSecond > 0.0 && cfg.capacity >= 1.0 && now <= later
    requires !TakeOn(buckets, cfg, key, now).1.allowed
    ensures TakeOn(TakeOn(buckets, cfg, key, now).0, cfg, key, later).1.allowed
       <==> later >= now + TakeOn(buckets, cfg, key, now).1.retryAfterMs
  {
    var b := TakeOn(buckets, cfg, key, now).0[key];
    var tb := TokenBucket.Config(cfg.refillPerSecond, cfg.capacity);
    TokenBucket.DelayCoversDeficit(tb, 1.0 - b.tokens, later - now);
    assert Refilled(cfg, b, later) == Min(cfg.capacity, b.tokens + TokenBucket.Gain(tb, later - now)) by {
      assert (later - now) as real / 1000.0 >= 0.0;
    }
  }
}
