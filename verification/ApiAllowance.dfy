/** What the per-key limiter lets through, told from the calls alone: no bucket. */
module ApiAllowance {
  import opened ApiRateLimiter
  import opened Numbers

  /** Calls only, in time order and none after `now`. */
  predicate CallsUpTo(ops: seq<Op>, now: int) {
    (forall i :: 0 <= i < |ops| ==> ops[i].Take? && ops[i].nowMs <= now) && ClockForward(ops)
  }

  /** The buckets after the calls, from none. */
  function After(cfg: Config, ops: seq<Op>): Buckets
    requires cfg.refillPerSecond > 0.0 && forall i :: 0 <= i < |ops| ==> ops[i].Take?
  {
    if ops == [] then map[]
    else
      var n := |ops| - 1;
      TakeOn(After(cfg, ops[..n]), cfg, ops[n].key, ops[n].nowMs).0
  }

  predicate Allows(cfg: Config, ops: seq<Op>, key: string, now: int)
    requires cfg.refillPerSecond > 0.0 && forall i :: 0 <= i < |ops| ==> ops[i].Take?
  {
    TakeOn(After(cfg, ops), cfg, key, now).1.allowed
  }

  /** How many calls of the key, from the i-th on, were allowed. */
  function AllowedFrom(cfg: Config, ops: seq<Op>, key: string, i: nat): nat
    requires cfg.refillPerSecond > 0.0 && forall i :: 0 <= i < |ops| ==> ops[i].Take?
    decreases |ops|
  {
    if |ops| <= i then 0
    else
      var n := |ops| - 1;
      AllowedFrom(cfg, ops[..n], key, i)
      + if ops[n].key == key && Allows(cfg, ops[..n], key, ops[n].nowMs) then 1 else 0
  }

  /** What is left at `now` of a full bucket at `from` and the refill since, after `spent` calls. */
  function Left(cfg: Config, from: int, now: int, spent: int): real {
    cfg.capacity + (now - from) as real / 1000.0 * cfg.refillPerSecond - spent as real
  }

  /** The same since the i-th call. */
  function LeftSince(cfg: Config, ops: seq<Op>, key: string, i: nat, now: int): real
    requires cfg.refillPerSecond > 0.0 && i < |ops| && forall i :: 0 <= i < |ops| ==> ops[i].Take?
  {
    Left(cfg, ops[i].nowMs, now, AllowedFrom(cfg, ops, key, i))
  }

  /** The tokens are no more than what is left since any call of the key, and just that since one. */
  ghost predicate Least(cfg: Config, ops: seq<Op>, key: string, now: int, tokens: real)
    requires cfg.refillPerSecond > 0.0 && forall i :: 0 <= i < |ops| ==> ops[i].Take?
  {
    && (forall i :: 0 <= i < |ops| && ops[i].key == key ==> tokens <= LeftSince(cfg, ops, key, i, now))
    && (exists i :: 0 <= i < |ops| && ops[i].key == key && tokens == LeftSince(cfg, ops, key, i, now))
  }

  /** The key's bucket holds the least that is left. */
  ghost predicate Holds(cfg: Config, ops: seq<Op>, key: string, now: int)
    requires cfg.refillPerSecond > 0.0 && forall i :: 0 <= i < |ops| ==> ops[i].Take?
  {
    var buckets := After(cfg, ops);
    && (key in buckets ==>
          && buckets[key].lastRefillMs <= now && buckets[key].tokens <= cfg.capacity
          && Least(cfg, ops, key, buckets[key].lastRefillMs, buckets[key].tokens))
    && (key !in buckets ==> forall i :: 0 <= i < |ops| ==> ops[i].key != key)
  }

  lemma LeftLater(cfg: Config, from: int, t: int, now: int, spent: int)
    ensures Left(cfg, from, now, spent)
         == Left(cfg, from, t, spent) + (now - t) as real / 1000.0 * cfg.refillPerSecond
  {
    var a, b := (t - from) as real / 1000.0, (now - t) as real / 1000.0;
    assert (now - from) as real / 1000.0 == a + b;
    assert (a + b) * cfg.refillPerSecond == a * cfg.refillPerSecond + b * cfg.refillPerSecond;
  }

  lemma FullNow(cfg: Config, now: int, spent: int)
    ensures Left(cfg, now, now, spent) == cfg.capacity - spent as real
  {
  }

  /** A known bucket's tokens: capped, or what it held and the refill. */
  lemma RefilledIs(cfg: Config, b: Bucket, now: int, from: int, spent: int)
    requires b.lastRefillMs <= now && cfg.refillPerSecond > 0.0
    ensures var tokens := Refilled(cfg, b, now);
      && tokens <= cfg.capacity
      && (b.tokens <= Left(cfg, from, b.lastRefillMs, spent) ==> tokens <= Left(cfg, from, now, spent))
      && (b.tokens == Left(cfg, from, b.lastRefillMs, spent) ==>
            tokens == cfg.capacity || tokens == Left(cfg, from, now, spent))
  {
    LeftLater(cfg, from, b.lastRefillMs, now, spent);
    assert (now - b.lastRefillMs) as real / 1000.0 >= 0.0;
  }

  lemma NewIsFull(cfg: Config, now: int)
    ensures Refilled(cfg, Bucket(cfg.capacity, now), now) == cfg.capacity
  {
  }

  /** The tokens a call finds are no more than what is left since any call of the key, and
      just that since one, or a full bucket. */
  ghost predicate IsFound(cfg: Config, ops: seq<Op>, key: string, now: int, tokens: real)
    requires cfg.refillPerSecond > 0.0 && forall i :: 0 <= i < |ops| ==> ops[i].Take?
  {
    && tokens <= cfg.capacity
    && (forall i :: 0 <= i < |ops| && ops[i].key == key ==> tokens <= LeftSince(cfg, ops, key, i, now))
    && (tokens == cfg.capacity
        || exists i :: 0 <= i < |ops| && ops[i].key == key && tokens == LeftSince(cfg, ops, key, i, now))
  }

  lemma Found(cfg: Config, ops: seq<Op>, key: string, now: int)
    requires cfg.refillPerSecond > 0.0 && CallsUpTo(ops, now) && Holds(cfg, ops, key, now)
    ensures IsFound(cfg, ops, key, now, Refilled(cfg, BucketOf(After(cfg, ops), cfg, key, now), now))
  {
    var buckets := After(cfg, ops);
    if key in buckets {
      var b := buckets[key];
      forall i | 0 <= i < |ops| && ops[i].key == key
        ensures Refilled(cfg, b, now) <= cfg.capacity && Refilled(cfg, b, now) <= LeftSince(cfg, ops, key, i, now)
        ensures b.tokens == LeftSince(cfg, ops, key, i, b.lastRefillMs) ==>
          Refilled(cfg, b, now) == cfg.capacity || Refilled(cfg, b, now) == LeftSince(cfg, ops, key, i, now)
      {
        RefilledIs(cfg, b, now, ops[i].nowMs, AllowedFrom(cfg, ops, key, i));
      }
    } else {
      NewIsFull(cfg, now);
    }
  }

  /** One more call. */
  lemma AllowedMore(cfg: Config, ops: seq<Op>, op: Op, key: string, i: nat)
    requires cfg.refillPerSecond > 0.0 && op.Take? && i <= |ops| && forall i :: 0 <= i < |ops| ==> ops[i].Take?
    ensures AllowedFrom(cfg, ops + [op], key, i)
         == AllowedFrom(cfg, ops, key, i) + if op.key == key && Allows(cfg, ops, key, op.nowMs) then 1 else 0
  {
    assert (ops + [op])[..|ops|] == ops;
  }

  /** What the call spends is what less is left. */
  lemma SpendLeft(cfg: Config, from: int, now: int, spent: int, more: int)
    ensures Left(cfg, from, now, spent + more) == Left(cfg, from, now, spent) - more as real
  {
  }

  /** What is found, less what the call spends, is the least left after it. */
  lemma CallLeast(cfg: Config, ops: seq<Op>, op: Op, tokens: real)
    requires cfg.refillPerSecond > 0.0 && op.Take? && forall i :: 0 <= i < |ops| ==> ops[i].Take?
    requires IsFound(cfg, ops, op.key, op.nowMs, tokens)
    ensures var spent := if Allows(cfg, ops, op.key, op.nowMs) then 1 else 0;
      Least(cfg, ops + [op], op.key, op.nowMs, tokens - spent as real)
  {
    var more, key, now := ops + [op], op.key, op.nowMs;
    var spent := if Allows(cfg, ops, key, now) then 1 else 0;
    forall i: nat | i < |more|
      ensures i < |ops| ==> more[i] == ops[i]
      ensures LeftSince(cfg, more, key, i, now)
           == (if i < |ops| then LeftSince(cfg, ops, key, i, now) else cfg.capacity) - spent as real
    {
      AllowedMore(cfg, ops, op, key, i);
      SpendLeft(cfg, more[i].nowMs, now, AllowedFrom(cfg, ops, key, i), spent);
      FullNow(cfg, now, spent);
    }
    if tokens == cfg.capacity {
      assert more[|ops|].key == key;
    } else {
      var i :| 0 <= i < |ops| && ops[i].key == key && tokens == LeftSince(cfg, ops, key, i, now);
      assert more[i].key == key;
    }
  }

  lemma OtherHolds(cfg: Config, ops: seq<Op>, op: Op, key: string)
    requires cfg.refillPerSecond > 0.0 && op.Take? && op.key != key
    requires CallsUpTo(ops, op.nowMs) && Holds(cfg, ops, key, op.nowMs)
    ensures Holds(cfg, ops + [op], key, op.nowMs)
  {
    var more := ops + [op];
    assert more[..|ops|] == ops;
    if key in After(cfg, ops) {
      var t := After(cfg, ops)[key].lastRefillMs;
      forall i | 0 <= i < |ops|
        ensures more[i] == ops[i] && LeftSince(cfg, more, key, i, t) == LeftSince(cfg, ops, key, i, t)
      {
        AllowedMore(cfg, ops, op, key, i);
      }
      var i :| 0 <= i < |ops| && ops[i].key == key && After(cfg, ops)[key].tokens == LeftSince(cfg, ops, key, i, t);
      assert more[i].key == key;
    }
  }

  /** The key's bucket after a call, from the tokens the call found. */
  lemma AfterCall(cfg: Config, ops: seq<Op>, op: Op, tokens: real)
    requires cfg.refillPerSecond > 0.0 && op.Take? && forall i :: 0 <= i < |ops| ==> ops[i].Take?
    requires tokens == Refilled(cfg, BucketOf(After(cfg, ops), cfg, op.key, op.nowMs), op.nowMs)
    ensures var spent := if Allows(cfg, ops, op.key, op.nowMs) then 1 else 0;
      After(cfg, ops + [op]) == After(cfg, ops)[op.key := Bucket(tokens - spent as real, op.nowMs)]
  {
    assert (ops + [op])[..|ops|] == ops;
  }

  lemma BucketHolds(cfg: Config, ops: seq<Op>, buckets: Buckets, key: string, now: int, tokens: real)
    requires cfg.refillPerSecond > 0.0 && forall i :: 0 <= i < |ops| ==> ops[i].Take?
    requires After(cfg, ops) == buckets[key := Bucket(tokens, now)]
    requires tokens <= cfg.capacity && Least(cfg, ops, key, now, tokens)
    ensures Holds(cfg, ops, key, now)
  {
  }

  /** What the call leaves in the key's bucket. */
  lemma CallLeaves(cfg: Config, ops: seq<Op>, op: Op, tokens: real, spent: int) returns (left: real)
    requires cfg.refillPerSecond > 0.0 && op.Take? && forall i :: 0 <= i < |ops| ==> ops[i].Take?
    requires tokens == Refilled(cfg, BucketOf(After(cfg, ops), cfg, op.key, op.nowMs), op.nowMs)
    requires IsFound(cfg, ops, op.key, op.nowMs, tokens)
    requires spent == if Allows(cfg, ops, op.key, op.nowMs) then 1 else 0
    ensures After(cfg, ops + [op]) == After(cfg, ops)[op.key := Bucket(left, op.nowMs)]
    ensures left <= cfg.capacity && Least(cfg, ops + [op], op.key, op.nowMs, left)
  {
    left := tokens - spent as real;
    AfterCall(cfg, ops, op, tokens);
    CallLeast(cfg, ops, op, tokens);
  }

  lemma CallHolds(cfg: Config, ops: seq<Op>, op: Op, key: string)
    requires cfg.refillPerSecond > 0.0 && op.Take? && CallsUpTo(ops, op.nowMs) && Holds(cfg, ops, key, op.nowMs)
    ensures Holds(cfg, ops + [op], key, op.nowMs)
  {
    if op.key == key {
      Found(cfg, ops, key, op.nowMs);
      var left := CallLeaves(cfg, ops, op, Refilled(cfg, BucketOf(After(cfg, ops), cfg, key, op.nowMs), op.nowMs),
        if Allows(cfg, ops, key, op.nowMs) then 1 else 0);
      BucketHolds(cfg, ops + [op], After(cfg, ops), key, op.nowMs, left);
    } else {
      OtherHolds(cfg, ops, op, key);
    }
  }

  lemma {:induction false} HistoryHolds(cfg: Config, ops: seq<Op>, key: string, now: int)
    requires cfg.refillPerSecond > 0.0 && CallsUpTo(ops, now)
    ensures Holds(cfg, ops, key, now)
    decreases |ops|
  {
    if ops != [] {
      var n := |ops| - 1;
      HistoryHolds(cfg, ops[..n], key, ops[n].nowMs);
      CallHolds(cfg, ops[..n], ops[n], key);
      assert ops == ops[..n] + [ops[n]];
    }
  }

  /** After any calls for any keys, `more` calls of a key at once fit: at most a full bucket
      of them, and with those allowed since any earlier call of the key at most a full bucket
      and the refill since. */
  ghost predicate Fit(cfg: Config, ops: seq<Op>, key: string, now: int, more: int)
    requires cfg.refillPerSecond > 0.0 && forall i :: 0 <= i < |ops| ==> ops[i].Take?
  {
    && more as real <= cfg.capacity
    && forall i :: 0 <= i < |ops| && ops[i].key == key ==> more as real <= LeftSince(cfg, ops, key, i, now)
  }

  /** A call is allowed if and only if it fits, and what remains is the number of further
      calls that would fit at once. */
  lemma AllowedIff(cfg: Config, ops: seq<Op>, key: string, now: int, further: nat)
    requires cfg.refillPerSecond > 0.0 && CallsUpTo(ops, now)
    ensures var taken := TakeOn(After(cfg, ops), cfg, key, now).1;
      && (taken.allowed <==> Fit(cfg, ops, key, now, 1))
      && (taken.allowed ==> (further <= taken.remaining <==> Fit(cfg, ops, key, now, 1 + further)))
  {
    HistoryHolds(cfg, ops, key, now);
    Found(cfg, ops, key, now);
  }
}
