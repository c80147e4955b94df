/** src/runtime/scheduler.ts: the greedy schedule of weighted requests through the
    leaky bucket. */
module Scheduler {
  import opened TokenBucket
  import StableSort
  import Strings

  datatype FetchRequest = FetchRequest(id: string, route: string)

  datatype ScheduledRequest = ScheduledRequest(id: string, route: string, weight: real, runAtMs: int)

  const ROUTE_WEIGHTS: map<string, real> := map[
    "kline" := 2.0, "trending" := 1.0, "trenches" := 3.0, "signal" := 3.0, "hot-searches" := 3.0,
    "search" := 1.0, "follow-wallet" := 3.0, "kol" := 1.0, "smartmoney" := 1.0,
    "token-holders" := 5.0, "token-traders" := 5.0]

  function WeightOf(route: string): (w: real)
    ensures 1.0 <= w <= 5.0
  {
    if route in ROUTE_WEIGHTS then ROUTE_WEIGHTS[route] else 1.0
  }

  predicate IdAtMost(a: FetchRequest, b: FetchRequest) { Strings.AtMost(a.id, b.id) }

  lemma IdOrder()
    ensures StableSort.TotalPreorder(IdAtMost)
  {
    forall a: FetchRequest, b: FetchRequest ensures IdAtMost(a, b) || IdAtMost(b, a) {
      Strings.LessTotal(a.id, b.id);
    }
    forall a: FetchRequest, b: FetchRequest, c: FetchRequest | IdAtMost(a, b) && IdAtMost(b, c) ensures IdAtMost(a, c) {
      Strings.AtMostTransitive(a.id, b.id, c.id);
    }
  }

  /** The order the requests are served in. */
  function Ordered(requests: seq<FetchRequest>): seq<FetchRequest> {
    StableSort.Sort(requests, IdAtMost)
  }

  function Weights(requests: seq<FetchRequest>): (w: seq<real>)
    ensures |w| == |requests| && forall k | 0 <= k < |w| :: w[k] == WeightOf(requests[k].route)
  {
    seq(|requests|, k requires 0 <= k < |requests| => WeightOf(requests[k].route))
  }

  /** The bucket left when weights `ws` have been taken at times `ts`. */
  function BucketAfter(b: Bucket, config: Config, ws: seq<real>, ts: seq<int>): Bucket
    requires |ws| == |ts|
  {
    if ws == [] then b
    else
      var k := |ws| - 1;
      Bucket(Refill(BucketAfter(b, config, ws[..k], ts[..k]), config, ts[k]).available - ws[k], ts[k])
  }

  /** `ts` runs `ws` in order from bucket `b`: times never go back and every request fits. */
  ghost predicate Feasible(b: Bucket, config: Config, ws: seq<real>, ts: seq<int>) {
    && |ws| == |ts|
    && (ws == [] ||
        var k := |ws| - 1;
        && Feasible(b, config, ws[..k], ts[..k])
        && BucketAfter(b, config, ws[..k], ts[..k]).at <= ts[k]
        && Fits(BucketAfter(b, config, ws[..k], ts[..k]), config, ws[k], ts[k]))
  }

  /** The first millisecond, not before the bucket's own instant, at which `w` fits. */
  ghost predicate FirstFit(b: Bucket, config: Config, w: real, t: int) {
    && b.at <= t && Fits(b, config, w, t)
    && forall u: int | b.at <= u < t :: !Fits(b, config, w, u)
  }

  /** Each request runs at the first millisecond it fits after the ones before it. */
  ghost predicate Greedy(b: Bucket, config: Config, ws: seq<real>, ts: seq<int>) {
    && |ws| == |ts|
    && (ws == [] ||
        var k := |ws| - 1;
        && Greedy(b, config, ws[..k], ts[..k])
        && FirstFit(BucketAfter(b, config, ws[..k], ts[..k]), config, ws[k], ts[k]))
  }

  ghost predicate NonNegative(ws: seq<real>) { forall k | 0 <= k < |ws| :: ws[k] >= 0.0 }

  lemma {:induction false} GreedyFeasible(b: Bucket, config: Config, ws: seq<real>, ts: seq<int>)
    requires Greedy(b, config, ws, ts)
    ensures Feasible(b, config, ws, ts)
    decreases |ws|
  {
    if ws != [] {
      GreedyFeasible(b, config, ws[..|ws| - 1], ts[..|ws| - 1]);
    }
  }

  lemma {:induction false} NeverOverfull(b: Bucket, config: Config, ws: seq<real>, ts: seq<int>)
    requires config.rate >= 0.0 && b.available <= config.capacity && NonNegative(ws)
    requires Feasible(b, config, ws, ts)
    ensures BucketAfter(b, config, ws, ts).available <= config.capacity
    decreases |ws|
  {
    if ws != [] {
      var k := |ws| - 1;
      NeverOverfull(b, config, ws[..k], ts[..k]);
      RefillMonotone(BucketAfter(b, config, ws[..k], ts[..k]), config, ts[k], ts[k]);
    }
  }

  /** Once the greedy bucket is ahead of another it stays ahead. */
  lemma AheadStaysAhead(g: Bucket, o: Bucket, config: Config, t: int)
    requires config.rate >= 0.0 && g.available <= config.capacity && o.available <= config.capacity
    requires g.at <= o.at <= t && o.available <= Refill(g, config, o.at).available
    ensures Refill(o, config, t).available <= Refill(g, config, t).available
  {
    RefillComposes(g, config, o.at, t);
    GainMonotone(config, 0, t - o.at);
  }

  /** Taking the same weight earlier leaves at least as much later. */
  lemma TakingEarlier(g: Bucket, config: Config, w: real, first: int, t: int)
    requires config.rate >= 0.0 && g.available <= config.capacity && w >= 0.0
    requires g.at <= first <= t
    ensures Refill(g, config, t).available - w
         <= Refill(Bucket(Refill(g, config, first).available - w, first), config, t).available
  {
    RefillComposes(g, config, first, t);
    RefillMonotone(g, config, first, t);
    GainMonotone(config, 0, t - first);
  }

  /** The greedy schedule is pointwise earliest among the feasible ones, and its
      bucket is never behind. */
  lemma {:induction false} GreedyIsEarliest(b: Bucket, config: Config, ws: seq<real>, ts: seq<int>, us: seq<int>)
    requires config.rate >= 0.0 && b.available <= config.capacity && NonNegative(ws)
    requires Greedy(b, config, ws, ts) && Feasible(b, config, ws, us)
    ensures forall k | 0 <= k < |ws| :: ts[k] <= us[k]
    ensures BucketAfter(b, config, ws, ts).at <= BucketAfter(b, config, ws, us).at
    ensures BucketAfter(b, config, ws, us).available
         <= Refill(BucketAfter(b, config, ws, ts), config, BucketAfter(b, config, ws, us).at).available
    decreases |ws|
  {
    if ws != [] {
      var k := |ws| - 1;
      GreedyIsEarliest(b, config, ws[..k], ts[..k], us[..k]);
      forall j | 0 <= j < k ensures ts[j] <= us[j] {
        assert ts[..k][j] <= us[..k][j];
      }
      var g, o := BucketAfter(b, config, ws[..k], ts[..k]), BucketAfter(b, config, ws[..k], us[..k]);
      GreedyFeasible(b, config, ws[..k], ts[..k]);
      NeverOverfull(b, config, ws[..k], ts[..k]);
      NeverOverfull(b, config, ws[..k], us[..k]);
      AheadStaysAhead(g, o, config, us[k]);
      assert Fits(g, config, ws[k], us[k]);
      assert ts[k] <= us[k];
      TakingEarlier(g, config, ws[k], ts[k], us[k]);
    }
  }

  function Total(ws: seq<real>): real {
    if ws == [] then 0.0 else Total(ws[..|ws| - 1]) + ws[|ws| - 1]
  }

  /** In any feasible schedule the requests i..j together weigh at most one full
      bucket plus what leaks in between the first and the last of them. */
  lemma {:induction false} WindowBound(b: Bucket, config: Config, ws: seq<real>, ts: seq<int>, i: nat, j: nat)
    requires config.rate >= 0.0 && b.available <= config.capacity && NonNegative(ws)
    requires Feasible(b, config, ws, ts) && i <= j < |ws|
    ensures ts[i] <= ts[j]
    ensures Total(ws[i..j + 1]) <= config.capacity + Gain(config, ts[j] - ts[i])
    decreases |ws|, j
  {
    if j < |ws| - 1 {
      var k := |ws| - 1;
      WindowBound(b, config, ws[..k], ts[..k], i, j);
      assert ws[..k][i..j + 1] == ws[i..j + 1];
    } else {
      SpentSince(b, config, ws, ts, i);
      assert ws[i..j + 1] == ws[i..];
    }
  }

  lemma {:induction false} SpentSince(b: Bucket, config: Config, ws: seq<real>, ts: seq<int>, i: nat)
    requires config.rate >= 0.0 && b.available <= config.capacity && NonNegative(ws)
    requires Feasible(b, config, ws, ts) && i < |ws|
    ensures ts[i] <= ts[|ws| - 1]
    ensures 0.0 <= BucketAfter(b, config, ws, ts).available
         <= config.capacity + Gain(config, ts[|ws| - 1] - ts[i]) - Total(ws[i..])
    decreases |ws|
  {
    var k := |ws| - 1;
    var before := BucketAfter(b, config, ws[..k], ts[..k]);
    NeverOverfull(b, config, ws[..k], ts[..k]);
    RefillMonotone(before, config, ts[k], ts[k]);
    assert ws[i..][..k - i] == ws[i..k] == ws[..k][i..];
    if i < k {
      SpentSince(b, config, ws[..k], ts[..k], i);
      GainAdds(config, ts[k - 1] - ts[i], ts[k] - ts[k - 1]);
    } else {
      assert Total(ws[k..]) == ws[k] by {
        assert ws[k..] == [ws[k]];
        assert Total([ws[k]]) == Total([]) + ws[k] by { assert [ws[k]][..0] == []; }
      }
    }
  }

  function RunTimes(plan: seq<ScheduledRequest>): (ts: seq<int>)
    ensures |ts| == |plan| && forall k | 0 <= k < |ts| :: ts[k] == plan[k].runAtMs
  {
    seq(|plan|, k requires 0 <= k < |plan| => plan[k].runAtMs)
  }

  /** No schedule that serves the weights in order from a full bucket runs any of them sooner. */
  ghost predicate NoneSooner(startMs: int, config: Config, ws: seq<real>, ts: seq<int>)
    requires |ws| == |ts|
  {
    forall us: seq<int> | Feasible(InitBucket(config, startMs), config, ws, us) ::
      forall k | 0 <= k < |ts| :: ts[k] <= us[k]
  }

  /** The plan's entries are the first requests, in order, with their weights. */
  ghost predicate Serves(requests: seq<FetchRequest>, plan: seq<ScheduledRequest>) {
    && |plan| <= |requests|
    && (forall k | 0 <= k < |plan| ::
          && plan[k].id == requests[k].id && plan[k].route == requests[k].route
          && plan[k].weight == WeightOf(requests[k].route))
  }

  /** What a plan promises about the requests it was made for. */
  ghost predicate IsPlan(requests: seq<FetchRequest>, startMs: int, config: Config, plan: seq<ScheduledRequest>) {
    && |plan| == |requests| && Serves(Ordered(requests), plan)
    && Feasible(InitBucket(config, startMs), config, Weights(Ordered(requests)), RunTimes(plan))
    && NoneSooner(startMs, config, Weights(Ordered(requests)), RunTimes(plan))
  }

  /** The waiting loop for one request: it ends at the first millisecond the
      request fits, and goes round at most once. */
  method AwaitAdmission(start: Bucket, config: Config, weight: real)
      returns (state: Bucket, now: int, ghost waits: nat)
    requires config.rate > 0.0 && start.available <= config.capacity
    requires 0.0 <= weight <= config.capacity
    ensures FirstFit(start, config, weight, now)
    ensures state == Bucket(Refill(start, config, now).available - weight, now)
    ensures waits <= 1 && (waits == 0 <==> now == start.at)
  {
    var bucket := start;
    now := start.at;
    var result := TryAdmit(bucket, config, weight, now);
    waits := 0;
    while !result.Admitted?
      invariant result == TryAdmit(bucket, config, weight, now)
      invariant start.at <= bucket.at <= now
      invariant Refill(bucket, config, now) == Refill(start, config, now)
      invariant waits == 0 ==> bucket == start && now == start.at
      invariant waits == 1 ==> now > start.at
      invariant 0 <= waits <= 1 && (waits == 1 ==> result.Admitted?)
      invariant result.Admitted? ==> FirstFit(start, config, weight, now)
      decreases 1 - waits
    {
      forall later | later >= now
        ensures Fits(start, config, weight, later) <==> later >= now + result.retryAfterMs
        ensures result.retryAfterMs >= 1
      {
        RetryIsExact(start, config, weight, now, later);
      }
      RetryIsExact(start, config, weight, now, now);
      RefillComposes(start, config, now, now + result.retryAfterMs);
      now := now + result.retryAfterMs;
      bucket := result.state;
      assert Fits(start, config, weight, now);
      result := TryAdmit(bucket, config, weight, now);
      waits := waits + 1;
    }
    state := result.state;
  }

  lemma PlanGrows(b: Bucket, config: Config, ws: seq<real>, n: nat, plan: seq<ScheduledRequest>, next: ScheduledRequest)
    requires n < |ws| && |plan| == n
    requires Greedy(b, config, ws[..n], RunTimes(plan))
    requires FirstFit(BucketAfter(b, config, ws[..n], RunTimes(plan)), config, ws[n], next.runAtMs)
    ensures Greedy(b, config, ws[..n + 1], RunTimes(plan + [next]))
    ensures BucketAfter(b, config, ws[..n + 1], RunTimes(plan + [next])) ==
      Bucket(Refill(BucketAfter(b, config, ws[..n], RunTimes(plan)), config, next.runAtMs).available - ws[n],
        next.runAtMs)
  {
    assert ws[..n + 1][..n] == ws[..n];
    assert RunTimes(plan + [next])[..n] == RunTimes(plan);
  }

  /** The first `|plan|` requests are planned, and `bucket` is what they leave. */
  ghost predicate Planned(b: Bucket, config: Config, ordered: seq<FetchRequest>, plan: seq<ScheduledRequest>,
                          bucket: Bucket) {
    && |plan| <= |ordered| && Serves(ordered, plan)
    && Greedy(b, config, Weights(ordered)[..|plan|], RunTimes(plan))
    && bucket == BucketAfter(b, config, Weights(ordered)[..|plan|], RunTimes(plan))
    && bucket.available <= config.capacity
  }

  lemma OneMorePlanned(b: Bucket, config: Config, ordered: seq<FetchRequest>, plan: seq<ScheduledRequest>,
                       bucket: Bucket, now: int)
    requires Planned(b, config, ordered, plan, bucket) && |plan| < |ordered| && config.rate > 0.0
    requires var w := WeightOf(ordered[|plan|].route); w >= 0.0 && FirstFit(bucket, config, w, now)
    ensures var req := ordered[|plan|];
      var w := WeightOf(req.route);
      Planned(b, config, ordered, plan + [ScheduledRequest(req.id, req.route, w, now)],
              Bucket(Refill(bucket, config, now).available - w, now))
  {
    var req := ordered[|plan|];
    RefillMonotone(bucket, config, now, now);
    PlanGrows(b, config, Weights(ordered), |plan|, plan, ScheduledRequest(req.id, req.route, WeightOf(req.route), now));
  }

  /** The plan serves the requests by id, never over-runs the bucket, and no other
      schedule in that order runs any request sooner. */
  method PlanSchedule(requests: seq<FetchRequest>, startMs: int, config: Config)
      returns (scheduled: seq<ScheduledRequest>, finalBucket: Bucket)
    requires config.rate > 0.0
    requires forall r | r in requests :: WeightOf(r.route) <= config.capacity
    ensures IsPlan(requests, startMs, config, scheduled)
    ensures finalBucket ==
      BucketAfter(InitBucket(config, startMs), config, Weights(Ordered(requests)), RunTimes(scheduled))
  {
    var ordered := Ordered(requests);
    StableSort.SortMembers(requests, IdAtMost);
    var bucket := InitBucket(config, startMs);
    scheduled := [];

    for n := 0 to |ordered|
      invariant |scheduled| == n && Planned(InitBucket(config, startMs), config, ordered, scheduled, bucket)
    {
      var req := ordered[n];
      assert req in requests;
      var weight := WeightOf(req.route);
      var state, now, _ := AwaitAdmission(bucket, config, weight);
      OneMorePlanned(InitBucket(config, startMs), config, ordered, scheduled, bucket, now);
      bucket := state;
      scheduled := scheduled + [ScheduledRequest(req.id, req.route, weight, now)];
    }
    finalBucket := bucket;
    assert Weights(ordered)[..|ordered|] == Weights(ordered);
    GreedyIsPlan(requests, startMs, config, scheduled);
  }

  lemma GreedyIsPlan(requests: seq<FetchRequest>, startMs: int, config: Config, plan: seq<ScheduledRequest>)
    requires config.rate > 0.0 && |plan| == |requests| && Serves(Ordered(requests), plan)
    requires Greedy(InitBucket(config, startMs), config, Weights(Ordered(requests)), RunTimes(plan))
    ensures IsPlan(requests, startMs, config, plan)
  {
    var b0, ws, ts := InitBucket(config, startMs), Weights(Ordered(requests)), RunTimes(plan);
    GreedyFeasible(b0, config, ws, ts);
    forall us: seq<int> | Feasible(b0, config, ws, us) ensures forall k | 0 <= k < |ts| :: ts[k] <= us[k] {
      GreedyIsEarliest(b0, config, ws, ts, us);
    }
  }

  /** Any plan keeps the limit over every stretch of it, and its run times never go back. */
  lemma PlanKeepsLimit(requests: seq<FetchRequest>, startMs: int, config: Config, plan: seq<ScheduledRequest>,
                       i: nat, j: nat)
    requires config.rate > 0.0 && IsPlan(requests, startMs, config, plan) && i <= j < |plan|
    ensures startMs <= plan[i].runAtMs <= plan[j].runAtMs
    ensures Total(Weights(Ordered(requests))[i..j + 1])
         <= config.capacity + Gain(config, plan[j].runAtMs - plan[i].runAtMs)
  {
    ScheduleKeepsLimit(startMs, config, Weights(Ordered(requests)), RunTimes(plan), i, j);
  }

  lemma ScheduleKeepsLimit(startMs: int, config: Config, ws: seq<real>, ts: seq<int>, i: nat, j: nat)
    requires config.rate > 0.0 && NonNegative(ws)
    requires Feasible(InitBucket(config, startMs), config, ws, ts) && i <= j < |ws|
    ensures startMs <= ts[i] <= ts[j]
    ensures Total(ws[i..j + 1]) <= config.capacity + Gain(config, ts[j] - ts[i])
  {
    var b := InitBucket(config, startMs);
    WindowBound(b, config, ws, ts, i, j);
    WindowBound(b, config, ws, ts, 0, i);
    StartsAfter(b, config, ws, ts);
  }

  lemma {:induction false} StartsAfter(b: Bucket, config: Config, ws: seq<real>, ts: seq<int>)
    requires Feasible(b, config, ws, ts)
    ensures ws != [] ==> b.at <= ts[0]
    decreases |ws|
  {
    if |ws| > 1 {
      StartsAfter(b, config, ws[..|ws| - 1], ts[..|ws| - 1]);
    }
  }

  /** The promises of a plan leave no choice: there is one plan for a batch. */
  lemma PlanUnique(requests: seq<FetchRequest>, startMs: int, config: Config, p: seq<ScheduledRequest>,
                   q: seq<ScheduledRequest>)
    requires IsPlan(requests, startMs, config, p) && IsPlan(requests, startMs, config, q)
    ensures p == q
  {
    assert forall k | 0 <= k < |p| :: RunTimes(p)[k] <= RunTimes(q)[k];
    assert forall k | 0 <= k < |q| :: RunTimes(q)[k] <= RunTimes(p)[k];
    assert forall k | 0 <= k < |p| :: p[k] == q[k];
  }

  /** With distinct ids the served order does not depend on the order of the batch. */
  lemma OrderIgnoresBatchOrder(requests: seq<FetchRequest>, other: seq<FetchRequest>)
    requires multiset(requests) == multiset(other)
    requires forall a, b | a in requests && b in requests && a.id == b.id :: a == b
    ensures Ordered(requests) == Ordered(other)
    ensures forall i, j | 0 <= i < j < |requests| :: Strings.AtMost(Ordered(requests)[i].id, Ordered(requests)[j].id)
  {
    IdOrder();
    StableSort.SortSorted(requests, IdAtMost);
    StableSort.SortSorted(other, IdAtMost);
    StableSort.SortMembers(requests, IdAtMost);
    var o := Ordered(requests);
    forall i, j | 0 <= i < |o| && 0 <= j < |o| && IdAtMost(o[i], o[j]) && IdAtMost(o[j], o[i]) ensures o[i] == o[j] {
      Strings.LessTotal(o[i].id, o[j].id);
      assert o[i] in requests && o[j] in requests;
    }
    StableSort.SortedUnique(Ordered(requests), Ordered(other), IdAtMost);
    forall i, j | 0 <= i < j < |requests| ensures Strings.AtMost(Ordered(requests)[i].id, Ordered(requests)[j].id) {
      assert IdAtMost(Ordered(requests)[i], Ordered(requests)[j]);
    }
  }

  /** So there is one plan for a batch, in whatever order it comes. */
  lemma PlanIgnoresBatchOrder(requests: seq<FetchRequest>, other: seq<FetchRequest>, startMs: int, config: Config,
                              p: seq<ScheduledRequest>, q: seq<ScheduledRequest>)
    requires multiset(requests) == multiset(other)
    requires forall a, b | a in requests && b in requests && a.id == b.id :: a == b
    requires IsPlan(requests, startMs, config, p) && IsPlan(other, startMs, config, q)
    ensures p == q
  {
    OrderIgnoresBatchOrder(requests, other);
    assert |multiset(requests)| == |requests| && |multiset(other)| == |other|;
    PlanUnique(requests, startMs, config, p, q);
  }

  /** The wait of `planSchedule` ends for a request exactly when its weight is at
      most the capacity. */
  lemma WaitEndsIff(b: Bucket, config: Config, weight: real)
    requires config.rate > 0.0 && b.available <= config.capacity
    ensures (exists t: int :: t >= b.at && Fits(b, config, weight, t)) <==> weight <= config.capacity
  {
    if weight <= config.capacity {
      if TryAdmit(b, config, weight, b.at).Deferred? {
        var t := b.at + TryAdmit(b, config, weight, b.at).retryAfterMs;
        RetryIsExact(b, config, weight, b.at, b.at);
        RetryIsExact(b, config, weight, b.at, t);
        assert t >= b.at && Fits(b, config, weight, t);
      } else {
        assert b.at >= b.at && Fits(b, config, weight, b.at);
      }
    } else {
      forall t: int | t >= b.at ensures !Fits(b, config, weight, t) {
        OverweightNeverFits(b, config, weight, t);
      }
    }
  }
}
