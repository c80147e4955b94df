/** The leaky bucket without a bucket: which schedules it lets through, told from their
    weights and times alone. */
module BucketWindows {
  import opened Scheduler
  import opened TokenBucket

  /** Times never go back, not before `at`. */
  predicate InTime(at: int, ts: seq<int>) {
    && (forall i, j :: 0 <= i < j < |ts| ==> ts[i] <= ts[j])
    && (forall i :: 0 <= i < |ts| ==> at <= ts[i])
  }

  /** What the requests from the i-th to the j-th weigh is at most a full bucket and what
      leaks in between them, at `rate` tokens a second. */
  predicate WindowKept(config: Config, ws: seq<real>, ts: seq<int>, i: nat, j: nat)
    requires i <= j < |ws| && |ts| == |ws|
  {
    Total(ws[i..j + 1]) <= config.capacity + (ts[j] - ts[i]) as real / 1000.0 * config.rate
  }

  /** What the first requests weigh is at most what the bucket holds and what leaks in. */
  predicate StartKept(b: Bucket, config: Config, ws: seq<real>, ts: seq<int>, j: nat)
    requires j < |ws| && |ts| == |ws|
  {
    Total(ws[..j + 1]) <= b.available + (ts[j] - b.at) as real / 1000.0 * config.rate
  }

  ghost predicate WindowsKept(b: Bucket, config: Config, ws: seq<real>, ts: seq<int>) {
    && |ws| == |ts| && InTime(b.at, ts)
    && (forall i, j :: 0 <= i <= j < |ws| ==> WindowKept(config, ws, ts, i, j))
    && (forall j :: 0 <= j < |ws| ==> StartKept(b, config, ws, ts, j))
  }

  lemma TotalMore(ws: seq<real>, i: nat, k: nat)
    requires i <= k < |ws|
    ensures Total(ws[i..k + 1]) == Total(ws[i..k]) + ws[k]
  {
    assert ws[i..k + 1][..k - i] == ws[i..k];
  }

  /** What is left after the requests from the i-th on, out of a full bucket then. */
  function LeftSince(config: Config, ws: seq<real>, ts: seq<int>, i: nat): real
    requires i < |ws| == |ts|
  {
    config.capacity + Gain(config, ts[|ws| - 1] - ts[i]) - Total(ws[i..])
  }

  function LeftOfStart(b: Bucket, config: Config, ws: seq<real>, ts: seq<int>): real
    requires 0 < |ws| == |ts|
  {
    b.available + Gain(config, ts[|ws| - 1] - b.at) - Total(ws)
  }

  /** The bucket holds what is left of the start or since some request. */
  ghost predicate Attained(b: Bucket, config: Config, ws: seq<real>, ts: seq<int>)
    requires 0 < |ws| == |ts|
  {
    var left := BucketAfter(b, config, ws, ts).available;
    left == LeftOfStart(b, config, ws, ts) || exists i :: 0 <= i < |ws| && left == LeftSince(config, ws, ts, i)
  }

  lemma LeftMore(b: Bucket, config: Config, ws: seq<real>, ts: seq<int>)
    requires 1 < |ws| == |ts|
    ensures var k := |ws| - 1;
      var gain := Gain(config, ts[k] - ts[k - 1]);
      && LeftOfStart(b, config, ws, ts) == LeftOfStart(b, config, ws[..k], ts[..k]) + gain - ws[k]
      && forall i :: 0 <= i < k ==>
           LeftSince(config, ws, ts, i) == LeftSince(config, ws[..k], ts[..k], i) + gain - ws[k]
  {
    var k := |ws| - 1;
    GainAdds(config, ts[k - 1] - b.at, ts[k] - ts[k - 1]);
    forall i | 0 <= i < k
      ensures LeftSince(config, ws, ts, i)
           == LeftSince(config, ws[..k], ts[..k], i) + Gain(config, ts[k] - ts[k - 1]) - ws[k]
    {
      GainAdds(config, ts[k - 1] - ts[i], ts[k] - ts[k - 1]);
      assert ws[i..][..k - i] == ws[..k][i..];
    }
  }

  lemma LastAlone(config: Config, ws: seq<real>, ts: seq<int>)
    requires 0 < |ws| == |ts|
    ensures LeftSince(config, ws, ts, |ws| - 1) == config.capacity - ws[|ws| - 1]
  {
    var k := |ws| - 1;
    assert ws[k..] == [ws[k]] && [ws[k]][..0] == [];
    assert Total(ws[k..]) == Total([]) + ws[k];
  }

  lemma {:induction false} BucketAttains(b: Bucket, config: Config, ws: seq<real>, ts: seq<int>)
    requires config.rate >= 0.0 && b.available <= config.capacity && NonNegative(ws)
    requires 0 < |ws| == |ts| && InTime(b.at, ts)
    ensures Attained(b, config, ws, ts) && BucketAfter(b, config, ws, ts).available <= config.capacity
    decreases |ws|
  {
    var k := |ws| - 1;
    var before := BucketAfter(b, config, ws[..k], ts[..k]);
    LastAlone(config, ws, ts);
    if k == 0 {
      assert ws[..0] == [] && Total(ws) == Total(ws[..0]) + ws[0];
    } else {
      BucketAttains(b, config, ws[..k], ts[..k]);
      LeftMore(b, config, ws, ts);
      assert before.at == ts[k - 1];
      if before.available != LeftOfStart(b, config, ws[..k], ts[..k]) {
        var i :| 0 <= i < k && before.available == LeftSince(config, ws[..k], ts[..k], i);
        assert LeftSince(config, ws, ts, i) == before.available + Gain(config, ts[k] - ts[k - 1]) - ws[k];
      }
    }
    GainMonotone(config, 0, ts[k] - before.at);
  }

  lemma LastWindows(b: Bucket, config: Config, ws: seq<real>, ts: seq<int>)
    requires 0 < |ws| && WindowsKept(b, config, ws, ts)
    ensures LeftOfStart(b, config, ws, ts) >= 0.0
    ensures forall i :: 0 <= i < |ws| ==> LeftSince(config, ws, ts, i) >= 0.0
  {
    var k := |ws| - 1;
    assert StartKept(b, config, ws, ts, k) && ws[..k + 1] == ws;
    forall i | 0 <= i < |ws| ensures LeftSince(config, ws, ts, i) >= 0.0 {
      assert WindowKept(config, ws, ts, i, k) && ws[i..k + 1] == ws[i..];
    }
  }

  lemma PrefixKept(b: Bucket, config: Config, ws: seq<real>, ts: seq<int>, n: nat)
    requires WindowsKept(b, config, ws, ts) && n <= |ws|
    ensures WindowsKept(b, config, ws[..n], ts[..n])
  {
    forall i, j | 0 <= i <= j < n ensures WindowKept(config, ws[..n], ts[..n], i, j) {
      assert ws[..n][i..j + 1] == ws[i..j + 1] && WindowKept(config, ws, ts, i, j);
    }
    forall j | 0 <= j < n ensures StartKept(b, config, ws[..n], ts[..n], j) {
      assert ws[..n][..j + 1] == ws[..j + 1] && StartKept(b, config, ws, ts, j);
    }
  }

  lemma {:induction false} KeptIsFeasible(b: Bucket, config: Config, ws: seq<real>, ts: seq<int>)
    requires config.rate >= 0.0 && b.available <= config.capacity && NonNegative(ws)
    requires WindowsKept(b, config, ws, ts)
    ensures Feasible(b, config, ws, ts)
    decreases |ws|
  {
    if ws != [] {
      var k := |ws| - 1;
      PrefixKept(b, config, ws, ts, k);
      KeptIsFeasible(b, config, ws[..k], ts[..k]);
      BucketAttains(b, config, ws, ts);
      LastWindows(b, config, ws, ts);
      assert BucketAfter(b, config, ws[..k], ts[..k]).at == if k == 0 then b.at else ts[k - 1];
    }
  }

  lemma {:induction false} FeasibleStarts(b: Bucket, config: Config, ws: seq<real>, ts: seq<int>)
    requires config.rate >= 0.0 && b.available <= config.capacity && NonNegative(ws)
    requires |ws| == |ts| && ws != [] && Feasible(b, config, ws, ts)
    ensures b.at <= ts[|ws| - 1] && 0.0 <= BucketAfter(b, config, ws, ts).available <= LeftOfStart(b, config, ws, ts)
    decreases |ws|
  {
    var k := |ws| - 1;
    var before := BucketAfter(b, config, ws[..k], ts[..k]);
    NeverOverfull(b, config, ws[..k], ts[..k]);
    if k == 0 {
      assert ws[..0] == [] && Total(ws) == Total(ws[..0]) + ws[0];
    } else {
      FeasibleStarts(b, config, ws[..k], ts[..k]);
      LeftMore(b, config, ws, ts);
    }
    GainMonotone(config, 0, ts[k] - before.at);
  }

  /** What is left in the end is not negative since any request, nor since the start. */
  ghost predicate NoneOverdrawn(b: Bucket, config: Config, ws: seq<real>, ts: seq<int>) {
    && |ws| == |ts| && ws != [] && b.at <= ts[|ws| - 1] && LeftOfStart(b, config, ws, ts) >= 0.0
    && forall i :: 0 <= i < |ws| ==> ts[i] <= ts[|ws| - 1] && LeftSince(config, ws, ts, i) >= 0.0
  }

  lemma NotOverdrawn(b: Bucket, config: Config, ws: seq<real>, ts: seq<int>, i: nat)
    requires config.rate >= 0.0 && b.available <= config.capacity && NonNegative(ws)
    requires |ws| == |ts| && i < |ws| && Feasible(b, config, ws, ts)
    ensures ts[i] <= ts[|ws| - 1] && LeftSince(config, ws, ts, i) >= 0.0
  {
    SpentSince(b, config, ws, ts, i);
  }

  lemma WindowBefore(config: Config, ws: seq<real>, ts: seq<int>, k: nat, i: nat, j: nat)
    requires i <= j < k <= |ws| == |ts| && WindowKept(config, ws[..k], ts[..k], i, j)
    ensures WindowKept(config, ws, ts, i, j)
  {
    assert ws[..k][i..j + 1] == ws[i..j + 1] && ts[..k][i] == ts[i] && ts[..k][j] == ts[j];
  }

  lemma StartBefore(b: Bucket, config: Config, ws: seq<real>, ts: seq<int>, k: nat, j: nat)
    requires j < k <= |ws| == |ts| && StartKept(b, config, ws[..k], ts[..k], j)
    ensures StartKept(b, config, ws, ts, j)
  {
    assert ws[..k][..j + 1] == ws[..j + 1] && ts[..k][j] == ts[j];
  }

  lemma LastWindow(b: Bucket, config: Config, ws: seq<real>, ts: seq<int>, i: nat)
    requires NoneOverdrawn(b, config, ws, ts) && i < |ws|
    ensures WindowKept(config, ws, ts, i, |ws| - 1) && StartKept(b, config, ws, ts, |ws| - 1)
  {
    assert LeftSince(config, ws, ts, i) >= 0.0;
    assert ws[i..|ws| - 1 + 1] == ws[i..] && ws[..|ws| - 1 + 1] == ws;
  }

  lemma KeptMore(b: Bucket, config: Config, ws: seq<real>, ts: seq<int>)
    requires NoneOverdrawn(b, config, ws, ts) && WindowsKept(b, config, ws[..|ws| - 1], ts[..|ts| - 1])
    ensures WindowsKept(b, config, ws, ts)
  {
    var k := |ws| - 1;
    forall i, j | 0 <= i <= j < |ws| ensures WindowKept(config, ws, ts, i, j) {
      if j < k {
        assert WindowKept(config, ws[..k], ts[..k], i, j);
        WindowBefore(config, ws, ts, k, i, j);
      } else {
        LastWindow(b, config, ws, ts, i);
      }
    }
    forall j | 0 <= j < |ws| ensures StartKept(b, config, ws, ts, j) {
      if j < k {
        assert StartKept(b, config, ws[..k], ts[..k], j);
        StartBefore(b, config, ws, ts, k, j);
      } else {
        LastWindow(b, config, ws, ts, j);
      }
    }
    TimesMore(b.at, ts);
  }

  lemma TimesMore(at: int, ts: seq<int>)
    requires ts != [] && InTime(at, ts[..|ts| - 1]) && at <= ts[|ts| - 1]
    requires forall i :: 0 <= i < |ts| ==> ts[i] <= ts[|ts| - 1]
    ensures InTime(at, ts)
  {
    var k := |ts| - 1;
    assert forall i :: 0 <= i < k ==> ts[..k][i] == ts[i];
  }

  lemma {:induction false} FeasibleIsKept(b: Bucket, config: Config, ws: seq<real>, ts: seq<int>)
    requires config.rate >= 0.0 && b.available <= config.capacity && NonNegative(ws)
    requires |ws| == |ts| && Feasible(b, config, ws, ts)
    ensures WindowsKept(b, config, ws, ts)
    decreases |ws|
  {
    if ws != [] {
      FeasibleIsKept(b, config, ws[..|ws| - 1], ts[..|ts| - 1]);
      FeasibleStarts(b, config, ws, ts);
      forall i | 0 <= i < |ws| ensures ts[i] <= ts[|ws| - 1] && LeftSince(config, ws, ts, i) >= 0.0 {
        NotOverdrawn(b, config, ws, ts, i);
      }
      KeptMore(b, config, ws, ts);
    }
  }

  /** The bucket lets a schedule through if and only if its times never go back, no stretch
      of it weighs more than a full bucket and what leaks in between its first and its last
      request, and none of its beginnings more than the bucket holds and what leaks in. */
  lemma FeasibleIff(b: Bucket, config: Config, ws: seq<real>, ts: seq<int>)
    requires config.rate >= 0.0 && b.available <= config.capacity && NonNegative(ws)
    ensures Feasible(b, config, ws, ts) <==> WindowsKept(b, config, ws, ts)
  {
    if Feasible(b, config, ws, ts) {
      FeasibleIsKept(b, config, ws, ts);
    }
    if WindowsKept(b, config, ws, ts) {
      KeptIsFeasible(b, config, ws, ts);
    }
  }

  /** So a plan is one of these schedules, and none of them runs any request sooner. */
  lemma PlanIsEarliestKept(requests: seq<FetchRequest>, startMs: int, config: Config, plan: seq<ScheduledRequest>,
                           us: seq<int>)
    requires config.rate >= 0.0 && IsPlan(requests, startMs, config, plan)
    requires WindowsKept(Bucket(config.capacity, startMs), config, Weights(Ordered(requests)), us)
    ensures WindowsKept(Bucket(config.capacity, startMs), config, Weights(Ordered(requests)), RunTimes(plan))
    ensures forall k :: 0 <= k < |plan| ==> plan[k].runAtMs <= us[k]
  {
    var b, ws := InitBucket(config, startMs), Weights(Ordered(requests));
    FeasibleIff(b, config, ws, us);
    FeasibleIff(b, config, ws, RunTimes(plan));
    assert forall k :: 0 <= k < |plan| ==> RunTimes(plan)[k] == plan[k].runAtMs;
  }

  /** What a route weighs: the holder and trader lists most, a route without a weight one. */
  lemma RouteWeighs(route: string)
    ensures WeightOf(route)
         == if route in {"token-holders", "token-traders"} then 5.0
            else if route in {"trenches", "signal", "hot-searches", "follow-wallet"} then 3.0
            else if route == "kline" then 2.0
            else 1.0
  {
  }
}
