/** src/core/flow/flowEngine.ts: convergences of makers on one side within a moving
    window, found with two pointers over the sorted events. */
module FlowClusters {
  import opened Results
  import opened StableSort
  import Strings

  datatype Side = BUY | SELL

  datatype Flow = Flow(at: int, maker: string, side: Side, amountUsd: real)

  datatype FlowCluster = FlowCluster(direction: Side, distinctMakers: nat, totalUsd: real, windowStart: int,
                                     windowEnd: int)

  datatype FlowConfig = FlowConfig(clusterMinMakers: int, clusterWindow: int)

  /** The comparison of `sortFlow`: time, maker, side, amount. */
  predicate NotAfter(a: Flow, b: Flow) {
    if a.at != b.at then a.at < b.at
    else if a.maker != b.maker then Strings.Less(a.maker, b.maker)
    else if a.side != b.side then a.side == BUY
    else a.amountUsd <= b.amountUsd
  }

  lemma NotAfterTotal()
    ensures TotalPreorder((a: Flow, b: Flow) => NotAfter(a, b))
  {
    forall a: Flow, b: Flow ensures NotAfter(a, b) || NotAfter(b, a) {
      Strings.LessTotal(a.maker, b.maker);
    }
    forall a: Flow, b: Flow, c: Flow | NotAfter(a, b) && NotAfter(b, c) ensures NotAfter(a, c) {
      Strings.LessTotal(a.maker, b.maker);
      Strings.LessTotal(b.maker, c.maker);
      Strings.LessTotal(a.maker, c.maker);
      if Strings.Less(a.maker, b.maker) && Strings.Less(b.maker, c.maker) {
        Strings.LessTransitive(a.maker, b.maker, c.maker);
      }
    }
  }

  function SortFlow(obs: seq<Flow>): seq<Flow> { Sort(obs, (a, b) => NotAfter(a, b)) }

  function SideOf(obs: seq<Flow>, side: Side): seq<Flow> { SortFlow(Filter(obs, (o: Flow) => o.side == side)) }

  // ------------------------------------------------------------------
  // The naive window
  // ------------------------------------------------------------------

  predicate Within(o: Flow, endAt: int, window: int) { endAt - o.at <= window }

  function InWindow(endAt: int, window: int): Flow -> bool { o => Within(o, endAt, window) }

  /** The events up to position `end` that are within the window of the one there. */
  function Window(obs: seq<Flow>, end: nat, window: int): seq<Flow>
    requires end < |obs|
  {
    Filter(obs[..end], InWindow(obs[end].at, window)) + [obs[end]]
  }

  function Makers(obs: seq<Flow>): set<string> { set o | o in obs :: o.maker }

  function TotalUsd(obs: seq<Flow>): real {
    if obs == [] then 0.0 else TotalUsd(obs[..|obs| - 1]) + obs[|obs| - 1].amountUsd
  }

  function ClusterOf(slice: seq<Flow>, side: Side): FlowCluster
    requires slice != []
  {
    FlowCluster(side, |Makers(slice)|, TotalUsd(slice), slice[0].at, slice[|slice| - 1].at)
  }

  /** The clusters ending at the first `n` positions. */
  function ClustersUpTo(obs: seq<Flow>, side: Side, config: FlowConfig, n: nat): seq<FlowCluster>
    requires n <= |obs|
  {
    if n == 0 then []
    else
      var slice := Window(obs, n - 1, config.clusterWindow);
      ClustersUpTo(obs, side, config, n - 1) + if |Makers(slice)| >= config.clusterMinMakers
        then [ClusterOf(slice, side)] else []
  }

  function SideClusters(obs: seq<Flow>, side: Side, config: FlowConfig): seq<FlowCluster> {
    var sorted := SideOf(obs, side);
    ClustersUpTo(sorted, side, config, |sorted|)
  }

  function Clusters(obs: seq<Flow>, config: FlowConfig): seq<FlowCluster> {
    SideClusters(obs, BUY, config) + SideClusters(obs, SELL, config)
  }

  // ------------------------------------------------------------------
  // The two pointers
  // ------------------------------------------------------------------

  /** Filtering out a prefix and nothing else leaves the rest. */
  lemma {:induction false} FilterSuffix<T>(s: seq<T>, n: nat, p: T -> bool)
    requires n <= |s|
    requires forall k :: 0 <= k < n ==> !p(s[k])
    requires forall k :: n <= k < |s| ==> p(s[k])
    ensures Filter(s, p) == s[n..]
    decreases |s|
  {
    if s != [] {
      FilterSuffix(s[1..], if n > 0 then n - 1 else 0, p);
    }
  }

  predicate InTimeOrder(obs: seq<Flow>) { forall i, j :: 0 <= i < j < |obs| ==> obs[i].at <= obs[j].at }

  /** The slice between the pointers is the naive window when everything before
      `start` is outside it and the event at `start` is not. */
  lemma SliceIsWindow(obs: seq<Flow>, start: nat, end: nat, window: int)
    requires InTimeOrder(obs) && start <= end < |obs|
    requires forall k :: 0 <= k < start ==> !Within(obs[k], obs[end].at, window)
    requires start < end ==> Within(obs[start], obs[end].at, window)
    ensures obs[start..end + 1] == Window(obs, end, window)
  {
    var before := obs[..end];
    forall k | start <= k < end ensures InWindow(obs[end].at, window)(before[k]) {
      assert k > start ==> obs[start].at <= obs[k].at;
    }
    FilterSuffix(before, start, InWindow(obs[end].at, window));
    assert obs[start..end + 1] == before[start..] + [obs[end]];
  }

  method SumUsd(slice: seq<Flow>) returns (total: real)
    ensures total == TotalUsd(slice)
  {
    total := 0.0;
    for k := 0 to |slice|
      invariant total == TotalUsd(slice[..k])
    {
      assert slice[..k + 1][..k] == slice[..k];
      total := total + slice[k].amountUsd;
    }
    assert slice[..|slice|] == slice;
  }

  /** Everything before `start` has left the window of the event at `end`. */
  ghost predicate LeftBehind(obs: seq<Flow>, start: nat, end: nat, window: int)
    requires start <= |obs|
  {
    end < |obs| ==> forall k :: 0 <= k < start ==> !Within(obs[k], obs[end].at, window)
  }

  method AdvanceStart(obs: seq<Flow>, from: nat, end: nat, window: int) returns (start: nat)
    requires InTimeOrder(obs) && from <= end < |obs| && LeftBehind(obs, from, end, window)
    ensures start <= end && obs[start..end + 1] == Window(obs, end, window)
    ensures LeftBehind(obs, start, end + 1, window)
  {
    start := from;
    var endAt := obs[end].at;
    while start < end && endAt - obs[start].at > window
      invariant start <= end && LeftBehind(obs, start, end, window)
    {
      start := start + 1;
    }
    SliceIsWindow(obs, start, end, window);
  }

  method DetectSide(sideObs: seq<Flow>, side: Side, config: FlowConfig) returns (clusters: seq<FlowCluster>)
    requires InTimeOrder(sideObs)
    ensures clusters == ClustersUpTo(sideObs, side, config, |sideObs|)
  {
    clusters := [];
    var start := 0;
    for end := 0 to |sideObs|
      invariant 0 <= start <= end && LeftBehind(sideObs, start, end, config.clusterWindow)
      invariant clusters == ClustersUpTo(sideObs, side, config, end)
    {
      start := AdvanceStart(sideObs, start, end, config.clusterWindow);
      var slice := sideObs[start..end + 1];
      var makers := Makers(slice);
      if |makers| >= config.clusterMinMakers {
        var total := SumUsd(slice);
        clusters := clusters + [FlowCluster(side, |makers|, total, slice[0].at, slice[|slice| - 1].at)];
      }
    }
  }

  lemma SideInTimeOrder(obs: seq<Flow>, side: Side)
    ensures InTimeOrder(SideOf(obs, side))
  {
    NotAfterTotal();
    var kept := Filter(obs, (o: Flow) => o.side == side);
    SortSorted(kept, (a, b) => NotAfter(a, b));
    var s := SideOf(obs, side);
    forall i, j | 0 <= i < j < |s| ensures s[i].at <= s[j].at {
      assert NotAfter(s[i], s[j]);
    }
  }

  method DetectFlowClusters(obs: seq<Flow>, config: FlowConfig) returns (clusters: seq<FlowCluster>)
    ensures clusters == Clusters(obs, config)
  {
    SideInTimeOrder(obs, BUY);
    SideInTimeOrder(obs, SELL);
    var buys := DetectSide(SideOf(obs, BUY), BUY, config);
    var sells := DetectSide(SideOf(obs, SELL), SELL, config);
    clusters := buys + sells;
  }

  // ------------------------------------------------------------------
  // What the clusters mean
  // ------------------------------------------------------------------

  lemma SideMembers(obs: seq<Flow>, side: Side, o: Flow)
    ensures o in SideOf(obs, side) <==> o in obs && o.side == side
  {
    SortMembers(Filter(obs, (x: Flow) => x.side == side), (a, b) => NotAfter(a, b));
  }

  /** The window at `end` holds exactly the events of its side up to there - in the
      sorted order - that are no more than the window older. */
  lemma WindowMembers(obs: seq<Flow>, end: nat, window: int, o: Flow)
    requires end < |obs| && window >= 0
    ensures o in Window(obs, end, window) <==> o in obs[..end + 1] && obs[end].at - o.at <= window
  {
    assert obs[..end + 1] == obs[..end] + [obs[end]];
  }

  lemma {:induction false} ClusterPlaced(obs: seq<Flow>, side: Side, config: FlowConfig, n: nat, end: nat)
    requires end < n <= |obs| && |Makers(Window(obs, end, config.clusterWindow))| >= config.clusterMinMakers
    ensures ClusterOf(Window(obs, end, config.clusterWindow), side) in ClustersUpTo(obs, side, config, n)
    decreases n
  {
    if end < n - 1 {
      ClusterPlaced(obs, side, config, n - 1, end);
    }
  }

  lemma MakersGrow(small: set<Flow>, slice: seq<Flow>)
    requires forall o :: o in small ==> o in slice
    ensures (set o | o in small :: o.maker) <= Makers(slice)
    ensures |set o | o in small :: o.maker| <= |Makers(slice)|
  {
    Subset(set o | o in small :: o.maker, Makers(slice));
  }

  lemma {:induction false} Subset(a: set<string>, b: set<string>)
    requires a <= b
    ensures |a| <= |b|
    decreases |a|
  {
    if a != {} {
      var x :| x in a;
      Subset(a - {x}, b - {x});
    }
  }

  lemma {:induction false} LastIndex(obs: seq<Flow>, group: set<Flow>) returns (end: nat)
    requires exists o :: o in group && o in obs
    ensures end < |obs| && obs[end] in group
    ensures forall o :: o in group && o in obs ==> o in obs[..end + 1]
    decreases |obs|
  {
    var last := |obs| - 1;
    if obs[last] in group {
      end := last;
      assert obs[..last + 1] == obs;
    } else {
      assert forall o :: o in group && o in obs ==> o in obs[..last];
      end := LastIndex(obs[..last], group);
      assert obs[..last][..end + 1] == obs[..end + 1];
    }
  }

  /** The cluster that ends at `end` is reported and its slice holds the whole group. */
  ghost predicate Covers(obs: seq<Flow>, side: Side, config: FlowConfig, group: set<Flow>, end: nat) {
    && end < |SideOf(obs, side)|
    && var slice := Window(SideOf(obs, side), end, config.clusterWindow);
       && (forall o :: o in group ==> o in slice)
       && ClusterOf(slice, side) in Clusters(obs, config)
       && ClusterOf(slice, side).distinctMakers >= |set o | o in group :: o.maker|
  }

  /** No convergence is missed: same-side events of enough makers, no two further
      apart than the window, all lie in the slice of one reported cluster. */
  lemma EveryConvergenceReported(obs: seq<Flow>, side: Side, config: FlowConfig, group: set<Flow>)
    requires config.clusterWindow >= 0 && group != {}
    requires forall o :: o in group ==> o in obs && o.side == side
    requires forall o, p :: o in group && p in group ==> o.at - p.at <= config.clusterWindow
    requires |set o | o in group :: o.maker| >= config.clusterMinMakers
    ensures exists end :: Covers(obs, side, config, group, end)
  {
    var sorted := SideOf(obs, side);
    forall o | o in group ensures o in sorted {
      SideMembers(obs, side, o);
    }
    var some :| some in group;
    var end := LastIndex(sorted, group);
    var slice := Window(sorted, end, config.clusterWindow);
    forall o | o in group ensures o in slice {
      WindowMembers(sorted, end, config.clusterWindow, o);
    }
    MakersGrow(group, slice);
    ClusterPlaced(sorted, side, config, |sorted|, end);
    assert Covers(obs, side, config, group, end);
  }

  lemma {:induction false} ClusterHasEnd(obs: seq<Flow>, side: Side, config: FlowConfig, n: nat, c: FlowCluster)
      returns (end: nat)
    requires n <= |obs| && c in ClustersUpTo(obs, side, config, n)
    ensures end < n && c == ClusterOf(Window(obs, end, config.clusterWindow), side)
    ensures c.distinctMakers >= config.clusterMinMakers
  {
    if c in ClustersUpTo(obs, side, config, n - 1) {
      end := ClusterHasEnd(obs, side, config, n - 1, c);
    } else {
      end := n - 1;
    }
  }

  /** What the events are worth together, added up from the first. */
  function UsdFrom(slice: seq<Flow>): real { if slice == [] then 0.0 else slice[0].amountUsd + UsdFrom(slice[1..]) }

  lemma {:induction false} UsdAppend(a: seq<Flow>, o: Flow)
    ensures UsdFrom(a + [o]) == UsdFrom(a) + o.amountUsd
  {
    if a == [] {
      assert a + [o] == [o] && [o][1..] == [];
    } else {
      assert (a + [o])[1..] == a[1..] + [o];
      UsdAppend(a[1..], o);
    }
  }

  lemma {:induction false} TotalIsUsd(slice: seq<Flow>)
    ensures TotalUsd(slice) == UsdFrom(slice)
    decreases |slice|
  {
    if slice != [] {
      var n := |slice| - 1;
      TotalIsUsd(slice[..n]);
      UsdAppend(slice[..n], slice[n]);
      assert slice == slice[..n] + [slice[n]];
    }
  }

  /** The cluster is the window at `end`, all of whose events are of its side and in its
      span: it counts their makers, adds up their amounts, and spans from the earliest of
      them to the event there. */
  ghost predicate Explains(obs: seq<Flow>, side: Side, config: FlowConfig, c: FlowCluster, end: nat) {
    && end < |SideOf(obs, side)|
    && var slice := Window(SideOf(obs, side), end, config.clusterWindow);
       && c.distinctMakers == |set o | o in slice :: o.maker|
       && c.windowEnd == SideOf(obs, side)[end].at && c.totalUsd == UsdFrom(slice)
       && (exists o :: o in slice && o.at == c.windowStart)
       && forall o :: o in slice ==> o in obs && o.side == side && c.windowStart <= o.at <= c.windowEnd
  }

  /** And none is made up: a reported cluster is the window of some event of its
      side, spans no more than the window, and counts enough makers of that side. */
  lemma ReportedIsConvergence(obs: seq<Flow>, side: Side, config: FlowConfig, c: FlowCluster)
    requires config.clusterWindow >= 0 && c in SideClusters(obs, side, config)
    ensures c.direction == side && c.distinctMakers >= config.clusterMinMakers
    ensures 0 <= c.windowEnd - c.windowStart <= config.clusterWindow
    ensures exists end :: Explains(obs, side, config, c, end)
  {
    var sorted := SideOf(obs, side);
    var end := ClusterHasEnd(sorted, side, config, |sorted|, c);
    var slice := Window(sorted, end, config.clusterWindow);
    SideInTimeOrder(obs, side);
    WindowMembers(sorted, end, config.clusterWindow, slice[0]);
    WindowInOrder(sorted, end, config.clusterWindow);
    forall o | o in slice ensures o in obs && o.side == side && c.windowStart <= o.at <= c.windowEnd {
      WindowMembers(sorted, end, config.clusterWindow, o);
      SideMembers(obs, side, o);
    }
    TotalIsUsd(slice);
    assert slice[0] in slice && slice[0].at == c.windowStart;
    assert Explains(obs, side, config, c, end);
  }

  lemma WindowInOrder(obs: seq<Flow>, end: nat, window: int)
    requires end < |obs| && InTimeOrder(obs)
    ensures var slice := Window(obs, end, window);
      forall o :: o in slice ==> slice[0].at <= o.at <= slice[|slice| - 1].at
  {
    var le := (a: Flow, b: Flow) => a.at <= b.at;
    FilterSorted(obs[..end], InWindow(obs[end].at, window), le);
    var kept := Filter(obs[..end], InWindow(obs[end].at, window));
    forall o | o in kept ensures kept[0].at <= o.at <= obs[end].at {
      assert o in obs[..end];
      var k :| 0 <= k < |kept| && kept[k] == o;
      assert k > 0 ==> le(kept[0], kept[k]);
    }
    if kept != [] {
      assert kept[0] in kept;
    }
  }

  /** The clusters depend only on which events there are, not on their order. */
  lemma OrderOfEventsIrrelevant(obs: seq<Flow>, other: seq<Flow>, config: FlowConfig)
    requires multiset(obs) == multiset(other)
    ensures Clusters(obs, config) == Clusters(other, config)
  {
    SameSide(obs, other, BUY);
    SameSide(obs, other, SELL);
  }

  lemma SameSide(obs: seq<Flow>, other: seq<Flow>, side: Side)
    requires multiset(obs) == multiset(other)
    ensures SideOf(obs, side) == SideOf(other, side)
  {
    var p := (o: Flow) => o.side == side;
    var le := (a: Flow, b: Flow) => NotAfter(a, b);
    FilterPermuted(obs, other, p);
    NotAfterTotal();
    SortSorted(Filter(obs, p), le);
    SortSorted(Filter(other, p), le);
    forall a, b | NotAfter(a, b) && NotAfter(b, a) ensures a == b {
      Strings.LessTotal(a.maker, b.maker);
    }
    SortedUnique(SideOf(obs, side), SideOf(other, side), le);
  }

  /** All of one side, by their ends, and none ending after `at`. */
  predicate EndInOrder(cs: seq<FlowCluster>, side: Side, at: int) {
    && (forall k :: 0 <= k < |cs| ==> cs[k].direction == side && cs[k].windowEnd <= at)
    && (forall j, k :: 0 <= j < k < |cs| ==> cs[j].windowEnd <= cs[k].windowEnd)
  }

  lemma OneMoreEnds(cs: seq<FlowCluster>, more: seq<FlowCluster>, side: Side, at: int, c: FlowCluster)
    requires cs == [] || (EndInOrder(cs, side, at) && at <= c.windowEnd)
    requires c.direction == side && (more == cs || more == cs + [c])
    ensures EndInOrder(more, side, c.windowEnd)
  {
  }

  /** One position more adds its window's cluster or nothing. */
  lemma OneMorePosition(obs: seq<Flow>, side: Side, config: FlowConfig, n: nat) returns (c: FlowCluster)
    requires n < |obs|
    ensures c.direction == side && c.windowEnd == obs[n].at
    ensures var before := ClustersUpTo(obs, side, config, n);
      ClustersUpTo(obs, side, config, n + 1) == before || ClustersUpTo(obs, side, config, n + 1) == before + [c]
  {
    c := ClusterOf(Window(obs, n, config.clusterWindow), side);
  }

  lemma {:induction false} SideEndsInOrder(obs: seq<Flow>, side: Side, config: FlowConfig, n: nat)
    requires InTimeOrder(obs) && n < |obs|
    ensures EndInOrder(ClustersUpTo(obs, side, config, n + 1), side, obs[n].at)
  {
    var c := OneMorePosition(obs, side, config, n);
    var before, more := ClustersUpTo(obs, side, config, n), ClustersUpTo(obs, side, config, n + 1);
    if n == 0 {
      OneMoreEnds([], more, side, 0, c);
    } else {
      SideEndsInOrder(obs, side, config, n - 1);
      OneMoreEnds(before, more, side, obs[n - 1].at, c);
    }
  }

  lemma SidesInOrder(buys: seq<FlowCluster>, sells: seq<FlowCluster>, from: int, to: int, i: nat, j: nat)
    requires EndInOrder(buys, BUY, from) && EndInOrder(sells, SELL, to) && i < j < |buys + sells|
    ensures var (a, b) := ((buys + sells)[i], (buys + sells)[j]);
      (a.direction == BUY && b.direction == SELL) || (a.direction == b.direction && a.windowEnd <= b.windowEnd)
  {
  }

  lemma SideEnds(obs: seq<Flow>, side: Side, config: FlowConfig) returns (at: int)
    ensures EndInOrder(SideClusters(obs, side, config), side, at)
  {
    var sorted := SideOf(obs, side);
    at := 0;
    if sorted != [] {
      SideInTimeOrder(obs, side);
      SideEndsInOrder(sorted, side, config, |sorted| - 1);
      at := sorted[|sorted| - 1].at;
    }
  }

  /** The purchases are reported before the sales, and each side's clusters by their ends. */
  lemma ReportedInOrder(obs: seq<Flow>, config: FlowConfig, i: nat, j: nat)
    requires i < j < |Clusters(obs, config)|
    ensures var (a, b) := (Clusters(obs, config)[i], Clusters(obs, config)[j]);
      (a.direction == BUY && b.direction == SELL) || (a.direction == b.direction && a.windowEnd <= b.windowEnd)
  {
    var from := SideEnds(obs, BUY, config);
    var to := SideEnds(obs, SELL, config);
    SidesInOrder(SideClusters(obs, BUY, config), SideClusters(obs, SELL, config), from, to, i, j);
  }
}
