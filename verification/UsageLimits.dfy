/** src/product/pricing/usageLimiter.ts: a rolling 24-hour cap on each user's scans and
    monitors, kept as lists of times pruned from the front.  The scan handler has its
    quota from UsageStore instead. */
module UsageLimits {
  import opened Results
  import opened StableSort

  const DAY_MS := 24 * 60 * 60 * 1000

  datatype Kind = SCAN | MONITOR

  datatype UserUsage = UserUsage(scans: seq<int>, monitors: seq<int>)

  datatype Verdict = Verdict(allowed: bool, remaining: Option<int>, retryAtMs: Option<int>)

  function ListOf(u: UserUsage, kind: Kind): seq<int> { if kind == SCAN then u.scans else u.monitors }

  function Put(u: UserUsage, kind: Kind, list: seq<int>): UserUsage {
    if kind == SCAN then u.(scans := list) else u.(monitors := list)
  }

  function ListFor(usage: map<string, UserUsage>, userId: string, kind: Kind): seq<int> {
    if userId in usage then ListOf(usage[userId], kind) else []
  }

  /** Drops from the front what is out of the window. */
  function Pruned(list: seq<int>, nowMs: int): seq<int> {
    if list != [] && list[0] <= nowMs - DAY_MS then Pruned(list[1..], nowMs) else list
  }

  /** The verdict on a pruned list. */
  function VerdictOn(list: seq<int>, cap: int, nowMs: int): Verdict {
    if |list| < cap then Verdict(true, Some(cap - |list| - 1), None)
    else Verdict(false, Some(0), Some((if list == [] then nowMs else list[0]) + DAY_MS))
  }

  class UsageLimiter {
    var usage: map<string, UserUsage>

    constructor ()
      ensures usage == map[]
    {
      usage := map[];
    }

    method Prune(list: seq<int>, nowMs: int) returns (kept: seq<int>)
      ensures kept == Pruned(list, nowMs)
    {
      var cutoff := nowMs - DAY_MS;
      var i := 0;
      while i < |list| && list[i] <= cutoff
        invariant i <= |list| && Pruned(list, nowMs) == Pruned(list[i..], nowMs)
      {
        i := i + 1;
      }
      kept := list[i..];
    }

    /** Only the list asked about is pruned; no other changes. */
    method Check(userId: string, kind: Kind, cap: Option<int>, nowMs: int) returns (v: Verdict)
      modifies this
      ensures cap.None? ==> v == Verdict(true, None, None) && usage == old(usage)
      ensures cap.Some? ==>
        v == VerdictOn(Pruned(ListFor(old(usage), userId, kind), nowMs), cap.value, nowMs)
        && ListFor(usage, userId, kind) == Pruned(ListFor(old(usage), userId, kind), nowMs)
      ensures forall u, k :: u != userId || k != kind ==> ListFor(usage, u, k) == ListFor(old(usage), u, k)
    {
      if cap.None? {
        return Verdict(true, None, None);
      }
      var u := if userId in usage then usage[userId] else UserUsage([], []);
      var list := Prune(ListOf(u, kind), nowMs);
      usage := usage[userId := Put(u, kind, list)];
      if |list| < cap.value {
        return Verdict(true, Some(cap.value - |list| - 1), None);
      }
      return Verdict(false, Some(0), Some((if list == [] then nowMs else list[0]) + DAY_MS));
    }

    method Record(userId: string, kind: Kind, nowMs: int)
      modifies this
      ensures ListFor(usage, userId, kind) == Pruned(ListFor(old(usage), userId, kind) + [nowMs], nowMs)
      ensures forall u, k :: u != userId || k != kind ==> ListFor(usage, u, k) == ListFor(old(usage), u, k)
    {
      var u := if userId in usage then usage[userId] else UserUsage([], []);
      var list := Prune(ListOf(u, kind) + [nowMs], nowMs);
      usage := usage[userId := Put(u, kind, list)];
    }

    method Used(userId: string, kind: Kind, nowMs: int) returns (n: nat)
      modifies this
      ensures n == |Pruned(ListFor(old(usage), userId, kind), nowMs)|
      ensures ListFor(usage, userId, kind) == Pruned(ListFor(old(usage), userId, kind), nowMs)
      ensures forall u, k :: u != userId || k != kind ==> ListFor(usage, u, k) == ListFor(old(usage), u, k)
    {
      if userId !in usage {
        return 0;
      }
      var list := Prune(ListOf(usage[userId], kind), nowMs);
      usage := usage[userId := Put(usage[userId], kind, list)];
      n := |list|;
    }
  }

  // ------------------------------------------------------------------
  // Histories of one list
  // ------------------------------------------------------------------

  datatype Event =
    | Looked(now: int)    // a check, or a count
    | Tried(now: int)     // a check and, if it allows, a record at the same instant
    | Recorded(now: int)  // a record that no check at its instant allowed

  /** The list the limiter keeps, and every record ever made. */
  datatype Log = Log(list: seq<int>, records: seq<int>)

  function EventOn(l: Log, e: Event, cap: int): Log {
    match e
    case Looked(now) => l.(list := Pruned(l.list, now))
    case Tried(now) =>
      var list := Pruned(l.list, now);
      if VerdictOn(list, cap, now).allowed then Log(Pruned(list + [now], now), l.records + [now]) else l.(list := list)
    case Recorded(now) => Log(Pruned(l.list + [now], now), l.records + [now])
  }

  function After(events: seq<Event>, cap: int): Log {
    if events == [] then Log([], []) else EventOn(After(events[..|events| - 1], cap), events[|events| - 1], cap)
  }

  predicate Forward(events: seq<Event>) { forall i, j :: 0 <= i < j < |events| ==> events[i].now <= events[j].now }

  predicate Ascending(list: seq<int>) { forall i, j :: 0 <= i < j < |list| ==> list[i] <= list[j] }

  function Since(from: int): int -> bool { t => t > from }

  function Recent(records: seq<int>, now: int): seq<int> { Filter(records, Since(now - DAY_MS)) }

  lemma {:induction false} PrunedIsFilter(list: seq<int>, now: int)
    requires Ascending(list)
    ensures Pruned(list, now) == Recent(list, now) && Ascending(Pruned(list, now))
  {
    if list != [] {
      if list[0] <= now - DAY_MS {
        PrunedIsFilter(list[1..], now);
      } else {
        AllKept(list, Since(now - DAY_MS));
      }
    }
  }

  lemma {:induction false} AllKept(list: seq<int>, p: int -> bool)
    requires forall k :: 0 <= k < |list| ==> p(list[k])
    ensures Filter(list, p) == list
  {
    if list != [] {
      AllKept(list[1..], p);
    }
  }

  lemma {:induction false} RecentTwice(records: seq<int>, before: int, now: int)
    requires before <= now
    ensures Recent(Recent(records, before), now) == Recent(records, now)
  {
    if records != [] {
      RecentTwice(records[1..], before, now);
    }
  }

  predicate Kept(l: Log, now: int) {
    && Ascending(l.records) && (l.records != [] ==> l.records[|l.records| - 1] <= now)
    && l.list == Recent(l.records, now)
  }

  lemma RecentAscending(records: seq<int>, now: int)
    requires Ascending(records)
    ensures Ascending(Recent(records, now))
  {
    PrunedIsFilter(records, now);
  }

  /** Pruning later gives the records of the later window. */
  lemma PruneLater(l: Log, clock: int, now: int)
    requires Kept(l, clock) && clock <= now
    ensures Pruned(l.list, now) == Recent(l.records, now)
    ensures Kept(l.(list := Pruned(l.list, now)), now)
  {
    RecentAscending(l.records, clock);
    PrunedIsFilter(l.list, now);
    RecentTwice(l.records, clock, now);
  }

  lemma RecentBelow(records: seq<int>, now: int)
    requires Ascending(records) && (records != [] ==> records[|records| - 1] <= now)
    ensures forall k :: 0 <= k < |Recent(records, now)| ==> Recent(records, now)[k] <= now
  {
    forall k | 0 <= k < |Recent(records, now)| ensures Recent(records, now)[k] <= now {
      var t := Recent(records, now)[k];
      assert t in Recent(records, now);
      var j :| 0 <= j < |records| && records[j] == t;
    }
  }

  lemma RecordKeeps(l: Log, now: int)
    requires Kept(l, now)
    ensures Kept(Log(Pruned(l.list + [now], now), l.records + [now]), now)
  {
    RecentAscending(l.records, now);
    RecentBelow(l.records, now);
    PrunedIsFilter(l.list + [now], now);
    RecentPush(l.records, now);
  }

  lemma RecentPush(records: seq<int>, now: int)
    ensures Recent(Recent(records, now) + [now], now) == Recent(records + [now], now)
  {
    FilterAppend(Recent(records, now), [now], Since(now - DAY_MS));
    FilterAppend(records, [now], Since(now - DAY_MS));
    RecentTwice(records, now, now);
  }

  lemma EventKeeps(l: Log, clock: int, e: Event, cap: int)
    requires Kept(l, clock) && clock <= e.now
    ensures Kept(EventOn(l, e, cap), e.now)
  {
    PruneLater(l, clock, e.now);
    var pruned := l.(list := Pruned(l.list, e.now));
    RecordKeeps(pruned, e.now);
    if e.Recorded? {
      PruneThenRecord(l, clock, e.now);
    }
  }

  /** Pushing and then pruning is pruning, pushing and pruning. */
  lemma PruneThenRecord(l: Log, clock: int, now: int)
    requires Kept(l, clock) && clock <= now
    ensures Pruned(l.list + [now], now) == Pruned(Pruned(l.list, now) + [now], now)
  {
    RecentAscending(l.records, clock);
    PushPruned(l.list, now);
  }

  lemma {:induction false} PushPruned(list: seq<int>, now: int)
    ensures Pruned(list + [now], now) == Pruned(Pruned(list, now) + [now], now)
  {
    if list != [] && list[0] <= now - DAY_MS {
      PushPruned(list[1..], now);
      assert (list + [now])[1..] == list[1..] + [now];
    }
  }

  function ClockOf(events: seq<Event>): int
    requires events != []
  {
    events[|events| - 1].now
  }

  /** With a clock that never goes back the pruned list is always the full history
      restricted to the last 24 hours. */
  lemma {:induction false} ListIsLastDay(events: seq<Event>, cap: int)
    requires Forward(events) && events != []
    ensures After(events, cap).list == Recent(After(events, cap).records, ClockOf(events))
    ensures Kept(After(events, cap), ClockOf(events))
    decreases |events|
  {
    var before, last := events[..|events| - 1], events[|events| - 1];
    if before == [] {
      EventKeeps(Log([], []), last.now, last, cap);
    } else {
      ListIsLastDay(before, cap);
      EventKeeps(After(before, cap), ClockOf(before), last, cap);
    }
  }

  // ------------------------------------------------------------------
  // No window over the cap
  // ------------------------------------------------------------------

  function InWindow(from: int): int -> bool { t => from < t <= from + DAY_MS }

  lemma {:induction false} FilterWider(s: seq<int>, p: int -> bool, q: int -> bool)
    requires forall k :: 0 <= k < |s| && p(s[k]) ==> q(s[k])
    ensures |Filter(s, p)| <= |Filter(s, q)|
  {
    if s != [] {
      FilterWider(s[1..], p, q);
    }
  }

  predicate AllChecked(events: seq<Event>) { forall k :: 0 <= k < |events| ==> !events[k].Recorded? }

  /** Each record without a check of its own would have passed one at its instant. */
  predicate RoomForEach(events: seq<Event>, cap: int) {
    forall k :: 0 <= k < |events| && events[k].Recorded? ==> |Pruned(After(events[..k], cap).list, events[k].now)| < cap
  }

  /** The list as the last event finds it: the records of the 24 hours before. */
  lemma FoundList(before: seq<Event>, cap: int, now: int)
    requires Forward(before) && (before != [] ==> ClockOf(before) <= now)
    ensures var l := After(before, cap);
      && Pruned(l.list, now) == Recent(l.records, now)
      && Kept(l.(list := Pruned(l.list, now)), now)
  {
    if before == [] {
      PruneLater(After(before, cap), now, now);
    } else {
      ListIsLastDay(before, cap);
      PruneLater(After(before, cap), ClockOf(before), now);
    }
  }

  lemma {:induction false} RoomKeepsCap(events: seq<Event>, cap: nat, from: int)
    requires Forward(events) && RoomForEach(events, cap)
    ensures |Filter(After(events, cap).records, InWindow(from))| <= cap
    decreases |events|
  {
    if events != [] {
      var before, last := events[..|events| - 1], events[|events| - 1];
      assert forall k :: 0 <= k < |before| ==> before[..k] == events[..k];
      RoomKeepsCap(before, cap, from);
      var l := After(before, cap);
      FilterAppend(l.records, [last.now], InWindow(from));
      if !last.Looked? && InWindow(from)(last.now) {
        FoundList(before, cap, last.now);
        FilterWider(l.records, InWindow(from), Since(last.now - DAY_MS));
      }
    }
  }

  /** When every record follows an allowing check at its instant, no 24-hour window -
      anywhere in time - holds more records than the cap. */
  lemma NoWindowOverCap(events: seq<Event>, cap: nat, from: int)
    requires Forward(events) && AllChecked(events)
    ensures |Filter(After(events, cap).records, InWindow(from))| <= cap
  {
    RoomKeepsCap(events, cap, from);
  }

  /** Records are never taken back. */
  lemma {:induction false} RecordsStay(events: seq<Event>, n: nat, cap: int, from: int)
    requires n <= |events|
    ensures |Filter(After(events[..n], cap).records, InWindow(from))|
      <= |Filter(After(events, cap).records, InWindow(from))|
    decreases |events|
  {
    if n == |events| {
      assert events[..n] == events;
    } else {
      var before, last := events[..|events| - 1], events[|events| - 1];
      assert before[..n] == events[..n];
      RecordsStay(before, n, cap, from);
      FilterAppend(After(before, cap).records, [last.now], InWindow(from));
    }
  }

  /** Of records up to now, those of the last 24 hours - and one more with a record at once. */
  lemma WindowCounts(records: seq<int>, now: int)
    requires Ascending(records) && (records != [] ==> records[|records| - 1] <= now)
    ensures |Filter(records, InWindow(now - DAY_MS))| == |Recent(records, now)|
    ensures |Filter(records + [now], InWindow(now - DAY_MS))| == |Recent(records, now)| + 1
  {
    assert forall j :: 0 <= j < |records| ==> records[j] <= now;
    FilterWider(records, Since(now - DAY_MS), InWindow(now - DAY_MS));
    FilterWider(records, InWindow(now - DAY_MS), Since(now - DAY_MS));
    FilterAppend(records, [now], InWindow(now - DAY_MS));
  }

  lemma AfterOneMore(events: seq<Event>, e: Event, cap: int)
    ensures After(events + [e], cap) == EventOn(After(events, cap), e, cap)
  {
    assert (events + [e])[..|events|] == events;
  }

  /** A record made with the list full puts the 24 hours up to it over the cap. */
  lemma FullListOverflows(events: seq<Event>, k: nat, cap: nat)
    requires Forward(events) && k < |events| && events[k].Recorded?
    requires |Pruned(After(events[..k], cap).list, events[k].now)| >= cap
    ensures |Filter(After(events, cap).records, InWindow(events[k].now - DAY_MS))| > cap
  {
    var before, last := events[..k], events[k];
    assert events[..k + 1] == before + [last];
    AfterOneMore(before, last, cap);
    FoundList(before, cap, last.now);
    WindowCounts(After(before, cap).records, last.now);
    RecordsStay(events, k + 1, cap, last.now - DAY_MS);
  }

  /** Whatever mix of checks and records: no 24-hour window ever exceeds the cap if and
      only if each record made without a check of its own found the list below it. */
  lemma CapHoldsIff(events: seq<Event>, cap: nat)
    requires Forward(events)
    ensures (forall from :: |Filter(After(events, cap).records, InWindow(from))| <= cap) <==> RoomForEach(events, cap)
  {
    if RoomForEach(events, cap) {
      forall from ensures |Filter(After(events, cap).records, InWindow(from))| <= cap {
        RoomKeepsCap(events, cap, from);
      }
    } else {
      var k :| 0 <= k < |events| && events[k].Recorded? && |Pruned(After(events[..k], cap).list, events[k].now)| >= cap;
      FullListOverflows(events, k, cap);
    }
  }

  /** The verdict of a check made after a history. */
  function VerdictAfter(events: seq<Event>, cap: int, now: int): Verdict {
    VerdictOn(Pruned(After(events, cap).list, now), cap, now)
  }

  /** Two scans that start and end at one instant: two checks, then two records. */
  function TwoScans(now: int): seq<Event> { [Looked(now), Looked(now), Recorded(now), Recorded(now)] }

  lemma TwoScansForward(before: seq<Event>, now: int)
    requires Forward(before) && (before != [] ==> ClockOf(before) <= now)
    ensures Forward(before + [Looked(now)]) && Forward(before + TwoScans(now))
  {
  }

  lemma TwoScansRecord(before: seq<Event>, cap: int, now: int)
    ensures After(before + [Looked(now)], cap).records == After(before, cap).records
    ensures After(before + TwoScans(now), cap).records == After(before, cap).records + [now] + [now]
  {
    var looked := before + [Looked(now)];
    var both := looked + [Looked(now)];
    var one := both + [Recorded(now)];
    assert before + TwoScans(now) == one + [Recorded(now)];
    AfterOneMore(before, Looked(now), cap);
    AfterOneMore(looked, Looked(now), cap);
    AfterOneMore(both, Recorded(now), cap);
    AfterOneMore(one, Recorded(now), cap);
  }

  lemma BothAllow(before: seq<Event>, cap: int, now: int)
    requires Forward(before) && (before != [] ==> ClockOf(before) <= now)
    requires |Pruned(After(before, cap).list, now)| < cap
    ensures VerdictAfter(before, cap, now).allowed && VerdictAfter(before + [Looked(now)], cap, now).allowed
  {
    TwoScansForward(before, now);
    AfterOneMore(before, Looked(now), cap);
    FoundList(before, cap, now);
    FoundList(before + [Looked(now)], cap, now);
  }

  /** Each scan checked, and each recorded when it is done: with one place left both
      checks allow, and the window ends one over the cap. */
  lemma CheckedAheadOverflows(before: seq<Event>, cap: nat, now: int)
    requires Forward(before) && (before != [] ==> ClockOf(before) <= now)
    requires |Pruned(After(before, cap).list, now)| == cap - 1
    ensures VerdictAfter(before, cap, now).allowed && VerdictAfter(before + [Looked(now)], cap, now).allowed
    ensures Forward(before + TwoScans(now))
    ensures |Filter(After(before + TwoScans(now), cap).records, InWindow(now - DAY_MS))| == cap + 1
  {
    BothAllow(before, cap, now);
    TwoScansForward(before, now);
    assert |Filter(After(before + TwoScans(now), cap).records, InWindow(now - DAY_MS))| == cap + 1 by {
      var records := After(before, cap).records;
      TwoScansRecord(before, cap, now);
      FoundList(before, cap, now);
      WindowCounts(records, now);
      FilterAppend(records + [now], [now], InWindow(now - DAY_MS));
    }
  }

  /** Such a history: a cap of one, nothing scanned yet. */
  lemma TwoScansAtOnce(now: int)
    ensures VerdictAfter([], 1, now).allowed && VerdictAfter([Looked(now)], 1, now).allowed
    ensures |Filter(After(TwoScans(now), 1).records, InWindow(now - DAY_MS))| == 2
    ensures !RoomForEach(TwoScans(now), 1)
  {
    assert [] + TwoScans(now) == TwoScans(now) && [] + [Looked(now)] == [Looked(now)];
    CheckedAheadOverflows([], 1, now);
    CapHoldsIff(TwoScans(now), 1);
  }

  // ------------------------------------------------------------------
  // When to come back
  // ------------------------------------------------------------------

  lemma {:induction false} PrunedLength(list: seq<int>, t: int, n: nat)
    requires Ascending(list) && n < |list|
    ensures |Pruned(list, t)| < |list| - n <==> list[n] <= t - DAY_MS
    decreases |list|
  {
    if list[0] <= t - DAY_MS {
      if n == 0 {
        ShorterOrSame(list[1..], t);
      } else {
        PrunedLength(list[1..], t, n - 1);
      }
    }
  }

  lemma {:induction false} ShorterOrSame(list: seq<int>, t: int)
    ensures |Pruned(list, t)| <= |list|
  {
    if list != [] && list[0] <= t - DAY_MS {
      ShorterOrSame(list[1..], t);
    }
  }

  /** A blocked check passes from the first instant at which enough of the list has left
      the window, and not before. */
  lemma PassesFrom(list: seq<int>, cap: int, t: int)
    requires Ascending(list) && 1 <= cap <= |list|
    ensures VerdictOn(Pruned(list, t), cap, t).allowed <==> t >= list[|list| - cap] + DAY_MS
  {
    PrunedLength(list, t, |list| - cap);
  }

  /** So the reported instant is exactly the first that passes if and only if the
      oldest entry is as old as the one the cap waits for. */
  lemma RetryExactIff(list: seq<int>, cap: int, now: int)
    requires Ascending(list) && 1 <= cap <= |list|
    ensures (forall t :: VerdictOn(Pruned(list, t), cap, t).allowed <==> t >= VerdictOn(list, cap, now).retryAtMs.value)
      <==> list[|list| - cap] == list[0]
  {
    forall t ensures VerdictOn(Pruned(list, t), cap, t).allowed <==> t >= list[|list| - cap] + DAY_MS {
      PassesFrom(list, cap, t);
    }
    var first := list[0] + DAY_MS;
    assert VerdictOn(list, cap, now).retryAtMs == Some(first);
    if list[|list| - cap] != list[0] {
      assert !VerdictOn(Pruned(list, first), cap, first).allowed;
    }
  }

  /** With a fixed cap and checked records the list never outgrows the cap. */
  lemma ListWithinCap(events: seq<Event>, cap: nat, now: int)
    requires Forward(events) && AllChecked(events) && events != [] && now >= ClockOf(events)
    ensures var list := Pruned(After(events, cap).list, now); Ascending(list) && |list| <= cap
  {
    var records := After(events, cap).records;
    FoundList(events, cap, now);
    RecentAscending(records, now);
    WindowCounts(records, now);
    NoWindowOverCap(events, cap, now - DAY_MS);
  }

  /** So then the instant reported is always exact. */
  lemma RetryExactWhenChecked(events: seq<Event>, cap: int, now: int, t: int)
    requires Forward(events) && AllChecked(events) && events != [] && now >= ClockOf(events) && cap >= 1
    requires !VerdictOn(Pruned(After(events, cap).list, now), cap, now).allowed
    ensures var list := Pruned(After(events, cap).list, now);
      VerdictOn(Pruned(list, t), cap, t).allowed <==> t >= VerdictOn(list, cap, now).retryAtMs.value
  {
    ListWithinCap(events, cap, now);
    PassesFrom(Pruned(After(events, cap).list, now), cap, t);
  }
}
