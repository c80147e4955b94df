/** Histories of the rolling limiter: what it answers is a count over the calls made. */
module LimiterHistory {
  import opened Results
  import opened StableSort
  import opened UsageHistory
  import opened UsageLimits

  /** One user's list of a kind after the calls, as each call's contract says. */
  function ListAfter(calls: seq<Call>, user: string, kind: Kind): seq<int> {
    if calls == [] then []
    else
      var c := calls[|calls| - 1];
      var list := ListAfter(calls[..|calls| - 1], user, kind);
      if c.user != user || c.kind != kind || (c.Check? && c.cap.None?) then list
      else if c.Record? then Pruned(list + [c.now], c.now)
      else Pruned(list, c.now)
  }

  /** A record of the user and the kind in the 24 hours before `now`, those included. */
  function LastDay(user: string, kind: Kind, now: int): Call -> bool {
    (c: Call) => c.Record? && c.user == user && c.kind == kind && c.now > now - 86_400_000
  }

  /** The times of all such records. */
  function TimesOf(calls: seq<Call>, user: string, kind: Kind): seq<int> {
    if calls == [] then []
    else
      var c := calls[|calls| - 1];
      var times := TimesOf(calls[..|calls| - 1], user, kind);
      if c.Record? && c.user == user && c.kind == kind then times + [c.now] else times
  }

  lemma {:induction false} CountsTimes(calls: seq<Call>, user: string, kind: Kind, now: int)
    ensures |Recent(TimesOf(calls, user, kind), now)| == |Filter(calls, LastDay(user, kind, now))|
    decreases |calls|
  {
    if calls != [] {
      var before, c := calls[..|calls| - 1], calls[|calls| - 1];
      CountsTimes(before, user, kind, now);
      assert calls == before + [c];
      FilterAppend(before, [c], LastDay(user, kind, now));
      FilterAppend(TimesOf(before, user, kind), [c.now], Since(now - DAY_MS));
    }
  }

  /** At some moment up to now the list held exactly the records of the day before it. */
  lemma {:induction false} ListKept(calls: seq<Call>, user: string, kind: Kind, now: int) returns (touched: int)
    requires InOrder(calls, now)
    ensures touched <= now && Kept(Log(ListAfter(calls, user, kind), TimesOf(calls, user, kind)), touched)
    decreases |calls|
  {
    touched := now;
    if calls != [] {
      var before, c := calls[..|calls| - 1], calls[|calls| - 1];
      touched := ListKept(before, user, kind, c.now);
      var l := Log(ListAfter(before, user, kind), TimesOf(before, user, kind));
      if c.user == user && c.kind == kind && !(c.Check? && c.cap.None?) {
        EventKeeps(l, touched, if c.Record? then Recorded(c.now) else Looked(c.now), 0);
        touched := c.now;
      }
    }
  }

  /** After any calls of any users: a check allows if and only if fewer than the cap of
      them are records of its user and its kind in the last 24 hours, leaving the difference
      less one; and the count is of exactly those. */
  lemma AnswersCountLastDay(calls: seq<Call>, user: string, kind: Kind, cap: int, now: int)
    requires InOrder(calls, now)
    ensures var list := Pruned(ListAfter(calls, user, kind), now);
      var (v, records) := (VerdictOn(list, cap, now), |Filter(calls, LastDay(user, kind, now))|);
      && (v.allowed <==> records < cap)
      && v.remaining == Some(if records < cap then cap - records - 1 else 0)
      && |list| == records
  {
    var touched := ListKept(calls, user, kind, now);
    PruneLater(Log(ListAfter(calls, user, kind), TimesOf(calls, user, kind)), touched, now);
    CountsTimes(calls, user, kind, now);
  }

  lemma {:induction false} TimesAreRecords(calls: seq<Call>, user: string, kind: Kind, t: int)
    ensures t in TimesOf(calls, user, kind) <==>
      exists c :: c in calls && c.Record? && c.user == user && c.kind == kind && c.now == t
    decreases |calls|
  {
    if calls != [] {
      var before, c := calls[..|calls| - 1], calls[|calls| - 1];
      TimesAreRecords(before, user, kind, t);
      assert calls == before + [c];
    }
  }

  /** A refused check with records in the last day names the moment the oldest of them
      leaves it. */
  lemma RetryIsOldest(calls: seq<Call>, user: string, kind: Kind, cap: int, now: int)
    requires InOrder(calls, now) && Filter(calls, LastDay(user, kind, now)) != []
    requires !VerdictOn(Pruned(ListAfter(calls, user, kind), now), cap, now).allowed
    ensures var retry := VerdictOn(Pruned(ListAfter(calls, user, kind), now), cap, now).retryAtMs;
      && retry.Some?
      && (exists c :: c in calls && LastDay(user, kind, now)(c) && c.now + 86_400_000 == retry.value)
      && (forall c :: c in calls && LastDay(user, kind, now)(c) ==> c.now + 86_400_000 >= retry.value)
  {
    var times := TimesOf(calls, user, kind);
    var touched := ListKept(calls, user, kind, now);
    var l := Log(ListAfter(calls, user, kind), times);
    PruneLater(l, touched, now);
    RecentAscending(times, now);
    CountsTimes(calls, user, kind, now);
    var list := Recent(times, now);
    assert list[0] in list;
    TimesAreRecords(calls, user, kind, list[0]);
    forall c | c in calls && LastDay(user, kind, now)(c) ensures c.now >= list[0] {
      TimesAreRecords(calls, user, kind, c.now);
      assert c.now in list;
    }
  }
}
