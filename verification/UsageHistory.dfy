/** Histories of the daily quota store: what it answers is a count over the calls made. */
module UsageHistory {
  import opened Results
  import opened StableSort
  import opened UsageLimits
  import opened UsageStore

  /** One call of the store, by any user. */
  datatype Call =
    | Check(user: string, kind: Kind, cap: Option<int>, now: int)
    | Record(user: string, kind: Kind, now: int)
    | Used(user: string, kind: Kind, now: int)

  function CallOn(rows: map<string, DayRow>, c: Call): map<string, DayRow> {
    match c
    case Check(user, _, cap, now) => if cap.None? then rows else RowsRead(rows, user, now)
    case Record(user, kind, now) => RowsCounted(rows, user, kind, now)
    case Used(user, _, now) => RowsRead(rows, user, now)
  }

  /** The store after the calls, made in turn from the empty store. */
  function RowsAfter(calls: seq<Call>): map<string, DayRow> {
    if calls == [] then map[] else CallOn(RowsAfter(calls[..|calls| - 1]), calls[|calls| - 1])
  }

  /** The clock does not go back, and now shows `now`. */
  predicate InOrder(calls: seq<Call>, now: int) {
    && (forall i, j :: 0 <= i < j < |calls| ==> calls[i].now <= calls[j].now)
    && (forall i :: 0 <= i < |calls| ==> calls[i].now <= now)
  }

  /** A record of `user` and `kind` on the given UTC day. */
  function RecordOf(user: string, kind: Kind, day: int): Call -> bool {
    (c: Call) => c.Record? && c.user == user && c.kind == kind && c.now / 86_400_000 == day
  }

  /** How many of the calls are such records. */
  function RecordsOn(calls: seq<Call>, user: string, kind: Kind, day: int): nat {
    |Filter(calls, RecordOf(user, kind, day))|
  }

  lemma RecordsOneMore(calls: seq<Call>, c: Call, user: string, kind: Kind, day: int)
    ensures RecordsOn(calls + [c], user, kind, day)
         == RecordsOn(calls, user, kind, day) + if RecordOf(user, kind, day)(c) then 1 else 0
  {
    FilterAppend(calls, [c], RecordOf(user, kind, day));
  }

  lemma {:induction false} NoneOn(calls: seq<Call>, user: string, kind: Kind, day: int)
    requires forall i :: 0 <= i < |calls| ==> !RecordOf(user, kind, day)(calls[i])
    ensures RecordsOn(calls, user, kind, day) == 0
  {
    if calls != [] {
      NoneOn(calls[1..], user, kind, day);
    }
  }

  /** A user's row is of no later day than the clock, and counts that day's records of either kind. */
  ghost predicate RowCounts(calls: seq<Call>, user: string, now: int) {
    var rows := RowsAfter(calls);
    && (user in rows ==>
          && rows[user].day <= now / 86_400_000
          && rows[user].scans == RecordsOn(calls, user, SCAN, rows[user].day)
          && rows[user].monitors == RecordsOn(calls, user, MONITOR, rows[user].day))
    && (forall day, kind :: (user in rows ==> day > rows[user].day) ==> RecordsOn(calls, user, kind, day) == 0)
  }

  /** Looking at a row that counts its day gives the row that counts today. */
  lemma LookCounts(calls: seq<Call>, user: string, before: int, now: int)
    requires RowCounts(calls, user, before) && before <= now
    ensures var row := Current(RowOf(RowsAfter(calls), user), now);
      && row.day == now / 86_400_000
      && row.scans == RecordsOn(calls, user, SCAN, row.day) && row.monitors == RecordsOn(calls, user, MONITOR, row.day)
    ensures forall day, kind :: day > now / 86_400_000 ==> RecordsOn(calls, user, kind, day) == 0
  {
    assert before / 86_400_000 <= now / 86_400_000;
  }

  /** Every call of the user but a check without a cap leaves the row of its day. */
  lemma CallCounts(calls: seq<Call>, c: Call, user: string, before: int)
    requires RowCounts(calls, user, before) && before <= c.now
    ensures RowCounts(calls + [c], user, c.now)
  {
    var more := calls + [c];
    assert more[..|more| - 1] == calls && RowsAfter(more) == CallOn(RowsAfter(calls), c);
    assert before / 86_400_000 <= c.now / 86_400_000;
    forall day, kind
      ensures RecordsOn(more, user, kind, day)
           == RecordsOn(calls, user, kind, day)
            + if c.Record? && c.user == user && c.kind == kind && c.now / 86_400_000 == day then 1 else 0
    {
      RecordsOneMore(calls, c, user, kind, day);
    }
    if c.user != user || (c.Check? && c.cap.None?) {
      assert user in RowsAfter(more) <==> user in RowsAfter(calls);
    } else {
      LookCounts(calls, user, before, c.now);
    }
  }

  lemma {:induction false} HistoryCounts(calls: seq<Call>, user: string, now: int)
    requires InOrder(calls, now)
    ensures RowCounts(calls, user, now)
  {
    if calls == [] {
      assert forall day, kind :: RecordsOn(calls, user, kind, day) == 0;
    } else {
      var n := |calls| - 1;
      HistoryCounts(calls[..n], user, calls[n].now);
      CallCounts(calls[..n], calls[n], user, calls[n].now);
      assert calls == calls[..n] + [calls[n]];
      assert calls[n].now / 86_400_000 <= now / 86_400_000;
    }
  }

  /** After any calls of any users: a check allows if and only if fewer than the cap of
      them are records of its user, its kind and its UTC day, leaving the difference less
      one, and otherwise names the next midnight; and the count is of exactly those. */
  lemma AnswersCountRecords(calls: seq<Call>, user: string, kind: Kind, cap: int, now: int)
    requires InOrder(calls, now)
    ensures var day := now / 86_400_000;
      var records := RecordsOn(calls, user, kind, day);
      var v := CheckAnswer(RowsAfter(calls), user, kind, Some(cap), now);
      && (v.allowed <==> records < cap)
      && v.remaining == Some(if records < cap then cap - records - 1 else 0)
      && v.retryAtMs == (if records < cap then None else Some((day + 1) * 86_400_000))
      && UsedAnswer(RowsAfter(calls), user, kind, now) == records
      && CheckAnswer(RowsAfter(calls), user, kind, None, now) == Verdict(true, None, None)
  {
    HistoryCounts(calls, user, now);
    LookCounts(calls, user, now, now);
  }

  lemma OthersDoNotCount(
      calls: seq<Call>, meanwhile: seq<Call>, user: string, kind: Kind, day: int)
    requires forall i :: 0 <= i < |meanwhile| ==> !RecordOf(user, kind, day)(meanwhile[i])
    ensures RecordsOn(calls + meanwhile, user, kind, day) == RecordsOn(calls, user, kind, day)
  {
    FilterAppend(calls, meanwhile, RecordOf(user, kind, day));
    NoneOn(meanwhile, user, kind, day);
  }

  /** What blocks a check is over exactly at the midnight it names: as long as that user
      records nothing of that kind, whatever else happens, no later check against the same
      cap passes before it and every one passes from then on. */
  lemma RetryIsMidnight(calls: seq<Call>, meanwhile: seq<Call>, user: string, kind: Kind, cap: int, now: int, t: int)
    requires InOrder(calls, now) && InOrder(calls + meanwhile, t) && now <= t
    requires forall c :: c in meanwhile ==> !(c.Record? && c.user == user && c.kind == kind)
    requires cap >= 1 && !CheckAnswer(RowsAfter(calls), user, kind, Some(cap), now).allowed
    ensures var blocked := CheckAnswer(RowsAfter(calls), user, kind, Some(cap), now);
      CheckAnswer(RowsAfter(calls + meanwhile), user, kind, Some(cap), t).allowed <==> t >= blocked.retryAtMs.value
  {
    var day := t / 86_400_000;
    AnswersCountRecords(calls, user, kind, cap, now);
    AnswersCountRecords(calls + meanwhile, user, kind, cap, t);
    assert forall i :: 0 <= i < |meanwhile| ==> meanwhile[i] in meanwhile;
    OthersDoNotCount(calls, meanwhile, user, kind, day);
    if day > now / 86_400_000 {
      assert forall i :: 0 <= i < |calls| ==> calls[i].now / 86_400_000 <= now / 86_400_000;
      NoneOn(calls, user, kind, day);
    }
  }
}
