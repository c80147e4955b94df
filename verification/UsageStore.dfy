/** src/product/pricing/usageStore.ts: the daily quota of scans and monitors, as one row of
    counters for each user that starts again with each UTC day. */
module UsageStore {
  import opened Results
  import opened UsageLimits

  /** The UTC day of an instant, as its number since the epoch. */
  function UtcDay(nowMs: int): int { nowMs / DAY_MS }

  function NextUtcMidnight(nowMs: int): int { (UtcDay(nowMs) + 1) * DAY_MS }

  datatype DayRow = DayRow(day: int, scans: nat, monitors: nat)

  function CountOf(row: DayRow, kind: Kind): nat { if kind == SCAN then row.scans else row.monitors }

  function Counted(row: DayRow, kind: Kind): DayRow {
    if kind == SCAN then row.(scans := row.scans + 1) else row.(monitors := row.monitors + 1)
  }

  /** The row of today: the stored one, or an empty one when that is of another day. */
  function Current(row: Option<DayRow>, nowMs: int): DayRow {
    if row.Some? && row.value.day == UtcDay(nowMs) then row.value else DayRow(UtcDay(nowMs), 0, 0)
  }

  function QuotaVerdict(used: nat, cap: int, nowMs: int): Verdict {
    if used < cap then Verdict(true, Some(cap - used - 1), None)
    else Verdict(false, Some(0), Some(NextUtcMidnight(nowMs)))
  }

  function RowOf(rows: map<string, DayRow>, userId: string): Option<DayRow> {
    if userId in rows then Some(rows[userId]) else None
  }

  /** What a check answers; without a cap it looks at nothing. */
  function CheckAnswer(
      rows: map<string, DayRow>, userId: string, kind: Kind, cap: Option<int>, nowMs: int): Verdict
  {
    if cap.None? then Verdict(true, None, None)
    else QuotaVerdict(UsedAnswer(rows, userId, kind, nowMs), cap.value, nowMs)
  }

  function UsedAnswer(rows: map<string, DayRow>, userId: string, kind: Kind, nowMs: int): nat {
    CountOf(Current(RowOf(rows, userId), nowMs), kind)
  }

  /** Looking at the row of today stores it. */
  function RowsRead(rows: map<string, DayRow>, userId: string, nowMs: int): map<string, DayRow> {
    rows[userId := Current(RowOf(rows, userId), nowMs)]
  }

  function RowsCounted(rows: map<string, DayRow>, userId: string, kind: Kind, nowMs: int): map<string, DayRow> {
    rows[userId := Counted(Current(RowOf(rows, userId), nowMs), kind)]
  }

  class InMemoryUsageStore {
    var rows: map<string, DayRow>

    constructor ()
      ensures rows == map[]
    {
      rows := map[];
    }

    method Today(userId: string, nowMs: int) returns (row: DayRow)
      modifies this
      ensures row == Current(RowOf(old(rows), userId), nowMs) && rows == RowsRead(old(rows), userId, nowMs)
    {
      var day := UtcDay(nowMs);
      if userId !in rows || rows[userId].day != day {
        rows := rows[userId := DayRow(day, 0, 0)];
      }
      row := rows[userId];
    }

    method Check(userId: string, kind: Kind, cap: Option<int>, nowMs: int) returns (v: Verdict)
      modifies this
      ensures v == CheckAnswer(old(rows), userId, kind, cap, nowMs)
      ensures rows == if cap.None? then old(rows) else RowsRead(old(rows), userId, nowMs)
    {
      if cap.None? {
        return Verdict(true, None, None);
      }
      var row := Today(userId, nowMs);
      var used := if kind == SCAN then row.scans else row.monitors;
      if used < cap.value {
        return Verdict(true, Some(cap.value - used - 1), None);
      }
      return Verdict(false, Some(0), Some(NextUtcMidnight(nowMs)));
    }

    method Record(userId: string, kind: Kind, nowMs: int)
      modifies this
      ensures rows == RowsCounted(old(rows), userId, kind, nowMs)
    {
      var row := Today(userId, nowMs);
      rows := rows[userId := if kind == SCAN then row.(scans := row.scans + 1) else row.(monitors := row.monitors + 1)];
    }

    method Used(userId: string, kind: Kind, nowMs: int) returns (n: nat)
      modifies this
      ensures n == UsedAnswer(old(rows), userId, kind, nowMs) && rows == RowsRead(old(rows), userId, nowMs)
    {
      var row := Today(userId, nowMs);
      n := if kind == SCAN then row.scans else row.monitors;
    }
  }
}
