/** One user's scans against the daily quota, as the handler of src/api/wiredApp.ts runs
    them: checked when they start, recorded when they are done, any number in between. */
module UsageTraffic {
  import opened Results
  import opened StableSort
  import opened UsageLimits
  import opened UsageStore
  import opened UsageHistory

  /** A scan starts with a check against a limit - none for an administrator and for a tier
      without one - and ends recorded or given up; `Aside` is any other call of the store,
      the user's own or another's. */
  datatype Move =
    | Start(now: int, limit: Option<int>)
    | Finish(now: int)
    | GiveUp
    | Aside(call: Call)

  /** Every call of the store, and how many of the user's scans are past their check and not ended. */
  datatype Traffic = Traffic(calls: seq<Call>, onWay: nat)

  const QUIET := Traffic([], 0)

  predicate IsScanRecord(c: Call, user: string) { c.Record? && c.user == user && c.kind == SCAN }

  function CallsOf(user: string, m: Move): seq<Call> {
    match m
    case Start(now, limit) => [Check(user, SCAN, limit, now)]
    case Finish(now) => [Record(user, SCAN, now)]
    case GiveUp => []
    case Aside(call) => [call]
  }

  /** A check lets the scan go on its way. */
  predicate LetThrough(user: string, t: Traffic, m: Move) {
    m.Start? && CheckAnswer(RowsAfter(t.calls), user, SCAN, m.limit, m.now).allowed
  }

  predicate CanMove(user: string, t: Traffic, m: Move) {
    && (m.Finish? || m.GiveUp? ==> t.onWay > 0)
    && (m.Aside? ==> !IsScanRecord(m.call, user))
  }

  function MoveOn(user: string, t: Traffic, m: Move): Traffic
    requires CanMove(user, t, m)
  {
    Traffic(t.calls + CallsOf(user, m),
            if LetThrough(user, t, m) then t.onWay + 1 else if m.Finish? || m.GiveUp? then t.onWay - 1 else t.onWay)
  }

  function ClockAfter(clock: int, m: Move): int {
    match m
    case Start(now, _) => now
    case Finish(now) => now
    case GiveUp => clock
    case Aside(call) => call.now
  }

  /** The moves can be made in turn, in time order from `clock` on. */
  ghost predicate Flows(user: string, t: Traffic, clock: int, moves: seq<Move>)
    decreases |moves|
  {
    moves == [] ||
    (CanMove(user, t, moves[0]) && clock <= ClockAfter(clock, moves[0])
     && Flows(user, MoveOn(user, t, moves[0]), ClockAfter(clock, moves[0]), moves[1..]))
  }

  /** Where they lead. */
  ghost function Flowed(user: string, t: Traffic, clock: int, moves: seq<Move>): Traffic
    requires Flows(user, t, clock, moves)
    decreases |moves|
  {
    if moves == [] then t
    else Flowed(user, MoveOn(user, t, moves[0]), ClockAfter(clock, moves[0]), moves[1..])
  }

  // ------------------------------------------------------------------
  // One move
  // ------------------------------------------------------------------

  lemma MoveCounts(user: string, t: Traffic, m: Move, day: int)
    requires CanMove(user, t, m)
    ensures RecordsOn(MoveOn(user, t, m).calls, user, SCAN, day)
         == RecordsOn(t.calls, user, SCAN, day) + if m.Finish? && m.now / 86_400_000 == day then 1 else 0
  {
    if m.GiveUp? {
      assert t.calls + CallsOf(user, m) == t.calls;
    } else {
      RecordsOneMore(t.calls, CallsOf(user, m)[0], user, SCAN, day);
    }
  }

  lemma MoveInOrder(user: string, t: Traffic, clock: int, m: Move)
    requires InOrder(t.calls, clock) && CanMove(user, t, m) && clock <= ClockAfter(clock, m)
    ensures InOrder(MoveOn(user, t, m).calls, ClockAfter(clock, m))
  {
    assert forall c :: c in CallsOf(user, m) ==> c.now == ClockAfter(clock, m);
  }

  /** None is recorded on a day to come. */
  lemma NoneAhead(user: string, t: Traffic, clock: int, day: int)
    requires InOrder(t.calls, clock) && clock / 86_400_000 < day
    ensures RecordsOn(t.calls, user, SCAN, day) == 0
  {
    assert forall i :: 0 <= i < |t.calls| ==> t.calls[i].now / 86_400_000 <= clock / 86_400_000;
    NoneOn(t.calls, user, SCAN, day);
  }

  lemma LetThroughIff(user: string, t: Traffic, clock: int, m: Move)
    requires InOrder(t.calls, clock) && m.Start? && clock <= m.now
    ensures LetThrough(user, t, m) <==>
      m.limit.None? || RecordsOn(t.calls, user, SCAN, m.now / 86_400_000) < m.limit.value
  {
    if m.limit.Some? {
      AnswersCountRecords(t.calls, user, SCAN, m.limit.value, m.now);
    }
  }

  // ------------------------------------------------------------------
  // Exactly when every day keeps the quota
  // ------------------------------------------------------------------

  /** Asked just before, the store would answer that fewer than `cap` are used today. */
  predicate FindsRoom(user: string, t: Traffic, m: Move, cap: int) {
    m.Finish? ==> UsedAnswer(RowsAfter(t.calls), user, SCAN, m.now) < cap
  }

  /** Each scan, when it is recorded, finds room. */
  ghost predicate EachFindsRoom(user: string, t: Traffic, clock: int, moves: seq<Move>, cap: int)
    requires Flows(user, t, clock, moves)
    decreases |moves|
  {
    moves == [] ||
    (FindsRoom(user, t, moves[0], cap)
     && EachFindsRoom(user, MoveOn(user, t, moves[0]), ClockAfter(clock, moves[0]), moves[1..], cap))
  }

  ghost predicate DaysWithin(user: string, t: Traffic, cap: int) {
    forall day :: RecordsOn(t.calls, user, SCAN, day) <= cap
  }

  lemma MoveWithinIff(user: string, t: Traffic, clock: int, m: Move, cap: int)
    requires InOrder(t.calls, clock) && CanMove(user, t, m) && clock <= ClockAfter(clock, m)
    ensures DaysWithin(user, MoveOn(user, t, m), cap) <==> DaysWithin(user, t, cap) && FindsRoom(user, t, m, cap)
  {
    var u := MoveOn(user, t, m);
    forall day
      ensures RecordsOn(u.calls, user, SCAN, day)
           == RecordsOn(t.calls, user, SCAN, day) + if m.Finish? && m.now / 86_400_000 == day then 1 else 0
    {
      MoveCounts(user, t, m, day);
    }
    if m.Finish? {
      AnswersCountRecords(t.calls, user, SCAN, cap, m.now);
      var day := m.now / 86_400_000;
      assert RecordsOn(u.calls, user, SCAN, day) == RecordsOn(t.calls, user, SCAN, day) + 1;
    }
    if DaysWithin(user, u, cap) {
      forall day ensures RecordsOn(t.calls, user, SCAN, day) <= cap {
        assert RecordsOn(u.calls, user, SCAN, day) <= cap;
      }
    }
  }

  lemma {:induction false} FlowWithinIff(user: string, t: Traffic, clock: int, moves: seq<Move>, cap: int)
    requires InOrder(t.calls, clock) && Flows(user, t, clock, moves)
    ensures DaysWithin(user, Flowed(user, t, clock, moves), cap)
       <==> DaysWithin(user, t, cap) && EachFindsRoom(user, t, clock, moves, cap)
    decreases |moves|
  {
    if moves != [] {
      MoveWithinIff(user, t, clock, moves[0], cap);
      MoveInOrder(user, t, clock, moves[0]);
      FlowWithinIff(user, MoveOn(user, t, moves[0]), ClockAfter(clock, moves[0]), moves[1..], cap);
    }
  }

  /** Whatever limits the scans were checked against, and whatever other calls came between:
      no UTC day ever holds more than `cap` of the user's scans if and only if each, when it
      is recorded, finds fewer used that day. */
  lemma QuotaHoldsIff(user: string, clock: int, moves: seq<Move>, cap: nat)
    requires Flows(user, QUIET, clock, moves)
    ensures var t := Flowed(user, QUIET, clock, moves);
      (forall day :: RecordsOn(t.calls, user, SCAN, day) <= cap) <==> EachFindsRoom(user, QUIET, clock, moves, cap)
  {
    FlowWithinIff(user, QUIET, clock, moves, cap);
  }

  // ------------------------------------------------------------------
  // How far past it they can get
  // ------------------------------------------------------------------

  /** Never more than `most` scans are on their way. */
  ghost predicate AtMostOnWay(user: string, t: Traffic, clock: int, moves: seq<Move>, most: nat)
    requires Flows(user, t, clock, moves)
    decreases |moves|
  {
    t.onWay <= most
    && (moves == [] ||
        AtMostOnWay(user, MoveOn(user, t, moves[0]), ClockAfter(clock, moves[0]), moves[1..], most))
  }

  predicate LimitedMove(m: Move, cap: int) { m.Start? ==> m.limit.Some? && m.limit.value <= cap }

  /** Every scan is checked, against a limit of at most `cap`. */
  predicate Limited(moves: seq<Move>, cap: int) { forall k :: 0 <= k < |moves| ==> LimitedMove(moves[k], cap) }

  /** No day holds more than `bound`, nor would this one with all on their way recorded in it. */
  ghost predicate Bounded(user: string, t: Traffic, clock: int, bound: int) {
    && InOrder(t.calls, clock) && DaysWithin(user, t, bound)
    && t.onWay <= bound && RecordsOn(t.calls, user, SCAN, clock / 86_400_000) + t.onWay <= bound
  }

  lemma BoundedLater(user: string, t: Traffic, clock: int, now: int, bound: int)
    requires Bounded(user, t, clock, bound) && clock <= now
    ensures RecordsOn(t.calls, user, SCAN, now / 86_400_000) + t.onWay <= bound
  {
    if clock / 86_400_000 < now / 86_400_000 {
      NoneAhead(user, t, clock, now / 86_400_000);
    }
  }

  lemma MoveBounded(user: string, t: Traffic, clock: int, m: Move, cap: nat, most: nat)
    requires Bounded(user, t, clock, cap + most - 1) && CanMove(user, t, m) && clock <= ClockAfter(clock, m)
    requires MoveOn(user, t, m).onWay <= most && LimitedMove(m, cap)
    ensures Bounded(user, MoveOn(user, t, m), ClockAfter(clock, m), cap + most - 1)
  {
    var now := ClockAfter(clock, m);
    MoveInOrder(user, t, clock, m);
    BoundedLater(user, t, clock, now, cap + most - 1);
    if m.Start? {
      LetThroughIff(user, t, clock, m);
    }
    forall day ensures RecordsOn(MoveOn(user, t, m).calls, user, SCAN, day) <= cap + most - 1 {
      MoveCounts(user, t, m, day);
    }
    MoveCounts(user, t, m, now / 86_400_000);
  }

  lemma {:induction false} FlowBounded(user: string, t: Traffic, clock: int, moves: seq<Move>, cap: nat, most: nat)
    requires Flows(user, t, clock, moves) && AtMostOnWay(user, t, clock, moves, most) && Limited(moves, cap)
    requires Bounded(user, t, clock, cap + most - 1)
    ensures DaysWithin(user, Flowed(user, t, clock, moves), cap + most - 1)
    decreases |moves|
  {
    if moves != [] {
      var u, later := MoveOn(user, t, moves[0]), ClockAfter(clock, moves[0]);
      assert AtMostOnWay(user, u, later, moves[1..], most);
      MoveBounded(user, t, clock, moves[0], cap, most);
      FlowBounded(user, u, later, moves[1..], cap, most);
    }
  }

  /** When every scan of the user is checked against at most `cap`, and at most `most` are
      ever between their check and their record - over midnight too - no UTC day holds more
      than `cap + most - 1` of them. */
  lemma OnWayBound(user: string, clock: int, moves: seq<Move>, cap: nat, most: nat, day: int)
    requires most >= 1 && Flows(user, QUIET, clock, moves)
    requires AtMostOnWay(user, QUIET, clock, moves, most) && Limited(moves, cap)
    ensures RecordsOn(Flowed(user, QUIET, clock, moves).calls, user, SCAN, day) <= cap + most - 1
  {
    FlowBounded(user, QUIET, clock, moves, cap, most);
    assert RecordsOn(Flowed(user, QUIET, clock, moves).calls, user, SCAN, day) <= cap + most - 1;
  }

  lemma {:induction false} FilterEither(s: seq<Call>, p: Call -> bool, q: Call -> bool, r: Call -> bool)
    requires forall k :: 0 <= k < |s| && p(s[k]) ==> q(s[k]) || r(s[k])
    ensures |Filter(s, p)| <= |Filter(s, q)| + |Filter(s, r)|
  {
    if s != [] {
      FilterEither(s[1..], p, q, r);
    }
  }

  /** A scan recorded within the 24 hours after `from`. */
  function ScanWithin(user: string, from: int): Call -> bool {
    (c: Call) => IsScanRecord(c, user) && from < c.now <= from + 86_400_000
  }

  /** A window of 24 hours touches two days, so it holds at most twice that. */
  lemma WindowHoldsTwoDays(user: string, t: Traffic, from: int, bound: int)
    requires DaysWithin(user, t, bound)
    ensures |Filter(t.calls, ScanWithin(user, from))| <= 2 * bound
  {
    var day := from / 86_400_000;
    FilterEither(t.calls, ScanWithin(user, from), RecordOf(user, SCAN, day), RecordOf(user, SCAN, day + 1));
    assert RecordsOn(t.calls, user, SCAN, day) <= bound && RecordsOn(t.calls, user, SCAN, day + 1) <= bound;
  }

  // ------------------------------------------------------------------
  // The bound is reached
  // ------------------------------------------------------------------

  /** On the first day, `n` scans recorded and `onWay` more on their way. */
  ghost predicate AtOnce(user: string, t: Traffic, n: nat, onWay: nat) {
    InOrder(t.calls, 0) && RecordsOn(t.calls, user, SCAN, 0) == n && t.onWay == onWay
  }

  lemma OneStarts(user: string, t: Traffic, n: nat, onWay: nat, cap: int)
    requires AtOnce(user, t, n, onWay) && n < cap
    ensures AtOnce(user, MoveOn(user, t, Start(0, Some(cap))), n, onWay + 1)
  {
    var m := Start(0, Some(cap));
    MoveInOrder(user, t, 0, m);
    MoveCounts(user, t, m, 0);
    LetThroughIff(user, t, 0, m);
  }

  lemma OneFinishes(user: string, t: Traffic, n: nat, onWay: nat)
    requires AtOnce(user, t, n, onWay) && onWay > 0
    ensures AtOnce(user, MoveOn(user, t, Finish(0)), n + 1, onWay - 1)
  {
    MoveInOrder(user, t, 0, Finish(0));
    MoveCounts(user, t, Finish(0), 0);
  }

  /** The moves lead from `t` to `total` scans at time 0, within the limits. */
  ghost predicate Leads(user: string, t: Traffic, moves: seq<Move>, total: int, cap: int, most: nat) {
    && Flows(user, t, 0, moves) && RecordsOn(Flowed(user, t, 0, moves).calls, user, SCAN, 0) == total
    && AtMostOnWay(user, t, 0, moves, most) && Limited(moves, cap)
  }

  lemma FirstMove(user: string, t: Traffic, m: Move, rest: seq<Move>, total: int, cap: int, most: nat)
    requires t.onWay <= most && CanMove(user, t, m) && ClockAfter(0, m) == 0 && LimitedMove(m, cap)
    requires Leads(user, MoveOn(user, t, m), rest, total, cap, most)
    ensures Leads(user, t, [m] + rest, total, cap, most)
  {
    assert ([m] + rest)[1..] == rest;
  }

  /** All scans on their way are done. */
  lemma {:induction false} FinishAll(user: string, t: Traffic, n: nat, onWay: nat, cap: int, most: nat)
      returns (moves: seq<Move>)
    requires AtOnce(user, t, n, onWay) && onWay <= most
    ensures Leads(user, t, moves, n + onWay, cap, most)
    decreases onWay
  {
    moves := [];
    if onWay > 0 {
      OneFinishes(user, t, n, onWay);
      var rest := FinishAll(user, MoveOn(user, t, Finish(0)), n + 1, onWay - 1, cap, most);
      FirstMove(user, t, Finish(0), rest, n + onWay, cap, most);
      moves := [Finish(0)] + rest;
    }
  }

  /** As many scans as may be on their way at once start, and all are done. */
  lemma {:induction false} StartAll(user: string, t: Traffic, n: nat, onWay: nat, cap: int, most: nat)
      returns (moves: seq<Move>)
    requires AtOnce(user, t, n, onWay) && n < cap && onWay <= most
    ensures Leads(user, t, moves, n + most, cap, most)
    decreases most - onWay
  {
    if onWay == most {
      moves := FinishAll(user, t, n, onWay, cap, most);
    } else {
      var start := Start(0, Some(cap));
      OneStarts(user, t, n, onWay, cap);
      var rest := StartAll(user, MoveOn(user, t, start), n, onWay + 1, cap, most);
      FirstMove(user, t, start, rest, n + most, cap, most);
      moves := [start] + rest;
    }
  }

  /** One scan after the other up to one short of the cap, and then all at once. */
  lemma {:induction false} FillUp(user: string, t: Traffic, n: nat, cap: nat, most: nat) returns (moves: seq<Move>)
    requires AtOnce(user, t, n, 0) && n < cap && most >= 1
    ensures Leads(user, t, moves, cap + most - 1, cap, most)
    decreases cap - n
  {
    if n == cap - 1 {
      moves := StartAll(user, t, n, 0, cap, most);
    } else {
      var start, done := Start(0, Some(cap)), Finish(0);
      OneStarts(user, t, n, 0, cap);
      var started := MoveOn(user, t, start);
      OneFinishes(user, started, n, 1);
      var rest := FillUp(user, MoveOn(user, started, done), n + 1, cap, most);
      FirstMove(user, started, done, rest, cap + most - 1, cap, most);
      FirstMove(user, t, start, [done] + rest, cap + most - 1, cap, most);
      moves := [start] + ([done] + rest);
    }
  }

  /** For every cap and every number on their way there is traffic that puts exactly that
      many scans into one day. */
  lemma OnWayBoundReached(user: string, cap: nat, most: nat) returns (moves: seq<Move>)
    requires cap >= 1 && most >= 1
    ensures Flows(user, QUIET, 0, moves) && AtMostOnWay(user, QUIET, 0, moves, most) && Limited(moves, cap)
    ensures RecordsOn(Flowed(user, QUIET, 0, moves).calls, user, SCAN, 0) == cap + most - 1
  {
    moves := FillUp(user, QUIET, 0, cap, most);
  }

  // ------------------------------------------------------------------
  // Two scans
  // ------------------------------------------------------------------

  /** Four moves, one after the other. */
  lemma FourMoves(user: string, a: Move, b: Move, c: Move, d: Move, clock: int)
    requires clock <= ClockAfter(clock, a) <= ClockAfter(clock, b) <= ClockAfter(clock, c) <= ClockAfter(clock, d)
    requires !b.GiveUp? && !c.GiveUp? && !d.GiveUp?
    requires CanMove(user, QUIET, a)
    requires CanMove(user, MoveOn(user, QUIET, a), b)
    requires CanMove(user, MoveOn(user, MoveOn(user, QUIET, a), b), c)
    requires CanMove(user, MoveOn(user, MoveOn(user, MoveOn(user, QUIET, a), b), c), d)
    ensures Flows(user, QUIET, clock, [a, b, c, d])
    ensures Flowed(user, QUIET, clock, [a, b, c, d])
         == MoveOn(user, MoveOn(user, MoveOn(user, MoveOn(user, QUIET, a), b), c), d)
  {
    var t1 := MoveOn(user, QUIET, a);
    var t2 := MoveOn(user, t1, b);
    var t3 := MoveOn(user, t2, c);
    var t4 := MoveOn(user, t3, d);
    var (ca, cb, cc, cd) := (ClockAfter(clock, a), ClockAfter(clock, b), ClockAfter(clock, c), ClockAfter(clock, d));
    var moves := [a, b, c, d];
    var last := [d];
    assert moves[1..] == [b, c, d] && [b, c, d][1..] == [c, d] && [c, d][1..] == last;
    assert last[0] == d && last[1..] == [] && Flowed(user, t4, cd, []) == t4;
    assert Flows(user, t3, cc, last) && Flowed(user, t3, cc, last) == Flowed(user, t4, cd, last[1..]);
    assert Flows(user, t2, cb, [c, d]) && Flowed(user, t2, cb, [c, d]) == t4;
    assert Flows(user, t1, ca, [b, c, d]) && Flowed(user, t1, ca, [b, c, d]) == t4;
  }

  /** Both are let through. */
  lemma TwoStart(user: string, t: Traffic, now: int, again: int)
    requires InOrder(t.calls, now) && now <= again && RecordsOn(t.calls, user, SCAN, now / 86_400_000) == 0
    requires RecordsOn(t.calls, user, SCAN, again / 86_400_000) == 0
    ensures var u := MoveOn(user, t, Start(now, Some(1)));
      u.onWay == t.onWay + 1 && MoveOn(user, u, Start(again, Some(1))).onWay == t.onWay + 2
  {
    var first := Start(now, Some(1));
    LetThroughIff(user, t, now, first);
    MoveInOrder(user, t, now, first);
    MoveCounts(user, t, first, again / 86_400_000);
    LetThroughIff(user, MoveOn(user, t, first), now, Start(again, Some(1)));
  }

  /** Two scans at one instant under a quota of one a day: both checks allow, and the day
      ends with two. */
  lemma TwoScansAtOnce(user: string, now: int)
    ensures var moves := [Start(now, Some(1)), Start(now, Some(1)), Finish(now), Finish(now)];
      && Flows(user, QUIET, now, moves) && !EachFindsRoom(user, QUIET, now, moves, 1)
      && RecordsOn(Flowed(user, QUIET, now, moves).calls, user, SCAN, now / 86_400_000) == 2
  {
    var start, done, day := Start(now, Some(1)), Finish(now), now / 86_400_000;
    var t1 := MoveOn(user, QUIET, start);
    var t2 := MoveOn(user, t1, start);
    TwoStart(user, QUIET, now, now);
    FourMoves(user, start, start, done, done, now);
    MoveCounts(user, QUIET, start, day);
    MoveCounts(user, t1, start, day);
    MoveCounts(user, t2, done, day);
    MoveCounts(user, MoveOn(user, t2, done), done, day);
    QuotaHoldsIff(user, now, [start, start, done, done], 1);
  }

  /** One move more, and the scans of the window and of each day. */
  lemma WindowOneMore(user: string, t: Traffic, m: Move, from: int)
    requires CanMove(user, t, m) && !m.GiveUp?
    ensures |Filter(MoveOn(user, t, m).calls, ScanWithin(user, from))|
         == |Filter(t.calls, ScanWithin(user, from))| + if m.Finish? && from < m.now <= from + 86_400_000 then 1 else 0
  {
    FilterAppend(t.calls, CallsOf(user, m), ScanWithin(user, from));
  }

  /** A scan that finds its day empty is let through and recorded. */
  lemma OneScan(user: string, t: Traffic, clock: int, now: int)
    requires InOrder(t.calls, clock) && clock <= now && t.onWay == 0
    requires RecordsOn(t.calls, user, SCAN, now / 86_400_000) == 0
    ensures var started := MoveOn(user, t, Start(now, Some(1)));
      CanMove(user, started, Finish(now)) && InOrder(MoveOn(user, started, Finish(now)).calls, now)
      && var done := MoveOn(user, started, Finish(now));
         && done.onWay == 0
         && (forall day :: RecordsOn(done.calls, user, SCAN, day)
                        == RecordsOn(t.calls, user, SCAN, day) + if now / 86_400_000 == day then 1 else 0)
         && (forall from ::
               |Filter(done.calls, ScanWithin(user, from))|
                 == |Filter(t.calls, ScanWithin(user, from))| + if from < now <= from + 86_400_000 then 1 else 0)
  {
    var start, done := Start(now, Some(1)), Finish(now);
    LetThroughIff(user, t, clock, start);
    MoveInOrder(user, t, clock, start);
    var u := MoveOn(user, t, start);
    MoveInOrder(user, u, now, done);
    forall day
      ensures RecordsOn(MoveOn(user, u, done).calls, user, SCAN, day)
           == RecordsOn(t.calls, user, SCAN, day) + if now / 86_400_000 == day then 1 else 0
    {
      MoveCounts(user, t, start, day);
      MoveCounts(user, u, done, day);
    }
    forall from
      ensures |Filter(MoveOn(user, u, done).calls, ScanWithin(user, from))|
           == |Filter(t.calls, ScanWithin(user, from))| + if from < now <= from + 86_400_000 then 1 else 0
    {
      WindowOneMore(user, t, start, from);
      WindowOneMore(user, u, done, from);
    }
  }

  /** One after the other, but with midnight between them: the quota of one a day holds,
      and 24 hours hold two. */
  lemma AroundMidnight(user: string)
    ensures var (before, after) := (86_399_999, 86_400_000);
      var moves := [Start(before, Some(1)), Finish(before), Start(after, Some(1)), Finish(after)];
      && Flows(user, QUIET, before, moves) && EachFindsRoom(user, QUIET, before, moves, 1)
      && |Filter(Flowed(user, QUIET, before, moves).calls, ScanWithin(user, before - 1))| == 2
  {
    var before, after := 86_399_999, 86_400_000;
    var a, b, c, d := Start(before, Some(1)), Finish(before), Start(after, Some(1)), Finish(after);
    OneScan(user, QUIET, before, before);
    var t := MoveOn(user, MoveOn(user, QUIET, a), b);
    assert before / 86_400_000 == 0 && after / 86_400_000 == 1;
    OneScan(user, t, before, after);
    FourMoves(user, a, b, c, d, before);
    QuotaHoldsIff(user, before, [a, b, c, d], 1);
    assert |Filter(t.calls, ScanWithin(user, before - 1))| == 1;
  }
}
