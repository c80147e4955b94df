/** The execution row of a request: what a call leaves there, and what it says when
    nothing is in flight. */
module ScanRows {
  import opened Entitlements
  import opened Results
  import opened ScanLifecycle
  import opened ScanPayments
  import opened ScanProtocol
  import opened ScanSafety
  import opened ScanService
  import opened Store

  // ------------------------------------------------------------------
  // The rows a call writes
  // ------------------------------------------------------------------

  function ReservedRow(r: string, start: int): ScanExecution {
    ScanExecution(ExecId(r), r, RESERVED, start, None, None, None)
  }

  function ExecutingRow(r: string, start: int): ScanExecution {
    ScanExecution(ExecId(r), r, EXECUTING, start, None, None, None)
  }

  /** Completed at `end`, naming its snapshot and no failure. */
  predicate IsCompletedRow(e: ScanExecution, r: string, start: int, end: int) {
    && e.id == ExecId(r) && e.requestId == r && e.status == COMPLETED && e.startedAt == start
    && e.finishedAt == Some(end) && e.reportRef == Some(SnapId(r)) && e.failureReason == None
  }

  /** Failed at `end`, for a reason and without a report. */
  predicate IsFailedRow(e: ScanExecution, r: string, start: int, end: int) {
    && e.id == ExecId(r) && e.requestId == r && e.status == FAILED && e.startedAt == start
    && e.finishedAt == Some(end) && e.reportRef == None && e.failureReason.Some?
  }

  /** Between its reservation and its last write the call holds the row it wrote last. */
  predicate HoldsRow(c: Call) {
    && (c.pc.Reserving? || c.pc.Marking? ==> c.exec == ReservedRow(c.input.requestId, c.now))
    && (c.pc.Acquiring? || c.pc.Evaluating? || c.pc.Persisting? || c.pc.Failing? ==>
          c.exec == ExecutingRow(c.input.requestId, c.now))
  }

  predicate RowIs(t: Tables, u: Tables, r: string, e: ScanExecution) {
    u.scanExecutions == t.scanExecutions[ExecId(r) := e]
  }

  lemma ReserveRow(t: Tables, c: Call)
    requires c.exec == ReservedRow(c.input.requestId, c.now)
    ensures RowIs(t, Transacted(t, ReserveWrites(c), false).0, c.input.requestId, c.exec)
  {
    ReserveEffect(t, c);
  }

  lemma FailRow(t: Tables, c: Call)
    requires c.exec == ExecutingRow(c.input.requestId, c.now) && c.input.entitlementId in t.entitlements
    ensures var (u, done) := Transacted(t, FailWrites(c), false);
      && done && ExecId(c.input.requestId) in u.scanExecutions
      && var e := u.scanExecutions[ExecId(c.input.requestId)];
         IsFailedRow(e, c.input.requestId, c.now, c.now) && RowIs(t, u, c.input.requestId, e)
  {
    FailEffect(t, c);
  }

  lemma PersistRow(t: Tables, c: Call, found: Evaluation, ports: Ports)
    requires c.exec == ExecutingRow(c.input.requestId, c.now)
    ensures Completed(c, ports.finishedAt).Some?
    ensures var (u, done) := Transacted(t, PersistWrites(c, found, ports.finishedAt), !ports.persistOk);
      && (!done ==> u == t)
      && (done ==>
            && ExecId(c.input.requestId) in u.scanExecutions
            && var e := u.scanExecutions[ExecId(c.input.requestId)];
               IsCompletedRow(e, c.input.requestId, c.now, ports.finishedAt) && RowIs(t, u, c.input.requestId, e))
  {
    PersistEffect(t, c, found, ports);
  }

  // ------------------------------------------------------------------
  // A call run alone
  // ------------------------------------------------------------------

  /** The execution rows of `d` are those of `s` but for the request of call `i`. */
  predicate OnlyRow(s: State, d: State, i: nat)
    requires i in s.calls
  {
    var id := ExecId(s.calls[i].input.requestId);
    id in d.tables.scanExecutions
    && d.tables.scanExecutions == s.tables.scanExecutions[id := d.tables.scanExecutions[id]]
  }

  /** How a call that holds its row and its entitlement leaves it. */
  predicate LeavesRow(s: State, d: State, i: nat, good: bool, ports: Ports)
    requires i in s.calls
  {
    var c := s.calls[i];
    var (r, id) := (c.input.requestId, ExecId(c.input.requestId));
    && OnlyRow(s, d, i)
    && if good then IsCompletedRow(d.tables.scanExecutions[id], r, c.now, ports.finishedAt)
       else IsFailedRow(d.tables.scanExecutions[id], r, c.now, c.now)
  }

  lemma FailingLeaves(s: State, i: nat, ports: Ports)
    requires i in s.calls && s.calls[i].pc == Failing && HoldsRow(s.calls[i])
    requires s.calls[i].input.entitlementId in s.tables.entitlements
    ensures LeavesRow(s, Drive(s, i, ports), i, false, ports)
  {
    FailRow(s.tables, s.calls[i]);
    var t := Resume(s, i, ports);
    assert Drive(t, i, ports) == Resume(t, i, ports);
  }

  lemma PersistingLeaves(s: State, i: nat, ports: Ports)
    requires i in s.calls && s.calls[i].pc.Persisting? && HoldsRow(s.calls[i])
    requires s.calls[i].input.entitlementId in s.tables.entitlements
    ensures LeavesRow(s, Drive(s, i, ports), i, ports.persistOk, ports)
  {
    var c := s.calls[i];
    PersistRow(s.tables, c, c.pc.found, ports);
    PersistEffect(s.tables, c, c.pc.found, ports);
    var t := Resume(s, i, ports);
    if t.calls[i].pc == Failing {
      FailingLeaves(t, i, ports);
    } else {
      assert Drive(t, i, ports) == t;
    }
  }

  lemma AcquiringLeaves(s: State, i: nat, ports: Ports)
    requires i in s.calls && (s.calls[i].pc == Acquiring || s.calls[i].pc == Evaluating) && HoldsRow(s.calls[i])
    requires s.calls[i].input.entitlementId in s.tables.entitlements
    ensures var good := (s.calls[i].pc == Acquiring ==> ports.acquired) && ports.evaluated.Some? && ports.persistOk;
      LeavesRow(s, Drive(s, i, ports), i, good, ports)
    decreases Rank(s.calls[i].pc)
  {
    var t := Resume(s, i, ports);
    if t.calls[i].pc == Failing {
      FailingLeaves(t, i, ports);
    } else if t.calls[i].pc.Persisting? {
      PersistingLeaves(t, i, ports);
    } else {
      AcquiringLeaves(t, i, ports);
    }
  }

  lemma MarkingLeaves(s: State, i: nat, ports: Ports)
    requires i in s.calls && s.calls[i].pc == Marking && HoldsRow(s.calls[i])
    requires s.calls[i].input.entitlementId in s.tables.entitlements
    ensures LeavesRow(s, Drive(s, i, ports), i, ports.acquired && ports.evaluated.Some? && ports.persistOk, ports)
  {
    AcquiringLeaves(Resume(s, i, ports), i, ports);
  }

  /** Both steps of a reservation that goes through. */
  lemma ReservedAfterTwo(s: State, i: nat, ports: Ports)
    requires i in s.calls && s.calls[i].pc == Reserve && Coherent(s.books) && Usable(s.books, s.calls[i].input)
    requires s.calls[i].input.entitlementId in s.tables.entitlements && ports.reserveOk
    ensures var u := Resume(Resume(s, i, ports), i, ports);
      && i in u.calls && u.calls[i].pc == Marking && HoldsRow(u.calls[i]) && u.calls[i].input == s.calls[i].input
      && u.calls[i].now == s.calls[i].now && u.calls[i].input.entitlementId in u.tables.entitlements
      && OnlyRow(s, u, i) && Drive(s, i, ports) == Drive(u, i, ports)
  {
    Reservation(s, i, ports);
    var t := Resume(s, i, ports);
    ReserveRow(t.tables, t.calls[i]);
    assert Drive(s, i, ports) == Drive(t, i, ports);
  }

  /** A call with a usable, stored entitlement whose reservation goes through: with ports
      that answer it leaves its request's row completed, naming the snapshot; whenever one
      of them then fails, failed, with a time and a reason and no report. */
  lemma ReserveLeaves(s: State, i: nat, ports: Ports)
    requires i in s.calls && s.calls[i].pc == Reserve && Coherent(s.books) && Usable(s.books, s.calls[i].input)
    requires s.calls[i].input.entitlementId in s.tables.entitlements && ports.reserveOk
    ensures LeavesRow(s, Drive(s, i, ports), i, ports.acquired && ports.evaluated.Some? && ports.persistOk, ports)
  {
    ReservedAfterTwo(s, i, ports);
    MarkingLeaves(Resume(Resume(s, i, ports), i, ports), i, ports);
  }

  /** What a call run alone leaves of its request's execution row, and that it touches no
      other: nothing when it is refused; failed, finished now, with a reason and without a
      report when a port fails it after the reservation; completed with its snapshot when it
      is paid.  The start is the call's own in both. */
  lemma AnswerRow(b: Books, t: Tables, input: ScanInput, now: int, ports: Ports)
    requires Sound(b, t) && input.entitlementId in t.entitlements
    ensures var (r, u) := (input.requestId, ExecuteOn(b, t, input, now, ports).tables);
      if HasCompleted(t, r) || !Usable(b, input) || !ports.reserveOk then u.scanExecutions == t.scanExecutions
      else
        && ExecId(r) in u.scanExecutions
        && u.scanExecutions == t.scanExecutions[ExecId(r) := u.scanExecutions[ExecId(r)]]
        && if ports.acquired && ports.evaluated.Some? && ports.persistOk
           then IsCompletedRow(u.scanExecutions[ExecId(r)], r, now, ports.finishedAt)
           else IsFailedRow(u.scanExecutions[ExecId(r)], r, now, now)
  {
    Answer(b, t, input, now, ports);
    if !HasCompleted(t, input.requestId) && Usable(b, input) && ports.reserveOk {
      var gate := Resume(State(b, t, map[0 := NewCall(input, now)]), 0, ports);
      assert ExecuteOn(b, t, input, now, ports) == Drive(gate, 0, ports);
      ReserveLeaves(gate, 0, ports);
    }
  }

  // ------------------------------------------------------------------
  // Every interleaving
  // ------------------------------------------------------------------

  /** Past a committed reservation and before its last write, or dead there. */
  predicate Writing(pc: Pc) {
    pc.Marking? || pc.Acquiring? || pc.Evaluating? || pc.Persisting? || pc.Failing? || Dead(pc)
  }

  ghost predicate SomeWriting(s: State, r: string) {
    exists i :: i in s.calls && s.calls[i].input.requestId == r && Writing(s.calls[i].pc)
  }

  ghost predicate SomePaid(s: State, r: string) {
    exists i :: i in s.calls && s.calls[i].input.requestId == r && Delivered(s.calls[i].pc)
  }

  /** A stored row is completed, with a paid call behind it, or failed - or some call of its
      request has still to write it. */
  ghost predicate RowSettled(s: State, r: string) {
    ExecId(r) in s.tables.scanExecutions ==>
      var e := s.tables.scanExecutions[ExecId(r)];
      || (e.finishedAt.Some? && IsCompletedRow(e, r, e.startedAt, e.finishedAt.value) && SomePaid(s, r))
      || (e.finishedAt.Some? && IsFailedRow(e, r, e.startedAt, e.finishedAt.value))
      || (SomeWriting(s, r) && e.status in {RESERVED, EXECUTING})
  }

  ghost predicate RowsKept(s: State, r: string) {
    RowSettled(s, r) && forall i :: i in s.calls ==> HoldsRow(s.calls[i])
  }

  lemma ExecIdsDiffer(q: string, r: string)
    requires q != r
    ensures ExecId(q) != ExecId(r)
  {
    assert ExecId(q)[5..] == q && ExecId(r)[5..] == r;
  }

  /** Call `i` moves on without touching the row of `r`, and is still to write it if it was. */
  lemma QuietMove(s: State, t: State, i: nat, r: string)
    requires RowsKept(s, r) && i in s.calls && i in t.calls && t.calls == s.calls[i := t.calls[i]]
    requires t.calls[i].input == s.calls[i].input && HoldsRow(t.calls[i])
    requires ExecId(r) in t.tables.scanExecutions ==>
      ExecId(r) in s.tables.scanExecutions && t.tables.scanExecutions[ExecId(r)] == s.tables.scanExecutions[ExecId(r)]
    requires s.calls[i].input.requestId == r ==>
      (Writing(s.calls[i].pc) ==> Writing(t.calls[i].pc)) && (Delivered(s.calls[i].pc) ==> Delivered(t.calls[i].pc))
    ensures RowsKept(t, r)
  {
    if SomeWriting(s, r) {
      var k :| k in s.calls && s.calls[k].input.requestId == r && Writing(s.calls[k].pc);
      assert k in t.calls && t.calls[k].input.requestId == r && Writing(t.calls[k].pc);
    }
    if SomePaid(s, r) {
      var k :| k in s.calls && s.calls[k].input.requestId == r && Delivered(s.calls[k].pc);
      assert k in t.calls && t.calls[k].input.requestId == r && Delivered(t.calls[k].pc);
    }
  }

  /** The row of request `q` after a call of it has written it, seen from any request. */
  lemma OwnMove(s: State, t: State, i: nat, r: string, e: ScanExecution)
    requires RowsKept(s, r) && i in s.calls && i in t.calls && t.calls == s.calls[i := t.calls[i]]
    requires t.calls[i].input == s.calls[i].input && HoldsRow(t.calls[i]) && !Delivered(s.calls[i].pc)
    requires RowIs(s.tables, t.tables, s.calls[i].input.requestId, e)
    requires var (c, q) := (t.calls[i], s.calls[i].input.requestId);
      || (e.finishedAt.Some? && IsCompletedRow(e, q, e.startedAt, e.finishedAt.value) && Delivered(c.pc))
      || (e.finishedAt.Some? && IsFailedRow(e, q, e.startedAt, e.finishedAt.value))
      || (Writing(c.pc) && e.status in {RESERVED, EXECUTING})
    ensures RowsKept(t, r)
  {
    var q := s.calls[i].input.requestId;
    if q == r {
      assert t.tables.scanExecutions[ExecId(r)] == e;
      assert Writing(t.calls[i].pc) ==> SomeWriting(t, r);
      assert Delivered(t.calls[i].pc) ==> SomePaid(t, r);
    } else {
      ExecIdsDiffer(q, r);
      QuietMove(s, t, i, r);
    }
  }

  lemma ReservingRow(s: State, i: nat, ports: Ports, r: string)
    requires RowsKept(s, r) && i in s.calls && s.calls[i].pc == Reserving
    ensures RowsKept(Resume(s, i, ports), r)
  {
    var t := Resume(s, i, ports);
    ReserveEffect(s.tables, s.calls[i]);
    if ports.reserveOk {
      OwnMove(s, t, i, r, s.calls[i].exec);
    } else {
      QuietMove(s, t, i, r);
    }
  }

  lemma PersistingRow(s: State, i: nat, ports: Ports, r: string)
    requires RowsKept(s, r) && i in s.calls && s.calls[i].pc.Persisting?
    ensures RowsKept(Resume(s, i, ports), r)
  {
    var (c, t) := (s.calls[i], Resume(s, i, ports));
    PersistRow(s.tables, c, c.pc.found, ports);
    if Delivered(t.calls[i].pc) {
      OwnMove(s, t, i, r, t.tables.scanExecutions[ExecId(c.input.requestId)]);
    } else {
      QuietMove(s, t, i, r);
    }
  }

  lemma FailingRow(s: State, i: nat, ports: Ports, r: string)
    requires RowsKept(s, r) && i in s.calls && s.calls[i].pc == Failing
    ensures RowsKept(Resume(s, i, ports), r)
  {
    var (c, t) := (s.calls[i], Resume(s, i, ports));
    FailEffect(s.tables, c);
    if c.input.entitlementId in s.tables.entitlements {
      FailRow(s.tables, c);
      OwnMove(s, t, i, r, t.tables.scanExecutions[ExecId(c.input.requestId)]);
    } else {
      QuietMove(s, t, i, r);
    }
  }

  lemma MarkingRow(s: State, i: nat, ports: Ports, r: string)
    requires RowsKept(s, r) && i in s.calls && s.calls[i].pc == Marking
    ensures RowsKept(Resume(s, i, ports), r)
  {
    var t := Resume(s, i, ports);
    OwnMove(s, t, i, r, t.calls[i].exec);
  }

  lemma ResumeRow(s: State, i: nat, ports: Ports, r: string)
    requires RowsKept(s, r) && i in s.calls && Running(s.calls[i].pc)
    ensures RowsKept(Resume(s, i, ports), r)
  {
    if s.calls[i].pc == Reserving {
      ReservingRow(s, i, ports, r);
    } else if s.calls[i].pc == Marking {
      MarkingRow(s, i, ports, r);
    } else if s.calls[i].pc.Persisting? {
      PersistingRow(s, i, ports, r);
    } else if s.calls[i].pc == Failing {
      FailingRow(s, i, ports, r);
    } else {
      QuietMove(s, Resume(s, i, ports), i, r);
    }
  }

  lemma ArriveRow(s: State, a: Action, r: string)
    requires RowsKept(s, r) && Enabled(s, a) && a.Arrive?
    ensures RowsKept(Step(s, a), r)
  {
    var t := Step(s, a);
    if SomeWriting(s, r) {
      var k :| k in s.calls && s.calls[k].input.requestId == r && Writing(s.calls[k].pc);
      assert t.calls[k] == s.calls[k];
    }
    if SomePaid(s, r) {
      var k :| k in s.calls && s.calls[k].input.requestId == r && Delivered(s.calls[k].pc);
      assert t.calls[k] == s.calls[k];
    }
  }

  lemma StepRow(s: State, a: Action, r: string)
    requires RowsKept(s, r) && Enabled(s, a)
    ensures RowsKept(Step(s, a), r)
  {
    match a
    case Arrive(_, _, _) => ArriveRow(s, a, r);
    case Go(i, ports) => ResumeRow(s, i, ports, r);
    case Throw(i) => QuietMove(s, Step(s, a), i, r);
    case _ => assert Step(s, a).calls == s.calls && Step(s, a).tables.scanExecutions == s.tables.scanExecutions;
  }

  lemma {:induction false} RunRow(s: State, actions: seq<Action>, r: string)
    requires RowsKept(s, r) && Possible(s, actions)
    ensures RowsKept(Run(s, actions), r)
    decreases |actions|
  {
    if actions != [] {
      StepRow(s, actions[0], r);
      RunRow(Step(s, actions[0]), actions[1..], r);
    }
  }

  /** A call of the request is past its reservation, or died there. */
  ghost predicate Unfinished(s: State, r: string) {
    exists i :: i in s.calls && s.calls[i].input.requestId == r && (Holds(s.calls[i].pc) || Dead(s.calls[i].pc))
  }

  /** In every interleaving, with no call of the request in flight and none dead, its row - if
      it has one - is completed or failed, never reserved or executing; and completed only
      when some call returned a new result. */
  lemma RowsSettle(actions: seq<Action>, r: string)
    requires Possible(START, actions) && !Unfinished(Run(START, actions), r)
    requires ExecId(r) in Run(START, actions).tables.scanExecutions
    ensures var s := Run(START, actions);
      var e := s.tables.scanExecutions[ExecId(r)];
      && e.finishedAt.Some?
      && (IsCompletedRow(e, r, e.startedAt, e.finishedAt.value) || IsFailedRow(e, r, e.startedAt, e.finishedAt.value))
      && (e.status == COMPLETED ==> SomePaid(s, r))
  {
    RunRow(START, actions, r);
    var s := Run(START, actions);
    assert SomeWriting(s, r) ==> Unfinished(s, r);
  }

  // ------------------------------------------------------------------
  // With one entitlement for the request
  // ------------------------------------------------------------------

  ghost predicate OneEntitlement(s: State, r: string) {
    forall i, j :: i in s.calls && j in s.calls && s.calls[i].input.requestId == r && s.calls[j].input.requestId == r
      ==> s.calls[i].input.entitlementId == s.calls[j].input.entitlementId
  }

  /** A paid call of the request has left its row completed, and nobody has written it since. */
  ghost predicate PaidStays(s: State, r: string) {
    SomePaid(s, r) ==> ExecId(r) in s.tables.scanExecutions && s.tables.scanExecutions[ExecId(r)].status == COMPLETED
  }

  /** While a call of the request claims its entitlement, no other call of it has been paid. */
  lemma NoneOtherPaid(s: State, i: nat, r: string)
    requires Inv(s) && OneEntitlement(s, r) && i in s.calls && s.calls[i].input.requestId == r
    requires Claims(s.calls[i].pc) && !Delivered(s.calls[i].pc)
    ensures !SomePaid(s, r)
  {
    if SomePaid(s, r) {
      var k :| k in s.calls && s.calls[k].input.requestId == r && Delivered(s.calls[k].pc);
      assert ClaimedBy(s, i, s.calls[i].input.entitlementId) && ClaimedBy(s, k, s.calls[i].input.entitlementId);
    }
  }

  /** A move that pays nobody, by a call that either leaves the row alone or claims the entitlement. */
  lemma MovePaidStays(s: State, t: State, i: nat, r: string)
    requires Inv(s) && OneEntitlement(s, r) && PaidStays(s, r) && i in s.calls && i in t.calls
    requires t.calls == s.calls[i := t.calls[i]] && t.calls[i].input == s.calls[i].input
    requires Delivered(t.calls[i].pc) ==> Delivered(s.calls[i].pc)
    requires
      || (s.calls[i].input.requestId == r && Claims(s.calls[i].pc) && !Delivered(s.calls[i].pc))
      || (ExecId(r) in s.tables.scanExecutions ==>
            ExecId(r) in t.tables.scanExecutions
            && t.tables.scanExecutions[ExecId(r)] == s.tables.scanExecutions[ExecId(r)])
    ensures PaidStays(t, r)
  {
    if SomePaid(t, r) {
      var k :| k in t.calls && t.calls[k].input.requestId == r && Delivered(t.calls[k].pc);
      assert k in s.calls && s.calls[k].input.requestId == r && Delivered(s.calls[k].pc);
      if s.calls[i].input.requestId == r && Claims(s.calls[i].pc) && !Delivered(s.calls[i].pc) {
        NoneOtherPaid(s, i, r);
      }
    }
  }

  /** Only a call of the request writes its row. */
  lemma OthersLeaveRow(s: State, i: nat, ports: Ports, r: string)
    requires i in s.calls && Running(s.calls[i].pc) && HoldsRow(s.calls[i]) && s.calls[i].input.requestId != r
    ensures var t := Resume(s, i, ports);
      ExecId(r) in s.tables.scanExecutions ==>
        ExecId(r) in t.tables.scanExecutions && t.tables.scanExecutions[ExecId(r)] == s.tables.scanExecutions[ExecId(r)]
  {
    var c := s.calls[i];
    ExecIdsDiffer(c.input.requestId, r);
    if c.pc == Reserving {
      ReserveEffect(s.tables, c);
    } else if c.pc.Persisting? {
      PersistRow(s.tables, c, c.pc.found, ports);
    } else if c.pc == Failing {
      FailEffect(s.tables, c);
    }
  }

  /** Resuming moves one call. */
  lemma MovesOne(s: State, i: nat, ports: Ports)
    requires i in s.calls && Running(s.calls[i].pc)
    ensures var t := Resume(s, i, ports);
      i in t.calls && t.calls == s.calls[i := t.calls[i]] && t.calls[i].input == s.calls[i].input
    ensures Delivered(Resume(s, i, ports).calls[i].pc) ==> s.calls[i].pc.Persisting?
  {
  }

  lemma OthersPaidStays(s: State, i: nat, ports: Ports, r: string)
    requires PaidStays(s, r) && i in s.calls && Running(s.calls[i].pc)
    requires HoldsRow(s.calls[i]) && s.calls[i].input.requestId != r
    ensures PaidStays(Resume(s, i, ports), r)
  {
    MovesOne(s, i, ports);
    OthersLeaveRow(s, i, ports, r);
    OtherPays(s, Resume(s, i, ports), i, r);
  }

  lemma PersistPaidStays(s: State, i: nat, ports: Ports, r: string)
    requires Inv(s) && OneEntitlement(s, r) && PaidStays(s, r) && i in s.calls && s.calls[i].pc.Persisting?
    requires HoldsRow(s.calls[i]) && s.calls[i].input.requestId == r
    ensures PaidStays(Resume(s, i, ports), r)
  {
    var (c, t) := (s.calls[i], Resume(s, i, ports));
    PersistRow(s.tables, c, c.pc.found, ports);
    MovesOne(s, i, ports);
    if !Delivered(t.calls[i].pc) {
      MovePaidStays(s, t, i, r);
    }
  }

  /** Before its reservation a call writes no row. */
  lemma UnclaimedWritesNothing(s: State, i: nat, ports: Ports)
    requires i in s.calls && Running(s.calls[i].pc) && !Claims(s.calls[i].pc)
    ensures Resume(s, i, ports).tables == s.tables
  {
  }

  lemma ResumePaidStays(s: State, i: nat, ports: Ports, r: string)
    requires Inv(s) && OneEntitlement(s, r) && PaidStays(s, r) && i in s.calls && Running(s.calls[i].pc)
    requires HoldsRow(s.calls[i])
    ensures PaidStays(Resume(s, i, ports), r)
  {
    if s.calls[i].input.requestId != r {
      OthersPaidStays(s, i, ports, r);
    } else if s.calls[i].pc.Persisting? {
      PersistPaidStays(s, i, ports, r);
    } else {
      MovesOne(s, i, ports);
      if !Claims(s.calls[i].pc) {
        UnclaimedWritesNothing(s, i, ports);
      }
      MovePaidStays(s, Resume(s, i, ports), i, r);
    }
  }

  lemma OtherPays(s: State, t: State, i: nat, r: string)
    requires PaidStays(s, r) && i in s.calls && i in t.calls && s.calls[i].input.requestId != r
    requires t.calls == s.calls[i := t.calls[i]] && t.calls[i].input == s.calls[i].input
    requires ExecId(r) in s.tables.scanExecutions ==>
      ExecId(r) in t.tables.scanExecutions && t.tables.scanExecutions[ExecId(r)] == s.tables.scanExecutions[ExecId(r)]
    ensures PaidStays(t, r)
  {
    if SomePaid(t, r) {
      var k :| k in t.calls && t.calls[k].input.requestId == r && Delivered(t.calls[k].pc);
      assert k in s.calls && s.calls[k].input.requestId == r && Delivered(s.calls[k].pc);
    }
  }

  lemma StepPaidStays(s: State, a: Action, r: string)
    requires Inv(s) && OneEntitlement(s, r) && PaidStays(s, r) && RowsKept(s, r) && Enabled(s, a)
    ensures PaidStays(Step(s, a), r)
  {
    var t := Step(s, a);
    if a.Go? {
      ResumePaidStays(s, a.i, a.ports, r);
    } else if a.Throw? {
      MovePaidStays(s, t, a.i, r);
    } else if SomePaid(t, r) {
      var k :| k in t.calls && t.calls[k].input.requestId == r && Delivered(t.calls[k].pc);
      assert k in s.calls && s.calls[k] == t.calls[k];
    }
  }

  lemma OneEntitlementEarlier(s: State, a: Action, r: string)
    requires Enabled(s, a) && OneEntitlement(Step(s, a), r)
    ensures OneEntitlement(s, r)
  {
    forall i | i in s.calls ensures i in Step(s, a).calls && Step(s, a).calls[i].input == s.calls[i].input {
      StaysCalled(s, a, i);
    }
  }

  lemma StaysCalled(s: State, a: Action, i: nat)
    requires Enabled(s, a) && i in s.calls
    ensures i in Step(s, a).calls && Step(s, a).calls[i].input == s.calls[i].input
  {
    if a.Go? {
      assert i in Step(s, a).calls;
    }
    DiesIff(s, a, i);
  }

  lemma {:induction false} RunPaidStays(s: State, actions: seq<Action>, r: string)
    requires Possible(s, actions) && OneEntitlement(Run(s, actions), r)
    requires Inv(s) && PaidStays(s, r) && RowsKept(s, r)
    ensures PaidStays(Run(s, actions), r) && OneEntitlement(s, r)
    decreases |actions|
  {
    if actions != [] {
      OneEntitlementThroughout(Step(s, actions[0]), actions[1..], r);
      OneEntitlementEarlier(s, actions[0], r);
      StepKeeps(s, actions[0]);
      StepRow(s, actions[0], r);
      StepPaidStays(s, actions[0], r);
      RunPaidStays(Step(s, actions[0]), actions[1..], r);
    }
  }

  lemma {:induction false} OneEntitlementThroughout(s: State, actions: seq<Action>, r: string)
    requires Possible(s, actions) && OneEntitlement(Run(s, actions), r)
    ensures OneEntitlement(s, r)
    decreases |actions|
  {
    if actions != [] {
      OneEntitlementThroughout(Step(s, actions[0]), actions[1..], r);
      OneEntitlementEarlier(s, actions[0], r);
    }
  }

  /** The stored row tells whether the request was paid. */
  ghost predicate RowTells(s: State, r: string) {
    SomePaid(s, r) <==> ExecId(r) in s.tables.scanExecutions && s.tables.scanExecutions[ExecId(r)].status == COMPLETED
  }

  /** When the calls of a request bring one entitlement, then with none of them in flight and
      none dead its row is completed exactly when one returned a new result; any other row it
      has is failed. */
  lemma RowTellsPaid(actions: seq<Action>, r: string)
    requires Possible(START, actions) && OneEntitlement(Run(START, actions), r) && !Unfinished(Run(START, actions), r)
    ensures var s := Run(START, actions);
      && RowTells(s, r)
      && (ExecId(r) in s.tables.scanExecutions && !SomePaid(s, r) ==>
            s.tables.scanExecutions[ExecId(r)].status == FAILED)
  {
    RunPaidStays(START, actions, r);
    if ExecId(r) in Run(START, actions).tables.scanExecutions {
      RowsSettle(actions, r);
    }
  }

  // ------------------------------------------------------------------
  // Exactly when the row tells
  // ------------------------------------------------------------------

  /** Two calls for one request past the gate, each with a usable entitlement of its own. */
  predicate TwoReady(s: State) {
    && s.calls.Keys == {0, 1} && s.calls[0].pc == Reserve && s.calls[1].pc == Reserve
    && s.calls[0].input.requestId == s.calls[1].input.requestId
    && s.calls[0].input.entitlementId != s.calls[1].input.entitlementId
    && Usable(s.books, s.calls[0].input) && s.calls[0].input.entitlementId in s.tables.entitlements
    && Usable(s.books, s.calls[1].input) && s.calls[1].input.entitlementId in s.tables.entitlements
  }

  lemma FirstPaid(s: State, good: Ports)
    requires TwoReady(s) && Mirrors(s.books, s.tables) && Good(good)
    ensures var d := Drive(s, 0, good);
      && d.calls.Keys == {0, 1} && Delivered(d.calls[0].pc) && d.calls[0].input == s.calls[0].input
      && d.calls[1] == s.calls[1] && Mirrors(d.books, d.tables) && Usable(d.books, d.calls[1].input)
      && d.calls[1].input.entitlementId in d.tables.entitlements
  {
    FromReserve(s, 0, good);
    PaidUpdates(s, Drive(s, 0, good), 0, s.calls[1].input.entitlementId, good.evaluated.value.report);
  }

  lemma SecondFailed(d: State, bad: Ports)
    requires 1 in d.calls && d.calls[1].pc == Reserve && Mirrors(d.books, d.tables)
    requires Usable(d.books, d.calls[1].input) && d.calls[1].input.entitlementId in d.tables.entitlements
    requires bad.reserveOk && !bad.acquired
    ensures var t := Drive(d, 1, bad);
      && OnlyCall(d, t, 1) && t.calls[1].pc == Done(Failed)
      && RowReplaced(d.tables, t.tables, d.calls[1].input.requestId)
  {
    FromReserve(d, 1, bad);
  }

  lemma SecondFails(d: State, t: State)
    requires d.calls.Keys == {0, 1} && Delivered(d.calls[0].pc)
    requires d.calls[0].input.requestId == d.calls[1].input.requestId
    requires OnlyCall(d, t, 1) && t.calls[1].pc == Done(Failed)
    requires RowReplaced(d.tables, t.tables, d.calls[1].input.requestId)
    ensures !Unfinished(t, d.calls[1].input.requestId) && !RowTells(t, d.calls[1].input.requestId)
  {
    assert t.calls[0] == d.calls[0] && t.calls.Keys == {0, 1};
    assert SomePaid(t, d.calls[1].input.requestId);
  }

  /** The first call is paid; the second, with an entitlement of its own, then fails and
      writes over the row. */
  lemma SecondFailsOver(s: State, good: Ports) returns (actions: seq<Action>)
    requires TwoReady(s) && Mirrors(s.books, s.tables) && Good(good)
    ensures forall k :: 0 <= k < |actions| ==> actions[k].Go?
    ensures Possible(s, actions)
    ensures var (t, r) := (Run(s, actions), s.calls[0].input.requestId); !Unfinished(t, r) && !RowTells(t, r)
  {
    var bad := good.(acquired := false);
    var d := Drive(s, 0, good);
    FirstPaid(s, good);
    SecondFailed(d, bad);
    SecondFails(d, Drive(d, 1, bad));
    DriveIsRun(s, 0, good);
    DriveIsRun(d, 1, bad);
    ScanPayments.RunAppend(s, Steps(s, 0, good), Steps(d, 1, bad));
    actions := Steps(s, 0, good) + Steps(d, 1, bad);
  }

  lemma TwoPaymentsMislead(r: string, tx0: string, tx1: string) returns (actions: seq<Action>)
    requires tx0 != tx1
    ensures Possible(START, actions) && BringOnly(actions, r, {EntitlementIdFor(tx0), EntitlementIdFor(tx1)})
    ensures !Unfinished(Run(START, actions), r) && !RowTells(Run(START, actions), r)
  {
    var good := Ports(true, true, Some(Evaluation("", [], [], [])), true, 0);
    var a := Entitlement(EntitlementIdFor(tx0), "", tx0, 0, ISSUED);
    var b := Entitlement(EntitlementIdFor(tx1), "", tx1, 0, ISSUED);
    var first, second := ScanInput(r, "", "", a.id), ScanInput(r, "", "", b.id);
    var prefix := ToBothPastGate(first, second, a, b, good);
    var rest := SecondFailsOver(BothPastGate(first, second, a, b), good);
    ScanPayments.RunAppend(START, prefix, rest);
    BringThenGo(prefix, rest, r, {a.id, b.id});
    actions := prefix + rest;
  }

  lemma OnePaymentTells(actions: seq<Action>, r: string, txs: set<string>)
    requires Possible(START, actions) && BringOnly(actions, r, IdsOf(txs)) && !Unfinished(Run(START, actions), r)
    requires forall a, b :: a in txs && b in txs ==> a == b
    ensures RowTells(Run(START, actions), r)
  {
    RunBrings(START, actions, r, IdsOf(txs));
    RowTellsPaid(actions, r);
  }

  /** With calls for a request that bring the entitlements of these payments: in every
      interleaving its row, with none in flight and none dead, tells whether it was paid, if
      and only if the payments are one and the same. */
  lemma RowTellsIff(r: string, txs: set<string>)
    ensures (forall actions ::
              Possible(START, actions) && BringOnly(actions, r, IdsOf(txs)) && !Unfinished(Run(START, actions), r) ==>
                RowTells(Run(START, actions), r))
      <==> forall a, b :: a in txs && b in txs ==> a == b
  {
    if a, b :| a in txs && b in txs && a != b {
      var actions := TwoPaymentsMislead(r, a, b);
      assert BringOnly(actions, r, IdsOf(txs));
    } else {
      forall actions
        | Possible(START, actions) && BringOnly(actions, r, IdsOf(txs)) && !Unfinished(Run(START, actions), r)
        ensures RowTells(Run(START, actions), r)
      {
        OnePaymentTells(actions, r, txs);
      }
    }
  }
}
