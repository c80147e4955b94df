/** One request id, one entitlement: at most one paid result, which every later
    answer repeats. */
module ScanOnce {
  import opened Entitlements
  import opened Results
  import opened ScanLifecycle
  import opened Store
  import opened ScanProtocol
  import opened ScanSafety

  /** Calls for one request always bring the same entitlement. */
  ghost predicate SameEntitlement(s: State) {
    forall i, j :: i in s.calls && j in s.calls && s.calls[i].input.requestId == s.calls[j].input.requestId
      ==> s.calls[i].input.entitlementId == s.calls[j].input.entitlementId
  }

  predicate ResultOf(s: State, i: nat, requestId: string, report: string) {
    i in s.calls && s.calls[i].input.requestId == requestId && s.calls[i].pc == Done(Fresh(SnapId(requestId), report))
  }

  /** A stored snapshot of a request has a paid result behind it. */
  ghost predicate SnapshotsBacked(s: State) {
    forall r :: SnapId(r) in s.tables.snapshots ==> exists i :: ResultOf(s, i, r, s.tables.snapshots[SnapId(r)].report)
  }

  /** A paid result stays on record: its snapshot, and its execution row as completed. */
  predicate OnRecord(s: State, c: Call)
    requires Delivered(c.pc)
  {
    var r := c.input.requestId;
    && c.pc.outcome == Fresh(SnapId(r), c.pc.outcome.report)
    && SnapId(r) in s.tables.snapshots && s.tables.snapshots[SnapId(r)].report == c.pc.outcome.report
    && HasCompleted(s.tables, r) && s.tables.scanExecutions[ExecId(r)].reportRef == Some(SnapId(r))
  }

  ghost predicate ResultsRecorded(s: State) {
    forall i :: i in s.calls && Delivered(s.calls[i].pc) ==> OnRecord(s, s.calls[i])
  }

  /** Executions keep their ids; a reused result is a stored snapshot; rows that
      are completed name their own snapshot. */
  predicate CallSane(s: State, c: Call) {
    && c.exec.id == ExecId(c.input.requestId) && c.exec.status != COMPLETED
    && (c.pc.Fetch? ==> c.pc.reportRef == SnapId(c.input.requestId))
    && (c.pc.Done? && c.pc.outcome.Reused? ==>
          && c.pc.outcome.snapshotId == SnapId(c.input.requestId)
          && SnapId(c.input.requestId) in s.tables.snapshots
          && s.tables.snapshots[SnapId(c.input.requestId)].report == c.pc.outcome.report)
  }

  ghost predicate CallsSane(s: State) {
    && (forall i :: i in s.calls ==> CallSane(s, s.calls[i]))
    && (forall r :: HasCompleted(s.tables, r) ==> s.tables.scanExecutions[ExecId(r)].reportRef == Some(SnapId(r)))
  }

  ghost predicate Once(s: State) {
    Inv(s) && SnapshotsBacked(s) && ResultsRecorded(s) && CallsSane(s)
  }

  lemma ExecIdInjective(r: string, q: string)
    requires ExecId(r) == ExecId(q)
    ensures r == q
  {
    assert ExecId(r)[5..] == r && ExecId(q)[5..] == q;
  }

  lemma SnapIdInjective(r: string, q: string)
    requires SnapId(r) == SnapId(q)
    ensures r == q
  {
    assert SnapId(r)[5..] == r && SnapId(q)[5..] == q;
  }

  lemma SameEntitlementEarlier(s: State, a: Action)
    requires Enabled(s, a) && SameEntitlement(Step(s, a))
    ensures SameEntitlement(s)
  {
    var t := Step(s, a);
    forall i | i in s.calls ensures i in t.calls && t.calls[i].input == s.calls[i].input { }
  }

  /** A call past its reservation is alone with its request: nobody has a paid
      result for it, so no snapshot of it is stored. */
  lemma NobodyElse(s: State, i: nat)
    requires Once(s) && SameEntitlement(s) && i in s.calls && Holds(s.calls[i].pc)
    ensures forall j :: j in s.calls && s.calls[j].input.requestId == s.calls[i].input.requestId ==>
      !Delivered(s.calls[j].pc)
    ensures SnapId(s.calls[i].input.requestId) !in s.tables.snapshots
  {
    var r, e := s.calls[i].input.requestId, s.calls[i].input.entitlementId;
    assert ClaimedBy(s, i, e);
    forall j | j in s.calls && s.calls[j].input.requestId == r ensures !Delivered(s.calls[j].pc) {
      assert Delivered(s.calls[j].pc) ==> ClaimedBy(s, j, e);
    }
    assert forall j, report :: !ResultOf(s, j, r, report);
  }

  /** A step that stores no snapshot and rewrites at most its own execution row. */
  ghost predicate Quiet(s: State, t: State, i: nat)
    requires i in s.calls
  {
    var row := ExecId(s.calls[i].input.requestId);
    && t.tables.snapshots == s.tables.snapshots
    && (t.tables.scanExecutions == s.tables.scanExecutions
        || (&& Holds(s.calls[i].pc) && row in t.tables.scanExecutions
             && t.tables.scanExecutions[row].status != COMPLETED
            && t.tables.scanExecutions == s.tables.scanExecutions[row := t.tables.scanExecutions[row]]))
  }

  lemma QuietRows(s: State, t: State, i: nat, r: string)
    requires i in s.calls && Quiet(s, t, i)
    ensures HasCompleted(t.tables, r) ==>
      HasCompleted(s.tables, r) && t.tables.scanExecutions[ExecId(r)] == s.tables.scanExecutions[ExecId(r)]
    ensures HasCompleted(s.tables, r) && r != s.calls[i].input.requestId ==> HasCompleted(t.tables, r)
    ensures HasCompleted(s.tables, r) && !Holds(s.calls[i].pc) ==> HasCompleted(t.tables, r)
  {
    if ExecId(r) == ExecId(s.calls[i].input.requestId) {
      ExecIdInjective(r, s.calls[i].input.requestId);
    }
  }

  lemma QuietKeepsOnce(s: State, t: State, i: nat)
    requires Once(s) && Inv(t) && SameEntitlement(s)
    requires i in s.calls && i in t.calls && Running(s.calls[i].pc) && !Delivered(t.calls[i].pc)
    requires t.calls == s.calls[i := t.calls[i]] && Quiet(s, t, i) && CallSane(t, t.calls[i])
    ensures Once(t)
  {
    forall r | SnapId(r) in t.tables.snapshots
      ensures exists j :: ResultOf(t, j, r, t.tables.snapshots[SnapId(r)].report)
    {
      var j :| ResultOf(s, j, r, s.tables.snapshots[SnapId(r)].report);
      assert ResultOf(t, j, r, t.tables.snapshots[SnapId(r)].report);
    }
    forall j | j in t.calls && Delivered(t.calls[j].pc) ensures OnRecord(t, t.calls[j]) {
      assert OnRecord(s, s.calls[j]);
      if Holds(s.calls[i].pc) {
        NobodyElse(s, i);
      }
      QuietRows(s, t, i, s.calls[j].input.requestId);
    }
    forall j | j in t.calls ensures CallSane(t, t.calls[j]) {
      assert j != i ==> CallSane(s, s.calls[j]);
    }
    forall r | HasCompleted(t.tables, r) ensures t.tables.scanExecutions[ExecId(r)].reportRef == Some(SnapId(r)) {
      QuietRows(s, t, i, r);
    }
  }

  /** The tables a delivery leaves: the request's snapshot and its completed row. */
  ghost predicate Delivers(s: State, t: State, i: nat, report: string)
    requires i in s.calls
  {
    var r := s.calls[i].input.requestId;
    && SnapId(r) in t.tables.snapshots && t.tables.snapshots[SnapId(r)].report == report
    && t.tables.snapshots == s.tables.snapshots[SnapId(r) := t.tables.snapshots[SnapId(r)]]
    && HasCompleted(t.tables, r) && t.tables.scanExecutions[ExecId(r)].reportRef == Some(SnapId(r))
    && t.tables.scanExecutions == s.tables.scanExecutions[ExecId(r) := t.tables.scanExecutions[ExecId(r)]]
  }

  lemma DeliveredOthers(s: State, t: State, i: nat, report: string, q: string)
    requires i in s.calls && Delivers(s, t, i, report) && q != s.calls[i].input.requestId
    ensures SnapId(q) in t.tables.snapshots <==> SnapId(q) in s.tables.snapshots
    ensures SnapId(q) in s.tables.snapshots ==> t.tables.snapshots[SnapId(q)] == s.tables.snapshots[SnapId(q)]
    ensures HasCompleted(t.tables, q) <==> HasCompleted(s.tables, q)
    ensures HasCompleted(s.tables, q) ==> t.tables.scanExecutions[ExecId(q)] == s.tables.scanExecutions[ExecId(q)]
  {
    if SnapId(q) == SnapId(s.calls[i].input.requestId) {
      SnapIdInjective(q, s.calls[i].input.requestId);
    }
    if ExecId(q) == ExecId(s.calls[i].input.requestId) {
      ExecIdInjective(q, s.calls[i].input.requestId);
    }
  }

  lemma DeliveryBacked(s: State, t: State, i: nat, report: string)
    requires SnapshotsBacked(s) && i in s.calls && i in t.calls && Running(s.calls[i].pc)
    requires t.calls == s.calls[i := t.calls[i]] && t.calls[i].input == s.calls[i].input
    requires t.calls[i].pc == Done(Fresh(SnapId(s.calls[i].input.requestId), report)) && Delivers(s, t, i, report)
    ensures SnapshotsBacked(t)
  {
    var r := s.calls[i].input.requestId;
    assert ResultOf(t, i, r, report);
    forall q | SnapId(q) in t.tables.snapshots
      ensures exists j :: ResultOf(t, j, q, t.tables.snapshots[SnapId(q)].report)
    {
      if q != r {
        DeliveredOthers(s, t, i, report, q);
        var j :| ResultOf(s, j, q, s.tables.snapshots[SnapId(q)].report);
        assert ResultOf(t, j, q, t.tables.snapshots[SnapId(q)].report);
      }
    }
  }

  lemma DeliveryRecorded(s: State, t: State, i: nat, report: string, j: nat)
    requires Once(s) && SameEntitlement(s) && i in s.calls && j in s.calls && j != i && Holds(s.calls[i].pc)
    requires Delivers(s, t, i, report)
    ensures CallSane(t, s.calls[j]) && (Delivered(s.calls[j].pc) ==> OnRecord(t, s.calls[j]))
  {
    NobodyElse(s, i);
    assert CallSane(s, s.calls[j]) && (Delivered(s.calls[j].pc) ==> OnRecord(s, s.calls[j]));
    if s.calls[j].input.requestId != s.calls[i].input.requestId {
      DeliveredOthers(s, t, i, report, s.calls[j].input.requestId);
    }
  }

  lemma DeliveryKeepsOnce(s: State, t: State, i: nat, report: string)
    requires Once(s) && Inv(t) && SameEntitlement(s)
    requires i in s.calls && i in t.calls && Holds(s.calls[i].pc)
    requires t.calls == s.calls[i := t.calls[i]] && t.calls[i].input == s.calls[i].input && CallSane(t, t.calls[i])
    requires t.calls[i].pc == Done(Fresh(SnapId(s.calls[i].input.requestId), report)) && Delivers(s, t, i, report)
    ensures Once(t)
  {
    DeliveryBacked(s, t, i, report);
    forall j | j in t.calls ensures CallSane(t, t.calls[j]) && (Delivered(t.calls[j].pc) ==> OnRecord(t, t.calls[j])) {
      if j != i {
        DeliveryRecorded(s, t, i, report, j);
      }
    }
    forall q | HasCompleted(t.tables, q) ensures t.tables.scanExecutions[ExecId(q)].reportRef == Some(SnapId(q)) {
      if q != s.calls[i].input.requestId {
        DeliveredOthers(s, t, i, report, q);
      }
    }
  }

  lemma PersistKeepsOnce(s: State, i: nat, ports: Ports)
    requires Once(s) && SameEntitlement(s) && i in s.calls && s.calls[i].pc.Persisting?
    ensures Once(Persist(s, i, s.calls[i], s.calls[i].pc.found, ports))
  {
    var c, found := s.calls[i], s.calls[i].pc.found;
    var t := Persist(s, i, c, found, ports);
    PersistKeeps(s, i, ports);
    PersistEffect(s.tables, c, found, ports);
    assert CallSane(s, c);
    if Delivered(t.calls[i].pc) {
      NobodyElse(s, i);
      DeliveryKeepsOnce(s, t, i, found.report);
    } else {
      QuietKeepsOnce(s, t, i);
    }
  }

  /** Every step but a delivery is quiet. */
  ghost predicate Moves(s: State, t: State, i: nat)
    requires i in s.calls
  {
    && i in t.calls && !Delivered(t.calls[i].pc) && t.calls == s.calls[i := t.calls[i]]
    && Quiet(s, t, i) && CallSane(t, t.calls[i])
  }

  lemma ReserveMoves(s: State, i: nat, ports: Ports)
    requires i in s.calls && s.calls[i].pc == Reserving && CallSane(s, s.calls[i])
    ensures Moves(s, Resume(s, i, ports), i)
  {
    ReserveEffect(s.tables, s.calls[i]);
  }

  lemma MarkMoves(s: State, i: nat, ports: Ports)
    requires i in s.calls && s.calls[i].pc == Marking && CallSane(s, s.calls[i])
    ensures Moves(s, Resume(s, i, ports), i)
  {
  }

  lemma FailMoves(s: State, i: nat, ports: Ports)
    requires i in s.calls && s.calls[i].pc == Failing && CallSane(s, s.calls[i])
    ensures Moves(s, Resume(s, i, ports), i)
  {
    FailEffect(s.tables, s.calls[i]);
  }

  lemma ReadMoves(s: State, i: nat, ports: Ports)
    requires i in s.calls && Running(s.calls[i].pc) && CallsSane(s)
    requires s.calls[i].pc !in {Reserving, Marking, Failing} && !s.calls[i].pc.Persisting?
    ensures Moves(s, Resume(s, i, ports), i)
  {
    assert CallSane(s, s.calls[i]);
    assert HasCompleted(s.tables, s.calls[i].input.requestId) ==>
      s.tables.scanExecutions[ExecId(s.calls[i].input.requestId)].reportRef == Some(SnapId(s.calls[i].input.requestId));
  }

  lemma ResumeKeepsOnce(s: State, i: nat, ports: Ports)
    requires Once(s) && SameEntitlement(s) && i in s.calls && Running(s.calls[i].pc) && !s.calls[i].pc.Persisting?
    ensures Once(Resume(s, i, ports))
  {
    var t := Resume(s, i, ports);
    ResumeKeeps(s, i, ports);
    assert CallSane(s, s.calls[i]);
    assert Moves(s, t, i) by {
      match s.calls[i].pc
      case Reserving => ReserveMoves(s, i, ports);
      case Marking => MarkMoves(s, i, ports);
      case Failing => FailMoves(s, i, ports);
      case _ => ReadMoves(s, i, ports);
    }
    QuietKeepsOnce(s, t, i);
  }

  /** Arrivals, issues, mirrored rows and throws touch neither results nor their records. */
  ghost predicate Apart(s: State, t: State) {
    && t.tables.snapshots == s.tables.snapshots && t.tables.scanExecutions == s.tables.scanExecutions
    && (forall j :: j in s.calls && s.calls[j].pc.Done? ==> j in t.calls && t.calls[j] == s.calls[j])
    && (forall j :: j in t.calls && t.calls[j].pc.Done? ==> j in s.calls && t.calls[j] == s.calls[j])
    && (forall j :: j in t.calls && !t.calls[j].pc.Done? ==> CallSane(t, t.calls[j]))
  }

  lemma ApartKeepsOnce(s: State, t: State)
    requires Once(s) && Inv(t) && Apart(s, t)
    ensures Once(t)
  {
    forall r | SnapId(r) in t.tables.snapshots
      ensures exists j :: ResultOf(t, j, r, t.tables.snapshots[SnapId(r)].report)
    {
      var j :| ResultOf(s, j, r, s.tables.snapshots[SnapId(r)].report);
      assert ResultOf(t, j, r, t.tables.snapshots[SnapId(r)].report);
    }
    forall j | j in t.calls ensures CallSane(t, t.calls[j]) && (Delivered(t.calls[j].pc) ==> OnRecord(t, t.calls[j])) {
      if t.calls[j].pc.Done? {
        assert CallSane(s, s.calls[j]) && (Delivered(s.calls[j].pc) ==> OnRecord(s, s.calls[j]));
      }
    }
    assert forall r :: HasCompleted(t.tables, r) <==> HasCompleted(s.tables, r);
  }

  lemma OutsideApart(s: State, a: Action)
    requires CallsSane(s) && Enabled(s, a) && !a.Go?
    ensures Apart(s, Step(s, a))
  {
    var t := Step(s, a);
    assert t.tables.snapshots == s.tables.snapshots && t.tables.scanExecutions == s.tables.scanExecutions;
    forall j | j in t.calls && !t.calls[j].pc.Done? ensures CallSane(t, t.calls[j]) {
      assert j in s.calls ==> CallSane(s, s.calls[j]);
    }
  }

  lemma StepKeepsOnce(s: State, a: Action)
    requires Once(s) && SameEntitlement(s) && Enabled(s, a)
    ensures Once(Step(s, a))
  {
    if !a.Go? {
      StepKeeps(s, a);
      OutsideApart(s, a);
      ApartKeepsOnce(s, Step(s, a));
    } else if s.calls[a.i].pc.Persisting? {
      PersistKeepsOnce(s, a.i, a.ports);
    } else {
      ResumeKeepsOnce(s, a.i, a.ports);
    }
  }

  lemma {:induction false} RunKeepsOnce(s: State, actions: seq<Action>)
    requires Once(s) && Possible(s, actions) && SameEntitlement(Run(s, actions))
    ensures Once(Run(s, actions)) && SameEntitlement(s)
    decreases |actions|
  {
    if actions != [] {
      SameEntitlementThroughout(Step(s, actions[0]), actions[1..]);
      SameEntitlementEarlier(s, actions[0]);
      StepKeepsOnce(s, actions[0]);
      RunKeepsOnce(Step(s, actions[0]), actions[1..]);
    }
  }

  lemma {:induction false} SameEntitlementThroughout(s: State, actions: seq<Action>)
    requires Possible(s, actions) && SameEntitlement(Run(s, actions))
    ensures SameEntitlement(s)
    decreases |actions|
  {
    if actions != [] {
      SameEntitlementThroughout(Step(s, actions[0]), actions[1..]);
      SameEntitlementEarlier(s, actions[0]);
    }
  }

  /** When the calls for a request always bring the same entitlement, any
      interleaving returns at most one new paid result for it, and every reused
      result is that one. */
  lemma OnePaidResult(actions: seq<Action>, i: nat, j: nat)
    requires Possible(START, actions) && SameEntitlement(Run(START, actions))
    requires i in Run(START, actions).calls && j in Run(START, actions).calls
    requires Run(START, actions).calls[i].input.requestId == Run(START, actions).calls[j].input.requestId
    requires Delivered(Run(START, actions).calls[i].pc)
    ensures Delivered(Run(START, actions).calls[j].pc) ==> i == j
    ensures var (a, b) := (Run(START, actions).calls[i].pc, Run(START, actions).calls[j].pc);
      b.Done? && b.outcome.Reused? ==> b.outcome == Reused(a.outcome.snapshotId, a.outcome.report)
  {
    RunKeepsOnce(START, actions);
    var s := Run(START, actions);
    assert OnRecord(s, s.calls[i]) && CallSane(s, s.calls[j]);
    assert ClaimedBy(s, i, s.calls[i].input.entitlementId);
    assert Delivered(s.calls[j].pc) ==> ClaimedBy(s, j, s.calls[i].input.entitlementId);
  }

  /** A reused result always has a paid one behind it. */
  lemma ReusedHasPaid(actions: seq<Action>, j: nat)
    requires Possible(START, actions) && SameEntitlement(Run(START, actions))
    requires j in Run(START, actions).calls && Run(START, actions).calls[j].pc.Done?
    requires Run(START, actions).calls[j].pc.outcome.Reused?
    ensures exists i :: ResultOf(Run(START, actions), i, Run(START, actions).calls[j].input.requestId,
                                 Run(START, actions).calls[j].pc.outcome.report)
  {
    RunKeepsOnce(START, actions);
    assert CallSane(Run(START, actions), Run(START, actions).calls[j]);
  }
}
