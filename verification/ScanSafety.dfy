/** What every interleaving of scans keeps. */
module ScanSafety {
  import opened Entitlements
  import opened Results
  import opened Store
  import opened ScanProtocol

  // ------------------------------------------------------------------
  // Every step keeps the invariant
  // ------------------------------------------------------------------

  /** A step that moves no call and no record of a consumption. */
  lemma OutsideKeeps(s: State, t: State)
    requires Inv(s)
    requires forall e :: FactsOf(t, e) == FactsOf(s, e)
    requires forall i, e :: ClaimedBy(t, i, e) <==> ClaimedBy(s, i, e)
    requires forall i :: i in t.calls && Claims(t.calls[i].pc) ==> i in s.calls && s.calls[i] == t.calls[i]
    ensures Inv(t)
  {
    forall e | FactsOf(t, e) != NONE ensures exists i :: ClaimedBy(t, i, e) {
      var i :| ClaimedBy(s, i, e);
      assert ClaimedBy(t, i, e);
    }
  }

  lemma IssueKeeps(s: State, a: Action)
    requires Inv(s) && Enabled(s, a) && (a.Issue? || a.Mirror?)
    ensures Inv(Step(s, a))
  {
    OutsideKeeps(s, Step(s, a));
  }

  lemma ArriveKeeps(s: State, a: Action)
    requires Inv(s) && Enabled(s, a) && a.Arrive?
    ensures Inv(Step(s, a))
  {
    var t := Step(s, a);
    forall i, e ensures ClaimedBy(t, i, e) <==> ClaimedBy(s, i, e) {
      assert i != a.i && i in t.calls ==> t.calls[i] == s.calls[i];
    }
    OutsideKeeps(s, t);
  }

  /** Whatever record says an entitlement is consumed, the ledger says so too. */
  lemma ClaimedInLedger(s: State, e: string)
    requires Inv(s)
    ensures FactsOf(s, e) != NONE ==> FactsOf(s, e).ledgerStatus && FactsOf(s, e).ledgerUsage
  {
    if FactsOf(s, e) != NONE {
      var i :| ClaimedBy(s, i, e);
      assert FactsOf(s, e) == Expected(s.calls[i].pc);
    }
  }

  lemma TakeLedgerKeeps(s: State, i: nat)
    requires Inv(s) && i in s.calls && s.calls[i].pc == Reserve
    ensures Inv(TakeLedger(s, i, s.calls[i]))
  {
    ClaimedInLedger(s, s.calls[i].input.entitlementId);
    CallMoves(s, TakeLedger(s, i, s.calls[i]), i);
  }

  lemma CommitReservationKeeps(s: State, i: nat, ok: bool)
    requires Inv(s) && i in s.calls && s.calls[i].pc == Reserving
    ensures Inv(CommitReservation(s, i, s.calls[i], ok))
  {
    ReserveEffect(s.tables, s.calls[i]);
    CallMoves(s, CommitReservation(s, i, s.calls[i], ok), i);
  }

  lemma PersistKeeps(s: State, i: nat, ports: Ports)
    requires Inv(s) && i in s.calls && s.calls[i].pc.Persisting?
    ensures Inv(Persist(s, i, s.calls[i], s.calls[i].pc.found, ports))
  {
    PersistEffect(s.tables, s.calls[i], s.calls[i].pc.found, ports);
    CallMoves(s, Persist(s, i, s.calls[i], s.calls[i].pc.found, ports), i);
  }

  lemma FailTransactionKeeps(s: State, i: nat)
    requires Inv(s) && i in s.calls && s.calls[i].pc == Failing
    ensures Inv(FailTransaction(s, i, s.calls[i]))
  {
    FailEffect(s.tables, s.calls[i]);
    CallMoves(s, FailTransaction(s, i, s.calls[i]), i);
  }

  lemma MarkKeeps(s: State, i: nat)
    requires Inv(s) && i in s.calls && s.calls[i].pc == Marking
    ensures Inv(Mark(s, i, s.calls[i]))
  {
    CallMoves(s, Mark(s, i, s.calls[i]), i);
  }

  /** Moves that change nothing but the call's place. */
  lemma PlaceChanges(s: State, i: nat, pc: Pc)
    requires Inv(s) && i in s.calls && !Delivered(pc)
    requires Claims(s.calls[i].pc) == Claims(pc) && (Claims(pc) ==> Expected(pc) == Expected(s.calls[i].pc))
    ensures Inv(At(s, i, s.calls[i], pc))
  {
    CallMoves(s, At(s, i, s.calls[i], pc), i);
  }

  lemma ReleaseKeeps(s: State, i: nat)
    requires Inv(s) && i in s.calls && s.calls[i].pc == Releasing
    ensures Inv(At(s, i, s.calls[i], Done(Failed)).(books := ReleaseOn(s.books, s.calls[i].input.entitlementId).0))
  {
    CallMoves(s, At(s, i, s.calls[i], Done(Failed)).(books := ReleaseOn(s.books, s.calls[i].input.entitlementId).0), i);
  }

  /** The awaits that only read: the call moves on by what it found. */
  lemma ReadKeeps(s: State, i: nat, ports: Ports)
    requires Inv(s) && i in s.calls
    requires s.calls[i].pc in {Gate, Acquiring, Evaluating} || s.calls[i].pc.Fetch?
    ensures Inv(Resume(s, i, ports))
  {
    PlaceChanges(s, i, Resume(s, i, ports).calls[i].pc);
  }

  lemma ResumeKeeps(s: State, i: nat, ports: Ports)
    requires Inv(s) && i in s.calls && Running(s.calls[i].pc)
    ensures Inv(Resume(s, i, ports))
  {
    match s.calls[i].pc
    case Reserve => TakeLedgerKeeps(s, i);
    case Reserving => CommitReservationKeeps(s, i, ports.reserveOk);
    case Marking => MarkKeeps(s, i);
    case Persisting(_) => PersistKeeps(s, i, ports);
    case Failing => FailTransactionKeeps(s, i);
    case Releasing => ReleaseKeeps(s, i);
    case _ => ReadKeeps(s, i, ports);
  }

  lemma StepKeeps(s: State, a: Action)
    requires Inv(s) && Enabled(s, a)
    ensures Inv(Step(s, a))
  {
    match a
    case Issue(_, _, _) => IssueKeeps(s, a);
    case Mirror(_) => IssueKeeps(s, a);
    case Arrive(_, _, _) => ArriveKeeps(s, a);
    case Go(i, ports) => ResumeKeeps(s, i, ports);
    case Throw(i) => PlaceChanges(s, i, Threw(Holds(s.calls[i].pc)));
  }

  lemma {:induction false} RunKeeps(s: State, actions: seq<Action>)
    requires Inv(s) && Possible(s, actions)
    ensures Inv(Run(s, actions))
    decreases |actions|
  {
    if actions != [] {
      StepKeeps(s, actions[0]);
      RunKeeps(Step(s, actions[0]), actions[1..]);
    }
  }

  // ------------------------------------------------------------------
  // Main results over every run
  // ------------------------------------------------------------------

  ghost predicate InFlight(s: State, e: string) {
    exists i :: i in s.calls && Holds(s.calls[i].pc) && s.calls[i].input.entitlementId == e
  }

  /** A call that consumed `e` died: a port or the database threw where nothing catches it. */
  ghost predicate Stranded(s: State, e: string) {
    exists i :: i in s.calls && Dead(s.calls[i].pc) && s.calls[i].input.entitlementId == e
  }

  ghost predicate PaidResult(s: State, i: nat, e: string) {
    i in s.calls && Delivered(s.calls[i].pc) && s.calls[i].input.entitlementId == e
  }

  /** At most one call is past its reservation on an entitlement, and at most one
      ever returns a new paid result for it - never both. */
  lemma OneClaimant(actions: seq<Action>, i: nat, j: nat)
    requires Possible(START, actions)
    requires i in Run(START, actions).calls && j in Run(START, actions).calls
    requires Claims(Run(START, actions).calls[i].pc) && Claims(Run(START, actions).calls[j].pc)
    requires Run(START, actions).calls[i].input.entitlementId == Run(START, actions).calls[j].input.entitlementId
    ensures i == j
  {
    RunKeeps(START, actions);
    var s := Run(START, actions);
    assert ClaimedBy(s, i, s.calls[i].input.entitlementId);
    assert ClaimedBy(s, j, s.calls[i].input.entitlementId);
  }

  /** With no call in flight on `e`, the four records agree exactly when no call died holding it. */
  lemma RecordsAgreeIff(actions: seq<Action>, e: string)
    requires Possible(START, actions) && !InFlight(Run(START, actions), e)
    ensures FactsOf(Run(START, actions), e) in {NONE, ALL} <==> !Stranded(Run(START, actions), e)
  {
    RunKeeps(START, actions);
    var s := Run(START, actions);
    if Stranded(s, e) {
      var i :| i in s.calls && Dead(s.calls[i].pc) && s.calls[i].input.entitlementId == e;
      assert FactsOf(s, e) == Expected(s.calls[i].pc);
    } else if FactsOf(s, e) != NONE {
      var i :| ClaimedBy(s, i, e);
      assert FactsOf(s, e) == Expected(s.calls[i].pc);
    }
  }

  // What strands an entitlement -------------------------------------------

  /** A throw at an unguarded await of call `i` while it holds its entitlement, or its
      failure transaction with the entitlement's row missing. */
  predicate Strands(s: State, a: Action, i: nat) {
    && i in s.calls && (a.Throw? || a.Go?) && a.i == i
    && (if a.Throw? then Holds(s.calls[i].pc)
        else s.calls[i].pc == Failing && s.calls[i].input.entitlementId !in s.tables.entitlements)
  }

  predicate StrandsOn(s: State, a: Action, e: string) {
    (a.Throw? || a.Go?) && Strands(s, a, a.i) && s.calls[a.i].input.entitlementId == e
  }

  /** Some action of the run strands `e`. */
  ghost predicate StrandedBy(s: State, actions: seq<Action>, e: string)
    requires Possible(s, actions)
    decreases |actions|
  {
    actions != [] && (StrandsOn(s, actions[0], e) || StrandedBy(Step(s, actions[0]), actions[1..], e))
  }

  lemma DiesIff(s: State, a: Action, i: nat)
    requires Enabled(s, a) && i in Step(s, a).calls
    ensures i in s.calls ==> Step(s, a).calls[i].input == s.calls[i].input
    ensures Dead(Step(s, a).calls[i].pc) <==> (i in s.calls && Dead(s.calls[i].pc)) || Strands(s, a, i)
  {
    if a.Go? && a.i == i && s.calls[i].pc == Failing {
      FailEffect(s.tables, s.calls[i]);
    }
  }

  lemma StrandedStep(s: State, a: Action, e: string)
    requires Enabled(s, a)
    ensures Stranded(Step(s, a), e) <==> Stranded(s, e) || StrandsOn(s, a, e)
  {
    var t := Step(s, a);
    if Stranded(t, e) {
      var i :| i in t.calls && Dead(t.calls[i].pc) && t.calls[i].input.entitlementId == e;
      DiesIff(s, a, i);
    }
    if Stranded(s, e) {
      var i :| i in s.calls && Dead(s.calls[i].pc) && s.calls[i].input.entitlementId == e;
      DiesIff(s, a, i);
      assert Dead(t.calls[i].pc);
    }
    if StrandsOn(s, a, e) {
      DiesIff(s, a, a.i);
      assert Dead(t.calls[a.i].pc);
    }
  }

  lemma {:induction false} StrandedRun(s: State, actions: seq<Action>, e: string)
    requires Possible(s, actions)
    ensures Stranded(Run(s, actions), e) <==> Stranded(s, e) || StrandedBy(s, actions, e)
    decreases |actions|
  {
    if actions != [] {
      StrandedStep(s, actions[0], e);
      StrandedRun(Step(s, actions[0]), actions[1..], e);
    }
  }

  /** So they agree if and only if none of the run's actions is a throw at a call holding
      `e`, or the failure transaction of such a call with the row of `e` missing. */
  lemma RecordsAgreeUnlessStranded(actions: seq<Action>, e: string)
    requires Possible(START, actions) && !InFlight(Run(START, actions), e)
    ensures FactsOf(Run(START, actions), e) in {NONE, ALL} <==> !StrandedBy(START, actions, e)
  {
    RecordsAgreeIff(actions, e);
    StrandedRun(START, actions, e);
  }

  /** Ports and database return: nothing throws where no handler guards. */
  predicate PortsReturn(actions: seq<Action>) { forall k :: 0 <= k < |actions| ==> !actions[k].Throw? }

  /** Every call arrives with the row of its entitlement stored. */
  ghost predicate ArriveMirrored(s: State, actions: seq<Action>)
    requires Possible(s, actions)
    decreases |actions|
  {
    actions == [] ||
    ((actions[0].Arrive? ==> actions[0].input.entitlementId in s.tables.entitlements)
     && ArriveMirrored(Step(s, actions[0]), actions[1..]))
  }

  ghost predicate RowsStored(s: State) {
    forall i :: i in s.calls ==> s.calls[i].input.entitlementId in s.tables.entitlements
  }

  /** No step takes an entitlement row away. */
  lemma RowsStay(s: State, a: Action)
    requires Enabled(s, a)
    ensures s.tables.entitlements.Keys <= Step(s, a).tables.entitlements.Keys
  {
    if a.Go? {
      var c := s.calls[a.i];
      match c.pc
      case Reserving => ReserveEffect(s.tables, c);
      case Persisting(found) => PersistEffect(s.tables, c, found, a.ports);
      case Failing => FailEffect(s.tables, c);
      case _ =>
    }
  }

  lemma RowsStoredStep(s: State, a: Action)
    requires RowsStored(s) && Enabled(s, a)
    requires a.Arrive? ==> a.input.entitlementId in s.tables.entitlements
    ensures RowsStored(Step(s, a))
  {
    var t := Step(s, a);
    RowsStay(s, a);
    forall i | i in t.calls ensures t.calls[i].input.entitlementId in t.tables.entitlements {
      DiesIff(s, a, i);
      assert i !in s.calls ==> a.Arrive? && t.calls[i].input == a.input;
    }
  }

  lemma {:induction false} NothingStrands(s: State, actions: seq<Action>, e: string)
    requires Possible(s, actions) && PortsReturn(actions) && RowsStored(s) && ArriveMirrored(s, actions)
    ensures !StrandedBy(s, actions, e)
    decreases |actions|
  {
    if actions != [] {
      RowsStoredStep(s, actions[0]);
      NothingStrands(Step(s, actions[0]), actions[1..], e);
    }
  }

  /** When every entitlement is mirrored before a call brings it and the ports return, the
      four records agree on `e` in every interleaving, whenever no call is in flight on it. */
  lemma RecordsAgree(actions: seq<Action>, e: string)
    requires Possible(START, actions) && PortsReturn(actions) && ArriveMirrored(START, actions)
    requires !InFlight(Run(START, actions), e)
    ensures FactsOf(Run(START, actions), e) in {NONE, ALL}
  {
    NothingStrands(START, actions, e);
    RecordsAgreeUnlessStranded(actions, e);
  }

  /** When they agree, they say "consumed" exactly when some call returned a new paid result. */
  lemma ConsumedIffPaidResult(actions: seq<Action>, e: string)
    requires Possible(START, actions)
    requires !InFlight(Run(START, actions), e) && !Stranded(Run(START, actions), e)
    ensures FactsOf(Run(START, actions), e) == ALL <==> exists i :: PaidResult(Run(START, actions), i, e)
    ensures FactsOf(Run(START, actions), e) == NONE <==> !exists i :: PaidResult(Run(START, actions), i, e)
  {
    RunKeeps(START, actions);
    var s := Run(START, actions);
    forall i | PaidResult(s, i, e) ensures FactsOf(s, e) == ALL {
      assert FactsOf(s, e) == Expected(s.calls[i].pc);
    }
    if FactsOf(s, e) != NONE {
      var i :| ClaimedBy(s, i, e);
      assert PaidResult(s, i, e);
    }
  }
}
