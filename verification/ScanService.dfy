/** src/product/scan/orchestration/scanService.ts, one call at a time: `execute`
    as a method, and what a history of sequential calls answers. */
module ScanService {
  import opened Entitlements
  import opened Results
  import opened ScanLifecycle
  import opened Store
  import opened ScanProtocol

  /** Call `i` runs to its end with no other call in between. */
  function Drive(s: State, i: nat, ports: Ports): (d: State)
    requires i in s.calls
    ensures s.calls.Keys <= d.calls.Keys
    decreases Rank(s.calls[i].pc)
  {
    if Running(s.calls[i].pc) then Drive(Resume(s, i, ports), i, ports) else s
  }

  function Steps(s: State, i: nat, ports: Ports): (r: seq<Action>)
    requires i in s.calls
    ensures forall k :: 0 <= k < |r| ==> r[k] == Go(i, ports)
    decreases Rank(s.calls[i].pc)
  {
    if Running(s.calls[i].pc) then [Go(i, ports)] + Steps(Resume(s, i, ports), i, ports) else []
  }

  /** Running alone is one of the interleavings. */
  lemma {:induction false} DriveIsRun(s: State, i: nat, ports: Ports)
    requires i in s.calls
    ensures Possible(s, Steps(s, i, ports)) && Run(s, Steps(s, i, ports)) == Drive(s, i, ports)
    decreases Rank(s.calls[i].pc)
  {
    if Running(s.calls[i].pc) {
      DriveIsRun(Resume(s, i, ports), i, ports);
      var rest := Steps(Resume(s, i, ports), i, ports);
      assert ([Go(i, ports)] + rest)[1..] == rest;
    }
  }

  // ------------------------------------------------------------------
  // How a call ends, told backwards from its last steps
  // ------------------------------------------------------------------

  /** The execution rows with the call's own replaced by one that has not completed. */
  predicate RowReplaced(t: Tables, u: Tables, r: string) {
    && ExecId(r) in u.scanExecutions && u.scanExecutions[ExecId(r)].status != COMPLETED
    && u.scanExecutions == t.scanExecutions[ExecId(r) := u.scanExecutions[ExecId(r)]]
  }

  predicate OnlyCall(s: State, d: State, i: nat)
    requires i in s.calls
  {
    i in d.calls && d.calls == s.calls[i := d.calls[i]] && d.calls[i].input == s.calls[i].input
  }

  /** Past the reservation the call's execution is reserved or executing under its own id. */
  predicate Fits(c: Call) { c.exec.id == ExecId(c.input.requestId) && c.exec.status in {RESERVED, EXECUTING} }

  /** Failed, with everything the reservation took given back. */
  predicate EndsFailed(s: State, d: State, i: nat)
    requires i in s.calls
  {
    var (e, r) := (s.calls[i].input.entitlementId, s.calls[i].input.requestId);
    && OnlyCall(s, d, i) && d.calls[i].pc == Done(Failed)
    && d.books == ReleaseOn(s.books, e).0
    && d.tables.usage == s.tables.usage - {e}
    && e in s.tables.entitlements
    && d.tables.entitlements == s.tables.entitlements[e := s.tables.entitlements[e].(status := ISSUED)]
    && d.tables.snapshots == s.tables.snapshots && RowReplaced(s.tables, d.tables, r)
  }

  /** Thrown out of the failure path, with the reservation still taken. */
  predicate EndsThrown(s: State, d: State, i: nat)
    requires i in s.calls
  {
    && OnlyCall(s, d, i) && d.calls[i].pc == Threw(true) && d.books == s.books
    && d.tables.usage == s.tables.usage && d.tables.entitlements == s.tables.entitlements
    && d.tables.snapshots == s.tables.snapshots
    && (d.tables.scanExecutions == s.tables.scanExecutions
         || RowReplaced(s.tables, d.tables, s.calls[i].input.requestId))
  }

  predicate EndsFresh(s: State, d: State, i: nat, report: string)
    requires i in s.calls
  {
    var (e, r) := (s.calls[i].input.entitlementId, s.calls[i].input.requestId);
    && OnlyCall(s, d, i) && d.calls[i].pc == Done(Fresh(SnapId(r), report))
    && d.books == s.books && d.tables.usage == s.tables.usage
    && e in s.tables.entitlements
    && d.tables.entitlements == s.tables.entitlements[e := s.tables.entitlements[e].(status := CONSUMED)]
    && HasCompleted(d.tables, r) && d.tables.scanExecutions[ExecId(r)].reportRef == Some(SnapId(r))
    && d.tables.scanExecutions == s.tables.scanExecutions[ExecId(r) := d.tables.scanExecutions[ExecId(r)]]
    && SnapId(r) in d.tables.snapshots
    && (SnapId(r) !in s.tables.snapshots ==>
          d.tables.snapshots[SnapId(r)].report == report
          && d.tables.snapshots == s.tables.snapshots[SnapId(r) := d.tables.snapshots[SnapId(r)]])
  }

  lemma FromFailing(s: State, i: nat, ports: Ports)
    requires i in s.calls && s.calls[i].pc == Failing && Fits(s.calls[i])
    ensures if s.calls[i].input.entitlementId in s.tables.entitlements
            then EndsFailed(s, Drive(s, i, ports), i) else EndsThrown(s, Drive(s, i, ports), i)
  {
    FailEffect(s.tables, s.calls[i]);
    var t := Resume(s, i, ports);
    if t.calls[i].pc == Releasing {
      assert Drive(t, i, ports) == Resume(t, i, ports);
    }
  }

  /** From the final transaction on: the result, or the failure path. */
  lemma FromPersisting(s: State, i: nat, ports: Ports)
    requires i in s.calls && s.calls[i].pc.Persisting? && Fits(s.calls[i]) && s.calls[i].exec.status == EXECUTING
    ensures var d := Drive(s, i, ports);
      if s.calls[i].input.entitlementId !in s.tables.entitlements then EndsThrown(s, d, i)
      else if ports.persistOk then EndsFresh(s, d, i, s.calls[i].pc.found.report)
      else EndsFailed(s, d, i)
  {
    PersistEffect(s.tables, s.calls[i], s.calls[i].pc.found, ports);
    var t := Resume(s, i, ports);
    if t.calls[i].pc == Failing {
      FromFailing(t, i, ports);
    } else {
      assert Drive(t, i, ports) == t;
    }
  }

  predicate Good(ports: Ports) { ports.reserveOk && ports.acquired && ports.evaluated.Some? && ports.persistOk }

  lemma FromEvaluating(s: State, i: nat, ports: Ports)
    requires i in s.calls && s.calls[i].pc == Evaluating && Fits(s.calls[i]) && s.calls[i].exec.status == EXECUTING
    ensures var d := Drive(s, i, ports);
      if s.calls[i].input.entitlementId !in s.tables.entitlements then EndsThrown(s, d, i)
      else if ports.evaluated.Some? && ports.persistOk then EndsFresh(s, d, i, ports.evaluated.value.report)
      else EndsFailed(s, d, i)
  {
    var t := Resume(s, i, ports);
    if t.calls[i].pc == Failing {
      FromFailing(t, i, ports);
    } else {
      FromPersisting(t, i, ports);
    }
  }

  lemma FromAcquiring(s: State, i: nat, ports: Ports)
    requires i in s.calls && s.calls[i].pc == Acquiring && Fits(s.calls[i]) && s.calls[i].exec.status == EXECUTING
    requires ports.reserveOk
    ensures var d := Drive(s, i, ports);
      if s.calls[i].input.entitlementId !in s.tables.entitlements then EndsThrown(s, d, i)
      else if Good(ports) then EndsFresh(s, d, i, ports.evaluated.value.report)
      else EndsFailed(s, d, i)
  {
    var t := Resume(s, i, ports);
    if t.calls[i].pc == Failing {
      FromFailing(t, i, ports);
    } else {
      FromEvaluating(t, i, ports);
    }
  }

  lemma RowsCompose(t: Tables, u: Tables, v: Tables, r: string)
    requires RowReplaced(t, u, r)
    ensures RowReplaced(u, v, r) ==> RowReplaced(t, v, r)
    ensures v.scanExecutions == u.scanExecutions ==> RowReplaced(t, v, r)
  {
  }

  lemma FromMarking(s: State, i: nat, ports: Ports)
    requires i in s.calls && s.calls[i].pc == Marking && Fits(s.calls[i]) && s.calls[i].exec.status == RESERVED
    requires ports.reserveOk
    ensures var d := Drive(s, i, ports);
      if s.calls[i].input.entitlementId !in s.tables.entitlements then EndsThrown(s, d, i)
      else if Good(ports) then EndsFresh(s, d, i, ports.evaluated.value.report)
      else EndsFailed(s, d, i)
  {
    var t := Resume(s, i, ports);
    assert RowReplaced(s.tables, t.tables, s.calls[i].input.requestId);
    FromAcquiring(t, i, ports);
    RowsCompose(s.tables, t.tables, Drive(s, i, ports).tables, s.calls[i].input.requestId);
  }

  /** What the call needs of the ledger: its own issued entitlement. */
  predicate Usable(b: Books, input: ScanInput) {
    && input.entitlementId in b.entitlements && b.entitlements[input.entitlementId].userId == input.userId
    && b.entitlements[input.entitlementId].status == ISSUED
  }

  // ------------------------------------------------------------------
  // The records between sequential calls
  // ------------------------------------------------------------------

  /** A stored snapshot is a completed request's. */
  ghost predicate Linked(t: Tables) {
    forall r :: && (SnapId(r) in t.snapshots <==> HasCompleted(t, r))
                && (HasCompleted(t, r) ==> t.scanExecutions[ExecId(r)].reportRef == Some(SnapId(r)))
  }

  /** The tables mirror the ledger, but for an entitlement whose scan threw: its
      row still says issued. */
  ghost predicate Mirrors(b: Books, t: Tables) {
    && Coherent(b) && t.usage.Keys == b.usage.Keys
    && (forall e :: e in t.entitlements ==> t.entitlements[e].status in {ISSUED, CONSUMED})
    && (forall e :: e in t.entitlements && t.entitlements[e].status == CONSUMED ==> e in b.usage)
  }

  ghost predicate Sound(b: Books, t: Tables) { Linked(t) && Mirrors(b, t) }

  function ExecuteOn(b: Books, t: Tables, input: ScanInput, now: int, ports: Ports): (d: State)
    ensures 0 in d.calls
  {
    Drive(State(b, t, map[0 := NewCall(input, now)]), 0, ports)
  }

  function Taken(b: Books, c: Call): Books {
    ConsumeOn(b, c.input.entitlementId, c.input.userId, ExecId(c.input.requestId), c.now).0
  }

  /** Nothing is left of the call but a row saying it did not complete. */
  predicate GivenBack(b: Books, t: Tables, d: State, r: string) {
    && d.books == b && d.tables.usage == t.usage && d.tables.entitlements == t.entitlements
    && d.tables.snapshots == t.snapshots && RowReplaced(t, d.tables, r)
  }

  /** Consumed in the ledger and the usage row, with nothing delivered. */
  predicate Stuck(b: Books, t: Tables, d: State, c: Call) {
    && d.books == Taken(b, c) && d.tables.entitlements == t.entitlements
    && d.tables.usage.Keys == t.usage.Keys + {c.input.entitlementId}
    && d.tables.snapshots == t.snapshots && RowReplaced(t, d.tables, c.input.requestId)
  }

  /** Consumed in all four records, with the result on record. */
  predicate Paid(b: Books, t: Tables, d: State, c: Call, report: string) {
    var (e, r) := (c.input.entitlementId, c.input.requestId);
    && d.books == Taken(b, c) && d.tables.usage.Keys == t.usage.Keys + {e}
    && e in t.entitlements
    && d.tables.entitlements == t.entitlements[e := t.entitlements[e].(status := CONSUMED)]
    && HasCompleted(d.tables, r) && d.tables.scanExecutions[ExecId(r)].reportRef == Some(SnapId(r))
    && d.tables.scanExecutions == t.scanExecutions[ExecId(r) := d.tables.scanExecutions[ExecId(r)]]
    && SnapId(r) in d.tables.snapshots
    && (SnapId(r) !in t.snapshots ==>
          d.tables.snapshots[SnapId(r)].report == report
          && d.tables.snapshots == t.snapshots[SnapId(r) := d.tables.snapshots[SnapId(r)]])
  }

  /** The state in which a reservation has been committed. */
  predicate Reserved(s: State, u: State, i: nat)
    requires i in s.calls
  {
    var c := s.calls[i];
    && OnlyCall(s, u, i) && u.calls[i].pc == Marking && Fits(u.calls[i]) && u.calls[i].exec.status == RESERVED
    && u.books == Taken(s.books, c)
    && u.tables.entitlements == s.tables.entitlements && u.tables.snapshots == s.tables.snapshots
    && u.tables.usage.Keys == s.tables.usage.Keys + {c.input.entitlementId}
    && (c.input.entitlementId !in s.tables.usage ==> u.tables.usage - {c.input.entitlementId} == s.tables.usage)
    && RowReplaced(s.tables, u.tables, c.input.requestId)
  }

  lemma Reservation(s: State, i: nat, ports: Ports)
    requires i in s.calls && s.calls[i].pc == Reserve && Coherent(s.books) && Usable(s.books, s.calls[i].input)
    ensures var t := Resume(s, i, ports);
      && i in t.calls && t.calls[i].pc == Reserving
      && (ports.reserveOk ==> Reserved(s, Resume(t, i, ports), i))
      && (!ports.reserveOk ==> Resume(t, i, ports) == At(t, i, t.calls[i], Done(Failed)).(books := s.books))
      && t.tables == s.tables && OnlyCall(s, t, i)
  {
    var c := s.calls[i];
    var t := Resume(s, i, ports);
    ConsumeOnce(s.books, c.input.entitlementId, c.input.userId, ExecId(c.input.requestId), c.now, "", "", 0);
    ReserveEffect(s.tables, t.calls[i]);
  }

  lemma GivenBackAfter(s: State, u: State, d: State, i: nat)
    requires i in s.calls && Reserved(s, u, i) && EndsFailed(u, d, i)
    requires Mirrors(s.books, s.tables) && Usable(s.books, s.calls[i].input)
    ensures GivenBack(s.books, s.tables, d, s.calls[i].input.requestId) && OnlyCall(s, d, i)
  {
    var c, e := s.calls[i], s.calls[i].input.entitlementId;
    ConsumeOnce(s.books, e, c.input.userId, ExecId(c.input.requestId), c.now, "", "", 0);
    assert e !in s.tables.usage;
    assert s.tables.entitlements[e].(status := ISSUED) == s.tables.entitlements[e];
    RowsCompose(s.tables, u.tables, d.tables, c.input.requestId);
  }

  lemma StuckAfter(s: State, u: State, d: State, i: nat)
    requires i in s.calls && Reserved(s, u, i) && EndsThrown(u, d, i)
    ensures Stuck(s.books, s.tables, d, s.calls[i]) && OnlyCall(s, d, i)
  {
    RowsCompose(s.tables, u.tables, d.tables, s.calls[i].input.requestId);
  }

  lemma PaidAfter(s: State, u: State, d: State, i: nat, report: string)
    requires i in s.calls && Reserved(s, u, i) && EndsFresh(u, d, i, report)
    ensures Paid(s.books, s.tables, d, s.calls[i], report) && OnlyCall(s, d, i)
  {
  }

  /** How a call whose entitlement is usable ends. */
  lemma FromReserve(s: State, i: nat, ports: Ports)
    requires i in s.calls && s.calls[i].pc == Reserve && Mirrors(s.books, s.tables) && Usable(s.books, s.calls[i].input)
    ensures var (c, d) := (s.calls[i], Drive(s, i, ports));
      && OnlyCall(s, d, i)
      && if !ports.reserveOk then d.calls[i].pc == Done(Failed) && d.books == s.books && d.tables == s.tables
         else if c.input.entitlementId !in s.tables.entitlements then d.calls[i].pc == Threw(true)
           && Stuck(s.books, s.tables, d, c)
         else if !Good(ports) then d.calls[i].pc == Done(Failed) && GivenBack(s.books, s.tables, d, c.input.requestId)
         else d.calls[i].pc == Done(Fresh(SnapId(c.input.requestId), ports.evaluated.value.report))
              && Paid(s.books, s.tables, d, c, ports.evaluated.value.report)
  {
    Reservation(s, i, ports);
    var t := Resume(s, i, ports);
    var u := Resume(t, i, ports);
    var d := Drive(u, i, ports);
    assert Drive(s, i, ports) == Drive(t, i, ports) == d;
    if ports.reserveOk {
      FromMarking(u, i, ports);
      if s.calls[i].input.entitlementId !in s.tables.entitlements {
        StuckAfter(s, u, d, i);
      } else if Good(ports) {
        PaidAfter(s, u, d, i, ports.evaluated.value.report);
      } else {
        GivenBackAfter(s, u, d, i);
      }
    }
  }

  lemma AnswerCompleted(b: Books, t: Tables, input: ScanInput, now: int, ports: Ports)
    requires Sound(b, t) && HasCompleted(t, input.requestId)
    ensures var (r, d) := (input.requestId, ExecuteOn(b, t, input, now, ports));
      && SnapId(r) in t.snapshots
      && d.calls[0].pc == Done(Reused(SnapId(r), t.snapshots[SnapId(r)].report)) && d.books == b && d.tables == t
  {
    assert SnapId(input.requestId) in t.snapshots;
    var gate := Resume(State(b, t, map[0 := NewCall(input, now)]), 0, ports);
    var fetch := Resume(gate, 0, ports);
    assert Drive(gate, 0, ports) == Drive(fetch, 0, ports) == fetch;
  }

  lemma ReserveRefused(s: State, i: nat, ports: Ports)
    requires i in s.calls && s.calls[i].pc == Reserve && Coherent(s.books) && !Usable(s.books, s.calls[i].input)
    ensures var d := Drive(s, i, ports);
      d.calls[i].pc == Done(Failed) && d.books == s.books && d.tables == s.tables
  {
    var c := s.calls[i];
    ConsumeOnce(s.books, c.input.entitlementId, c.input.userId, ExecId(c.input.requestId), c.now, "", "", 0);
    var t := Resume(s, i, ports);
    assert Drive(s, i, ports) == Drive(t, i, ports) == t;
  }

  /** Every answer of a call that runs alone. */
  lemma Answer(b: Books, t: Tables, input: ScanInput, now: int, ports: Ports)
    requires Sound(b, t)
    ensures var (r, c, d) := (input.requestId, NewCall(input, now), ExecuteOn(b, t, input, now, ports));
      var pc := d.calls[0].pc;
      if HasCompleted(t, r) then SnapId(r) in t.snapshots
           && pc == Done(Reused(SnapId(r), t.snapshots[SnapId(r)].report)) && d.books == b && d.tables == t
      else if !Usable(b, input) || !ports.reserveOk then pc == Done(Failed) && d.books == b && d.tables == t
      else if input.entitlementId !in t.entitlements then pc == Threw(true) && Stuck(b, t, d, c)
      else if !Good(ports) then pc == Done(Failed) && GivenBack(b, t, d, r)
      else pc == Done(Fresh(SnapId(r), ports.evaluated.value.report)) && Paid(b, t, d, c, ports.evaluated.value.report)
  {
    var s := State(b, t, map[0 := NewCall(input, now)]);
    if HasCompleted(t, input.requestId) {
      AnswerCompleted(b, t, input, now, ports);
    } else {
      var gate := Resume(s, 0, ports);
      assert ExecuteOn(b, t, input, now, ports) == Drive(gate, 0, ports);
      if Usable(b, input) {
        FromReserve(gate, 0, ports);
      } else {
        ReserveRefused(gate, 0, ports);
      }
    }
  }

  // ------------------------------------------------------------------
  // Sequential histories
  // ------------------------------------------------------------------

  datatype Event =
    | Issued(providerTxId: string, userId: string, at: int)
    | Mirrored(row: Entitlement)
    | Scanned(input: ScanInput, now: int, ports: Ports)

  datatype World = World(books: Books, tables: Tables, requests: seq<string>, answers: seq<Pc>)

  const NEW_WORLD := World(Books(map[], map[]), EMPTY_TABLES, [], [])

  function Happen(w: World, ev: Event): World {
    match ev
    case Issued(tx, user, at) => w.(books := IssueOn(w.books, tx, user, at).0)
    case Mirrored(row) => w.(tables := Written(w.tables, IssueRow(row.(status := ISSUED))))
    case Scanned(input, now, ports) =>
      var d := ExecuteOn(w.books, w.tables, input, now, ports);
      World(d.books, d.tables, w.requests + [input.requestId], w.answers + [d.calls[0].pc])
  }

  function History(events: seq<Event>): World {
    if events == [] then NEW_WORLD else Happen(History(events[..|events| - 1]), events[|events| - 1])
  }

  lemma RowReplacedKeepsLinks(t: Tables, u: Tables, r: string)
    requires Linked(t) && !HasCompleted(t, r) && RowReplaced(t, u, r) && u.snapshots == t.snapshots
    ensures Linked(u)
  {
    forall q ensures HasCompleted(u, q) <==> HasCompleted(t, q)
      ensures q != r && HasCompleted(t, q) ==> u.scanExecutions[ExecId(q)] == t.scanExecutions[ExecId(q)]
    {
      if q != r {
        assert ExecId(q)[5..] == q && ExecId(r)[5..] == r;
      }
    }
  }

  lemma PaidKeepsLinks(b: Books, t: Tables, d: State, c: Call, report: string)
    requires Linked(t) && !HasCompleted(t, c.input.requestId) && Paid(b, t, d, c, report)
    ensures Linked(d.tables)
    ensures forall q :: HasCompleted(t, q) ==>
      HasCompleted(d.tables, q) && SnapId(q) in d.tables.snapshots && SnapId(q) in t.snapshots
      && d.tables.snapshots[SnapId(q)] == t.snapshots[SnapId(q)]
  {
    var r, u := c.input.requestId, d.tables;
    assert SnapId(r) !in t.snapshots;
    forall q | q != r
      ensures HasCompleted(u, q) <==> HasCompleted(t, q)
      ensures SnapId(q) in u.snapshots <==> SnapId(q) in t.snapshots
      ensures HasCompleted(t, q) ==> u.scanExecutions[ExecId(q)] == t.scanExecutions[ExecId(q)]
      ensures SnapId(q) in t.snapshots ==> u.snapshots[SnapId(q)] == t.snapshots[SnapId(q)]
    {
      assert ExecId(q)[5..] == q && ExecId(r)[5..] == r;
      assert SnapId(q)[5..] == q && SnapId(r)[5..] == r;
    }
  }

  lemma StuckKeepsMirrors(b: Books, t: Tables, d: State, c: Call)
    requires Sound(b, t) && Usable(b, c.input) && Stuck(b, t, d, c)
    ensures Mirrors(d.books, d.tables)
  {
    CallsKeepCoherence(b, "", c.input.entitlementId, c.input.userId, ExecId(c.input.requestId), c.now);
    ConsumeOnce(b, c.input.entitlementId, c.input.userId, ExecId(c.input.requestId), c.now, "", "", 0);
  }

  lemma PaidKeepsMirrors(b: Books, t: Tables, d: State, c: Call, report: string)
    requires Sound(b, t) && Usable(b, c.input) && Paid(b, t, d, c, report)
    ensures Mirrors(d.books, d.tables)
  {
    CallsKeepCoherence(b, "", c.input.entitlementId, c.input.userId, ExecId(c.input.requestId), c.now);
    ConsumeOnce(b, c.input.entitlementId, c.input.userId, ExecId(c.input.requestId), c.now, "", "", 0);
  }

  lemma GivenBackKeepsMirrors(b: Books, t: Tables, d: State, r: string)
    requires Sound(b, t) && GivenBack(b, t, d, r)
    ensures Mirrors(d.books, d.tables)
  {
  }

  lemma ScanKeepsMirrors(b: Books, t: Tables, input: ScanInput, now: int, ports: Ports)
    requires Sound(b, t)
    ensures var d := ExecuteOn(b, t, input, now, ports); Mirrors(d.books, d.tables)
  {
    Answer(b, t, input, now, ports);
    var c, d := NewCall(input, now), ExecuteOn(b, t, input, now, ports);
    if HasCompleted(t, input.requestId) || !Usable(b, input) || !ports.reserveOk {
    } else if input.entitlementId !in t.entitlements {
      StuckKeepsMirrors(b, t, d, c);
    } else if !Good(ports) {
      GivenBackKeepsMirrors(b, t, d, input.requestId);
    } else {
      PaidKeepsMirrors(b, t, d, c, ports.evaluated.value.report);
    }
  }

  /** Results given so far are on record, and the records are sound. */
  ghost predicate Kept(w: World) {
    && Sound(w.books, w.tables) && |w.requests| == |w.answers|
    && forall i :: 0 <= i < |w.answers| ==> Recorded(w.tables, w.requests[i], w.answers[i])
  }

  predicate Gives(pc: Pc) { pc.Done? && !pc.outcome.Failed? }

  /** The result in `pc`, if any, is the one stored for the request. */
  predicate Recorded(t: Tables, r: string, pc: Pc) {
    Gives(pc) ==>
      && HasCompleted(t, r) && SnapId(r) in t.snapshots
      && pc.outcome.snapshotId == SnapId(r) && pc.outcome.report == t.snapshots[SnapId(r)].report
  }

  lemma ScanKeeps(b: Books, t: Tables, input: ScanInput, now: int, ports: Ports)
    requires Sound(b, t)
    ensures var d := ExecuteOn(b, t, input, now, ports);
      && Sound(d.books, d.tables)
      && Recorded(d.tables, input.requestId, d.calls[0].pc)
      && forall q, pc :: Recorded(t, q, pc) ==> Recorded(d.tables, q, pc)
  {
    Answer(b, t, input, now, ports);
    ScanKeepsMirrors(b, t, input, now, ports);
    var r, d := input.requestId, ExecuteOn(b, t, input, now, ports);
    if HasCompleted(t, r) || (d.books == b && d.tables == t) {
    } else if d.calls[0].pc.Done? && d.calls[0].pc.outcome.Fresh? {
      PaidKeepsLinks(b, t, d, NewCall(input, now), d.calls[0].pc.outcome.report);
      assert SnapId(r) !in t.snapshots;
    } else {
      RowReplacedKeepsLinks(t, d.tables, r);
      forall q ensures HasCompleted(t, q) ==> HasCompleted(d.tables, q) {
        assert Linked(d.tables);
      }
    }
  }

  lemma EventKeeps(w: World, ev: Event)
    requires Kept(w)
    ensures Kept(Happen(w, ev))
  {
    match ev
    case Issued(tx, user, at) =>
      CallsKeepCoherence(w.books, tx, "", "", "", at);
    case Mirrored(row) =>
      var u := Written(w.tables, IssueRow(row.(status := ISSUED)));
      assert forall r :: HasCompleted(u, r) <==> HasCompleted(w.tables, r);
    case Scanned(input, now, ports) =>
      ScanKeeps(w.books, w.tables, input, now, ports);
  }

  lemma {:induction false} HistoryKeeps(events: seq<Event>)
    ensures Kept(History(events))
    decreases |events|
  {
    if events != [] {
      HistoryKeeps(events[..|events| - 1]);
      EventKeeps(History(events[..|events| - 1]), events[|events| - 1]);
    }
  }

  /** Once a request has its result, every later call for it - whatever user,
      token or entitlement it names - answers with the same snapshot and report,
      and changes no ledger and no table. */
  lemma ResultRepeats(events: seq<Event>, i: nat, input: ScanInput, now: int, ports: Ports)
    requires i < |History(events).answers| == |History(events).requests|
    requires Gives(History(events).answers[i]) && History(events).requests[i] == input.requestId
    ensures var (w, first) := (History(events), History(events).answers[i].outcome);
      var d := ExecuteOn(w.books, w.tables, input, now, ports);
      && d.calls[0].pc == Done(Reused(first.snapshotId, first.report))
      && d.books == w.books && d.tables == w.tables
  {
    HistoryKeeps(events);
    var w := History(events);
    assert Recorded(w.tables, w.requests[i], w.answers[i]);
    Answer(w.books, w.tables, input, now, ports);
  }

  /** So in a sequential history a request gets at most one new paid result. */
  lemma {:induction false} OneFreshAnswer(events: seq<Event>, i: nat, j: nat)
    requires i < j < |History(events).answers| == |History(events).requests|
    requires History(events).requests[i] == History(events).requests[j] && Gives(History(events).answers[i])
    ensures History(events).answers[j] ==
      Done(Reused(History(events).answers[i].outcome.snapshotId, History(events).answers[i].outcome.report))
    decreases |events|
  {
    var n := |events| - 1;
    var before := History(events[..n]);
    HistoryKeeps(events[..n]);
    if j < |before.answers| {
      OneFreshAnswer(events[..n], i, j);
    } else {
      var ev := events[n];
      assert ev.Scanned?;
      ResultRepeats(events[..n], i, ev.input, ev.now, ev.ports);
    }
  }

  /** A failed call leaves its entitlement as it was, so that the next call whose
      ports answer well delivers - whenever the entitlement's row is stored. */
  lemma FailureLeavesConsumable(events: seq<Event>, input: ScanInput, now: int, ports: Ports, later: int, good: Ports)
    requires var w := History(events);
      && input.entitlementId in w.tables.entitlements && Usable(w.books, input)
      && ExecuteOn(w.books, w.tables, input, now, ports).calls[0].pc == Done(Failed)
    requires Good(good)
    ensures var w := History(events);
      var d := ExecuteOn(w.books, w.tables, input, now, ports);
      && d.books == w.books && d.tables.usage == w.tables.usage && d.tables.entitlements == w.tables.entitlements
      && d.tables.snapshots == w.tables.snapshots
      && ExecuteOn(d.books, d.tables, input, later, good).calls[0].pc
           == Done(Fresh(SnapId(input.requestId), good.evaluated.value.report))
  {
    HistoryKeeps(events);
    var w := History(events);
    var d := ExecuteOn(w.books, w.tables, input, now, ports);
    Answer(w.books, w.tables, input, now, ports);
    ScanKeeps(w.books, w.tables, input, now, ports);
    assert SnapId(input.requestId) in d.tables.snapshots <==> HasCompleted(d.tables, input.requestId);
    Answer(d.books, d.tables, input, later, good);
  }

  /** Without the stored row it is stuck: the failure path throws before the
      ledger releases, and the next call with that entitlement delivers nothing. */
  lemma UnmirroredIsStuck(events: seq<Event>, input: ScanInput, now: int, ports: Ports, other: ScanInput,
                          later: int, good: Ports)
    requires var w := History(events);
      && input.entitlementId !in w.tables.entitlements && Usable(w.books, input)
      && !HasCompleted(w.tables, input.requestId) && ports.reserveOk
    requires other.entitlementId == input.entitlementId
    ensures var w := History(events);
      var d := ExecuteOn(w.books, w.tables, input, now, ports);
      && d.calls[0].pc == Threw(true)
      && !Delivered(ExecuteOn(d.books, d.tables, other, later, good).calls[0].pc)
  {
    HistoryKeeps(events);
    var w := History(events);
    var d := ExecuteOn(w.books, w.tables, input, now, ports);
    Answer(w.books, w.tables, input, now, ports);
    ScanKeeps(w.books, w.tables, input, now, ports);
    ConsumeOnce(w.books, input.entitlementId, input.userId, ExecId(input.requestId), now, "", "", 0);
    Answer(d.books, d.tables, other, later, good);
  }

  // ------------------------------------------------------------------
  // The service
  // ------------------------------------------------------------------

  function Alone(b: Books, t: Tables, c: Call): State { State(b, t, map[0 := c]) }

  lemma AtAlone(b: Books, t: Tables, c: Call, d: Call, pc: Pc)
    ensures At(Alone(b, t, c), 0, d, pc) == Alone(b, t, d.(pc := pc))
  {
    assert map[0 := c][0 := d.(pc := pc)] == map[0 := d.(pc := pc)];
  }

  /** A step that only moves the call. */
  lemma Moved(b: Books, t: Tables, c: Call, pc: Pc, ports: Ports)
    requires c.pc in {Gate, Acquiring, Evaluating} || c.pc.Fetch?
    requires Resume(Alone(b, t, c), 0, ports) == At(Alone(b, t, c), 0, c, pc)
    ensures Drive(Alone(b, t, c), 0, ports) == Drive(Alone(b, t, c.(pc := pc)), 0, ports)
  {
    AtAlone(b, t, c, c, pc);
  }

  lemma MarkAlone(b: Books, t: Tables, c: Call, ports: Ports)
    requires c.pc == Marking
    ensures Drive(Alone(b, t, c), 0, ports) ==
      var begun := BeginExecuting(c.exec);
      if begun.None? then Drive(Alone(b, t, c.(pc := Acquiring)), 0, ports)
      else Drive(Alone(b, Written(t, PutExecution(begun.value)), c.(exec := begun.value, pc := Acquiring)), 0, ports)
  {
    var begun := BeginExecuting(c.exec);
    AtAlone(b, t, c, c, Acquiring);
    if begun.Some? {
      AtAlone(b, t, c, c.(exec := begun.value), Acquiring);
    }
  }

  lemma PersistAlone(b: Books, t: Tables, c: Call, ports: Ports)
    requires c.pc.Persisting?
    ensures Drive(Alone(b, t, c), 0, ports) ==
      var (u, done) := Transacted(t, PersistWrites(c, c.pc.found, ports.finishedAt),
                                  !ports.persistOk || Completed(c, ports.finishedAt).None?);
      var next := if done then Done(Fresh(SnapId(c.input.requestId), c.pc.found.report)) else Failing;
      Drive(Alone(b, u, c.(pc := next)), 0, ports)
  {
    AtAlone(b, t, c, c, Failing);
    AtAlone(b, t, c, c, Done(Fresh(SnapId(c.input.requestId), c.pc.found.report)));
  }

  lemma FailAlone(b: Books, t: Tables, c: Call, ports: Ports)
    requires c.pc == Failing
    ensures Drive(Alone(b, t, c), 0, ports) ==
      var (u, done) := Transacted(t, FailWrites(c), false);
      if done then Alone(ReleaseOn(b, c.input.entitlementId).0, u, c.(pc := Done(Failed)))
      else Alone(b, u, c.(pc := Threw(true)))
  {
    var (u, done) := Transacted(t, FailWrites(c), false);
    AtAlone(b, t, c, c, Threw(true));
    AtAlone(b, t, c, c, Releasing);
    AtAlone(b, u, c.(pc := Releasing), c.(pc := Releasing), Done(Failed));
    if done {
      assert Drive(Alone(b, u, c.(pc := Releasing)), 0, ports) == Resume(Alone(b, u, c.(pc := Releasing)), 0, ports);
    }
  }

  lemma ReserveAlone(b: Books, t: Tables, input: ScanInput, now: int, ports: Ports)
    ensures var c := NewCall(input, now);
      Drive(Alone(b, t, c.(pc := Reserve)), 0, ports) ==
      var (books, taken) := ConsumeOn(b, input.entitlementId, input.userId, ExecId(input.requestId), now);
      var (u, done) := Transacted(t, ReserveWrites(c), !ports.reserveOk);
      if taken.Err? then Alone(b, t, c.(pc := Done(Failed)))
      else if done then Drive(Alone(books, u, c.(pc := Marking)), 0, ports)
      else Alone(ReleaseOn(books, input.entitlementId).0, u, c.(pc := Done(Failed)))
  {
    var c := NewCall(input, now);
    var s := Alone(b, t, c.(pc := Reserve));
    var (books, taken) := ConsumeOn(b, input.entitlementId, input.userId, ExecId(input.requestId), now);
    AtAlone(b, t, c.(pc := Reserve), c.(pc := Reserve), Done(Failed));
    AtAlone(b, t, c.(pc := Reserve), c.(pc := Reserve), Reserving);
    if taken.Ok? {
      var mid := Alone(books, t, c.(pc := Reserving));
      assert Resume(s, 0, ports) == mid;
      assert ReserveWrites(c.(pc := Reserving)) == ReserveWrites(c);
      AtAlone(books, t, c.(pc := Reserving), c.(pc := Reserving), Marking);
      AtAlone(books, t, c.(pc := Reserving), c.(pc := Reserving), Done(Failed));
      assert Drive(s, 0, ports) == Drive(Resume(mid, 0, ports), 0, ports);
    }
  }

  lemma GateAlone(b: Books, t: Tables, input: ScanInput, now: int, ports: Ports)
    ensures var c := NewCall(input, now);
      Drive(Alone(b, t, c), 0, ports) ==
      if HasCompleted(t, input.requestId) && t.scanExecutions[ExecId(input.requestId)].reportRef.value in t.snapshots
      then var ref := t.scanExecutions[ExecId(input.requestId)].reportRef.value;
           Alone(b, t, c.(pc := Done(Reused(ref, t.snapshots[ref].report))))
      else Drive(Alone(b, t, c.(pc := Reserve)), 0, ports)
  {
    var c := NewCall(input, now);
    if HasCompleted(t, input.requestId) {
      var ref := t.scanExecutions[ExecId(input.requestId)].reportRef.value;
      Moved(b, t, c, Fetch(ref), ports);
      var next := if ref in t.snapshots then Done(Reused(ref, t.snapshots[ref].report)) else Reserve;
      Moved(b, t, c.(pc := Fetch(ref)), next, ports);
    } else {
      Moved(b, t, c, Reserve, ports);
    }
  }

  class ScanService {
    const ledger: EntitlementLedger
    const uow: InMemoryUnitOfWork

    constructor (ledger: EntitlementLedger, uow: InMemoryUnitOfWork)
      ensures this.ledger == ledger && this.uow == uow
    {
      this.ledger, this.uow := ledger, uow;
    }

    /** Takes the entitlement and stores the request, its execution and the usage
        row - or gives the entitlement back. */
    method Reserve(input: ScanInput, now: int, ports: Ports) returns (exec: Option<ScanExecution>)
      modifies ledger, uow
      ensures var c := NewCall(input, now);
        var (b, t) := (old(ledger.State()), old(uow.State()));
        var (books, taken) := ConsumeOn(b, input.entitlementId, input.userId, ExecId(input.requestId), now);
        var (tables, done) := Transacted(t, ReserveWrites(c), !ports.reserveOk);
        && exec == (if taken.Ok? && done then Some(c.exec) else None)
        && ledger.State() == (if taken.Err? then b else if done then books else ReleaseOn(books, input.entitlementId).0)
        && uow.State() == (if taken.Err? then t else tables)
    {
      var consumed := ledger.Consume(input.entitlementId, input.userId, ExecId(input.requestId), now);
      if consumed.Err? {
        return None;
      }
      var c := NewCall(input, now);
      var stored := uow.Transaction(ReserveWrites(c), !ports.reserveOk);
      if !stored {
        var _ := ledger.ReleaseIfUnused(input.entitlementId);
        return None;
      }
      return Some(c.exec);
    }

    /** The failure path; it throws when the entitlement's row is missing. */
    method FailAndRelease(c: Call, ghost ports: Ports) returns (end: Pc)
      requires c.pc == Failing
      modifies ledger, uow
      ensures Drive(Alone(old(ledger.State()), old(uow.State()), c), 0, ports)
        == Alone(ledger.State(), uow.State(), c.(pc := end))
    {
      FailAlone(ledger.State(), uow.State(), c, ports);
      var stored := uow.Transaction(FailWrites(c), false);
      if !stored {
        return Threw(true);
      }
      var _ := ledger.ReleaseIfUnused(c.input.entitlementId);
      return Done(Failed);
    }

    /** The final transaction, and the failure path when it is rolled back. */
    method Deliver(c: Call, ports: Ports) returns (end: Pc)
      requires c.pc.Persisting?
      modifies ledger, uow
      ensures Drive(Alone(old(ledger.State()), old(uow.State()), c), 0, ports)
        == Alone(ledger.State(), uow.State(), c.(pc := end))
    {
      var found := c.pc.found;
      PersistAlone(ledger.State(), uow.State(), c, ports);
      var done := uow.Transaction(PersistWrites(c, found, ports.finishedAt),
                                  !ports.persistOk || Completed(c, ports.finishedAt).None?);
      if !done {
        end := FailAndRelease(c.(pc := Failing), ports);
        return;
      }
      return Done(Fresh(SnapId(c.input.requestId), found.report));
    }

    /** The execution row is marked as executing. */
    method Mark(c: Call, ghost ports: Ports) returns (at: Call)
      requires c.pc == Marking
      modifies uow
      ensures at.pc == Acquiring
      ensures Drive(Alone(ledger.State(), old(uow.State()), c), 0, ports)
        == Drive(Alone(ledger.State(), uow.State(), at), 0, ports)
    {
      MarkAlone(ledger.State(), uow.State(), c, ports);
      at := c.(pc := Acquiring);
      var begun := BeginExecuting(c.exec);
      if begun.Some? {
        at := at.(exec := begun.value);
        var _ := uow.Perform(PutExecution(begun.value));
      }
    }

    /** Everything after the reservation. */
    method Produce(c: Call, ports: Ports) returns (end: Pc)
      requires c.pc == Marking
      modifies ledger, uow
      ensures var d := Drive(Alone(old(ledger.State()), old(uow.State()), c), 0, ports);
        0 in d.calls && d.calls[0].pc == end && d.books == ledger.State() && d.tables == uow.State()
    {
      var at := Mark(c, ports);
      ghost var b, t := ledger.State(), uow.State();
      Moved(b, t, at, if ports.acquired then Evaluating else Failing, ports);
      if !ports.acquired {
        end := FailAndRelease(at.(pc := Failing), ports);
        return;
      }
      at := at.(pc := Evaluating);
      Moved(b, t, at, if ports.evaluated.Some? then Persisting(ports.evaluated.value) else Failing, ports);
      if ports.evaluated.None? {
        end := FailAndRelease(at.(pc := Failing), ports);
        return;
      }
      end := Deliver(at.(pc := Persisting(ports.evaluated.value)), ports);
    }

    /** One call, run alone, is the state machine driven to its end. */
    method Execute(input: ScanInput, now: int, ports: Ports) returns (end: Pc)
      modifies ledger, uow
      ensures var d := ExecuteOn(old(ledger.State()), old(uow.State()), input, now, ports);
        d.calls[0].pc == end && d.books == ledger.State() && d.tables == uow.State()
    {
      var c := NewCall(input, now);
      GateAlone(ledger.State(), uow.State(), input, now, ports);
      if HasCompleted(uow.State(), input.requestId) {
        var ref := uow.scanExecutions[ExecId(input.requestId)].reportRef.value;
        if ref in uow.snapshots {
          return Done(Reused(ref, uow.snapshots[ref].report));
        }
      }
      ReserveAlone(ledger.State(), uow.State(), input, now, ports);
      var exec := Reserve(input, now, ports);
      if exec.None? {
        return Done(Failed);
      }
      end := Produce(c.(pc := Marking), ports);
    }
  }
}
