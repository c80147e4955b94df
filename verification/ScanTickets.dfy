/** What every run of the scan endpoint keeps between requests, their one-shot
    tickets and the results of their scans. */
module ScanTickets {
  import opened Results
  import opened ScanEndpoint
  import W = PaymentWebhook
  import E = Entitlements
  import L = ScanOnce
  import P = ScanProtocol
  import S = Store

  function InputOf(q: Request, n: nat): P.ScanInput {
    P.ScanInput(OpOf(q, n), q.userId, q.token, TicketOf(q, n))
  }

  /** Each call runs for the request of its own number, on that request's ticket. */
  ghost predicate CallsOwned(a: App) {
    && (forall n :: n in a.requests ==> n <= a.opSeq)
    && (forall n :: n in a.core.calls ==> n in a.requests && a.core.calls[n].input == InputOf(a.requests[n], n))
  }

  predicate NewResult(a: App, n: nat) { n in a.core.calls && P.Delivered(a.core.calls[n].pc) }

  /** Where a request stands says where its call stands. */
  predicate Placed(a: App, n: nat)
    requires n in a.requests
  {
    match a.requests[n].pc
    case Checking => n !in a.core.calls
    case Mirroring(ticket) =>
      n !in a.core.calls && ticket.id == TicketOf(a.requests[n], n) && ticket.status == E.ISSUED
    case Scanning => n in a.core.calls
    case Counting => n in a.core.calls && a.core.calls[n].pc.Done? && !a.core.calls[n].pc.outcome.Failed?
    case Answered(status) =>
      if status == 200 then n in a.core.calls && a.core.calls[n].pc.Done? && !a.core.calls[n].pc.outcome.Failed?
      else n !in a.core.calls || a.core.calls[n].pc == P.Done(P.Failed)
    case Crashed => true
  }

  /** No ticket has been issued under a number still to be drawn or still being checked. */
  ghost predicate TicketsFresh(a: App) {
    && (forall u, t, n: nat :: n > a.opSeq ==> E.EntitlementIdFor(OpId(u, t, n)) !in a.core.books.entitlements)
    && (forall n :: n in a.requests && a.requests[n].pc == Checking ==>
         TicketOf(a.requests[n], n) !in a.core.books.entitlements)
  }

  ghost predicate Ticketing(a: App) {
    && CallsOwned(a) && TicketsFresh(a) && L.Once(a.core)
    && (forall n :: n in a.requests ==> Placed(a, n))
  }

  lemma TicketsDiffer(u: string, t: int, n: nat, v: string, s: int, m: nat)
    requires n != m
    ensures E.EntitlementIdFor(OpId(u, t, n)) != E.EntitlementIdFor(OpId(v, s, m))
  {
    OpIdsDiffer(u, t, n, v, s, m);
    assert E.EntitlementIdFor(OpId(u, t, n))[4..] == OpId(u, t, n)
      && E.EntitlementIdFor(OpId(v, s, m))[4..] == OpId(v, s, m);
  }

  lemma OwnRequestIds(a: App, i: nat, j: nat)
    requires CallsOwned(a) && i in a.core.calls && j in a.core.calls && i != j
    ensures a.core.calls[i].input.requestId != a.core.calls[j].input.requestId
    ensures a.core.calls[i].input.entitlementId != a.core.calls[j].input.entitlementId
  {
    var p, q := a.requests[i], a.requests[j];
    OpIdsDiffer(p.userId, p.at, i, q.userId, q.at, j);
    TicketsDiffer(p.userId, p.at, i, q.userId, q.at, j);
  }

  lemma OwnedSameEntitlement(a: App)
    requires CallsOwned(a)
    ensures L.SameEntitlement(a.core)
  {
    forall i, j | i in a.core.calls && j in a.core.calls
      && a.core.calls[i].input.requestId == a.core.calls[j].input.requestId
      ensures a.core.calls[i].input.entitlementId == a.core.calls[j].input.entitlementId
    {
      if i != j {
        OwnRequestIds(a, i, j);
      }
    }
  }

  lemma CoreStep(a: App, act: P.Action)
    requires Ticketing(a) && P.Enabled(a.core, act)
    ensures L.Once(P.Step(a.core, act))
  {
    OwnedSameEntitlement(a);
    L.StepKeepsOnce(a.core, act);
  }

  /** A step of request `n` that leaves the calls and tickets alone. */
  lemma PlaceKeeps(a: App, b: App, n: nat)
    requires Ticketing(a) && b.core == a.core && b.opSeq == a.opSeq && n in a.requests && n in b.requests
    requires b.requests == a.requests[n := b.requests[n]] && b.requests[n].pc != Checking && Placed(b, n)
    requires OpOf(b.requests[n], n) == OpOf(a.requests[n], n) && InputOf(b.requests[n], n) == InputOf(a.requests[n], n)
    ensures Ticketing(b)
  {
    forall k | k in b.requests ensures Placed(b, k) {
      assert k != n ==> Placed(a, k);
    }
  }

  lemma PostKeeps(a: App, act: Action)
    requires Ticketing(a) && act.Post? && Enabled(a, act)
    ensures Ticketing(Step(a, act))
  {
    var b, n := Step(a, act), a.opSeq + 1;
    assert n !in a.requests && n !in a.core.calls;
    forall k | k in b.requests ensures Placed(b, k) {
      assert k != n ==> Placed(a, k);
    }
    forall k | k in b.requests && b.requests[k].pc == Checking
      ensures TicketOf(b.requests[k], k) !in b.core.books.entitlements
    {
      assert k == n ==> E.EntitlementIdFor(OpId(act.userId, act.at, n)) !in a.core.books.entitlements;
    }
  }

  /** Issuing the ticket of a checked request. */
  lemma IssueKeeps(a: App, desk: W.Desk, n: nat, q: Request, now: int)
    requires Ticketing(a) && n in a.requests && a.requests[n].pc == Checking
    requires q == a.requests[n].(source := q.source)
    ensures Ticketing(IssueTicket(a.(desk := desk), n, q, now))
  {
    var b := IssueTicket(a.(desk := desk), n, q, now);
    CoreStep(a, P.Issue(OpOf(q, n), q.userId, now));
    assert b.core == P.Step(a.core, P.Issue(OpOf(q, n), q.userId, now));
    assert TicketOf(a.requests[n], n) !in a.core.books.entitlements;
    assert Placed(a, n);
    forall k | k in b.requests ensures Placed(b, k) {
      assert k != n ==> Placed(a, k);
    }
    forall u, t, k: nat | k > b.opSeq ensures E.EntitlementIdFor(OpId(u, t, k)) !in b.core.books.entitlements {
      TicketsDiffer(u, t, k, q.userId, q.at, n);
    }
    forall k | k in b.requests && b.requests[k].pc == Checking
      ensures TicketOf(b.requests[k], k) !in b.core.books.entitlements
    {
      TicketsDiffer(b.requests[k].userId, b.requests[k].at, k, q.userId, q.at, n);
    }
  }

  lemma CapKeeps(a: App, act: Action)
    requires Ticketing(a) && act.CapAnswered? && Enabled(a, act)
    ensures Ticketing(Step(a, act))
  {
    var n, q, b := act.n, a.requests[act.n], Step(a, act);
    assert Placed(a, n);
    if b.requests[n].pc.Mirroring? {
      IssueKeeps(a, b.desk, n, b.requests[n].(pc := Checking), act.now);
    } else {
      PlaceKeeps(a, b, n);
    }
  }

  /** The state with the row stored and nothing else done. */
  function Stored(a: App, n: nat): App
    requires n in a.requests && a.requests[n].pc.Mirroring?
  {
    a.(core := a.core.(tables := S.Written(a.core.tables, S.IssueRow(a.requests[n].pc.ticket))))
  }

  lemma RowKeeps(a: App, n: nat)
    requires Ticketing(a) && n in a.requests && a.requests[n].pc.Mirroring?
    ensures Ticketing(Stored(a, n)) && n !in a.core.calls
  {
    var b := Stored(a, n);
    assert Placed(a, n);
    CoreStep(a, P.Mirror(a.requests[n].pc.ticket));
    assert b.core == P.Step(a.core, P.Mirror(a.requests[n].pc.ticket));
    forall k | k in b.requests ensures Placed(b, k) {
      assert Placed(a, k);
    }
  }

  lemma ArriveKeeps(a: App, b: App, n: nat, now: int)
    requires Ticketing(a) && n in a.requests && a.requests[n].pc.Mirroring? && n !in a.core.calls
    requires b == With(a, n, a.requests[n].(pc := Scanning))
      .(core := a.core.(calls := a.core.calls[n := P.NewCall(InputOf(a.requests[n], n), now)]))
    ensures Ticketing(b)
  {
    CoreStep(a, P.Arrive(n, InputOf(a.requests[n], n), now));
    assert b.core == P.Step(a.core, P.Arrive(n, InputOf(a.requests[n], n), now));
    forall k | k in b.requests ensures Placed(b, k) {
      assert k != n ==> Placed(a, k);
    }
  }

  lemma StoredKeeps(a: App, act: Action)
    requires Ticketing(a) && act.RowStored? && Enabled(a, act)
    ensures Ticketing(Step(a, act))
  {
    var n, b := act.n, Step(a, act);
    RowKeeps(a, n);
    assert Placed(a, n);
    if a.requests[n].wellFormed {
      ArriveKeeps(Stored(a, n), b, n, act.now);
    } else {
      PlaceKeeps(Stored(a, n), b, n);
    }
  }

  /** A call's own move changes no other call, no input and issues no ticket. */
  predicate OwnMove(s: P.State, t: P.State, i: nat) {
    && i in s.calls && i in t.calls && t.calls == s.calls[i := t.calls[i]] && t.calls[i].input == s.calls[i].input
    && t.books.entitlements.Keys == s.books.entitlements.Keys
  }

  lemma TransactionMoves(s: P.State, i: nat, ports: P.Ports)
    requires i in s.calls
    ensures OwnMove(s, P.CommitReservation(s, i, s.calls[i], ports.reserveOk), i)
    ensures s.calls[i].pc.Persisting? ==> OwnMove(s, P.Persist(s, i, s.calls[i], s.calls[i].pc.found, ports), i)
    ensures OwnMove(s, P.FailTransaction(s, i, s.calls[i]), i)
  {
  }

  lemma ResumeMoves(s: P.State, i: nat, ports: P.Ports)
    requires i in s.calls && P.Running(s.calls[i].pc)
    ensures OwnMove(s, P.Resume(s, i, ports), i)
  {
    match s.calls[i].pc
    case Reserving => TransactionMoves(s, i, ports);
    case Persisting(_) => TransactionMoves(s, i, ports);
    case Failing => TransactionMoves(s, i, ports);
    case _ =>
  }

  lemma OwnMoveKeeps(a: App, b: App, n: nat)
    requires Ticketing(a) && n in a.requests && a.requests[n].pc == Scanning
    requires b == a.(core := b.core) && L.Once(b.core) && OwnMove(a.core, b.core, n)
    ensures Ticketing(b)
  {
    forall k | k in b.requests ensures Placed(b, k) {
      assert Placed(a, k);
    }
  }

  lemma MoveKeeps(a: App, act: Action)
    requires Ticketing(a) && act.ScanMoves? && Enabled(a, act)
    ensures Ticketing(Step(a, act))
  {
    CoreStep(a, act.move);
    if act.move.Go? {
      ResumeMoves(a.core, act.n, act.move.ports);
    }
    OwnMoveKeeps(a, Step(a, act), act.n);
  }

  lemma StepKeepsTickets(a: App, act: Action)
    requires Ticketing(a) && Enabled(a, act)
    ensures Ticketing(Step(a, act))
  {
    match act
    case Settle(_) => Reframed(a, Step(a, act));
    case Skip => Reframed(a, Step(a, act));
    case Post(_, _, _, _, _, _, _) => PostKeeps(a, act);
    case CapAnswered(_, _, _, _) => CapKeeps(a, act);
    case RowStored(_, _) => StoredKeeps(a, act);
    case ScanMoves(_, _) => MoveKeeps(a, act);
    case ScanEnded(n, _) => PlaceKeeps(a, Step(a, act), n);
    case Counted(n) => assert Placed(a, n); PlaceKeeps(a, Step(a, act), n);
    case Crash(n) => PlaceKeeps(a, Step(a, act), n);
  }

  lemma Reframed(a: App, b: App)
    requires Ticketing(a) && b.core == a.core && b.requests == a.requests && b.opSeq >= a.opSeq
    ensures Ticketing(b)
  {
    forall k | k in b.requests ensures Placed(b, k) {
      assert Placed(a, k);
    }
  }

  lemma {:induction false} RunKeepsTickets(a: App, acts: seq<Action>)
    requires Ticketing(a) && Possible(a, acts)
    ensures Ticketing(Run(a, acts))
    decreases |acts|
  {
    if acts != [] {
      StepKeepsTickets(a, acts[0]);
      RunKeepsTickets(Step(a, acts[0]), acts[1..]);
    }
  }

  // ------------------------------------------------------------------
  // Main results
  // ------------------------------------------------------------------

  /** A scan that ends well ends with a new result: nobody else's call carries its request id. */
  lemma EndsNew(a: App, n: nat)
    requires Ticketing(a) && n in a.core.calls && a.core.calls[n].pc.Done? && !a.core.calls[n].pc.outcome.Failed?
    ensures P.Delivered(a.core.calls[n].pc)
  {
    var c := a.core.calls[n];
    assert L.CallSane(a.core, c);
    if c.pc.outcome.Reused? {
      var i :| L.ResultOf(a.core, i, c.input.requestId, c.pc.outcome.report);
      if i != n {
        OwnRequestIds(a, i, n);
      }
    }
  }

  lemma RecordsOf(a: App, n: nat)
    requires Ticketing(a) && n in a.requests
    ensures NewResult(a, n) ==> P.FactsOf(a.core, TicketOf(a.requests[n], n)) == P.ALL
    ensures !(n in a.core.calls && P.Claims(a.core.calls[n].pc)) ==>
      P.FactsOf(a.core, TicketOf(a.requests[n], n)) == P.NONE
  {
    var e := TicketOf(a.requests[n], n);
    if NewResult(a, n) {
      assert P.FactsOf(a.core, e) == P.Expected(a.core.calls[n].pc);
    }
    if P.FactsOf(a.core, e) != P.NONE {
      var i :| P.ClaimedBy(a.core, i, e);
      if i != n {
        TicketsDiffer(a.requests[i].userId, a.requests[i].at, i, a.requests[n].userId, a.requests[n].at, n);
      }
    }
  }

  /** What an answered request has to show. */
  ghost predicate Told(a: App, n: nat)
    requires n in a.requests && a.requests[n].pc.Answered?
  {
    var e := TicketOf(a.requests[n], n);
    if a.requests[n].pc.status == 200
    then NewResult(a, n) && L.OnRecord(a.core, a.core.calls[n]) && P.FactsOf(a.core, e) == P.ALL
    else !NewResult(a, n) && P.FactsOf(a.core, e) == P.NONE
  }

  lemma TellsWhenAnswered(a: App, n: nat)
    requires Ticketing(a) && n in a.requests && a.requests[n].pc.Answered?
    ensures Told(a, n)
  {
    assert Placed(a, n);
    RecordsOf(a, n);
    if a.requests[n].pc.status == 200 {
      EndsNew(a, n);
      assert L.OnRecord(a.core, a.core.calls[n]);
    }
  }

  /** A request answered 200 has a new result on record and its ticket consumed in
      every record; a refused one has no result, and no record says its ticket is consumed. */
  lemma AnswersTell(acts: seq<Action>, n: nat)
    requires Possible(START, acts) && n in Run(START, acts).requests && Run(START, acts).requests[n].pc.Answered?
    ensures Told(Run(START, acts), n)
  {
    StartTickets();
    RunKeepsTickets(START, acts);
    TellsWhenAnswered(Run(START, acts), n);
  }

  lemma StartTickets()
    ensures Ticketing(START)
  {
  }
}
