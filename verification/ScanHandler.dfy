/** The POST /scan handler as one call, with no other request in between: a run of
    the endpoint's own steps. */
module ScanHandler {
  import opened Results
  import opened ScanEndpoint
  import B = Balance
  import E = Entitlements
  import P = ScanProtocol
  import S = Store
  import V = ScanService

  /** What the request carries, and what its awaits will answer. */
  datatype Visit = Visit(
    userId: string, tier: B.Tier, at: int, price: nat, admin: bool, token: string, wellFormed: bool,
    capAllows: bool, promo: bool, now: int, ports: P.Ports)

  function PostOf(v: Visit): Action { Post(v.userId, v.tier, v.at, v.price, v.admin, v.token, v.wellFormed) }

  /** From the started scan to the answer. */
  function Finished(a: App, n: nat, v: Visit): (r: App)
    requires n in a.requests && a.requests[n].pc == Scanning && n in a.core.calls
    ensures n in r.requests
  {
    var scanned := a.(core := V.Drive(a.core, n, v.ports));
    if !scanned.core.calls[n].pc.Done? then With(scanned, n, scanned.requests[n].(pc := Crashed))
    else
      var ended := Step(scanned, ScanEnded(n, v.now));
      if ended.requests[n].pc == Counting then Step(ended, Counted(n)) else ended
  }

  /** From the issued ticket to the answer. */
  function Ticketed(a: App, n: nat, v: Visit): (r: App)
    requires n in a.requests && a.requests[n].pc.Mirroring?
    ensures n in r.requests
  {
    var stored := Step(a, RowStored(n, v.now));
    if stored.requests[n].pc == Scanning then Finished(stored, n, v) else stored
  }

  /** The endpoint's state once a request that runs alone has its answer. */
  function Served(a: App, v: Visit): (r: App)
    ensures a.opSeq + 1 in r.requests
  {
    var n := a.opSeq + 1;
    var checked := Step(Step(a, PostOf(v)), CapAnswered(n, v.capAllows, v.promo, v.now));
    if checked.requests[n].pc.Mirroring? then Ticketed(checked, n, v) else checked
  }

  function Moves(n: nat, steps: seq<P.Action>): (r: seq<Action>)
    ensures |r| == |steps| && forall i :: 0 <= i < |r| ==> r[i] == ScanMoves(n, steps[i])
  {
    seq(|steps|, i requires 0 <= i < |steps| => ScanMoves(n, steps[i]))
  }

  lemma Then(a: App, act: Action, rest: seq<Action>)
    requires Enabled(a, act) && Possible(Step(a, act), rest)
    ensures Possible(a, [act] + rest) && Run(a, [act] + rest) == Run(Step(a, act), rest)
  {
    assert ([act] + rest)[1..] == rest;
  }

  lemma MovesCons(n: nat, move: P.Action, rest: seq<P.Action>)
    ensures Moves(n, [move] + rest) == [ScanMoves(n, move)] + Moves(n, rest)
  {
  }

  lemma MoveLifts(a: App, n: nat, move: P.Action, rest: seq<P.Action>)
    requires n in a.requests && a.requests[n].pc == Scanning
    requires (move.Go? || move.Throw?) && move.i == n && P.Enabled(a.core, move)
    requires Possible(Step(a, ScanMoves(n, move)), Moves(n, rest))
    ensures Possible(a, Moves(n, [move] + rest))
    ensures Run(a, Moves(n, [move] + rest)) == Run(Step(a, ScanMoves(n, move)), Moves(n, rest))
  {
    MovesCons(n, move, rest);
    Then(a, ScanMoves(n, move), Moves(n, rest));
  }

  /** The scan's own run, as moves of the endpoint. */
  lemma {:induction false} MovesRun(a: App, n: nat, steps: seq<P.Action>)
    requires n in a.requests && a.requests[n].pc == Scanning && P.Possible(a.core, steps)
    requires forall k :: 0 <= k < |steps| ==> (steps[k].Go? || steps[k].Throw?) && steps[k].i == n
    ensures Possible(a, Moves(n, steps)) && Run(a, Moves(n, steps)) == a.(core := P.Run(a.core, steps))
    decreases |steps|
  {
    if steps != [] {
      MovesRun(Step(a, ScanMoves(n, steps[0])), n, steps[1..]);
      MoveLifts(a, n, steps[0], steps[1..]);
      assert steps == [steps[0]] + steps[1..];
    }
  }

  lemma {:induction false} RunAppend(a: App, before: seq<Action>, after: seq<Action>)
    requires Possible(a, before) && Possible(Run(a, before), after)
    ensures Possible(a, before + after) && Run(a, before + after) == Run(Run(a, before), after)
    decreases |before|
  {
    if before == [] {
      assert before + after == after;
    } else {
      assert (before + after)[1..] == before[1..] + after;
      RunAppend(Step(a, before[0]), before[1..], after);
    }
  }

  lemma ScanningIsRun(a: App, n: nat, v: Visit) returns (acts: seq<Action>)
    requires n in a.requests && a.requests[n].pc == Scanning && n in a.core.calls
    ensures Possible(a, acts) && Run(a, acts) == Finished(a, n, v)
  {
    var moves := Moves(n, V.Steps(a.core, n, v.ports));
    V.DriveIsRun(a.core, n, v.ports);
    MovesRun(a, n, V.Steps(a.core, n, v.ports));
    var scanned := a.(core := V.Drive(a.core, n, v.ports));
    var last: seq<Action>;
    DriveEnds(a.core, n, v.ports);
    if !scanned.core.calls[n].pc.Done? {
      last := [Crash(n)] + [];
      Then(scanned, Crash(n), []);
    } else {
      var ended := Step(scanned, ScanEnded(n, v.now));
      last := [ScanEnded(n, v.now)] + [];
      if ended.requests[n].pc == Counting {
        Then(ended, Counted(n), []);
        last := [ScanEnded(n, v.now)] + ([Counted(n)] + []);
      }
      Then(scanned, ScanEnded(n, v.now), last[1..]);
    }
    acts := moves + last;
    RunAppend(a, moves, last);
  }

  lemma {:induction false} DriveEnds(s: P.State, i: nat, ports: P.Ports)
    requires i in s.calls
    ensures !P.Running(V.Drive(s, i, ports).calls[i].pc)
    decreases P.Rank(s.calls[i].pc)
  {
    if P.Running(s.calls[i].pc) {
      DriveEnds(P.Resume(s, i, ports), i, ports);
    }
  }

  /** A request served alone is one of the interleavings. */
  lemma ServedIsRun(a: App, v: Visit)
    ensures exists acts :: Possible(a, acts) && Run(a, acts) == Served(a, v)
  {
    var n := a.opSeq + 1;
    var posted := Step(a, PostOf(v));
    var cap := CapAnswered(n, v.capAllows, v.promo, v.now);
    var checked := Step(posted, cap);
    var rest: seq<Action> := [];
    if checked.requests[n].pc.Mirroring? {
      var stored := Step(checked, RowStored(n, v.now));
      var tail: seq<Action> := [];
      if stored.requests[n].pc == Scanning {
        tail := ScanningIsRun(stored, n, v);
      }
      rest := [RowStored(n, v.now)] + tail;
      Then(checked, RowStored(n, v.now), tail);
    }
    Then(posted, cap, rest);
    Then(a, PostOf(v), [cap] + rest);
  }

  // ------------------------------------------------------------------
  // The same, on the ledgers and tables alone
  // ------------------------------------------------------------------

  datatype Till = Till(ledger: B.Ledger, books: E.Books, tables: S.Tables, answer: Pc)

  predicate Free(v: Visit) { v.promo || v.admin }

  function GivenBack(l: B.Ledger, op: string, v: Visit): B.Ledger {
    if Free(v) then l else B.RefundOn(l, v.userId, op, v.now).0
  }

  function TillFinished(l: B.Ledger, b: E.Books, t: S.Tables, op: string, ticket: string, v: Visit): Till {
    var d := V.ExecuteOn(b, t, P.ScanInput(op, v.userId, v.token, ticket), v.now, v.ports);
    var end := d.calls[0].pc;
    if !end.Done? then Till(l, d.books, d.tables, Crashed)
    else if end.outcome.Failed? then Till(GivenBack(l, op, v), d.books, d.tables, Answered(409))
    else Till(l, d.books, d.tables, Answered(200))
  }

  function TillTicketed(l: B.Ledger, b: E.Books, t: S.Tables, op: string, v: Visit): Till {
    var (books, ticket) := E.IssueOn(b, op, v.userId, v.now);
    var tables := S.Written(t, S.IssueRow(ticket));
    if !v.wellFormed then Till(GivenBack(l, op, v), books, tables, Answered(400))
    else TillFinished(l, books, tables, op, ticket.id, v)
  }

  function TillServed(l: B.Ledger, b: E.Books, t: S.Tables, n: nat, v: Visit): Till {
    var op := OpId(v.userId, v.at, n);
    var known := B.RegisterOn(l, v.userId, v.at, v.tier);
    if !v.admin && !v.capAllows then Till(known, b, t, Answered(429))
    else if Free(v) then TillTicketed(known, b, t, op, v)
    else
      var (charged, source) := B.ChargeOn(known, v.userId, op, v.price, v.now, true);
      if source.Err? then Till(charged, b, t, Answered(402)) else TillTicketed(charged, b, t, op, v)
  }

  function TillOf(a: App, n: nat): Till
    requires n in a.requests
  {
    Till(a.desk.ledger, a.core.books, a.core.tables, a.requests[n].pc)
  }

  /** A call's next step does not depend on its number or on other calls. */
  predicate Twins(s: P.State, i: nat, t: P.State, j: nat) {
    i in s.calls && j in t.calls && s.calls[i] == t.calls[j] && s.books == t.books && s.tables == t.tables
  }

  lemma TransactionTwins(s: P.State, i: nat, t: P.State, j: nat, ports: P.Ports)
    requires Twins(s, i, t, j)
    ensures Twins(P.CommitReservation(s, i, s.calls[i], ports.reserveOk), i,
      P.CommitReservation(t, j, t.calls[j], ports.reserveOk), j)
    ensures Twins(P.FailTransaction(s, i, s.calls[i]), i, P.FailTransaction(t, j, t.calls[j]), j)
    ensures s.calls[i].pc.Persisting? ==>
      Twins(P.Persist(s, i, s.calls[i], s.calls[i].pc.found, ports), i,
        P.Persist(t, j, t.calls[j], t.calls[j].pc.found, ports), j)
  {
  }

  lemma ResumeTwins(s: P.State, i: nat, t: P.State, j: nat, ports: P.Ports)
    requires Twins(s, i, t, j) && P.Running(s.calls[i].pc)
    ensures Twins(P.Resume(s, i, ports), i, P.Resume(t, j, ports), j)
  {
    match s.calls[i].pc
    case Reserving => TransactionTwins(s, i, t, j, ports);
    case Persisting(_) => TransactionTwins(s, i, t, j, ports);
    case Failing => TransactionTwins(s, i, t, j, ports);
    case _ =>
  }

  lemma {:induction false} DriveTwins(s: P.State, i: nat, t: P.State, j: nat, ports: P.Ports)
    requires Twins(s, i, t, j)
    ensures Twins(V.Drive(s, i, ports), i, V.Drive(t, j, ports), j)
    decreases P.Rank(s.calls[i].pc)
  {
    if P.Running(s.calls[i].pc) {
      ResumeTwins(s, i, t, j, ports);
      DriveTwins(P.Resume(s, i, ports), i, P.Resume(t, j, ports), j, ports);
    }
  }

  /** The request in flight carries what its visit brought. */
  predicate For(a: App, n: nat, v: Visit) {
    && n in a.requests && OpOf(a.requests[n], n) == OpId(v.userId, v.at, n) && a.requests[n].userId == v.userId
    && a.requests[n].wellFormed == v.wellFormed && a.requests[n].token == v.token
    && a.requests[n].source.Some? && (a.requests[n].source.value.CHARGED? <==> !Free(v))
  }

  lemma FinishedTill(a: App, n: nat, ticket: string, v: Visit)
    requires For(a, n, v) && a.requests[n].pc == Scanning && n in a.core.calls
    requires a.core.calls[n] == P.NewCall(P.ScanInput(OpId(v.userId, v.at, n), v.userId, v.token, ticket), v.now)
    ensures TillOf(Finished(a, n, v), n)
      == TillFinished(a.desk.ledger, a.core.books, a.core.tables, OpId(v.userId, v.at, n), ticket, v)
  {
    var input := P.ScanInput(OpId(v.userId, v.at, n), v.userId, v.token, ticket);
    var alone := P.State(a.core.books, a.core.tables, map[0 := P.NewCall(input, v.now)]);
    DriveTwins(a.core, n, alone, 0, v.ports);
    DriveEnds(a.core, n, v.ports);
  }

  lemma TicketedTill(a: App, n: nat, b: E.Books, v: Visit)
    requires For(a, n, v) && a.requests[n].pc.Mirroring?
    requires (a.core.books, a.requests[n].pc.ticket) == E.IssueOn(b, OpId(v.userId, v.at, n), v.userId, v.now)
    ensures TillOf(Ticketed(a, n, v), n) == TillTicketed(a.desk.ledger, b, a.core.tables, OpId(v.userId, v.at, n), v)
  {
    var stored := Step(a, RowStored(n, v.now));
    if v.wellFormed {
      FinishedTill(stored, n, a.requests[n].pc.ticket.id, v);
    }
  }

  /** Serving a request reads and writes the ledgers and tables as the endpoint does. */
  lemma ServedTill(a: App, v: Visit)
    ensures TillOf(Served(a, v), a.opSeq + 1)
      == TillServed(a.desk.ledger, a.core.books, a.core.tables, a.opSeq + 1, v)
  {
    var n := a.opSeq + 1;
    var checked := Step(Step(a, PostOf(v)), CapAnswered(n, v.capAllows, v.promo, v.now));
    if checked.requests[n].pc.Mirroring? {
      TicketedTill(checked, n, a.core.books, v);
    }
  }

  // ------------------------------------------------------------------
  // What a request is answered, and what it costs
  // ------------------------------------------------------------------

  /** A ticket for a new op id is issued and stored, and the records stay sound. */
  lemma TicketReady(b: E.Books, t: S.Tables, op: string, v: Visit)
    requires V.Sound(b, t) && E.EntitlementIdFor(op) !in b.entitlements
    ensures var (books, ticket) := E.IssueOn(b, op, v.userId, v.now);
      var tables := S.Written(t, S.IssueRow(ticket));
      && V.Sound(books, tables)
      && V.Usable(books, P.ScanInput(op, v.userId, v.token, ticket.id)) && ticket.id in tables.entitlements
      && tables.scanExecutions == t.scanExecutions
  {
    var w := V.World(b, t, [], []);
    V.EventKeeps(w, V.Issued(op, v.userId, v.now));
    var (books, ticket) := E.IssueOn(b, op, v.userId, v.now);
    V.EventKeeps(V.Happen(w, V.Issued(op, v.userId, v.now)), V.Mirrored(ticket));
    assert ticket.(status := E.ISSUED) == ticket;
  }

  /** From the ticket on: 400 for a malformed token, 200 when every port answers well, else 409. */
  lemma TicketAnswers(l: B.Ledger, b: E.Books, t: S.Tables, op: string, v: Visit)
    requires V.Sound(b, t) && E.EntitlementIdFor(op) !in b.entitlements && !P.HasCompleted(t, op)
    ensures var r := TillTicketed(l, b, t, op, v);
      && r.answer == Answered(if !v.wellFormed then 400 else if V.Good(v.ports) then 200 else 409)
      && r.ledger == (if r.answer == Answered(200) then l else GivenBack(l, op, v))
  {
    var (books, ticket) := E.IssueOn(b, op, v.userId, v.now);
    var tables := S.Written(t, S.IssueRow(ticket));
    TicketReady(b, t, op, v);
    if v.wellFormed {
      V.Answer(books, tables, P.ScanInput(op, v.userId, v.token, ticket.id), v.now, v.ports);
    }
  }

  predicate HasFreeScan(a: B.Account) { a.freeScans > 0 }

  function AnswerTo(v: Visit, known: B.Account): Pc {
    if !v.admin && !v.capAllows then Answered(429)
    else if !Free(v) && !HasFreeScan(known) && known.balanceMicros < v.price then Answered(402)
    else if !v.wellFormed then Answered(400)
    else if V.Good(v.ports) then Answered(200)
    else Answered(409)
  }

  /** The account after the answer: one free scan or one price less for a charged
      request answered 200, and nothing less for any other. */
  function AccountAfter(v: Visit, known: B.Account): B.Account {
    if AnswerTo(v, known) != Answered(200) || Free(v) then known
    else if HasFreeScan(known) then known.(freeScans := known.freeScans - 1)
    else known.(balanceMicros := known.balanceMicros - v.price)
  }

  /** Under a new op id and with sound records a request served alone is answered by
      the first gate it fails, and costs its account exactly what that answer costs. */
  lemma AnswerAndCost(l: B.Ledger, b: E.Books, t: S.Tables, n: nat, v: Visit)
    requires var op := OpId(v.userId, v.at, n);
      && op !in l.movements && op !in l.refunded
      && E.EntitlementIdFor(op) !in b.entitlements && !P.HasCompleted(t, op)
    requires V.Sound(b, t)
    ensures var r := TillServed(l, b, t, n, v);
      var accounts := B.RegisterOn(l, v.userId, v.at, v.tier).accounts;
      && r.answer == AnswerTo(v, accounts[v.userId])
      && r.ledger.accounts == accounts[v.userId := AccountAfter(v, accounts[v.userId])]
  {
    var op := OpId(v.userId, v.at, n);
    var known := B.RegisterOn(l, v.userId, v.at, v.tier);
    B.ChargeTakes(known, v.userId, op, v.price, v.now, true);
    B.ChargeRefusedIff(known, v.userId, op, v.price, v.now, true);
    var (charged, source) := B.ChargeOn(known, v.userId, op, v.price, v.now, true);
    if source.Ok? {
      B.RefundUndoesCharge(known, v.userId, op, v.price, v.now, true, v.now);
    }
    TicketAnswers(if Free(v) then known else charged, b, t, op, v);
    assert known.accounts[v.userId := known.accounts[v.userId]] == known.accounts;
  }

  class WiredApp {
    var opSeq: nat
    const balances: B.BalanceLedger
    const entitlements: E.EntitlementLedger
    const uow: S.InMemoryUnitOfWork
    const scans: V.ScanService

    ghost predicate Valid() { scans.ledger == entitlements && scans.uow == uow }

    constructor (balances: B.BalanceLedger, scans: V.ScanService)
      ensures Valid() && this.balances == balances && this.scans == scans && opSeq == 0
    {
      this.balances, this.scans, opSeq := balances, scans, 0;
      entitlements, uow := scans.ledger, scans.uow;
    }

    method PostScan(v: Visit) returns (answer: Pc)
      requires Valid()
      modifies this, balances, entitlements, uow
      ensures opSeq == old(opSeq) + 1
      ensures Till(balances.State(), entitlements.State(), uow.State(), answer)
        == TillServed(old(balances.State()), old(entitlements.State()), old(uow.State()), opSeq, v)
    {
      var _ := balances.Register(v.userId, v.at, v.tier);
      opSeq := opSeq + 1;
      var opId := OpId(v.userId, v.at, opSeq);
      if !v.admin && !v.capAllows {
        return Answered(429);
      }
      var free := v.promo || v.admin;
      if !free {
        var charge := balances.Charge(v.userId, opId, v.price, v.now, true);
        if charge.Err? {
          return Answered(402);
        }
      }
      var ticket := entitlements.IssueFrom(opId, v.userId, v.now);
      var _ := uow.Perform(S.IssueRow(ticket));
      if !v.wellFormed {
        if !free {
          var _ := balances.Refund(v.userId, opId, v.now);
        }
        return Answered(400);
      }
      var input := P.ScanInput(opId, v.userId, v.token, ticket.id);
      var end := scans.Execute(input, v.now, v.ports);
      if !end.Done? {
        return Crashed;
      }
      if end.outcome.Failed? {
        if !free {
          var _ := balances.Refund(v.userId, opId, v.now);
        }
        return Answered(409);
      }
      return Answered(200);
    }
  }
}
