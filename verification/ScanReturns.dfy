/** The scan endpoint when everything awaited returns: no request is lost on the way,
    and only answers of 200 cost anything. */
module ScanReturns {
  import opened Balance
  import opened PaymentWebhook
  import opened Results
  import opened ScanEndpoint
  import B = ScanBilling
  import P = ScanProtocol
  import R = ScanSafety
  import Sums
  import T = ScanTickets

  /** Neither the handler nor the scan is thrown at from an await. */
  predicate Returns(act: ScanEndpoint.Action) { !act.Crash? && !(act.ScanMoves? && act.move.Throw?) }

  predicate AllReturn(acts: seq<ScanEndpoint.Action>) { forall k :: 0 <= k < |acts| ==> Returns(acts[k]) }

  /** No request crashed, no call died, and every call's ticket has its row. */
  ghost predicate Alive(a: App) {
    && (forall n :: n in a.requests ==> a.requests[n].pc != Crashed)
    && (forall n :: n in a.core.calls ==> !a.core.calls[n].pc.Threw?)
    && R.RowsStored(a.core)
  }

  /** A scan whose ticket has its row does not die of its own accord. */
  lemma CallLives(s: P.State, i: nat, ports: P.Ports)
    requires R.RowsStored(s) && i in s.calls && P.Running(s.calls[i].pc)
    ensures !P.Resume(s, i, ports).calls[i].pc.Threw?
  {
    if s.calls[i].pc == P.Failing {
      P.FailEffect(s.tables, s.calls[i]);
    }
  }

  lemma MoveLives(a: App, act: ScanEndpoint.Action)
    requires Alive(a) && act.ScanMoves? && Enabled(a, act) && Returns(act)
    ensures Alive(ScanEndpoint.Step(a, act))
  {
    var b := ScanEndpoint.Step(a, act);
    CallLives(a.core, act.n, act.move.ports);
    R.RowsStoredStep(a.core, act.move);
    T.ResumeMoves(a.core, act.n, act.move.ports);
    forall k | k in b.core.calls ensures !b.core.calls[k].pc.Threw? {
      assert k != act.n ==> b.core.calls[k] == a.core.calls[k];
    }
  }

  lemma StepLives(a: App, act: ScanEndpoint.Action)
    requires Alive(a) && Enabled(a, act) && Returns(act)
    ensures Alive(ScanEndpoint.Step(a, act))
  {
    if act.ScanMoves? {
      MoveLives(a, act);
    }
  }

  lemma {:induction false} RunLives(a: App, acts: seq<ScanEndpoint.Action>)
    requires Alive(a) && ScanEndpoint.Possible(a, acts) && AllReturn(acts)
    ensures Alive(ScanEndpoint.Run(a, acts))
    decreases |acts|
  {
    if acts != [] {
      StepLives(a, acts[0]);
      RunLives(ScanEndpoint.Step(a, acts[0]), acts[1..]);
    }
  }

  // ------------------------------------------------------------------
  // Every request can be answered
  // ------------------------------------------------------------------

  /** What a request can do next, when the ports of its scan answer with `ports`. */
  function Next(a: App, n: nat, ports: P.Ports): ScanEndpoint.Action
    requires n in a.requests
  {
    match a.requests[n].pc
    case Checking => CapAnswered(n, true, false, 0)
    case Mirroring(_) => RowStored(n, 0)
    case Scanning =>
      if n in a.core.calls && a.core.calls[n].pc.Done? then ScanEnded(n, 0) else ScanMoves(n, P.Go(n, ports))
    case _ => Counted(n)
  }

  /** How far a request is from its answer. */
  function Left(a: App, n: nat): nat
    requires n in a.requests
  {
    match a.requests[n].pc
    case Checking => 30
    case Mirroring(_) => 20
    case Scanning => if n in a.core.calls then 2 + P.Rank(a.core.calls[n].pc) else 20
    case Counting => 1
    case _ => 0
  }

  /** Request `n` comes closer to its answer by its next step. */
  predicate Closer(a: App, n: nat, ports: P.Ports)
    requires n in a.requests && Enabled(a, Next(a, n, ports))
  {
    var b := ScanEndpoint.Step(a, Next(a, n, ports));
    n in b.requests && Left(b, n) < Left(a, n)
  }

  lemma CheckedMoves(a: App, n: nat, ports: P.Ports)
    requires n in a.requests && a.requests[n].pc == Checking
    ensures Enabled(a, Next(a, n, ports)) && Closer(a, n, ports)
  {
  }

  lemma StoredMoves(a: App, n: nat, ports: P.Ports)
    requires n in a.requests && a.requests[n].pc.Mirroring?
    ensures Enabled(a, Next(a, n, ports)) && Closer(a, n, ports)
  {
  }

  lemma ScanMovesOn(a: App, n: nat, ports: P.Ports)
    requires n in a.requests && a.requests[n].pc == Scanning && n in a.core.calls && !a.core.calls[n].pc.Threw?
    ensures Enabled(a, Next(a, n, ports)) && Closer(a, n, ports)
  {
    var c := a.core.calls[n];
    if P.Running(c.pc) {
      var t := P.Resume(a.core, n, ports);
      assert P.Rank(t.calls[n].pc) < P.Rank(c.pc);
    }
  }

  /** No request that is not answered yet is stuck: it has a next step, and comes closer by it. */
  lemma NoneStuck(a: App, n: nat, ports: P.Ports)
    requires Alive(a) && T.Ticketing(a) && n in a.requests && !a.requests[n].pc.Answered?
    ensures Enabled(a, Next(a, n, ports)) && Returns(Next(a, n, ports)) && Closer(a, n, ports)
  {
    assert T.Placed(a, n);
    match a.requests[n].pc
    case Checking => CheckedMoves(a, n, ports);
    case Mirroring(_) => StoredMoves(a, n, ports);
    case Scanning => ScanMovesOn(a, n, ports);
    case _ =>
  }

  /** From any state of any run in which nothing threw, any request can be driven
      to its answer, however the ports of its scan answer. */
  lemma {:induction false} CanBeAnswered(a: App, n: nat, ports: P.Ports) returns (more: seq<ScanEndpoint.Action>)
    requires Alive(a) && T.Ticketing(a) && n in a.requests
    ensures ScanEndpoint.Possible(a, more) && AllReturn(more)
    ensures n in ScanEndpoint.Run(a, more).requests && ScanEndpoint.Run(a, more).requests[n].pc.Answered?
    decreases Left(a, n)
  {
    more := [];
    if !a.requests[n].pc.Answered? {
      var next := Next(a, n, ports);
      NoneStuck(a, n, ports);
      StepLives(a, next);
      T.StepKeepsTickets(a, next);
      var rest := CanBeAnswered(ScanEndpoint.Step(a, next), n, ports);
      more := [next] + rest;
      assert more[1..] == rest;
    }
  }

  lemma RunsAlive(acts: seq<ScanEndpoint.Action>)
    requires ScanEndpoint.Possible(ScanEndpoint.START, acts) && AllReturn(acts)
    ensures Alive(ScanEndpoint.Run(ScanEndpoint.START, acts)) && T.Ticketing(ScanEndpoint.Run(ScanEndpoint.START, acts))
  {
    RunLives(ScanEndpoint.START, acts);
    T.StartTickets();
    T.RunKeepsTickets(ScanEndpoint.START, acts);
  }

  /** When nothing awaited throws, no request crashes, no scan dies, and every request
      still on its way can go on to an answer. */
  lemma NoneLost(acts: seq<ScanEndpoint.Action>, n: nat, ports: P.Ports) returns (more: seq<ScanEndpoint.Action>)
    requires ScanEndpoint.Possible(ScanEndpoint.START, acts) && AllReturn(acts)
    requires n in ScanEndpoint.Run(ScanEndpoint.START, acts).requests
    ensures var a := ScanEndpoint.Run(ScanEndpoint.START, acts);
      && a.requests[n].pc != Crashed && (n in a.core.calls ==> !a.core.calls[n].pc.Threw?)
      && ScanEndpoint.Possible(a, more) && AllReturn(more)
      && n in ScanEndpoint.Run(a, more).requests && ScanEndpoint.Run(a, more).requests[n].pc.Answered?
  {
    RunsAlive(acts);
    more := CanBeAnswered(ScanEndpoint.Run(ScanEndpoint.START, acts), n, ports);
  }

  // ------------------------------------------------------------------
  // What it has cost
  // ------------------------------------------------------------------

  predicate Bought(a: App, u: string, n: nat, from: ChargeSource) {
    n in a.requests && a.requests[n].userId == u && a.requests[n].pc == Answered(200)
    && a.requests[n].source == Some(CHARGED(from))
  }

  function PricePaid(a: App, u: string, n: nat): int { if Bought(a, u, n, BALANCE) then a.requests[n].price else 0 }

  function ScanPaid(a: App, u: string, n: nat): int { if Bought(a, u, n, FREE) then 1 else 0 }

  ghost predicate AllAnswered(a: App) { forall n :: n in a.requests ==> a.requests[n].pc.Answered? }

  /** When nothing awaited throws and all requests have been answered, each account has
      lost one free scan or one price for exactly its charged requests that answered 200. */
  lemma AnsweredAccounts(acts: seq<ScanEndpoint.Action>, u: string)
    requires ScanEndpoint.Possible(ScanEndpoint.START, acts) && AllReturn(acts)
    requires B.Finished(ScanEndpoint.Run(ScanEndpoint.START, acts))
    requires u in ScanEndpoint.Run(ScanEndpoint.START, acts).desk.ledger.accounts
    ensures var a := ScanEndpoint.Run(ScanEndpoint.START, acts);
      var account := a.desk.ledger.accounts[u];
      && AllAnswered(a)
      && account.balanceMicros
           == FirstPayments(B.DeskHistory(ScanEndpoint.START, acts, []), u)
              - Sums.Sum(a.requests.Keys, n => PricePaid(a, u, n))
      && account.freeScans == FREE_SCAN_GRANT - Sums.Sum(a.requests.Keys, n => ScanPaid(a, u, n))
  {
    var a := ScanEndpoint.Run(ScanEndpoint.START, acts);
    RunsAlive(acts);
    B.FinishedAccounts(acts, u);
    Sums.Agree(a.requests.Keys, n => B.Price(a, u, n), n => PricePaid(a, u, n));
    Sums.Agree(a.requests.Keys, n => B.FreeScan(a, u, n), n => ScanPaid(a, u, n));
  }
}
