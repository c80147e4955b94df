/** The POST /scan handler of src/api/wiredApp.ts over one desk, one entitlement
    ledger and one store: any number of requests in flight, each moving at its own
    awaits, with webhook settlements in between. */
module ScanEndpoint {
  import opened Balance
  import opened PaymentWebhook
  import opened Results
  import opened Strings
  import E = Entitlements
  import P = ScanProtocol
  import S = Store

  /** Where the price of a request came from. */
  datatype Source = PROMO | ADMIN | CHARGED(from: ChargeSource)

  datatype Pc =
    | Checking            // the daily cap
    | Mirroring(ticket: E.Entitlement)  // the ticket's row
    | Scanning            // the scan itself
    | Counting            // the usage record of a successful scan
    | Answered(status: int)
    | Crashed             // something awaited threw: the server answers 500, no refund is made

  datatype Request = Request(
    userId: string, at: int, price: int, admin: bool, token: string, wellFormed: bool,
    source: Option<Source>, pc: Pc)

  datatype App = App(desk: Desk, opSeq: nat, requests: map<nat, Request>, core: P.State)

  const START := App(Desk({}, EMPTY), 0, map[], P.START)

  /** Unique for each request of the process: it ends in the value of `opSeq`. */
  function OpId(userId: string, at: int, n: nat): string {
    "scan:" + userId + ":" + TimeText(at) + ":" + Decimal(n)
  }

  function TimeText(at: int): string { if at < 0 then "-" + Decimal(-at) else Decimal(at) }

  function OpOf(q: Request, n: nat): string { OpId(q.userId, q.at, n) }

  function TicketOf(q: Request, n: nat): string { E.EntitlementIdFor(OpOf(q, n)) }

  datatype Action =
    | Settle(payment: SettledPayment)                  // the payment webhook
    | Skip                                             // another route draws a number
    | Post(userId: string, tier: Tier, at: int, price: int, admin: bool, token: string, wellFormed: bool)
    | CapAnswered(n: nat, allowed: bool, promo: bool, now: int)
    | RowStored(n: nat, now: int)
    | ScanMoves(n: nat, move: P.Action)
    | ScanEnded(n: nat, now: int)
    | Counted(n: nat)
    | Crash(n: nat)

  function With(a: App, n: nat, q: Request): App { a.(requests := a.requests[n := q]) }

  /** Answers and gives the charge back, if one was made. */
  function Refuse(a: App, n: nat, q: Request, status: int, now: int): App {
    var ledger := if q.source.Some? && q.source.value.CHARGED?
                  then RefundOn(a.desk.ledger, q.userId, OpOf(q, n), now).0 else a.desk.ledger;
    With(a, n, q.(pc := Answered(status))).(desk := a.desk.(ledger := ledger))
  }

  /** Issues the one-shot ticket the scan will consume. */
  function IssueTicket(a: App, n: nat, q: Request, now: int): App {
    var (books, ticket) := E.IssueOn(a.core.books, OpOf(q, n), q.userId, now);
    With(a, n, q.(pc := Mirroring(ticket))).(core := a.core.(books := books))
  }

  /** The cap has been checked: charge - unless the request is free - and issue. */
  function AfterCap(a: App, n: nat, q: Request, allowed: bool, promo: bool, now: int): App {
    if !q.admin && !allowed then With(a, n, q.(pc := Answered(429)))
    else if q.admin || promo then IssueTicket(a, n, q.(source := Some(if q.admin then ADMIN else PROMO)), now)
    else
      var (ledger, charge) := ChargeOn(a.desk.ledger, q.userId, OpOf(q, n), q.price, now, true);
      var charged := a.(desk := a.desk.(ledger := ledger));
      if charge.Err? then With(charged, n, q.(pc := Answered(402)))
      else IssueTicket(charged, n, q.(source := Some(CHARGED(charge.value))), now)
  }

  predicate Enabled(a: App, act: Action) {
    match act
    case Settle(_) => true
    case Skip => true
    case Post(_, _, _, price, _, _, _) => price >= 0
    case CapAnswered(n, _, _, _) => n in a.requests && a.requests[n].pc == Checking
    case RowStored(n, _) => n in a.requests && a.requests[n].pc.Mirroring?
    case ScanMoves(n, move) =>
      n in a.requests && a.requests[n].pc == Scanning && (move.Go? || move.Throw?) && move.i == n
        && P.Enabled(a.core, move)
    case ScanEnded(n, _) =>
      n in a.requests && a.requests[n].pc == Scanning && n in a.core.calls && a.core.calls[n].pc.Done?
    case Counted(n) => n in a.requests && a.requests[n].pc == Counting
    case Crash(n) =>
      n in a.requests && (a.requests[n].pc in {Checking, Counting} || a.requests[n].pc.Mirroring?
        || (a.requests[n].pc == Scanning && n in a.core.calls && a.core.calls[n].pc.Threw?))
  }

  function Step(a: App, act: Action): App
    requires Enabled(a, act)
  {
    match act
    case Settle(payment) => a.(desk := SettleOn(a.desk, payment).0)
    case Skip => a.(opSeq := a.opSeq + 1)
    case Post(userId, tier, at, price, admin, token, wellFormed) =>
      var n := a.opSeq + 1;
      With(a, n, Request(userId, at, price, admin, token, wellFormed, None, Checking))
        .(opSeq := n, desk := a.desk.(ledger := RegisterOn(a.desk.ledger, userId, at, tier)))
    case CapAnswered(n, allowed, promo, now) => AfterCap(a, n, a.requests[n], allowed, promo, now)
    case RowStored(n, now) =>
      var q := a.requests[n];
      var core := a.core.(tables := S.Written(a.core.tables, S.IssueRow(q.pc.ticket)));
      if !q.wellFormed then Refuse(a.(core := core), n, q, 400, now)
      else
        var input := P.ScanInput(OpOf(q, n), q.userId, q.token, q.pc.ticket.id);
        With(a, n, q.(pc := Scanning)).(core := core.(calls := core.calls[n := P.NewCall(input, now)]))
    case ScanMoves(n, move) => a.(core := P.Step(a.core, move))
    case ScanEnded(n, now) =>
      if a.core.calls[n].pc.outcome.Failed? then Refuse(a, n, a.requests[n], 409, now)
      else With(a, n, a.requests[n].(pc := Counting))
    case Counted(n) => With(a, n, a.requests[n].(pc := Answered(200)))
    case Crash(n) => With(a, n, a.requests[n].(pc := Crashed))
  }

  ghost predicate Possible(a: App, acts: seq<Action>)
    decreases |acts|
  {
    acts == [] || (Enabled(a, acts[0]) && Possible(Step(a, acts[0]), acts[1..]))
  }

  ghost function Run(a: App, acts: seq<Action>): App
    requires Possible(a, acts)
    decreases |acts|
  {
    if acts == [] then a else Run(Step(a, acts[0]), acts[1..])
  }

  // ------------------------------------------------------------------
  // Op ids
  // ------------------------------------------------------------------

  lemma OpIdsDiffer(u: string, t: int, n: nat, v: string, s: int, m: nat)
    requires n != m
    ensures OpId(u, t, n) != OpId(v, s, m)
  {
    if OpId(u, t, n) == OpId(v, s, m) {
      var p, q := "scan:" + u + ":" + TimeText(t), "scan:" + v + ":" + TimeText(s);
      assert OpId(u, t, n) == p + ":" + Decimal(n) && OpId(v, s, m) == q + ":" + Decimal(m);
      LastField(p, Decimal(n), q, Decimal(m));
      DecimalValue(n);
      DecimalValue(m);
    }
  }

  /** An op id is neither a refund's nor a top-up's key. */
  lemma OpIdApart(u: string, t: int, n: nat, other: string)
    ensures OpId(u, t, n) != RefundKey(other) && OpId(u, t, n) != TopUpKey(other) && !IsRefundKey(OpId(u, t, n))
  {
    assert OpId(u, t, n)[0] == 's' && RefundKey(other)[0] == 'r' && TopUpKey(other)[0] == 't'
      && RefundKey("")[0] == 'r';
  }
}
