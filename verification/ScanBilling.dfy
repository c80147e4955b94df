/** What every run of the scan endpoint keeps between requests and the ledger. */
module ScanBilling {
  import opened Balance
  import opened PaymentWebhook
  import opened Results
  import opened ScanEndpoint
  import P = ScanProtocol
  import Sums

  predicate Refused(pc: Pc) { pc.Answered? && pc.status >= 400 }

  /** What request `q` has cost `u` in balance: its price, if charged there and not given back. */
  function Cost(a: App, u: string, n: nat): int {
    if n in a.requests && a.requests[n].userId == u && a.requests[n].source == Some(CHARGED(BALANCE))
       && !Refused(a.requests[n].pc)
    then a.requests[n].price else 0
  }

  function FreeCost(a: App, u: string, n: nat): int {
    if n in a.requests && a.requests[n].userId == u && a.requests[n].source == Some(CHARGED(FREE))
       && !Refused(a.requests[n].pc)
    then 1 else 0
  }

  ghost function Spent(a: App, u: string): int { Sums.Sum(a.requests.Keys, n => Cost(a, u, n)) }

  ghost function FreeSpent(a: App, u: string): int { Sums.Sum(a.requests.Keys, n => FreeCost(a, u, n)) }

  predicate Unused(l: Ledger, op: string) { op !in l.movements && op !in l.refunded }

  /** The ledger's entry for a charged request. */
  predicate Entered(l: Ledger, q: Request, op: string)
    requires q.source.Some? && q.source.value.CHARGED?
  {
    && op in l.movements && l.movements[op].userId == q.userId
    && (q.source.value.from == FREE ==> l.movements[op].kind == FREE_DEBIT)
    && (q.source.value.from == BALANCE ==> l.movements[op].kind == DEBIT && l.movements[op].amountMicros == q.price)
    && (op in l.refunded <==> Refused(q.pc))
  }

  /** A charged request has its entry; any other has left none. */
  predicate Billed(l: Ledger, q: Request, n: nat) {
    && q.price >= 0
    && (q.pc == Checking ==> q.source == None)
    && (q.pc.Answered? ==> q.pc.status == 200 || q.pc.status >= 400)
    && (if q.source.Some? && q.source.value.CHARGED? then Entered(l, q, OpOf(q, n)) else Unused(l, OpOf(q, n)))
  }

  /** No number above `opSeq` has been used. */
  ghost predicate NumbersFresh(a: App) {
    && (forall n :: n in a.requests ==> n <= a.opSeq)
    && (forall u, t, n: nat :: n > a.opSeq ==> Unused(a.desk.ledger, OpId(u, t, n)))
  }

  ghost predicate BillsKept(a: App) { forall n :: n in a.requests ==> Billed(a.desk.ledger, a.requests[n], n) }

  ghost predicate SumsKept(a: App) {
    forall u :: Debits(a.desk.ledger, u) == Spent(a, u) && FreeUses(a.desk.ledger, u) == FreeSpent(a, u)
  }

  ghost predicate Billing(a: App) { NumbersFresh(a) && BillsKept(a) && SumsKept(a) }

  // ------------------------------------------------------------------
  // Ledger entries and the sums over them
  // ------------------------------------------------------------------

  lemma SameDebits(l: Ledger, m: Ledger, u: string)
    requires l.movements == m.movements && l.refunded == m.refunded
    ensures Debits(l, u) == Debits(m, u) && FreeUses(l, u) == FreeUses(m, u)
  {
    SameBooks(l, m, u);
    Sums.Agree(l.movements.Keys, k => DebitWorth(l, u, k), k => DebitWorth(m, u, k));
  }

  lemma DebitsOfEntry(l: Ledger, key: string, m: Movement, u: string)
    requires key !in l.movements
    ensures Debits(Record(l, key, m), u) == Debits(l, u) + DebitWorth(Record(l, key, m), u, key)
    ensures FreeUses(Record(l, key, m), u) == FreeUses(l, u) + FreeUse(Record(l, key, m), u, key)
  {
    NewMovement(l, key, m, u);
    var r := Record(l, key, m);
    assert r.movements.Keys == l.movements.Keys + {key};
    Sums.AddKey(l.movements.Keys, key, k => DebitWorth(r, u, k));
    Sums.Agree(l.movements.Keys, k => DebitWorth(l, u, k), k => DebitWorth(r, u, k));
  }

  lemma DebitsOfRefund(l: Ledger, op: string, u: string)
    requires op in l.movements
    ensures var r := l.(refunded := l.refunded + {op});
      && Debits(r, u) == Debits(l, u) - DebitWorth(l, u, op) + DebitWorth(r, u, op)
      && FreeUses(r, u) == FreeUses(l, u) - FreeUse(l, u, op) + FreeUse(r, u, op)
  {
    MarkedRefunded(l, op, u);
    var r := l.(refunded := l.refunded + {op});
    Sums.ChangeKey(l.movements.Keys, op, k => DebitWorth(l, u, k), k => DebitWorth(r, u, k));
  }

  /** Requests other than `n` unchanged: the spent sums move by what `n`'s cost moves. */
  lemma SpentMoves(a: App, b: App, n: nat, u: string)
    requires n in b.requests && b.requests == a.requests[n := b.requests[n]]
    ensures Spent(b, u) == Spent(a, u) - Cost(a, u, n) + Cost(b, u, n)
    ensures FreeSpent(b, u) == FreeSpent(a, u) - FreeCost(a, u, n) + FreeCost(b, u, n)
  {
    if n in a.requests {
      assert b.requests.Keys == a.requests.Keys;
      Sums.ChangeKey(a.requests.Keys, n, k => Cost(a, u, k), k => Cost(b, u, k));
      Sums.ChangeKey(a.requests.Keys, n, k => FreeCost(a, u, k), k => FreeCost(b, u, k));
    } else {
      assert b.requests.Keys == a.requests.Keys + {n};
      Sums.AddKey(a.requests.Keys, n, k => Cost(b, u, k));
      Sums.AddKey(a.requests.Keys, n, k => FreeCost(b, u, k));
      Sums.Agree(a.requests.Keys, k => Cost(a, u, k), k => Cost(b, u, k));
      Sums.Agree(a.requests.Keys, k => FreeCost(a, u, k), k => FreeCost(b, u, k));
    }
  }

  // ------------------------------------------------------------------
  // The steps that bill
  // ------------------------------------------------------------------

  /** The ledger changes under keys that are no request's: bills stand as they were. */
  predicate NoOpTouched(l: Ledger, m: Ledger) {
    && m.refunded == l.refunded && l.movements.Keys <= m.movements.Keys
    && (forall k | k in l.movements :: m.movements[k] == l.movements[k])
    && (forall k | k in m.movements :: k in l.movements || IsTopUpKey(k))
  }

  lemma TopUpKeysApart(u: string, t: int, n: nat)
    ensures !IsTopUpKey(OpId(u, t, n)) && !IsTopUpKey(RefundKey(OpId(u, t, n)))
  {
    OpIdApart(u, t, n, "");
    assert OpId(u, t, n)[0] == 's' && TopUpKey("")[0] == 't' && RefundKey(OpId(u, t, n))[0] == 'r';
  }

  lemma UntouchedBills(l: Ledger, m: Ledger, q: Request, n: nat)
    requires NoOpTouched(l, m) && Billed(l, q, n)
    ensures Billed(m, q, n)
  {
    TopUpKeysApart(q.userId, q.at, n);
  }

  lemma UntouchedKeeps(a: App, b: App)
    requires Billing(a) && NoOpTouched(a.desk.ledger, b.desk.ledger)
    requires b.requests == a.requests && b.opSeq >= a.opSeq
    requires forall u ::
      Debits(b.desk.ledger, u) == Debits(a.desk.ledger, u) && FreeUses(b.desk.ledger, u) == FreeUses(a.desk.ledger, u)
    ensures Billing(b)
  {
    forall n | n in b.requests ensures Billed(b.desk.ledger, b.requests[n], n) {
      UntouchedBills(a.desk.ledger, b.desk.ledger, a.requests[n], n);
    }
    forall u, t, n: nat | n > b.opSeq ensures Unused(b.desk.ledger, OpId(u, t, n)) {
      assert Unused(a.desk.ledger, OpId(u, t, n));
      TopUpKeysApart(u, t, n);
    }
    forall u ensures Debits(b.desk.ledger, u) == Spent(b, u) && FreeUses(b.desk.ledger, u) == FreeSpent(b, u) {
      Sums.Agree(a.requests.Keys, k => Cost(a, u, k), k => Cost(b, u, k));
      Sums.Agree(a.requests.Keys, k => FreeCost(a, u, k), k => FreeCost(b, u, k));
    }
  }

  lemma SettleKeeps(a: App, payment: SettledPayment)
    requires Billing(a)
    ensures Billing(ScanEndpoint.Step(a, ScanEndpoint.Action.Settle(payment)))
  {
    var b := ScanEndpoint.Step(a, ScanEndpoint.Action.Settle(payment));
    var l, m := a.desk.ledger, b.desk.ledger;
    if Adequate(payment) {
      var key := TopUpKey(payment.providerTxId);
      assert IsTopUpKey(key);
      var entry := Movement(payment.userId, TOPUP, CreditOf(payment), payment.atMs);
      forall u ensures Debits(m, u) == Debits(l, u) && FreeUses(m, u) == FreeUses(l, u) {
        if key in l.movements {
          SameDebits(l, m, u);
        } else {
          DebitsOfEntry(l, key, entry, u);
          SameDebits(Record(l, key, entry), m, u);
        }
      }
    }
    UntouchedKeeps(a, b);
  }

  /** A step of request `n` that changes neither the ledger's entries nor the request's cost. */
  lemma QuietKeeps(a: App, b: App, n: nat)
    requires Billing(a) && n in b.requests && b.requests == a.requests[n := b.requests[n]]
    requires b.desk.ledger.movements == a.desk.ledger.movements && b.desk.ledger.refunded == a.desk.ledger.refunded
    requires b.opSeq >= a.opSeq && n <= b.opSeq && Billed(b.desk.ledger, b.requests[n], n)
    requires forall u :: Cost(b, u, n) == Cost(a, u, n) && FreeCost(b, u, n) == FreeCost(a, u, n)
    ensures Billing(b)
  {
    forall u ensures Debits(b.desk.ledger, u) == Spent(b, u) && FreeUses(b.desk.ledger, u) == FreeSpent(b, u) {
      SameDebits(a.desk.ledger, b.desk.ledger, u);
      SpentMoves(a, b, n, u);
    }
    forall k | k in b.requests ensures Billed(b.desk.ledger, b.requests[k], k) {
      assert k != n ==> Billed(a.desk.ledger, a.requests[k], k);
    }
    forall u, t, k: nat | k > b.opSeq ensures Unused(b.desk.ledger, OpId(u, t, k)) {
      assert Unused(a.desk.ledger, OpId(u, t, k));
    }
  }

  lemma PostKeeps(a: App, act: ScanEndpoint.Action)
    requires Billing(a) && act.Post? && Enabled(a, act)
    ensures Billing(ScanEndpoint.Step(a, act))
  {
    var b, n := ScanEndpoint.Step(a, act), a.opSeq + 1;
    assert n !in a.requests;
    assert Unused(a.desk.ledger, OpId(act.userId, act.at, n));
    QuietKeeps(a, b, n);
  }

  // A charge -------------------------------------------------------------

  lemma ChargeLeavesOthers(l: Ledger, m: Ledger, op: string, q: Request, n: nat)
    requires Billed(l, q, n) && OpOf(q, n) != op
    requires m.refunded == l.refunded && op in m.movements && m.movements == l.movements[op := m.movements[op]]
    ensures Billed(m, q, n)
  {
  }

  /** A charge that goes through enters one movement under the request's own op id. */
  lemma ChargedKeeps(a: App, b: App, n: nat, now: int)
    requires Billing(a) && n in a.requests && a.requests[n].pc == Checking
    requires var q := a.requests[n];
      var (ledger, charge) := ChargeOn(a.desk.ledger, q.userId, OpOf(q, n), q.price, now, true);
      && charge.Ok? && b.desk.ledger == ledger && b.opSeq == a.opSeq && n in b.requests
      && b.requests == a.requests[n := b.requests[n]]
      && b.requests[n] == q.(source := Some(CHARGED(charge.value)), pc := b.requests[n].pc)
      && b.requests[n].pc.Mirroring?
    ensures Billing(b)
  {
    var q, op := a.requests[n], OpOf(a.requests[n], n);
    var l, m := a.desk.ledger, b.desk.ledger;
    assert Billed(l, q, n);
    var entry := m.movements[op];
    forall u ensures Debits(m, u) == Spent(b, u) && FreeUses(m, u) == FreeSpent(b, u) {
      DebitsOfEntry(l, op, entry, u);
      SameDebits(Record(l, op, entry), m, u);
      SpentMoves(a, b, n, u);
    }
    forall k | k in b.requests ensures Billed(m, b.requests[k], k) {
      if k != n {
        assert Billed(l, a.requests[k], k);
        OpIdsDiffer(a.requests[k].userId, a.requests[k].at, k, q.userId, q.at, n);
        ChargeLeavesOthers(l, m, op, a.requests[k], k);
      }
    }
    forall u, t, k: nat | k > b.opSeq ensures Unused(m, OpId(u, t, k)) {
      assert Unused(l, OpId(u, t, k));
      OpIdsDiffer(u, t, k, q.userId, q.at, n);
    }
  }

  // A refund -------------------------------------------------------------

  /** The refund of a charged request that is not refused yet always goes through. */
  lemma RefundGoesThrough(a: App, n: nat, now: int)
    requires Billing(a) && Sound(a.desk.ledger) && OwnersKnown(a.desk.ledger)
    requires n in a.requests && a.requests[n].source.Some? && a.requests[n].source.value.CHARGED?
      && !Refused(a.requests[n].pc)
    ensures var (q, op) := (a.requests[n], OpOf(a.requests[n], n));
      var (l, m) := (a.desk.ledger, RefundOn(a.desk.ledger, a.requests[n].userId, op, now).0);
      && op in l.movements && RefundKey(op) !in l.movements && op !in l.refunded
      && m.refunded == l.refunded + {op}
      && m.movements == l.movements[RefundKey(op) := Movement(q.userId, REFUND, l.movements[op].amountMicros, now)]
  {
    var q, op := a.requests[n], OpOf(a.requests[n], n);
    assert Billed(a.desk.ledger, q, n);
    assert IsRefundKey(RefundKey(op)) && RefundKey(op)[|RefundKey("")|..] == op;
  }

  lemma RefundSums(l: Ledger, op: string, entry: Movement, u: string)
    requires op in l.movements && RefundKey(op) !in l.movements && op !in l.refunded && entry.kind == REFUND
    ensures var m := Record(l, RefundKey(op), entry).(refunded := l.refunded + {op});
      Debits(m, u) == Debits(l, u) - DebitWorth(l, u, op) && FreeUses(m, u) == FreeUses(l, u) - FreeUse(l, u, op)
  {
    var marked := l.(refunded := l.refunded + {op});
    DebitsOfRefund(l, op, u);
    DebitsOfEntry(marked, RefundKey(op), entry, u);
    SameDebits(Record(marked, RefundKey(op), entry),
               Record(l, RefundKey(op), entry).(refunded := l.refunded + {op}), u);
  }

  lemma RefusedKeeps(a: App, b: App, n: nat, status: int, now: int)
    requires Billing(a) && Sound(a.desk.ledger) && OwnersKnown(a.desk.ledger) && status >= 400
    requires n in a.requests && a.requests[n].source.Some? && a.requests[n].source.value.CHARGED?
      && !Refused(a.requests[n].pc)
    requires b.desk.ledger == RefundOn(a.desk.ledger, a.requests[n].userId, OpOf(a.requests[n], n), now).0
    requires b.opSeq == a.opSeq && b.requests == a.requests[n := a.requests[n].(pc := Answered(status))]
    ensures Billing(b)
  {
    var q, op := a.requests[n], OpOf(a.requests[n], n);
    var l, m := a.desk.ledger, b.desk.ledger;
    assert Billed(l, q, n);
    RefundGoesThrough(a, n, now);
    var entry := Movement(q.userId, REFUND, l.movements[op].amountMicros, now);
    forall u ensures Debits(m, u) == Spent(b, u) && FreeUses(m, u) == FreeSpent(b, u) {
      RefundSums(l, op, entry, u);
      SameDebits(Record(l, RefundKey(op), entry).(refunded := l.refunded + {op}), m, u);
      SpentMoves(a, b, n, u);
    }
    forall k | k in b.requests ensures Billed(m, b.requests[k], k) {
      assert Billed(l, a.requests[k], k);
      OpIdApart(a.requests[k].userId, a.requests[k].at, k, op);
      if k != n {
        OpIdsDiffer(a.requests[k].userId, a.requests[k].at, k, q.userId, q.at, n);
      }
    }
    forall u, t, k: nat | k > b.opSeq ensures Unused(m, OpId(u, t, k)) {
      assert Unused(l, OpId(u, t, k));
      OpIdsDiffer(u, t, k, q.userId, q.at, n);
      OpIdApart(u, t, k, op);
    }
  }

  lemma RefuseKeeps(a: App, core: P.State, n: nat, status: int, now: int)
    requires Billing(a) && Sound(a.desk.ledger) && OwnersKnown(a.desk.ledger) && status >= 400
    requires n in a.requests && !Refused(a.requests[n].pc)
    ensures Billing(Refuse(a.(core := core), n, a.requests[n], status, now))
  {
    var q, b := a.requests[n], Refuse(a.(core := core), n, a.requests[n], status, now);
    assert Billed(a.desk.ledger, q, n);
    if q.source.Some? && q.source.value.CHARGED? {
      RefusedKeeps(a, b, n, status, now);
    } else {
      QuietKeeps(a, b, n);
    }
  }

  lemma CapKeeps(a: App, act: ScanEndpoint.Action)
    requires Billing(a) && act.CapAnswered? && Enabled(a, act)
    ensures Billing(ScanEndpoint.Step(a, act))
  {
    var n, q, b := act.n, a.requests[act.n], ScanEndpoint.Step(a, act);
    assert Billed(a.desk.ledger, q, n);
    if !q.admin && (act.allowed && !act.promo)
      && ChargeOn(a.desk.ledger, q.userId, OpOf(q, n), q.price, act.now, true).1.Ok? {
      ChargedKeeps(a, b, n, act.now);
    } else {
      QuietKeeps(a, b, n);
    }
  }

  lemma StoredKeeps(a: App, act: ScanEndpoint.Action)
    requires Billing(a) && Sound(a.desk.ledger) && OwnersKnown(a.desk.ledger) && act.RowStored? && Enabled(a, act)
    ensures Billing(ScanEndpoint.Step(a, act))
  {
    var b, n := ScanEndpoint.Step(a, act), act.n;
    assert Billed(a.desk.ledger, a.requests[n], n);
    if a.requests[n].wellFormed {
      QuietKeeps(a, b, n);
    } else {
      RefuseKeeps(a, b.core, n, 400, act.now);
    }
  }

  lemma EndedKeeps(a: App, act: ScanEndpoint.Action)
    requires Billing(a) && Sound(a.desk.ledger) && OwnersKnown(a.desk.ledger) && act.ScanEnded? && Enabled(a, act)
    ensures Billing(ScanEndpoint.Step(a, act))
  {
    var n := act.n;
    assert Billed(a.desk.ledger, a.requests[n], n);
    if a.core.calls[n].pc.outcome.Failed? {
      RefuseKeeps(a, a.core, n, 409, act.now);
    } else {
      QuietKeeps(a, ScanEndpoint.Step(a, act), n);
    }
  }

  lemma MovedOnKeeps(a: App, act: ScanEndpoint.Action)
    requires Billing(a) && (act.Counted? || act.Crash?) && Enabled(a, act)
    ensures Billing(ScanEndpoint.Step(a, act))
  {
    assert Billed(a.desk.ledger, a.requests[act.n], act.n);
    QuietKeeps(a, ScanEndpoint.Step(a, act), act.n);
  }

  lemma StepKeepsBilling(a: App, act: ScanEndpoint.Action)
    requires Billing(a) && Sound(a.desk.ledger) && OwnersKnown(a.desk.ledger) && Enabled(a, act)
    ensures Billing(ScanEndpoint.Step(a, act))
  {
    var b := ScanEndpoint.Step(a, act);
    match act
    case Settle(payment) => SettleKeeps(a, payment);
    case Skip => UntouchedKeeps(a, b);
    case Post(_, _, _, _, _, _, _) => PostKeeps(a, act);
    case CapAnswered(_, _, _, _) => CapKeeps(a, act);
    case RowStored(_, _) => StoredKeeps(a, act);
    case ScanMoves(_, _) => UntouchedKeeps(a, b);
    case ScanEnded(_, _) => EndedKeeps(a, act);
    case Counted(_) => MovedOnKeeps(a, act);
    case Crash(_) => MovedOnKeeps(a, act);
  }

  // ------------------------------------------------------------------
  // The desk's own history of a run
  // ------------------------------------------------------------------

  /** The calls a step makes on the desk. */
  function CallsOf(a: App, act: ScanEndpoint.Action): seq<Event>
    requires Enabled(a, act)
  {
    match act
    case Settle(payment) => [Event.Settle(payment)]
    case Post(userId, tier, at, _, _, _, _) => [Other(Register(userId, at, tier))]
    case CapAnswered(n, allowed, promo, now) =>
      var q := a.requests[n];
      if q.admin || promo || !allowed then []
      else [Other(Charge(q.userId, OpOf(q, n), q.price, now, true))]
    case RowStored(n, now) => if a.requests[n].wellFormed then [] else RefundsOf(a.requests[n], n, now)
    case ScanEnded(n, now) => if a.core.calls[n].pc.outcome.Failed? then RefundsOf(a.requests[n], n, now) else []
    case _ => []
  }

  function RefundsOf(q: Request, n: nat, now: int): seq<Event> {
    if q.source.Some? && q.source.value.CHARGED? then [Other(Refund(q.userId, OpOf(q, n), now))] else []
  }

  /** The desk's history after `before` and then the steps of a run. */
  ghost function DeskHistory(a: App, acts: seq<ScanEndpoint.Action>, before: seq<Event>): seq<Event>
    requires ScanEndpoint.Possible(a, acts)
    decreases |acts|
  {
    if acts == [] then before else DeskHistory(ScanEndpoint.Step(a, acts[0]), acts[1..], before + CallsOf(a, acts[0]))
  }

  lemma CallsProper(a: App, act: ScanEndpoint.Action)
    requires Enabled(a, act) && Billing(a)
    ensures |CallsOf(a, act)| <= 1 && (CallsOf(a, act) != [] ==> ProperEvent(CallsOf(a, act)[0]))
  {
    if act.CapAnswered? {
      var q := a.requests[act.n];
      assert Billed(a.desk.ledger, q, act.n);
      OpIdApart(q.userId, q.at, act.n, "");
      TopUpKeysApart(q.userId, q.at, act.n);
    }
  }

  /** The desk moves by the calls the step makes on it. */
  lemma CallsMove(a: App, act: ScanEndpoint.Action)
    requires Enabled(a, act)
    ensures CallsOf(a, act) == [] ==> ScanEndpoint.Step(a, act).desk == a.desk
    ensures |CallsOf(a, act)| == 1 ==> ScanEndpoint.Step(a, act).desk == PaymentWebhook.Step(a.desk, CallsOf(a, act)[0])
  {
  }

  lemma CallsFollow(a: App, act: ScanEndpoint.Action, before: seq<Event>)
    requires Enabled(a, act) && Billing(a) && a.desk == RunDesk(before) && AllProper(before)
    ensures AllProper(before + CallsOf(a, act)) && ScanEndpoint.Step(a, act).desk == RunDesk(before + CallsOf(a, act))
  {
    CallsProper(a, act);
    CallsMove(a, act);
    Extend(before, CallsOf(a, act));
  }

  lemma Extend(before: seq<Event>, calls: seq<Event>)
    requires AllProper(before) && |calls| <= 1 && (calls != [] ==> ProperEvent(calls[0]))
    ensures AllProper(before + calls)
    ensures RunDesk(before + calls) == if calls == [] then RunDesk(before)
      else PaymentWebhook.Step(RunDesk(before), calls[0])
  {
    if calls == [] {
      assert before + calls == before;
    } else {
      assert (before + calls)[..|before|] == before;
    }
  }

  /** The bills are kept, and the desk is where its own history leads. */
  ghost predicate Tracked(a: App, history: seq<Event>) {
    Billing(a) && AllProper(history) && a.desk == RunDesk(history)
  }

  lemma StepBills(a: App, act: ScanEndpoint.Action, before: seq<Event>)
    requires Enabled(a, act) && Tracked(a, before)
    ensures Tracked(ScanEndpoint.Step(a, act), before + CallsOf(a, act))
  {
    DeskInStep(before, "");
    StepKeepsBilling(a, act);
    CallsFollow(a, act, before);
  }

  lemma {:induction false} RunBills(a: App, acts: seq<ScanEndpoint.Action>, before: seq<Event>)
    requires ScanEndpoint.Possible(a, acts) && Tracked(a, before)
    ensures Tracked(ScanEndpoint.Run(a, acts), DeskHistory(a, acts, before))
    decreases |acts|
  {
    if acts != [] {
      StepBills(a, acts[0], before);
      RunBills(ScanEndpoint.Step(a, acts[0]), acts[1..], before + CallsOf(a, acts[0]));
    }
  }

  lemma AllBills(acts: seq<ScanEndpoint.Action>)
    requires ScanEndpoint.Possible(ScanEndpoint.START, acts)
    ensures Tracked(ScanEndpoint.Run(ScanEndpoint.START, acts), DeskHistory(ScanEndpoint.START, acts, []))
  {
    StartBills();
    RunBills(ScanEndpoint.START, acts, []);
  }

  lemma StartBills()
    ensures Billing(ScanEndpoint.START)
  {
    forall u
      ensures Debits(EMPTY, u) == 0 && FreeUses(EMPTY, u) == 0
      ensures Spent(ScanEndpoint.START, u) == 0 && FreeSpent(ScanEndpoint.START, u) == 0
    {
    }
  }

  // ------------------------------------------------------------------
  // Main results
  // ------------------------------------------------------------------

  /** In every state of every interleaving, a balance is what the account's payments
      credited minus the prices of its requests charged there and not refused, and
      free scans are the grant minus its requests charged there and not refused. */
  lemma AccountsTell(acts: seq<ScanEndpoint.Action>, u: string)
    requires ScanEndpoint.Possible(ScanEndpoint.START, acts)
    requires u in ScanEndpoint.Run(ScanEndpoint.START, acts).desk.ledger.accounts
    ensures var a := ScanEndpoint.Run(ScanEndpoint.START, acts);
      var account := a.desk.ledger.accounts[u];
      && 0 <= account.balanceMicros == FirstPayments(DeskHistory(ScanEndpoint.START, acts, []), u) - Spent(a, u)
      && 0 <= account.freeScans == FREE_SCAN_GRANT - FreeSpent(a, u)
  {
    var history := DeskHistory(ScanEndpoint.START, acts, []);
    AllBills(acts);
    EachTransactionCreditedOnce(history, u);
    DeskInStep(history, u);
    assert Agrees(RunDesk(history).ledger, u);
    FreeScansInRange(RunDesk(history).ledger, u);
  }

  /** 200, or a throw after the charge: nothing refunds it. */
  predicate Kept(pc: Pc) { pc == Answered(200) || pc == Crashed }

  ghost predicate Finished(a: App) {
    forall n :: n in a.requests ==> a.requests[n].pc.Answered? || a.requests[n].pc == Crashed
  }

  /** The price of `n` if it was charged to `u`'s balance and answered 200 or threw. */
  function Price(a: App, u: string, n: nat): int {
    if n in a.requests && a.requests[n].userId == u && a.requests[n].source == Some(CHARGED(BALANCE))
      && Kept(a.requests[n].pc)
    then a.requests[n].price else 0
  }

  function FreeScan(a: App, u: string, n: nat): int {
    if n in a.requests && a.requests[n].userId == u && a.requests[n].source == Some(CHARGED(FREE))
      && Kept(a.requests[n].pc)
    then 1 else 0
  }

  /** Once all requests have finished, each account has lost one free scan or one
      price for exactly its charged requests that answered 200 (or threw). */
  lemma FinishedAccounts(acts: seq<ScanEndpoint.Action>, u: string)
    requires ScanEndpoint.Possible(ScanEndpoint.START, acts) && Finished(ScanEndpoint.Run(ScanEndpoint.START, acts))
    requires u in ScanEndpoint.Run(ScanEndpoint.START, acts).desk.ledger.accounts
    ensures var a := ScanEndpoint.Run(ScanEndpoint.START, acts);
      var account := a.desk.ledger.accounts[u];
      && account.balanceMicros
           == FirstPayments(DeskHistory(ScanEndpoint.START, acts, []), u)
              - Sums.Sum(a.requests.Keys, n => Price(a, u, n))
      && account.freeScans == FREE_SCAN_GRANT - Sums.Sum(a.requests.Keys, n => FreeScan(a, u, n))
  {
    var a := ScanEndpoint.Run(ScanEndpoint.START, acts);
    AccountsTell(acts, u);
    AllBills(acts);
    forall n | n in a.requests ensures Cost(a, u, n) == Price(a, u, n) && FreeCost(a, u, n) == FreeScan(a, u, n) {
      assert Billed(a.desk.ledger, a.requests[n], n);
    }
    Sums.Agree(a.requests.Keys, n => Cost(a, u, n), n => Price(a, u, n));
    Sums.Agree(a.requests.Keys, n => FreeCost(a, u, n), n => FreeScan(a, u, n));
  }

  /** A free request - promotional, by an admin, or never charged - leaves no entry
      in the ledger; a charged one leaves exactly one, refunded exactly when refused. */
  lemma EntryIffCharged(acts: seq<ScanEndpoint.Action>, n: nat)
    requires ScanEndpoint.Possible(ScanEndpoint.START, acts) && n in ScanEndpoint.Run(ScanEndpoint.START, acts).requests
    ensures var a := ScanEndpoint.Run(ScanEndpoint.START, acts);
      var (q, op) := (a.requests[n], OpOf(a.requests[n], n));
      var charged := q.source.Some? && q.source.value.CHARGED?;
      && (op in a.desk.ledger.movements <==> charged)
      && (op in a.desk.ledger.refunded <==> charged && Refused(q.pc))
  {
    AllBills(acts);
    var a := ScanEndpoint.Run(ScanEndpoint.START, acts);
    assert Billed(a.desk.ledger, a.requests[n], n);
  }
}
