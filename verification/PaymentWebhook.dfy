/** src/product/payment/paymentWebhook.ts: turning a verified payment into credit,
    once for each provider transaction. */
module PaymentWebhook {
  import opened Balance
  import opened Results
  import Sums

  datatype CreditPack = PACK_SMALL | PACK_MEDIUM | PACK_LARGE | PACK_COMMAND

  datatype PackConfig = PackConfig(priceMicros: int, bonusMicros: int, grantsTier: Option<Tier>)

  /** The pack table of src/product/pricing/pricing.ts. */
  function PackConfigOf(pack: CreditPack): PackConfig {
    match pack
    case PACK_SMALL => PackConfig(5_000_000, 0, None)
    case PACK_MEDIUM => PackConfig(20_000_000, 1_000_000, None)
    case PACK_LARGE => PackConfig(50_000_000, 5_000_000, None)
    case PACK_COMMAND => PackConfig(1_000_000_000, 200_000_000, Some(COMMAND))
  }

  datatype SettledPayment = SettledPayment(providerTxId: string, paidMicros: int, userId: string, pack: CreditPack,
                                           atMs: int)

  datatype Settlement = Settlement(userId: string, creditedMicros: int, newTier: Tier, reused: bool)

  datatype SettleError = Underpaid

  datatype Desk = Desk(settled: set<string>, ledger: Ledger)

  predicate Adequate(p: SettledPayment) { p.paidMicros >= PackConfigOf(p.pack).priceMicros }

  function CreditOf(p: SettledPayment): int { PackConfigOf(p.pack).priceMicros + PackConfigOf(p.pack).bonusMicros }

  function SettleOn(d: Desk, p: SettledPayment): (Desk, Result<Settlement, SettleError>) {
    var pack := PackConfigOf(p.pack);
    if p.paidMicros < pack.priceMicros then (d, Err(Underpaid))
    else
      var reused := p.providerTxId in d.settled;
      var credited := TopUpOn(d.ledger, p.providerTxId, pack.priceMicros, p.userId, p.atMs, pack.bonusMicros);
      var tiered := if !reused && pack.grantsTier.Some?
        then SetTierOn(credited, p.userId, pack.grantsTier.value) else credited;
      (Desk(d.settled + {p.providerTxId}, tiered),
       Ok(Settlement(p.userId, if reused then 0 else CreditOf(p), tiered.accounts[p.userId].tier, reused)))
  }

  class PaymentWebhookService {
    var settled: set<string>
    const balances: BalanceLedger

    function State(): Desk
      reads this, balances
    {
      Desk(settled, balances.State())
    }

    constructor (balances: BalanceLedger)
      ensures this.balances == balances && State() == Desk({}, balances.State())
    {
      this.balances := balances;
      settled := {};
    }

    method Settle(payment: SettledPayment) returns (r: Result<Settlement, SettleError>)
      modifies this, balances
      ensures (State(), r) == SettleOn(old(State()), payment)
    {
      var pack := PackConfigOf(payment.pack);
      if payment.paidMicros < pack.priceMicros {
        return Err(Underpaid);
      }
      var reused := payment.providerTxId in settled;
      var acct := balances.TopUp(payment.providerTxId, pack.priceMicros, payment.userId, payment.atMs,
        pack.bonusMicros);
      if !reused && pack.grantsTier.Some? {
        acct := balances.SetTier(payment.userId, pack.grantsTier.value);
      }
      settled := settled + {payment.providerTxId};
      r := Ok(Settlement(payment.userId, if reused then 0 else pack.priceMicros + pack.bonusMicros, acct.tier, reused));
    }
  }

  // ------------------------------------------------------------------
  // Histories of settlements and other ledger calls
  // ------------------------------------------------------------------

  datatype Event = Settle(payment: SettledPayment) | Other(call: Call)

  predicate IsTopUpKey(key: string) { TopUpKey("") <= key }

  /** Other calls are proper, top up nothing, and charge under no top-up's key. */
  predicate ProperEvent(e: Event) {
    e.Other? ==> Proper(e.call) && !e.call.TopUp? && (e.call.Charge? ==> !IsTopUpKey(e.call.opId))
  }

  predicate AllProper(events: seq<Event>) { forall i :: 0 <= i < |events| ==> ProperEvent(events[i]) }

  function Step(d: Desk, e: Event): Desk {
    match e
    case Settle(p) => SettleOn(d, p).0
    case Other(call) => d.(ledger := Apply(d.ledger, call))
  }

  function RunDesk(events: seq<Event>): Desk {
    if events == [] then Desk({}, EMPTY) else Step(RunDesk(events[..|events| - 1]), events[|events| - 1])
  }

  /** The transactions that an adequate payment has been seen for. */
  function PaidTxs(events: seq<Event>): set<string> {
    if events == [] then {}
    else
      var e := events[|events| - 1];
      PaidTxs(events[..|events| - 1]) + if e.Settle? && Adequate(e.payment) then {e.payment.providerTxId} else {}
  }

  predicate IsFirst(events: seq<Event>, e: Event) {
    e.Settle? && Adequate(e.payment) && e.payment.providerTxId !in PaidTxs(events)
  }

  /** What `u` should have been credited: for each transaction, its first adequate
      payment, if that named `u`.  This looks at the payments alone. */
  function FirstPayments(events: seq<Event>, u: string): int {
    if events == [] then 0
    else
      var before, e := events[..|events| - 1], events[|events| - 1];
      FirstPayments(before, u) + if IsFirst(before, e) && e.payment.userId == u then CreditOf(e.payment) else 0
  }

  /** The credits the service reported to `u`, summed over its answers. */
  function Reported(events: seq<Event>, u: string): int {
    if events == [] then 0
    else
      var before, e := events[..|events| - 1], events[|events| - 1];
      Reported(before, u) +
      if e.Settle? && SettleOn(RunDesk(before), e.payment).1.Ok? && e.payment.userId == u
      then SettleOn(RunDesk(before), e.payment).1.value.creditedMicros else 0
  }

  /** The service's memory and the ledger's agree on what has been paid. */
  ghost predicate InStep(d: Desk, paid: set<string>) {
    && Balanced(d.ledger) && Sound(d.ledger)
    && d.settled == paid
    && (forall tx :: tx in d.settled <==> TopUpKey(tx) in d.ledger.movements)
  }

  lemma TopUpsOfEntry(l: Ledger, key: string, m: Movement, u: string)
    requires key !in l.movements
    ensures TopUps(Record(l, key, m), u) == TopUps(l, u) + TopUpWorth(Record(l, key, m), u, key)
  {
    var r := Record(l, key, m);
    assert r.movements.Keys == l.movements.Keys + {key};
    Sums.AddKey(l.movements.Keys, key, k => TopUpWorth(r, u, k));
    Sums.Agree(l.movements.Keys, k => TopUpWorth(l, u, k), k => TopUpWorth(r, u, k));
  }

  lemma SameTopUps(l: Ledger, m: Ledger, u: string)
    requires l.movements == m.movements
    ensures TopUps(l, u) == TopUps(m, u)
  {
    Sums.Agree(l.movements.Keys, k => TopUpWorth(l, u, k), k => TopUpWorth(m, u, k));
  }

  lemma TopUpCredits(l: Ledger, tx: string, amount: int, userId: string, atMs: int, bonus: int, u: string)
    ensures TopUps(TopUpOn(l, tx, amount, userId, atMs, bonus), u) ==
      TopUps(l, u) + if TopUpKey(tx) !in l.movements && userId == u then amount + bonus else 0
  {
    var r := TopUpOn(l, tx, amount, userId, atMs, bonus);
    if TopUpKey(tx) in l.movements {
      SameTopUps(l, r, u);
    } else {
      var entry := Movement(userId, TOPUP, amount + bonus, atMs);
      TopUpsOfEntry(l, TopUpKey(tx), entry, u);
      SameTopUps(r, Record(l, TopUpKey(tx), entry), u);
    }
  }

  /** A charge or a refund enters at most one movement, under no top-up's key and
      not as a top-up. */
  lemma OtherEntry(l: Ledger, call: Call) returns (key: string)
    requires ProperEvent(Other(call)) && Sound(l)
    ensures !IsTopUpKey(key)
    ensures Apply(l, call).movements == l.movements ||
      (key !in l.movements && key in Apply(l, call).movements
       && Apply(l, call).movements == l.movements[key := Apply(l, call).movements[key]]
       && Apply(l, call).movements[key].kind != TOPUP)
  {
    key := "";
    if call.Charge? {
      key := call.opId;
    } else if call.Refund? {
      key := RefundKey(call.opId);
      assert key[0] == 'r' && TopUpKey("")[0] == 't';
      assert key[|RefundKey("")|..] == call.opId && IsRefundKey(key);
    }
  }

  lemma OtherLeavesTopUps(l: Ledger, call: Call, u: string)
    requires ProperEvent(Other(call)) && Sound(l)
    ensures TopUps(Apply(l, call), u) == TopUps(l, u)
    ensures forall tx :: TopUpKey(tx) in Apply(l, call).movements <==> TopUpKey(tx) in l.movements
  {
    var r := Apply(l, call);
    var key := OtherEntry(l, call);
    forall tx ensures IsTopUpKey(TopUpKey(tx)) { }
    if r.movements == l.movements {
      SameTopUps(l, r, u);
    } else {
      TopUpsOfEntry(l, key, r.movements[key], u);
      SameTopUps(r, Record(l, key, r.movements[key]), u);
    }
  }

  lemma TopUpKeyInjective(tx: string, other: string)
    requires TopUpKey(tx) == TopUpKey(other)
    ensures tx == other
  {
    assert TopUpKey(tx)[|TopUpKey("")|..] == tx && TopUpKey(other)[|TopUpKey("")|..] == other;
  }

  lemma SettleInStep(d: Desk, p: SettledPayment, paid: set<string>)
    requires InStep(d, paid)
    ensures InStep(SettleOn(d, p).0, paid + if Adequate(p) then {p.providerTxId} else {})
  {
    if Adequate(p) {
      var pack, tx := PackConfigOf(p.pack), p.providerTxId;
      var call := TopUp(tx, pack.priceMicros, p.userId, p.atMs, pack.bonusMicros);
      CallKeeps(d.ledger, call);
      if pack.grantsTier.Some? {
        CallKeeps(Apply(d.ledger, call), SetTier(p.userId, pack.grantsTier.value));
      }
      forall t | TopUpKey(t) == TopUpKey(tx) ensures t == tx {
        TopUpKeyInjective(t, tx);
      }
    }
  }

  lemma SettleCredits(d: Desk, p: SettledPayment, paid: set<string>, u: string)
    requires InStep(d, paid)
    ensures TopUps(SettleOn(d, p).0.ledger, u) == TopUps(d.ledger, u) +
      if Adequate(p) && p.providerTxId !in paid && p.userId == u then CreditOf(p) else 0
  {
    if Adequate(p) {
      var pack, tx := PackConfigOf(p.pack), p.providerTxId;
      TopUpCredits(d.ledger, tx, pack.priceMicros, p.userId, p.atMs, pack.bonusMicros, u);
      SameTopUps(SettleOn(d, p).0.ledger,
                 TopUpOn(d.ledger, tx, pack.priceMicros, p.userId, p.atMs, pack.bonusMicros), u);
    }
  }

  lemma {:induction false} DeskInStep(events: seq<Event>, u: string)
    requires AllProper(events)
    ensures InStep(RunDesk(events), PaidTxs(events))
    ensures TopUps(RunDesk(events).ledger, u) == FirstPayments(events, u) == Reported(events, u)
    decreases |events|
  {
    if events == [] {
      SameBooks(EMPTY, EMPTY, u);
      assert TopUps(EMPTY, u) == 0;
    } else {
      var before, e := events[..|events| - 1], events[|events| - 1];
      DeskInStep(before, u);
      assert ProperEvent(e);
      var d := RunDesk(before);
      match e
      case Settle(p) =>
        SettleInStep(d, p, PaidTxs(before));
        SettleCredits(d, p, PaidTxs(before), u);
      case Other(call) =>
        CallKeeps(d.ledger, call);
        OtherLeavesTopUps(d.ledger, call, u);
    }
  }

  /** Over any history of settlements, charges and refunds: each transaction is
      credited once, to the user its first adequate payment names; the reported
      credits sum to what was credited; and a balance is that credit minus the
      unrefunded debits. */
  lemma EachTransactionCreditedOnce(events: seq<Event>, u: string)
    requires AllProper(events)
    ensures Reported(events, u) == FirstPayments(events, u) == TopUps(RunDesk(events).ledger, u)
    ensures u in RunDesk(events).ledger.accounts ==>
      0 <= RunDesk(events).ledger.accounts[u].balanceMicros ==
        FirstPayments(events, u) - Debits(RunDesk(events).ledger, u)
  {
    DeskInStep(events, u);
    var l := RunDesk(events).ledger;
    NetIsTopUpsMinusDebits(l, u);
    assert u in l.accounts ==> Agrees(l, u);
  }

  /** Whether a payment is answered as a replay depends only on the transaction
      having been paid before; an underpaid one is refused and changes nothing. */
  lemma ReplayIff(events: seq<Event>, p: SettledPayment)
    requires AllProper(events)
    ensures SettleOn(RunDesk(events), p).1.Err? <==> !Adequate(p)
    ensures !Adequate(p) ==> SettleOn(RunDesk(events), p).0 == RunDesk(events)
    ensures Adequate(p) ==> (SettleOn(RunDesk(events), p).1.value.reused <==> p.providerTxId in PaidTxs(events))
    ensures Adequate(p) && p.providerTxId in PaidTxs(events) ==>
      SettleOn(RunDesk(events), p).0.ledger == RequireOn(RunDesk(events).ledger, p.userId)
  {
    DeskInStep(events, p.userId);
  }

}
