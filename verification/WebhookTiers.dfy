/** The tier of every account and the answer of every settlement, told from the payments
    and calls of a history in plain amounts. */
module WebhookTiers {
  import opened Balance
  import opened PaymentWebhook
  import opened Results

  /** What was paid covers the pack. */
  predicate Covers(p: SettledPayment) {
    match p.pack
    case PACK_SMALL => p.paidMicros >= 5_000_000
    case PACK_MEDIUM => p.paidMicros >= 20_000_000
    case PACK_LARGE => p.paidMicros >= 50_000_000
    case PACK_COMMAND => p.paidMicros >= 1_000_000_000
  }

  /** The price and the bonus together. */
  function WorthOf(pack: CreditPack): int {
    match pack
    case PACK_SMALL => 5_000_000
    case PACK_MEDIUM => 21_000_000
    case PACK_LARGE => 55_000_000
    case PACK_COMMAND => 1_200_000_000
  }

  /** An earlier payment of the transaction covered its pack. */
  ghost predicate PaidBefore(events: seq<Event>, tx: string) {
    exists k :: 0 <= k < |events| && events[k].Settle? && Covers(events[k].payment)
                && events[k].payment.providerTxId == tx
  }

  predicate HasAccount(events: seq<Event>, u: string) { u in RunDesk(events).ledger.accounts }

  /** The tier the history owes `u`, by whichever came last: the first payment of a
      transaction that covers the command pack for `u`, a tier set for `u`, or the
      registration that opened the account; otherwise STANDARD. */
  ghost function TierOwed(events: seq<Event>, u: string): Tier {
    if events == [] then STANDARD
    else
      var before := events[..|events| - 1];
      match events[|events| - 1]
      case Settle(p) =>
        if p.userId == u && p.pack == PACK_COMMAND && Covers(p) && !PaidBefore(before, p.providerTxId) then COMMAND
        else TierOwed(before, u)
      case Other(SetTier(v, tier)) => if v == u then tier else TierOwed(before, u)
      case Other(Register(v, _, tier)) => if v == u && !HasAccount(before, u) then tier else TierOwed(before, u)
      case _ => TierOwed(before, u)
  }

  lemma {:induction false} PaidTxsAre(events: seq<Event>, tx: string)
    ensures tx in PaidTxs(events) <==> PaidBefore(events, tx)
    decreases |events|
  {
    if events != [] {
      var n := |events| - 1;
      PaidTxsAre(events[..n], tx);
      if PaidBefore(events[..n], tx) {
        var k :| 0 <= k < n && events[..n][k].Settle? && Covers(events[..n][k].payment)
                 && events[..n][k].payment.providerTxId == tx;
        assert events[k] == events[..n][k];
      }
      if PaidBefore(events, tx) {
        var k :| 0 <= k < |events| && events[k].Settle? && Covers(events[k].payment)
                 && events[k].payment.providerTxId == tx;
        assert k < n ==> events[..n][k] == events[k];
      }
    }
  }

  /** The account of `u` has this tier, or is not there and would open with STANDARD. */
  predicate HasTier(l: Ledger, u: string, tier: Tier) {
    if u in l.accounts then l.accounts[u].tier == tier else tier == STANDARD
  }

  /** Charges and refunds leave tiers alone, and open accounts as STANDARD. */
  lemma OtherKeepsTier(l: Ledger, call: Call, u: string, tier: Tier)
    requires HasTier(l, u, tier) && (call.Charge? || call.Refund?)
    ensures HasTier(Apply(l, call), u, tier)
  {
  }

  lemma TierAfterSettle(d: Desk, p: SettledPayment, u: string, tier: Tier)
    requires HasTier(d.ledger, u, tier)
    ensures HasTier(SettleOn(d, p).0.ledger, u,
              if p.userId == u && p.pack == PACK_COMMAND && Covers(p) && p.providerTxId !in d.settled then COMMAND
              else tier)
  {
  }

  lemma {:induction false} TiersOwed(events: seq<Event>, u: string)
    requires AllProper(events)
    ensures HasTier(RunDesk(events).ledger, u, TierOwed(events, u))
    decreases |events|
  {
    if events != [] {
      var before, e := events[..|events| - 1], events[|events| - 1];
      TiersOwed(before, u);
      DeskInStep(before, u);
      assert ProperEvent(e);
      if e.Settle? {
        PaidTxsAre(before, e.payment.providerTxId);
        TierAfterSettle(RunDesk(before), e.payment, u, TierOwed(before, u));
      } else if e.call.Charge? || e.call.Refund? {
        OtherKeepsTier(RunDesk(before).ledger, e.call, u, TierOwed(before, u));
      }
    }
  }

  /** Over every proper history each account has exactly the tier owed to it. */
  lemma TierIsOwed(events: seq<Event>, u: string)
    requires AllProper(events) && HasAccount(events, u)
    ensures RunDesk(events).ledger.accounts[u].tier == TierOwed(events, u)
  {
    TiersOwed(events, u);
  }

  /** How a payment is answered after any proper history: refused exactly when it does not
      cover its pack; otherwise with the pack's worth when it is the first of its
      transaction and with nothing when not, and with the tier its user then has. */
  lemma SettlementAnswer(events: seq<Event>, p: SettledPayment)
    requires AllProper(events)
    ensures var r := SettleOn(RunDesk(events), p).1;
      && (r.Ok? <==> Covers(p))
      && (r.Ok? ==>
            && r.value.userId == p.userId
            && (r.value.reused <==> PaidBefore(events, p.providerTxId))
            && r.value.creditedMicros == (if PaidBefore(events, p.providerTxId) then 0 else WorthOf(p.pack))
            && HasAccount(events + [Event.Settle(p)], p.userId)
            && r.value.newTier == TierOwed(events + [Event.Settle(p)], p.userId))
  {
    var after := events + [Event.Settle(p)];
    assert after[..|events|] == events;
    DeskInStep(events, p.userId);
    PaidTxsAre(events, p.providerTxId);
    assert ProperEvent(Event.Settle(p));
    TiersOwed(after, p.userId);
    assert RunDesk(after) == SettleOn(RunDesk(events), p).0;
  }

  /** A replay, or a payment for somebody else, changes no tier. */
  lemma NoTierMoved(events: seq<Event>, p: SettledPayment, u: string)
    requires AllProper(events) && HasAccount(events, u)
    requires u != p.userId || PaidBefore(events, p.providerTxId) || p.pack != PACK_COMMAND
    ensures HasAccount(events + [Event.Settle(p)], u)
    ensures RunDesk(events + [Event.Settle(p)]).ledger.accounts[u].tier == RunDesk(events).ledger.accounts[u].tier
  {
    var after := events + [Event.Settle(p)];
    assert after[..|events|] == events;
    assert ProperEvent(Event.Settle(p));
    TiersOwed(events, u);
    TiersOwed(after, u);
    assert RunDesk(after) == SettleOn(RunDesk(events), p).0;
  }
}
