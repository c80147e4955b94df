/** Exactly which histories of the balance ledger keep its books. */
module BalanceBooks {
  import opened Balance

  /** How far an account stands from what its movements say. */
  datatype Drift = Drift(money: int, free: int)

  const NO_DRIFT := Drift(0, 0)

  ghost function DriftOf(l: Ledger, u: string): Drift
    requires u in l.accounts
  {
    Drift(l.accounts[u].balanceMicros - Net(l, u), l.accounts[u].freeScans + FreeUses(l, u) - FREE_SCAN_GRANT)
  }

  lemma BalancedIff(l: Ledger)
    ensures Balanced(l) <==> OwnersKnown(l) && forall u :: u in l.accounts ==> DriftOf(l, u) == NO_DRIFT
  {
    assert forall u :: u in l.accounts ==> (Agrees(l, u) <==> DriftOf(l, u) == NO_DRIFT);
  }

  /** Accounts stand where they stood, and new ones without drift. */
  ghost predicate SameDrift(l: Ledger, r: Ledger) {
    && l.accounts.Keys <= r.accounts.Keys
    && forall u :: u in r.accounts ==> DriftOf(r, u) == if u in l.accounts then DriftOf(l, u) else NO_DRIFT
  }

  /** Debits are not negative, top-ups do not stand under a refund's key, and only what is
      there has been refunded. */
  ghost predicate WellFormed(l: Ledger) {
    && OwnersKnown(l) && l.refunded <= l.movements.Keys
    && (forall key :: key in l.movements && l.movements[key].kind == DEBIT ==> l.movements[key].amountMicros >= 0)
    && (forall key :: key in l.movements && IsRefundKey(key) ==> l.movements[key].kind != TOPUP)
  }

  /** No price is negative. */
  predicate Priced(call: Call) { call.Charge? ==> call.priceMicros >= 0 }

  lemma CallKeepsForm(l: Ledger, call: Call)
    requires WellFormed(l) && Priced(call)
    ensures WellFormed(Apply(l, call))
  {
    match call
    case TopUp(tx, _, _, _, _) => assert TopUpKey(tx)[0] == 't' && RefundKey("")[0] == 'r';
    case Refund(u, op, at) => RefundKeepsForm(l, u, op, at);
    case _ =>
  }

  lemma RefundKeepsForm(l: Ledger, userId: string, opId: string, atMs: int)
    requires WellFormed(l)
    ensures WellFormed(RefundOn(l, userId, opId, atMs).0)
  {
  }

  // ------------------------------------------------------------------
  // Calls that move an account as its movements
  // ------------------------------------------------------------------

  lemma RegisterDrift(l: Ledger, userId: string, atMs: int, tier: Tier)
    requires OwnersKnown(l)
    ensures SameDrift(l, RegisterOn(l, userId, atMs, tier)) && OwnersKnown(RegisterOn(l, userId, atMs, tier))
  {
    var r := RegisterOn(l, userId, atMs, tier);
    forall u | u in r.accounts ensures DriftOf(r, u) == if u in l.accounts then DriftOf(l, u) else NO_DRIFT {
      SameBooks(l, r, u);
      if u !in l.accounts {
        NoMovements(r, u);
      }
    }
  }

  lemma PostingDrift(l: Ledger, userId: string, money: int, free: int, key: string, m: Movement)
    requires userId in l.accounts && key !in l.movements && m.userId == userId
    requires money == Worth(Record(l, key, m), userId, key) && free == -FreeUse(Record(l, key, m), userId, key)
    ensures SameDrift(l, Record(Credit(l, userId, money, free), key, m))
  {
    var moved := Credit(l, userId, money, free);
    var r := Record(moved, key, m);
    forall u | u in r.accounts ensures DriftOf(r, u) == DriftOf(l, u) {
      SameBooks(l, moved, u);
      NewMovement(moved, key, m, u);
    }
  }

  lemma TopUpDrift(l: Ledger, tx: string, amount: int, userId: string, atMs: int, bonus: int)
    requires WellFormed(l)
    ensures SameDrift(l, TopUpOn(l, tx, amount, userId, atMs, bonus))
  {
    RegisterDrift(l, userId, 0, STANDARD);
    if TopUpKey(tx) !in l.movements {
      assert TopUpKey(tx) !in l.refunded;
      PostingDrift(RequireOn(l, userId), userId, amount + bonus, 0, TopUpKey(tx),
                   Movement(userId, TOPUP, amount + bonus, atMs));
    }
  }

  lemma SetTierDrift(l: Ledger, userId: string, tier: Tier)
    requires OwnersKnown(l)
    ensures SameDrift(l, SetTierOn(l, userId, tier))
  {
    RegisterDrift(l, userId, 0, STANDARD);
    var known, r := RequireOn(l, userId), SetTierOn(l, userId, tier);
    forall u | u in r.accounts ensures DriftOf(r, u) == DriftOf(known, u) {
      SameBooks(known, r, u);
    }
  }

  lemma ChargeDrift(l: Ledger, userId: string, opId: string, price: int, atMs: int, allowFree: bool)
    requires WellFormed(l)
    ensures SameDrift(l, ChargeOn(l, userId, opId, price, atMs, allowFree).0)
  {
    RegisterDrift(l, userId, 0, STANDARD);
    var known := RequireOn(l, userId);
    if opId !in l.movements {
      assert opId !in l.refunded;
      if allowFree && known.accounts[userId].freeScans > 0 {
        PostingDrift(known, userId, 0, -1, opId, Movement(userId, FREE_DEBIT, 0, atMs));
      } else if known.accounts[userId].balanceMicros >= price {
        PostingDrift(known, userId, -price, 0, opId, Movement(userId, DEBIT, price, atMs));
      }
    }
  }

  lemma CallDrift(l: Ledger, call: Call)
    requires WellFormed(l) && !(call.Refund? && Refundable(l, call.userId, call.opId))
    ensures SameDrift(l, Apply(l, call))
  {
    match call
    case Register(u, at, tier) => RegisterDrift(l, u, at, tier);
    case TopUp(tx, amount, u, at, bonus) => TopUpDrift(l, tx, amount, u, at, bonus);
    case SetTier(u, tier) => SetTierDrift(l, u, tier);
    case Charge(u, op, price, at, allowFree) => ChargeDrift(l, u, op, price, at, allowFree);
    case Refund(u, op, at) => RegisterDrift(l, u, 0, STANDARD);
  }

  // ------------------------------------------------------------------
  // Refunds that write over a charge
  // ------------------------------------------------------------------

  /** The refund goes through, and what stands under the key it writes stands for something:
      a charge, made under that key and not given back. */
  predicate WritesOver(l: Ledger, call: Call) {
    && call.Refund? && Refundable(l, call.userId, call.opId)
    && var key := RefundKey(call.opId);
       key in l.movements
       && (Worth(l, l.movements[key].userId, key) != 0 || FreeUse(l, l.movements[key].userId, key) != 0)
  }

  /** No account stands above its books. */
  ghost predicate NoneAbove(l: Ledger) {
    forall u :: u in l.accounts ==> DriftOf(l, u).money <= 0 && DriftOf(l, u).free <= 0
  }

  /** A refund only ever lowers accounts against their books, and by nothing exactly when it
      writes over nothing. */
  lemma RefundDrift(l: Ledger, call: Call)
    requires WellFormed(l) && call.Refund? && Refundable(l, call.userId, call.opId)
    ensures var r := Apply(l, call);
      && r.accounts.Keys == l.accounts.Keys
      && (forall u :: u in l.accounts ==>
            DriftOf(r, u).money <= DriftOf(l, u).money && DriftOf(r, u).free <= DriftOf(l, u).free)
      && ((forall u :: u in l.accounts ==> DriftOf(r, u) == DriftOf(l, u)) <==> !WritesOver(l, call))
  {
    var key, r := RefundKey(call.opId), Apply(l, call);
    assert IsRefundKey(key);
    RefundMoves(l, call.userId, call.opId, call.atMs, call.userId);
    forall u | u in l.accounts
      ensures DriftOf(r, u) == Drift(DriftOf(l, u).money + Worth(l, u, key), DriftOf(l, u).free - FreeUse(l, u, key))
      ensures Worth(l, u, key) <= 0
    {
      RefundMoves(l, call.userId, call.opId, call.atMs, u);
    }
    if WritesOver(l, call) {
      var owner := l.movements[key].userId;
      assert DriftOf(r, owner) != DriftOf(l, owner);
    }
  }

  lemma CallBooksIff(l: Ledger, call: Call)
    requires WellFormed(l) && NoneAbove(l) && Priced(call)
    ensures WellFormed(Apply(l, call)) && NoneAbove(Apply(l, call))
    ensures Balanced(Apply(l, call)) <==> Balanced(l) && !WritesOver(l, call)
  {
    var r := Apply(l, call);
    CallKeepsForm(l, call);
    BalancedIff(l);
    BalancedIff(r);
    if call.Refund? && Refundable(l, call.userId, call.opId) {
      RefundDrift(l, call);
      if Balanced(r) {
        forall u | u in l.accounts ensures DriftOf(l, u) == NO_DRIFT && DriftOf(r, u) == DriftOf(l, u) {
          assert DriftOf(r, u) == NO_DRIFT;
        }
      }
    } else {
      CallDrift(l, call);
      assert forall u :: u in l.accounts ==> DriftOf(r, u) == DriftOf(l, u);
    }
  }

  /** Some refund of the history writes over a charge. */
  ghost predicate SomeWritesOver(calls: seq<Call>) {
    exists k :: 0 <= k < |calls| && WritesOver(Run(calls[..k]), calls[k])
  }

  lemma EarlierOrLast(calls: seq<Call>)
    requires calls != []
    ensures var n := |calls| - 1;
      SomeWritesOver(calls) <==> SomeWritesOver(calls[..n]) || WritesOver(Run(calls[..n]), calls[n])
  {
    var before := calls[..|calls| - 1];
    assert forall k :: 0 <= k < |before| ==> before[..k] == calls[..k] && before[k] == calls[k];
    if SomeWritesOver(before) {
      var k :| 0 <= k < |before| && WritesOver(Run(before[..k]), before[k]);
      assert WritesOver(Run(calls[..k]), calls[k]);
    }
    if SomeWritesOver(calls) {
      var k :| 0 <= k < |calls| && WritesOver(Run(calls[..k]), calls[k]);
      assert k < |before| ==> WritesOver(Run(before[..k]), before[k]);
    }
  }

  /** Over every history without negative prices, under whatever keys: each account is what
      its top-ups, debits and free scans say if and only if no refund ever wrote over a
      charge.  What one has lost no later call gives back. */
  lemma {:induction false} BooksBalanceIff(calls: seq<Call>)
    requires forall c | c in calls :: Priced(c)
    ensures WellFormed(Run(calls)) && NoneAbove(Run(calls))
    ensures Balanced(Run(calls)) <==> !SomeWritesOver(calls)
    decreases |calls|
  {
    if calls == [] {
      BalancedIff(EMPTY);
    } else {
      var before, last := calls[..|calls| - 1], calls[|calls| - 1];
      assert last in calls;
      BooksBalanceIff(before);
      CallBooksIff(Run(before), last);
      EarlierOrLast(calls);
    }
  }
}
