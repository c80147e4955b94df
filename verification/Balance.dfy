/** src/product/payment/balance.ts: prepaid balances, the free-scan quota and the
    movements that explain them. */
module Balance {
  import opened Results
  import Sums

  datatype Tier = STANDARD | COMMAND

  datatype Account = Account(balanceMicros: int, freeScans: int, tier: Tier, createdAt: int)

  datatype Kind = TOPUP | DEBIT | REFUND | FREE_DEBIT

  datatype Movement = Movement(userId: string, kind: Kind, amountMicros: int, at: int)

  datatype ChargeSource = FREE | BALANCE

  datatype LedgerError = InsufficientBalance | NoSuchCharge | NotOwned | NotRefundable

  /** The three maps of the ledger. */
  datatype Ledger = Ledger(
    accounts: map<string, Account>,
    movements: map<string, Movement>,  // by op id
    refunded: set<string>)

  const EMPTY := Ledger(map[], map[], {})

  const FREE_SCAN_GRANT := 3

  function TopUpKey(providerTxId: string): string { "topup:" + providerTxId }

  function RefundKey(opId: string): string { "refund:" + opId }

  predicate IsRefundKey(key: string) { RefundKey("") <= key }

  // ------------------------------------------------------------------
  // What each call does
  // ------------------------------------------------------------------

  function RegisterOn(l: Ledger, userId: string, atMs: int, tier: Tier): Ledger {
    if userId in l.accounts then l
    else l.(accounts := l.accounts[userId := Account(0, FREE_SCAN_GRANT, tier, atMs)])
  }

  function RequireOn(l: Ledger, userId: string): Ledger {
    RegisterOn(l, userId, 0, STANDARD)
  }

  function Credit(l: Ledger, userId: string, money: int, free: int): Ledger
    requires userId in l.accounts
  {
    var a := l.accounts[userId];
    l.(accounts := l.accounts[userId := a.(balanceMicros := a.balanceMicros + money, freeScans := a.freeScans + free)])
  }

  function Record(l: Ledger, key: string, m: Movement): Ledger {
    l.(movements := l.movements[key := m])
  }

  function TopUpOn(l: Ledger, providerTxId: string, amountUsd: int, userId: string, atMs: int, bonusMicros: int)
      : Ledger {
    var known := RequireOn(l, userId);
    if TopUpKey(providerTxId) in l.movements then known
    else Record(Credit(known, userId, amountUsd + bonusMicros, 0), TopUpKey(providerTxId),
                Movement(userId, TOPUP, amountUsd + bonusMicros, atMs))
  }

  function SetTierOn(l: Ledger, userId: string, tier: Tier): Ledger {
    var known := RequireOn(l, userId);
    known.(accounts := known.accounts[userId := known.accounts[userId].(tier := tier)])
  }

  function ChargeOn(l: Ledger, userId: string, opId: string, priceMicros: int, atMs: int, allowFree: bool)
      : (Ledger, Result<ChargeSource, LedgerError>) {
    if opId in l.movements then
      (l, Ok(if l.movements[opId].kind == FREE_DEBIT then FREE else BALANCE))
    else
      var known := RequireOn(l, userId);
      var acct := known.accounts[userId];
      if allowFree && acct.freeScans > 0 then
        (Record(Credit(known, userId, 0, -1), opId, Movement(userId, FREE_DEBIT, 0, atMs)), Ok(FREE))
      else if acct.balanceMicros < priceMicros then
        (known, Err(InsufficientBalance))
      else
        (Record(Credit(known, userId, -priceMicros, 0), opId, Movement(userId, DEBIT, priceMicros, atMs)), Ok(BALANCE))
  }

  function RefundOn(l: Ledger, userId: string, opId: string, atMs: int): (Ledger, Result<Account, LedgerError>) {
    if opId !in l.movements then (l, Err(NoSuchCharge))
    else
      var mv := l.movements[opId];
      var known := RequireOn(l, userId);
      if mv.userId != userId then (l, Err(NotOwned))
      else if opId in l.refunded then (known, Ok(known.accounts[userId]))
      else if mv.kind == FREE_DEBIT then
        var next := Refunded(Credit(known, userId, 0, 1), userId, opId, mv.amountMicros, atMs);
        (next, Ok(next.accounts[userId]))
      else if mv.kind == DEBIT then
        var next := Refunded(Credit(known, userId, mv.amountMicros, 0), userId, opId, mv.amountMicros, atMs);
        (next, Ok(next.accounts[userId]))
      else (known, Err(NotRefundable))
  }

  function Refunded(l: Ledger, userId: string, opId: string, amount: int, atMs: int): Ledger {
    Record(l, RefundKey(opId), Movement(userId, REFUND, amount, atMs)).(refunded := l.refunded + {opId})
  }

  class BalanceLedger {
    var accounts: map<string, Account>
    var movements: map<string, Movement>
    var refunded: set<string>

    function State(): Ledger
      reads this
    {
      Ledger(accounts, movements, refunded)
    }

    constructor ()
      ensures State() == EMPTY
    {
      accounts, movements, refunded := map[], map[], {};
    }

    method Register(userId: string, atMs: int, tier: Tier) returns (acct: Account)
      modifies this
      ensures State() == RegisterOn(old(State()), userId, atMs, tier)
      ensures userId in accounts && acct == accounts[userId]
    {
      if userId in accounts {
        return accounts[userId];
      }
      acct := Account(0, FREE_SCAN_GRANT, tier, atMs);
      accounts := accounts[userId := acct];
    }

    method Require(userId: string) returns (acct: Account)
      modifies this
      ensures State() == RequireOn(old(State()), userId)
      ensures userId in accounts && acct == accounts[userId]
    {
      if userId in accounts {
        return accounts[userId];
      }
      acct := Register(userId, 0, STANDARD);
    }

    method TopUp(providerTxId: string, amountUsd: int, userId: string, atMs: int, bonusMicros: int)
        returns (acct: Account)
      modifies this
      ensures State() == TopUpOn(old(State()), providerTxId, amountUsd, userId, atMs, bonusMicros)
      ensures userId in accounts && acct == accounts[userId]
    {
      var opId := "topup:" + providerTxId;
      acct := Require(userId);
      if opId in movements {
        return;
      }
      var credited := acct.balanceMicros + amountUsd + bonusMicros;
      acct := acct.(balanceMicros := credited);
      accounts := accounts[userId := acct];
      movements := movements[opId := Movement(userId, TOPUP, amountUsd + bonusMicros, atMs)];
    }

    method SetTier(userId: string, tier: Tier) returns (acct: Account)
      modifies this
      ensures State() == SetTierOn(old(State()), userId, tier)
      ensures userId in accounts && acct == accounts[userId]
    {
      acct := Require(userId);
      acct := acct.(tier := tier);
      accounts := accounts[userId := acct];
    }

    method Charge(userId: string, opId: string, priceMicros: int, atMs: int, allowFree: bool)
        returns (r: Result<ChargeSource, LedgerError>)
      modifies this
      ensures (State(), r) == ChargeOn(old(State()), userId, opId, priceMicros, atMs, allowFree)
    {
      if opId in movements {
        return Ok(if movements[opId].kind == FREE_DEBIT then FREE else BALANCE);
      }
      var acct := Require(userId);
      if allowFree && acct.freeScans > 0 {
        accounts := accounts[userId := acct.(freeScans := acct.freeScans - 1)];
        movements := movements[opId := Movement(userId, FREE_DEBIT, 0, atMs)];
        return Ok(FREE);
      }
      if acct.balanceMicros < priceMicros {
        return Err(InsufficientBalance);
      }
      accounts := accounts[userId := acct.(balanceMicros := acct.balanceMicros - priceMicros)];
      movements := movements[opId := Movement(userId, DEBIT, priceMicros, atMs)];
      return Ok(BALANCE);
    }

    method Refund(userId: string, opId: string, atMs: int) returns (r: Result<Account, LedgerError>)
      modifies this
      ensures (State(), r) == RefundOn(old(State()), userId, opId, atMs)
    {
      if opId !in movements {
        return Err(NoSuchCharge);
      }
      var mv := movements[opId];
      if mv.userId != userId {
        return Err(NotOwned);
      }
      var acct := Require(userId);
      if opId in refunded {
        return Ok(acct);
      }
      if mv.kind == FREE_DEBIT {
        accounts := accounts[userId := acct.(freeScans := acct.freeScans + 1)];
      } else if mv.kind == DEBIT {
        accounts := accounts[userId := acct.(balanceMicros := acct.balanceMicros + mv.amountMicros)];
      } else {
        return Err(NotRefundable);
      }
      refunded := refunded + {opId};
      movements := movements["refund:" + opId := Movement(userId, REFUND, mv.amountMicros, atMs)];
      acct := Require(userId);
      return Ok(acct);
    }
  }

  // ------------------------------------------------------------------
  // The books
  // ------------------------------------------------------------------

  /** What the movement under `key` stands for in `u`'s balance. */
  function Worth(l: Ledger, u: string, key: string): int {
    if key !in l.movements || l.movements[key].userId != u then 0
    else match l.movements[key].kind
      case TOPUP => l.movements[key].amountMicros
      case DEBIT => if key in l.refunded then 0 else -l.movements[key].amountMicros
      case _ => 0
  }

  /** 1 when the movement under `key` is a free scan of `u` that was not given back. */
  function FreeUse(l: Ledger, u: string, key: string): int {
    if key in l.movements && l.movements[key].userId == u && l.movements[key].kind == FREE_DEBIT && key !in l.refunded
    then 1 else 0
  }

  /** Top-ups of `u` minus the debits of `u` that were not refunded. */
  ghost function Net(l: Ledger, u: string): int {
    Sums.Sum(l.movements.Keys, key => Worth(l, u, key))
  }

  ghost function FreeUses(l: Ledger, u: string): int {
    Sums.Sum(l.movements.Keys, key => FreeUse(l, u, key))
  }

  function TopUpWorth(l: Ledger, u: string, key: string): int {
    if key in l.movements && l.movements[key].userId == u && l.movements[key].kind == TOPUP
    then l.movements[key].amountMicros else 0
  }

  function DebitWorth(l: Ledger, u: string, key: string): int {
    if key in l.movements && l.movements[key].userId == u && l.movements[key].kind == DEBIT && key !in l.refunded
    then l.movements[key].amountMicros else 0
  }

  ghost function TopUps(l: Ledger, u: string): int {
    Sums.Sum(l.movements.Keys, key => TopUpWorth(l, u, key))
  }

  ghost function Debits(l: Ledger, u: string): int {
    Sums.Sum(l.movements.Keys, key => DebitWorth(l, u, key))
  }

  lemma NetIsTopUpsMinusDebits(l: Ledger, u: string)
    ensures Net(l, u) == TopUps(l, u) - Debits(l, u)
  {
    Sums.Difference(l.movements.Keys, key => TopUpWorth(l, u, key), key => DebitWorth(l, u, key),
      key => Worth(l, u, key));
  }

  ghost predicate Agrees(l: Ledger, u: string) {
    && u in l.accounts
    && l.accounts[u].balanceMicros == Net(l, u)
    && l.accounts[u].freeScans == FREE_SCAN_GRANT - FreeUses(l, u)
  }

  ghost predicate OwnersKnown(l: Ledger) {
    forall key :: key in l.movements ==> l.movements[key].userId in l.accounts
  }

  /** Every account's balance and free scans are what its movements say. */
  ghost predicate Balanced(l: Ledger) {
    OwnersKnown(l) && forall u :: u in l.accounts ==> Agrees(l, u)
  }

  /** Nothing is negative, and a refund entry exists only for a refunded charge. */
  ghost predicate Sound(l: Ledger) {
    && (forall key :: key in l.movements ==> l.movements[key].amountMicros >= 0)
    && (forall u :: u in l.accounts ==> l.accounts[u].balanceMicros >= 0 && l.accounts[u].freeScans >= 0)
    && (forall key :: key in l.movements && IsRefundKey(key) ==> key[|RefundKey("")|..] in l.refunded)
    && l.refunded <= l.movements.Keys
  }

  lemma NoMovements(l: Ledger, u: string)
    requires forall key :: key in l.movements ==> l.movements[key].userId != u
    ensures Net(l, u) == 0 && FreeUses(l, u) == 0
  {
    Sums.Agree(l.movements.Keys, key => Worth(l, u, key), key => 0);
    Sums.Agree(l.movements.Keys, key => FreeUse(l, u, key), key => 0);
    Zero(l.movements.Keys);
  }

  lemma {:induction false} Zero(keys: set<string>)
    ensures Sums.Sum(keys, key => 0) == 0
    decreases |keys|
  {
    if keys != {} {
      var k :| k in keys;
      Sums.SplitOff(keys, k, key => 0);
      Zero(keys - {k});
    }
  }

  lemma SameBooks(l: Ledger, m: Ledger, u: string)
    requires l.movements == m.movements && l.refunded == m.refunded
    ensures Net(l, u) == Net(m, u) && FreeUses(l, u) == FreeUses(m, u)
  {
    Sums.Agree(l.movements.Keys, key => Worth(l, u, key), key => Worth(m, u, key));
    Sums.Agree(l.movements.Keys, key => FreeUse(l, u, key), key => FreeUse(m, u, key));
  }

  /** A new movement adds its own worth. */
  lemma NewMovement(l: Ledger, key: string, m: Movement, u: string)
    requires key !in l.movements
    ensures Net(Record(l, key, m), u) == Net(l, u) + Worth(Record(l, key, m), u, key)
    ensures FreeUses(Record(l, key, m), u) == FreeUses(l, u) + FreeUse(Record(l, key, m), u, key)
  {
    var r := Record(l, key, m);
    assert r.movements.Keys == l.movements.Keys + {key};
    Sums.AddKey(l.movements.Keys, key, k => Worth(r, u, k));
    Sums.AddKey(l.movements.Keys, key, k => FreeUse(r, u, k));
    Sums.Agree(l.movements.Keys, k => Worth(l, u, k), k => Worth(r, u, k));
    Sums.Agree(l.movements.Keys, k => FreeUse(l, u, k), k => FreeUse(r, u, k));
  }

  /** Replacing a movement drops the worth of the one that stood there. */
  lemma ReplacedMovement(l: Ledger, key: string, m: Movement, u: string)
    requires key in l.movements
    ensures Net(Record(l, key, m), u) == Net(l, u) - Worth(l, u, key) + Worth(Record(l, key, m), u, key)
    ensures FreeUses(Record(l, key, m), u) == FreeUses(l, u) - FreeUse(l, u, key) + FreeUse(Record(l, key, m), u, key)
  {
    var r := Record(l, key, m);
    assert r.movements.Keys == l.movements.Keys;
    Sums.ChangeKey(l.movements.Keys, key, k => Worth(l, u, k), k => Worth(r, u, k));
    Sums.ChangeKey(l.movements.Keys, key, k => FreeUse(l, u, k), k => FreeUse(r, u, k));
  }

  /** Marking a charge refunded takes its worth out. */
  lemma MarkedRefunded(l: Ledger, opId: string, u: string)
    requires opId in l.movements
    ensures var r := l.(refunded := l.refunded + {opId});
      && Net(r, u) == Net(l, u) - Worth(l, u, opId) + Worth(r, u, opId)
      && FreeUses(r, u) == FreeUses(l, u) - FreeUse(l, u, opId) + FreeUse(r, u, opId)
  {
    var r := l.(refunded := l.refunded + {opId});
    Sums.ChangeKey(l.movements.Keys, opId, k => Worth(l, u, k), k => Worth(r, u, k));
    Sums.ChangeKey(l.movements.Keys, opId, k => FreeUse(l, u, k), k => FreeUse(r, u, k));
  }

  lemma RegisterBalances(l: Ledger, userId: string, atMs: int, tier: Tier)
    requires Balanced(l)
    ensures Balanced(RegisterOn(l, userId, atMs, tier))
  {
    var r := RegisterOn(l, userId, atMs, tier);
    if userId !in l.accounts {
      NoMovements(l, userId);
      forall u | u in r.accounts ensures Agrees(r, u) {
        SameBooks(l, r, u);
        assert u in l.accounts ==> Agrees(l, u);
      }
    }
  }

  /** Moving an account by what a new entry under a new key stands for keeps the books. */
  lemma PostingKeeps(l: Ledger, userId: string, money: int, free: int, key: string, m: Movement)
    requires Balanced(l) && userId in l.accounts && key !in l.movements && m.userId == userId
    requires money == Worth(Record(l, key, m), userId, key) && free == -FreeUse(Record(l, key, m), userId, key)
    ensures Balanced(Record(Credit(l, userId, money, free), key, m))
  {
    var moved := Credit(l, userId, money, free);
    var r := Record(moved, key, m);
    forall u | u in r.accounts ensures Agrees(r, u) {
      assert Agrees(l, u);
      SameBooks(l, moved, u);
      NewMovement(moved, key, m, u);
    }
  }

  lemma TopUpBalances(l: Ledger, tx: string, amount: int, userId: string, atMs: int, bonus: int)
    requires Balanced(l) && l.refunded <= l.movements.Keys
    ensures Balanced(TopUpOn(l, tx, amount, userId, atMs, bonus))
  {
    RegisterBalances(l, userId, 0, STANDARD);
    if TopUpKey(tx) !in l.movements {
      assert TopUpKey(tx) !in l.refunded;
      PostingKeeps(RequireOn(l, userId), userId, amount + bonus, 0, TopUpKey(tx),
                   Movement(userId, TOPUP, amount + bonus, atMs));
    }
  }

  lemma TopUpSound(l: Ledger, tx: string, amount: int, userId: string, atMs: int, bonus: int)
    requires amount + bonus >= 0 && Sound(l)
    ensures Sound(TopUpOn(l, tx, amount, userId, atMs, bonus))
  {
    assert TopUpKey(tx)[0] == 't' && RefundKey("")[0] == 'r';
  }

  lemma SetTierBalances(l: Ledger, userId: string, tier: Tier)
    requires Balanced(l)
    ensures Balanced(SetTierOn(l, userId, tier))
  {
    RegisterBalances(l, userId, 0, STANDARD);
    var known, r := RequireOn(l, userId), SetTierOn(l, userId, tier);
    forall u | u in r.accounts ensures Agrees(r, u) {
      assert Agrees(known, u);
      SameBooks(known, r, u);
    }
  }

  lemma ChargeBalances(l: Ledger, userId: string, opId: string, price: int, atMs: int, allowFree: bool)
    requires Balanced(l) && l.refunded <= l.movements.Keys
    ensures Balanced(ChargeOn(l, userId, opId, price, atMs, allowFree).0)
  {
    RegisterBalances(l, userId, 0, STANDARD);
    var known := RequireOn(l, userId);
    if opId !in l.movements {
      assert opId !in l.refunded;
      if allowFree && known.accounts[userId].freeScans > 0 {
        PostingKeeps(known, userId, 0, -1, opId, Movement(userId, FREE_DEBIT, 0, atMs));
      } else if known.accounts[userId].balanceMicros >= price {
        PostingKeeps(known, userId, -price, 0, opId, Movement(userId, DEBIT, price, atMs));
      }
    }
  }

  lemma ChargeSound(l: Ledger, userId: string, opId: string, price: int, atMs: int, allowFree: bool)
    requires price >= 0 && Sound(l) && !IsRefundKey(opId)
    ensures Sound(ChargeOn(l, userId, opId, price, atMs, allowFree).0)
  {
  }

  predicate Refundable(l: Ledger, userId: string, opId: string) {
    && opId in l.movements && l.movements[opId].userId == userId
    && l.movements[opId].kind in {DEBIT, FREE_DEBIT} && opId !in l.refunded
  }

  /** How far an effective refund of `opId` moves `u`'s books: by whatever stood
      under the refund's own key. */
  lemma RefundMoves(l: Ledger, userId: string, opId: string, atMs: int, u: string)
    requires Refundable(l, userId, opId) && userId in l.accounts
    ensures var r := RefundOn(l, userId, opId, atMs).0;
      && r.accounts.Keys == l.accounts.Keys
      && (u in l.accounts ==>
            && r.accounts[u].balanceMicros - Net(r, u)
                 == l.accounts[u].balanceMicros - Net(l, u) + Worth(l, u, RefundKey(opId))
            && r.accounts[u].freeScans + FreeUses(r, u)
                 == l.accounts[u].freeScans + FreeUses(l, u) - FreeUse(l, u, RefundKey(opId)))
  {
    var mv, key := l.movements[opId], RefundKey(opId);
    assert key != opId by { assert |key| > |opId|; }
    var paid := if mv.kind == FREE_DEBIT then Credit(l, userId, 0, 1) else Credit(l, userId, mv.amountMicros, 0);
    var marked := paid.(refunded := paid.refunded + {opId});
    SameBooks(l, paid, u);
    MarkedRefunded(paid, opId, u);
    var entry := Movement(userId, REFUND, mv.amountMicros, atMs);
    assert RefundOn(l, userId, opId, atMs).0 == Record(marked, key, entry);
    if key in l.movements {
      ReplacedMovement(marked, key, entry, u);
    } else {
      NewMovement(marked, key, entry, u);
    }
  }

  /** A refund keeps the books exactly when the entry it writes over, if any,
      stands for nothing. */
  lemma RefundKeepsBooksIff(l: Ledger, userId: string, opId: string, atMs: int)
    requires Balanced(l) && Refundable(l, userId, opId)
    ensures Balanced(RefundOn(l, userId, opId, atMs).0) <==>
      (var key := RefundKey(opId);
       key in l.movements ==>
         Worth(l, l.movements[key].userId, key) == 0 && FreeUse(l, l.movements[key].userId, key) == 0)
  {
    var key := RefundKey(opId);
    var r := RefundOn(l, userId, opId, atMs).0;
    forall u | u in l.accounts
      ensures Agrees(r, u) <==> Worth(l, u, key) == 0 && FreeUse(l, u, key) == 0
    {
      assert Agrees(l, u);
      RefundMoves(l, userId, opId, atMs, u);
    }
    RefundMoves(l, userId, opId, atMs, userId);
    assert OwnersKnown(r);
    if key in l.movements {
      var owner := l.movements[key].userId;
      assert Agrees(l, owner);
      forall u | u != owner ensures Worth(l, u, key) == 0 && FreeUse(l, u, key) == 0 { }
    }
  }

  lemma RefundBalances(l: Ledger, userId: string, opId: string, atMs: int)
    requires Balanced(l) && Sound(l)
    ensures Balanced(RefundOn(l, userId, opId, atMs).0)
  {
    RegisterBalances(l, userId, 0, STANDARD);
    if Refundable(l, userId, opId) {
      assert IsRefundKey(RefundKey(opId)) && RefundKey(opId)[|RefundKey("")|..] == opId;
      RefundKeepsBooksIff(l, userId, opId, atMs);
    }
  }

  lemma RefundAmounts(l: Ledger, userId: string, opId: string, atMs: int)
    requires Sound(l)
    ensures var r := RefundOn(l, userId, opId, atMs).0;
      forall key :: key in r.movements ==> r.movements[key].amountMicros >= 0
  {
  }

  lemma RefundAccounts(l: Ledger, userId: string, opId: string, atMs: int)
    requires Sound(l)
    ensures var r := RefundOn(l, userId, opId, atMs).0;
      forall u :: u in r.accounts ==> r.accounts[u].balanceMicros >= 0 && r.accounts[u].freeScans >= 0
  {
  }

  lemma RefundEntries(l: Ledger, userId: string, opId: string, atMs: int)
    requires Sound(l)
    ensures var r := RefundOn(l, userId, opId, atMs).0;
      && (forall key :: key in r.movements && IsRefundKey(key) ==> key[|RefundKey("")|..] in r.refunded)
      && r.refunded <= r.movements.Keys
  {
    var r := RefundOn(l, userId, opId, atMs).0;
    assert RefundKey(opId)[|RefundKey("")|..] == opId;
    assert l.refunded <= r.refunded && l.movements.Keys <= r.movements.Keys;
    forall key | key in r.movements && IsRefundKey(key) ensures key[|RefundKey("")|..] in r.refunded {
      assert key == RefundKey(opId) || key in l.movements;
    }
  }

  lemma RefundSound(l: Ledger, userId: string, opId: string, atMs: int)
    requires Sound(l)
    ensures Sound(RefundOn(l, userId, opId, atMs).0)
  {
    RefundAmounts(l, userId, opId, atMs);
    RefundAccounts(l, userId, opId, atMs);
    RefundEntries(l, userId, opId, atMs);
  }

  // ------------------------------------------------------------------
  // Histories
  // ------------------------------------------------------------------

  datatype Call =
    | Register(userId: string, atMs: int, tier: Tier)
    | TopUp(providerTxId: string, amountUsd: int, userId: string, atMs: int, bonusMicros: int)
    | SetTier(userId: string, tier: Tier)
    | Charge(userId: string, opId: string, priceMicros: int, atMs: int, allowFree: bool)
    | Refund(userId: string, opId: string, atMs: int)

  function Apply(l: Ledger, call: Call): Ledger {
    match call
    case Register(u, at, tier) => RegisterOn(l, u, at, tier)
    case TopUp(tx, amount, u, at, bonus) => TopUpOn(l, tx, amount, u, at, bonus)
    case SetTier(u, tier) => SetTierOn(l, u, tier)
    case Charge(u, op, price, at, allowFree) => ChargeOn(l, u, op, price, at, allowFree).0
    case Refund(u, op, at) => RefundOn(l, u, op, at).0
  }

  function Run(calls: seq<Call>): Ledger {
    if calls == [] then EMPTY else Apply(Run(calls[..|calls| - 1]), calls[|calls| - 1])
  }

  /** Amounts are not negative, and no charge is made under a refund's key. */
  predicate Proper(call: Call) {
    match call
    case TopUp(_, amount, _, _, bonus) => amount >= 0 && bonus >= 0
    case Charge(_, op, price, _, _) => price >= 0 && !IsRefundKey(op)
    case _ => true
  }

  lemma CallKeeps(l: Ledger, call: Call)
    requires Balanced(l) && Sound(l) && Proper(call)
    ensures Balanced(Apply(l, call)) && Sound(Apply(l, call))
  {
    match call
    case Register(u, at, tier) =>
      RegisterBalances(l, u, at, tier);
    case TopUp(tx, amount, u, at, bonus) =>
      TopUpBalances(l, tx, amount, u, at, bonus);
      TopUpSound(l, tx, amount, u, at, bonus);
    case SetTier(u, tier) =>
      SetTierBalances(l, u, tier);
    case Charge(u, op, price, at, allowFree) =>
      ChargeBalances(l, u, op, price, at, allowFree);
      ChargeSound(l, u, op, price, at, allowFree);
    case Refund(u, op, at) =>
      RefundBalances(l, u, op, at);
      RefundSound(l, u, op, at);
  }

  lemma FreeScansInRange(l: Ledger, u: string)
    requires Balanced(l) && Sound(l) && u in l.accounts
    ensures 0 <= l.accounts[u].freeScans <= FREE_SCAN_GRANT
  {
    assert Agrees(l, u);
    Sums.NonNegative(l.movements.Keys, key => FreeUse(l, u, key));
  }

  /** After any history every balance is top-ups minus unrefunded debits and never
      negative, and every free-scan count is the grant minus unrefunded free scans
      and between 0 and the grant. */
  lemma {:induction false} BooksBalance(calls: seq<Call>)
    requires forall c | c in calls :: Proper(c)
    ensures Balanced(Run(calls)) && Sound(Run(calls))
    ensures forall u | u in Run(calls).accounts :: 0 <= Run(calls).accounts[u].freeScans <= FREE_SCAN_GRANT
    decreases |calls|
  {
    if calls != [] {
      BooksBalance(calls[..|calls| - 1]);
      assert Proper(calls[|calls| - 1]);
      CallKeeps(Run(calls[..|calls| - 1]), calls[|calls| - 1]);
    }
    forall u | u in Run(calls).accounts ensures 0 <= Run(calls).accounts[u].freeScans <= FREE_SCAN_GRANT {
      FreeScansInRange(Run(calls), u);
    }
  }

  /** Without the key rule the books can break: a charge made under the key that a
      later refund writes is forgotten. */
  lemma RefundKeyChargeBreaksBooks(u: string, op: string)
    requires !IsRefundKey(op)
    ensures !Balanced(Run([Charge(u, op, 0, 0, true), Charge(u, RefundKey(op), 0, 0, true), Refund(u, op, 0)]))
  {
    var c0, c1, c2 := Charge(u, op, 0, 0, true), Charge(u, RefundKey(op), 0, 0, true), Refund(u, op, 0);
    var calls := [c0, c1, c2];
    assert calls[..2] == [c0, c1] && [c0, c1][..1] == [c0] && [c0][..0] == [];
    TwoFreeCharges(u, op);
    assert Run([c0]) == Apply(EMPTY, c0);
    assert Run([c0, c1]) == Apply(Run([c0]), c1);
    RefundKeepsBooksIff(Run([c0, c1]), u, op, 0);
  }

  lemma TwoFreeCharges(u: string, op: string)
    requires !IsRefundKey(op)
    ensures var l := ChargeOn(ChargeOn(EMPTY, u, op, 0, 0, true).0, u, RefundKey(op), 0, 0, true).0;
      Balanced(l) && Refundable(l, u, op) && RefundKey(op) in l.movements
      && l.movements[RefundKey(op)].userId == u && FreeUse(l, u, RefundKey(op)) == 1
  {
    assert |RefundKey(op)| > |op|;
    BooksBalance([]);
    ChargeBalances(EMPTY, u, op, 0, 0, true);
    ChargeBalances(ChargeOn(EMPTY, u, op, 0, 0, true).0, u, RefundKey(op), 0, 0, true);
  }

  /** No call writes over an entry whose key is not a refund's. */
  lemma EntryStays(l: Ledger, call: Call, key: string)
    requires key in l.movements && !IsRefundKey(key)
    ensures key in Apply(l, call).movements && Apply(l, call).movements[key] == l.movements[key]
  {
    if call.Refund? {
      assert IsRefundKey(RefundKey(call.opId));
    }
  }

  lemma {:induction false} EntryStaysOver(calls: seq<Call>, n: nat, key: string)
    requires n <= |calls| && key in Run(calls[..n]).movements && !IsRefundKey(key)
    ensures key in Run(calls).movements && Run(calls).movements[key] == Run(calls[..n]).movements[key]
    decreases |calls|
  {
    if n == |calls| {
      assert calls[..n] == calls;
    } else {
      var before := calls[..|calls| - 1];
      assert before[..n] == calls[..n];
      EntryStaysOver(before, n, key);
      EntryStays(Run(before), calls[|calls| - 1], key);
    }
  }

  /** Once a charge has gone through in a history, every later charge under its op id -
      whatever calls came between, its refund too, and whoever it names - answers as
      that one did and changes nothing. */
  lemma ChargeIdempotent(calls: seq<Call>, n: nat, userId: string, price: int, atMs: int, allowFree: bool)
    requires n < |calls| && calls[n].Charge? && !IsRefundKey(calls[n].opId)
    requires var c := calls[n]; ChargeOn(Run(calls[..n]), c.userId, c.opId, c.priceMicros, c.atMs, c.allowFree).1.Ok?
    ensures var c := calls[n];
      ChargeOn(Run(calls), userId, c.opId, price, atMs, allowFree)
        == (Run(calls), ChargeOn(Run(calls[..n]), c.userId, c.opId, c.priceMicros, c.atMs, c.allowFree).1)
  {
    var upTo := calls[..n + 1];
    assert upTo[..n] == calls[..n] && upTo[n] == calls[n];
    EntryStaysOver(calls, n + 1, calls[n].opId);
  }

  /** A charge and its refund together leave every account as the charge found it,
      and a second refund changes nothing. */
  lemma RefundUndoesCharge(l: Ledger, userId: string, opId: string, price: int, atMs: int, allowFree: bool, later: int)
    requires opId !in l.movements && opId !in l.refunded
    requires ChargeOn(l, userId, opId, price, atMs, allowFree).1.Ok?
    ensures var charged := ChargeOn(l, userId, opId, price, atMs, allowFree).0;
      var back := RefundOn(charged, userId, opId, later).0;
      && back.accounts == RequireOn(l, userId).accounts
      && RefundOn(back, userId, opId, later).0 == back
  {
    var charged := ChargeOn(l, userId, opId, price, atMs, allowFree).0;
    var back := RefundOn(charged, userId, opId, later).0;
    assert |RefundKey(opId)| > |opId|;
    assert back.accounts == RequireOn(l, userId).accounts;
  }

  /** A refused charge refuses on funds alone and takes nothing. */
  lemma ChargeRefusedIff(l: Ledger, userId: string, opId: string, price: int, atMs: int, allowFree: bool)
    ensures ChargeOn(l, userId, opId, price, atMs, allowFree).1.Err? <==>
      && opId !in l.movements
      && !(allowFree && RequireOn(l, userId).accounts[userId].freeScans > 0)
      && RequireOn(l, userId).accounts[userId].balanceMicros < price
    ensures ChargeOn(l, userId, opId, price, atMs, allowFree).1.Err? ==>
      ChargeOn(l, userId, opId, price, atMs, allowFree).0 == RequireOn(l, userId)
  {
  }

  /** A new charge takes a free scan whenever one may be used and is left; otherwise
      exactly the price.  No other account and no earlier entry changes. */
  lemma ChargeTakes(l: Ledger, userId: string, opId: string, price: int, atMs: int, allowFree: bool)
    requires opId !in l.movements
    ensures var (m, r) := ChargeOn(l, userId, opId, price, atMs, allowFree);
      var known := RequireOn(l, userId).accounts;
      var before := known[userId];
      && m.refunded == l.refunded
      && (allowFree && before.freeScans > 0 ==>
            r == Ok(FREE) && m.accounts == known[userId := before.(freeScans := before.freeScans - 1)]
            && m.movements == l.movements[opId := Movement(userId, FREE_DEBIT, 0, atMs)])
      && (!(allowFree && before.freeScans > 0) && before.balanceMicros >= price ==>
            r == Ok(BALANCE) && m.accounts == known[userId := before.(balanceMicros := before.balanceMicros - price)]
            && m.movements == l.movements[opId := Movement(userId, DEBIT, price, atMs)])
  {
    var before := RequireOn(l, userId).accounts[userId];
    assert before.(balanceMicros := before.balanceMicros + 0, freeScans := before.freeScans + -1)
      == before.(freeScans := before.freeScans - 1);
  }

  /** Why a refund is refused, and that a refusal moves nothing: there is no such entry, it is
      another user's, or it is no charge. */
  lemma RefundRefused(l: Ledger, userId: string, opId: string, atMs: int)
    ensures var (m, r) := RefundOn(l, userId, opId, atMs);
      && (r == Err(NoSuchCharge) <==> opId !in l.movements)
      && (r == Err(NotOwned) <==> opId in l.movements && l.movements[opId].userId != userId)
      && (r == Err(NotRefundable) <==>
            && opId in l.movements && l.movements[opId].userId == userId && opId !in l.refunded
            && l.movements[opId].kind in {TOPUP, REFUND})
      && r != Err(InsufficientBalance)
      && (r.Err? ==> m.movements == l.movements && m.refunded == l.refunded
                     && m.accounts == (if r == Err(NotRefundable) then RequireOn(l, userId) else l).accounts)
      && (r.Ok? ==> userId in m.accounts && r.value == m.accounts[userId])
  {
  }

  /** An account opens with three free scans and nothing on it; the first contact gives it
      its tier and time, and later ones change nothing. */
  lemma OpensOnce(l: Ledger, userId: string, atMs: int, tier: Tier, later: int, other: Tier)
    ensures var known := RegisterOn(l, userId, atMs, tier);
      && (userId !in l.accounts ==> known.accounts == l.accounts[userId := Account(0, 3, tier, atMs)])
      && known.movements == l.movements && known.refunded == l.refunded
      && RegisterOn(known, userId, later, other) == known
  {
  }
}
