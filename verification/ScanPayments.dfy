/** How often one request id is paid, told by the payments its calls bring. */
module ScanPayments {
  import opened Entitlements
  import opened Results
  import opened ScanProtocol
  import R = ScanSafety
  import opened ScanService
  import opened Store

  // ------------------------------------------------------------------
  // Two entitlements
  // ------------------------------------------------------------------

  lemma PaidUpdates(s: State, d: State, i: nat, e: string, report: string)
    requires i in s.calls && OnlyCall(s, d, i) && Paid(s.books, s.tables, d, s.calls[i], report)
    requires Mirrors(s.books, s.tables) && Usable(s.books, s.calls[i].input) && e != s.calls[i].input.entitlementId
    ensures Mirrors(d.books, d.tables)
    ensures e in s.books.entitlements ==>
      e in d.books.entitlements && d.books.entitlements[e] == s.books.entitlements[e]
    ensures e in s.tables.entitlements ==> e in d.tables.entitlements
  {
    var c := s.calls[i];
    ConsumeOnce(s.books, c.input.entitlementId, c.input.userId, ExecId(c.input.requestId), c.now, "", "", 0);
    CallsKeepCoherence(s.books, "", c.input.entitlementId, c.input.userId, ExecId(c.input.requestId), c.now);
  }

  /** Two calls for one request that are both past the gate and bring different
      entitlements both return a new paid result. */
  lemma TwoEntitlementsPayTwice(s: State, i: nat, j: nat, good: Ports)
    requires i in s.calls && j in s.calls && i != j && s.calls[i].pc == Reserve && s.calls[j].pc == Reserve
    requires s.calls[i].input.requestId == s.calls[j].input.requestId
    requires s.calls[i].input.entitlementId != s.calls[j].input.entitlementId
    requires Usable(s.books, s.calls[i].input) && s.calls[i].input.entitlementId in s.tables.entitlements
    requires Usable(s.books, s.calls[j].input) && s.calls[j].input.entitlementId in s.tables.entitlements
    requires Mirrors(s.books, s.tables) && Good(good)
    ensures var actions := Steps(s, i, good) + Steps(Drive(s, i, good), j, good);
      && Possible(s, actions)
      && i in Run(s, actions).calls && Delivered(Run(s, actions).calls[i].pc)
      && j in Run(s, actions).calls && Delivered(Run(s, actions).calls[j].pc)
  {
    DriveIsRun(s, i, good);
    FromReserve(s, i, good);
    var d := Drive(s, i, good);
    PaidUpdates(s, d, i, s.calls[j].input.entitlementId, good.evaluated.value.report);
    DriveIsRun(d, j, good);
    FromReserve(d, j, good);
    RunAppend(s, Steps(s, i, good), Steps(d, j, good));
  }

  lemma {:induction false} RunAppend(s: State, before: seq<Action>, after: seq<Action>)
    requires Possible(s, before) && Possible(Run(s, before), after)
    ensures Possible(s, before + after) && Run(s, before + after) == Run(Run(s, before), after)
    decreases |before|
  {
    if before == [] {
      assert before + after == after;
    } else {
      assert (before + after)[1..] == before[1..] + after;
      RunAppend(Step(s, before[0]), before[1..], after);
    }
  }

  lemma Then(s: State, a: Action, rest: seq<Action>)
    requires Enabled(s, a) && Possible(Step(s, a), rest)
    ensures Possible(s, [a] + rest) && Run(s, [a] + rest) == Run(Step(s, a), rest)
  {
    assert ([a] + rest)[1..] == rest;
  }

  /** Both calls have passed the gate, each with its own issued and stored entitlement. */
  function BothPastGate(first: ScanInput, second: ScanInput, a: Entitlement, b: Entitlement): State {
    State(Books(map[a.id := a, b.id := b], map[]),
          EMPTY_TABLES.(entitlements := map[a.id := a, b.id := b]),
          map[0 := NewCall(first, 0).(pc := Reserve), 1 := NewCall(second, 0).(pc := Reserve)])
  }

  /** Two entitlements issued and stored. */
  lemma Prepared(tx0: string, tx1: string, user: string) returns (prefix: seq<Action>)
    requires tx0 != tx1
    ensures var a := Entitlement(EntitlementIdFor(tx0), user, tx0, 0, ISSUED);
      var b := Entitlement(EntitlementIdFor(tx1), user, tx1, 0, ISSUED);
      && a.id != b.id
      && Possible(START, prefix) && (forall k :: 0 <= k < |prefix| ==> !prefix[k].Arrive?)
      && Run(START, prefix) == State(Books(map[a.id := a, b.id := b], map[]),
                                     EMPTY_TABLES.(entitlements := map[a.id := a, b.id := b]), map[])
  {
    var a := Entitlement(EntitlementIdFor(tx0), user, tx0, 0, ISSUED);
    var b := Entitlement(EntitlementIdFor(tx1), user, tx1, 0, ISSUED);
    assert a.id[4..] == tx0 && b.id[4..] == tx1;
    var issued := Books(map[a.id := a, b.id := b], map[]);
    var s1 := Step(START, Issue(tx0, user, 0));
    var s2 := Step(s1, Issue(tx1, user, 0));
    assert s2 == State(issued, EMPTY_TABLES, map[]);
    var s3 := Step(s2, Mirror(a));
    var s4 := Step(s3, Mirror(b));
    assert s4 == State(issued, EMPTY_TABLES.(entitlements := map[a.id := a, b.id := b]), map[]);
    Then(s3, Mirror(b), []);
    Then(s2, Mirror(a), [Mirror(b)] + []);
    Then(s1, Issue(tx1, user, 0), [Mirror(a)] + ([Mirror(b)] + []));
    prefix := [Issue(tx0, user, 0)] + ([Issue(tx1, user, 0)] + ([Mirror(a)] + ([Mirror(b)] + [])));
    Then(START, Issue(tx0, user, 0), [Issue(tx1, user, 0)] + ([Mirror(a)] + ([Mirror(b)] + [])));
  }

  lemma PassGate(first: ScanInput, second: ScanInput, a: Entitlement, b: Entitlement, ports: Ports)
      returns (next: seq<Action>)
    ensures var s := BothPastGate(first, second, a, b);
      Possible(s.(calls := map[]), next) && Run(s.(calls := map[]), next) == s
    ensures forall k :: 0 <= k < |next| && next[k].Arrive? ==> next[k].input in {first, second}
  {
    var s := BothPastGate(first, second, a, b);
    var s4 := s.(calls := map[]);
    var s5 := Step(s4, Arrive(0, first, 0));
    var s6 := Step(s5, Arrive(1, second, 0));
    assert s6.calls == map[0 := NewCall(first, 0), 1 := NewCall(second, 0)];
    var s7 := Step(s6, Go(0, ports));
    assert s7.calls == map[0 := NewCall(first, 0).(pc := Reserve), 1 := NewCall(second, 0)];
    var s8 := Step(s7, Go(1, ports));
    assert s8.calls == s.calls;
    Then(s7, Go(1, ports), []);
    Then(s6, Go(0, ports), [Go(1, ports)] + []);
    Then(s5, Arrive(1, second, 0), [Go(0, ports)] + ([Go(1, ports)] + []));
    next := [Arrive(0, first, 0)] + ([Arrive(1, second, 0)] + ([Go(0, ports)] + ([Go(1, ports)] + [])));
    Then(s4, Arrive(0, first, 0), [Arrive(1, second, 0)] + ([Go(0, ports)] + ([Go(1, ports)] + [])));
  }

  /** Calls for request `r` bring one of these entitlements. */
  predicate BringOnly(actions: seq<Action>, r: string, ids: set<string>) {
    forall k :: 0 <= k < |actions| && actions[k].Arrive? && actions[k].input.requestId == r
      ==> actions[k].input.entitlementId in ids
  }

  lemma ToBothPastGate(first: ScanInput, second: ScanInput, a: Entitlement, b: Entitlement, ports: Ports)
      returns (actions: seq<Action>)
    requires a.providerTxId != b.providerTxId && a.userId == b.userId
    requires a == Entitlement(EntitlementIdFor(a.providerTxId), a.userId, a.providerTxId, 0, ISSUED)
    requires b == Entitlement(EntitlementIdFor(b.providerTxId), b.userId, b.providerTxId, 0, ISSUED)
    requires first.entitlementId == a.id && second.entitlementId == b.id
    ensures Possible(START, actions) && Run(START, actions) == BothPastGate(first, second, a, b)
    ensures a.id != b.id && forall r :: BringOnly(actions, r, {a.id, b.id})
  {
    var prefix := Prepared(a.providerTxId, b.providerTxId, a.userId);
    var gates := PassGate(first, second, a, b, ports);
    RunAppend(START, prefix, gates);
    actions := prefix + gates;
  }

  /** The protocol does not promise one paid result for one request id: two
      concurrent calls that bring different entitlements are both paid. */
  lemma PaidTwice(requestId: string, user: string, token: string, tx0: string, tx1: string, good: Ports)
    requires tx0 != tx1 && Good(good)
    ensures exists actions ::
      && Possible(START, actions) && BringOnly(actions, requestId, {EntitlementIdFor(tx0), EntitlementIdFor(tx1)})
      && (var s := Run(START, actions);
          && 0 in s.calls && s.calls[0].input.requestId == requestId && Delivered(s.calls[0].pc)
          && 1 in s.calls && s.calls[1].input.requestId == requestId && Delivered(s.calls[1].pc))
  {
    var a := Entitlement(EntitlementIdFor(tx0), user, tx0, 0, ISSUED);
    var b := Entitlement(EntitlementIdFor(tx1), user, tx1, 0, ISSUED);
    var first, second := ScanInput(requestId, user, token, a.id), ScanInput(requestId, user, token, b.id);
    var s := BothPastGate(first, second, a, b);
    var prefix := ToBothPastGate(first, second, a, b, good);
    TwoEntitlementsPayTwice(s, 0, 1, good);
    var rest := Steps(s, 0, good) + Steps(Drive(s, 0, good), 1, good);
    RunAppend(START, prefix, rest);
    RunKeepsInputs(s, rest, 0);
    RunKeepsInputs(s, rest, 1);
    BringThenGo(prefix, rest, requestId, {a.id, b.id});
  }

  lemma BringThenGo(before: seq<Action>, after: seq<Action>, r: string, ids: set<string>)
    requires BringOnly(before, r, ids) && forall k :: 0 <= k < |after| ==> after[k].Go?
    ensures BringOnly(before + after, r, ids)
  {
  }

  lemma {:induction false} RunKeepsInputs(s: State, actions: seq<Action>, i: nat)
    requires Possible(s, actions) && i in s.calls
    ensures i in Run(s, actions).calls && Run(s, actions).calls[i].input == s.calls[i].input
    decreases |actions|
  {
    if actions != [] {
      RunKeepsInputs(Step(s, actions[0]), actions[1..], i);
    }
  }

  // ------------------------------------------------------------------
  // Exactly when
  // ------------------------------------------------------------------

  /** At most one call for the request has returned a new paid result. */
  ghost predicate PaidAtMostOnce(s: State, r: string) {
    forall i, j ::
      && i in s.calls && s.calls[i].input.requestId == r && Delivered(s.calls[i].pc)
      && j in s.calls && s.calls[j].input.requestId == r && Delivered(s.calls[j].pc)
      ==> i == j
  }

  /** Every call for request `r` has brought one of these entitlements. */
  ghost predicate Brought(s: State, r: string, ids: set<string>) {
    forall i :: i in s.calls && s.calls[i].input.requestId == r ==> s.calls[i].input.entitlementId in ids
  }

  lemma StepBrings(s: State, a: Action, r: string, ids: set<string>)
    requires Brought(s, r, ids) && Enabled(s, a) && BringOnly([a], r, ids)
    ensures Brought(Step(s, a), r, ids)
  {
    var t := Step(s, a);
    assert [a][0] == a;
    forall i | i in t.calls && t.calls[i].input.requestId == r ensures t.calls[i].input.entitlementId in ids {
      R.DiesIff(s, a, i);
      assert i !in s.calls ==> a.Arrive? && t.calls[i].input == a.input;
    }
  }

  lemma {:induction false} RunBrings(s: State, actions: seq<Action>, r: string, ids: set<string>)
    requires Possible(s, actions) && BringOnly(actions, r, ids) && Brought(s, r, ids)
    ensures Brought(Run(s, actions), r, ids)
    decreases |actions|
  {
    if actions != [] {
      StepBrings(s, actions[0], r, ids);
      RunBrings(Step(s, actions[0]), actions[1..], r, ids);
    }
  }

  function IdsOf(txs: set<string>): set<string> { set tx | tx in txs :: EntitlementIdFor(tx) }

  lemma OneEntitlementPaysOnce(actions: seq<Action>, r: string, txs: set<string>)
    requires Possible(START, actions) && BringOnly(actions, r, IdsOf(txs))
    requires forall a, b :: a in txs && b in txs ==> a == b
    ensures PaidAtMostOnce(Run(START, actions), r)
  {
    var s := Run(START, actions);
    RunBrings(START, actions, r, IdsOf(txs));
    forall i, j |
      && i in s.calls && s.calls[i].input.requestId == r && Delivered(s.calls[i].pc)
      && j in s.calls && s.calls[j].input.requestId == r && Delivered(s.calls[j].pc)
      ensures i == j
    {
      R.OneClaimant(actions, i, j);
    }
  }

  lemma TwoPaymentsPayTwice(r: string, txs: set<string>, tx0: string, tx1: string)
    requires tx0 in txs && tx1 in txs && tx0 != tx1
    ensures exists actions ::
      Possible(START, actions) && BringOnly(actions, r, IdsOf(txs)) && !PaidAtMostOnce(Run(START, actions), r)
  {
    PaidTwice(r, "", "", tx0, tx1, Ports(true, true, Some(Evaluation("", [], [], [])), true, 0));
    var actions :|
      && Possible(START, actions) && BringOnly(actions, r, {EntitlementIdFor(tx0), EntitlementIdFor(tx1)})
      && (var s := Run(START, actions);
          && 0 in s.calls && s.calls[0].input.requestId == r && Delivered(s.calls[0].pc)
          && 1 in s.calls && s.calls[1].input.requestId == r && Delivered(s.calls[1].pc));
    assert BringOnly(actions, r, IdsOf(txs));
    assert !PaidAtMostOnce(Run(START, actions), r);
  }

  /** Whatever else runs beside them, calls for a request that bring the entitlements of
      these payments are paid at most once for it in every interleaving, if and only if the
      payments are one and the same. */
  lemma OnePaidResultIff(r: string, txs: set<string>)
    ensures (forall actions :: Possible(START, actions) && BringOnly(actions, r, IdsOf(txs)) ==>
              PaidAtMostOnce(Run(START, actions), r))
      <==> forall a, b :: a in txs && b in txs ==> a == b
  {
    if a, b :| a in txs && b in txs && a != b {
      TwoPaymentsPayTwice(r, txs, a, b);
    } else {
      forall actions | Possible(START, actions) && BringOnly(actions, r, IdsOf(txs))
        ensures PaidAtMostOnce(Run(START, actions), r)
      {
        OneEntitlementPaysOnce(actions, r, txs);
      }
    }
  }
}
