/** What a successful refresh serves, told from the answers that arrived for it. */
module TrendingResults {
  import opened Results
  import opened TrendingCache

  /** The evaluations that came back for a refresh, one for each address, in order. */
  function Arrivals<T>(past: seq<Action<T>>, id: nat): seq<Option<T>> {
    if past == [] then []
    else
      var a := past[|past| - 1];
      Arrivals(past[..|past| - 1], id) + if a.PayloadArrives? && a.id == id then [a.payload] else []
  }

  /** How many of the payloads are there. */
  function CountPresent<T>(payloads: seq<Option<T>>): nat {
    if payloads == [] then 0
    else CountPresent(payloads[..|payloads| - 1]) + if payloads[|payloads| - 1].Some? then 1 else 0
  }

  /** The tokens are the payloads that are there, none left out and none added, each
      preceded by exactly those that came before it. */
  ghost predicate AreInOrder<T>(tokens: seq<T>, payloads: seq<Option<T>>) {
    && |tokens| == CountPresent(payloads)
    && forall i :: 0 <= i < |payloads| && payloads[i].Some? ==> IsAt(tokens, CountPresent(payloads[..i]), payloads[i])
  }

  ghost predicate IsAt<T>(tokens: seq<T>, k: nat, payload: Option<T>) { k < |tokens| && Some(tokens[k]) == payload }

  lemma {:induction false} PresentInOrder<T>(payloads: seq<Option<T>>)
    ensures AreInOrder(Present(payloads), payloads)
    decreases |payloads|
  {
    if payloads != [] {
      var n := |payloads| - 1;
      PresentInOrder(payloads[..n]);
      forall i | 0 <= i < |payloads| && payloads[i].Some?
        ensures IsAt(Present(payloads), CountPresent(payloads[..i]), payloads[i])
      {
        if i < n {
          assert payloads[..n][..i] == payloads[..i];
          assert IsAt(Present(payloads[..n]), CountPresent(payloads[..i]), payloads[..n][i]);
        }
      }
    }
  }

  ghost predicate Answered<T>(past: seq<Action<T>>, id: nat, addresses: Option<seq<Token>>) {
    SourceAnswers(id, addresses) in past
  }

  /** A refresh served good tokens: the source named as many addresses as evaluations came
      back, and the tokens are those that are there, in order. */
  ghost predicate IsAnswer<T>(past: seq<Action<T>>, id: nat, started: int, result: Snapshot<T>) {
    && !result.stale && result.generatedAt == started
    && (exists addresses: seq<Token> ::
          Answered(past, id, Some(addresses)) && |Arrivals(past, id)| == |addresses|)
    && AreInOrder(result.tokens, Arrivals(past, id))
  }

  /** Where a refresh stands, told from the steps so far. */
  ghost predicate Follows<T>(past: seq<Action<T>>, id: nat, r: Refresh<T>) {
    match r.phase
    case AskingSource => Arrivals(past, id) == []
    case Evaluating(addresses, payloads) =>
      payloads == Arrivals(past, id) && |payloads| < |addresses| && Answered(past, id, Some(addresses))
    case Ended(result) => if result.stale then Answered(past, id, None) else IsAnswer(past, id, r.now, result)
    case Settled(result) => if result.stale then Answered(past, id, None) else IsAnswer(past, id, r.now, result)
  }

  /** Every refresh follows the steps so far, and the snapshot is that of a successful one. */
  ghost predicate Told<T>(c: Cache<T>, past: seq<Action<T>>) {
    && (forall id :: 0 <= id < |c.refreshes| ==> Follows(past, id, c.refreshes[id]))
    && (forall id: nat :: id >= |c.refreshes| ==> Arrivals(past, id) == [])
    && (c.snapshot.Some? ==> exists id :: FromRefresh(c, id, c.snapshot.value))
  }

  /** The tokens and the time of a successful refresh. */
  ghost predicate FromRefresh<T>(c: Cache<T>, id: int, s: Snapshot<T>) {
    && 0 <= id < |c.refreshes| && Successful(c.refreshes[id])
    && s.tokens == c.refreshes[id].phase.result.tokens && s.generatedAt == c.refreshes[id].phase.result.generatedAt
  }

  lemma ArrivalsAfter<T>(past: seq<Action<T>>, a: Action<T>, id: nat)
    ensures Arrivals(past + [a], id)
         == if a.PayloadArrives? && a.id == id then Arrivals(past, id) + [a.payload] else Arrivals(past, id)
  {
    assert (past + [a])[..|past + [a]| - 1] == past;
  }

  /** A step that brings nothing for a refresh leaves what is told of it. */
  lemma FollowsOn<T>(past: seq<Action<T>>, a: Action<T>, id: nat, r: Refresh<T>)
    requires Follows(past, id, r) && !(a.PayloadArrives? && a.id == id)
    ensures Follows(past + [a], id, r)
  {
    ArrivalsAfter(past, a, id);
    assert forall b :: b in past ==> b in past + [a];
    if r.phase.Ended? || r.phase.Settled? {
      if !r.phase.result.stale {
        var addresses: seq<Token> :| Answered(past, id, Some(addresses)) && |Arrivals(past, id)| == |addresses|;
        assert Answered(past + [a], id, Some(addresses));
      }
    }
  }

  /** The evaluations so far fill the addresses, or go on. */
  lemma EvaluatedFollows<T>(c: Cache<T>, past: seq<Action<T>>, id: nat, addresses: seq<Token>, payloads: seq<Option<T>>)
    requires id < |c.refreshes| && payloads == Arrivals(past, id) && |payloads| <= |addresses|
    requires Answered(past, id, Some(addresses))
    ensures Follows(past, id, EvaluateOn(c, id, addresses, payloads).refreshes[id])
  {
    PresentInOrder(payloads);
  }

  lemma OthersFollow<T>(c: Cache<T>, d: Cache<T>, past: seq<Action<T>>, a: Action<T>, id: nat)
    requires Told(c, past) && |d.refreshes| == |c.refreshes| && id < |c.refreshes|
    requires forall j :: 0 <= j < |c.refreshes| && j != id ==> d.refreshes[j] == c.refreshes[j]
    requires a.PayloadArrives? ==> a.id == id
    ensures forall j :: 0 <= j < |d.refreshes| && j != id ==> Follows(past + [a], j, d.refreshes[j])
    ensures forall j: nat :: j >= |d.refreshes| ==> Arrivals(past + [a], j) == []
  {
    forall j | 0 <= j < |d.refreshes| && j != id ensures Follows(past + [a], j, d.refreshes[j]) {
      FollowsOn(past, a, j, c.refreshes[j]);
    }
    forall j: nat | j >= |d.refreshes| ensures Arrivals(past + [a], j) == [] {
      ArrivalsAfter(past, a, j);
    }
  }

  /** The snapshot still comes from a refresh when none that succeeded has changed. */
  lemma SnapshotStays<T>(c: Cache<T>, d: Cache<T>)
    requires c.snapshot.Some? ==> exists id :: FromRefresh(c, id, c.snapshot.value)
    requires d.snapshot == c.snapshot || (c.snapshot.Some? && d.snapshot == Some(c.snapshot.value.(stale := true)))
    requires forall j :: 0 <= j < |c.refreshes| && Successful(c.refreshes[j]) ==>
      j < |d.refreshes| && Successful(d.refreshes[j]) && d.refreshes[j].phase.result == c.refreshes[j].phase.result
    ensures d.snapshot.Some? ==> exists id :: FromRefresh(d, id, d.snapshot.value)
  {
    if c.snapshot.Some? {
      var id :| FromRefresh(c, id, c.snapshot.value);
      assert FromRefresh(d, id, d.snapshot.value);
    }
  }

  lemma GetTold<T>(c: Cache<T>, past: seq<Action<T>>, now: int)
    requires Told(c, past)
    ensures Told(Step(c, Get(now)), past + [Get(now)])
  {
    var a: Action<T> := Get(now);
    var d := Step(c, a);
    SnapshotStays(c, d);
    forall id | 0 <= id < |d.refreshes| ensures Follows(past + [a], id, d.refreshes[id]) {
      ArrivalsAfter(past, a, id);
      if id < |c.refreshes| {
        FollowsOn(past, a, id, c.refreshes[id]);
      }
    }
    forall id: nat | id >= |d.refreshes| ensures Arrivals(past + [a], id) == [] {
      ArrivalsAfter(past, a, id);
    }
  }

  lemma AnswerTold<T>(c: Cache<T>, past: seq<Action<T>>, a: Action<T>)
    requires Told(c, past) && Enabled(c, a) && a.SourceAnswers?
    ensures Told(Step(c, a), past + [a])
  {
    var d, id := Step(c, a), a.id;
    OthersFollow(c, d, past, a, id);
    ArrivalsAfter(past, a, id);
    assert Answered(past + [a], id, a.addresses);
    if a.addresses.Some? {
      EvaluatedFollows(c, past + [a], id, a.addresses.value, []);
      EvaluatedSnapshot(c, id, a.addresses.value, []);
    } else {
      SnapshotStays(c, d);
    }
  }

  lemma EvaluatedSnapshot<T>(c: Cache<T>, id: nat, addresses: seq<Token>, payloads: seq<Option<T>>)
    requires id < |c.refreshes| && !Successful(c.refreshes[id])
    requires c.snapshot.Some? ==> exists j :: FromRefresh(c, j, c.snapshot.value)
    ensures var d := EvaluateOn(c, id, addresses, payloads);
      d.snapshot.Some? ==> exists j :: FromRefresh(d, j, d.snapshot.value)
  {
    var d := EvaluateOn(c, id, addresses, payloads);
    if |payloads| < |addresses| {
      SnapshotStays(c, d);
    } else {
      assert FromRefresh(d, id, d.snapshot.value);
    }
  }

  lemma PayloadTold<T>(c: Cache<T>, past: seq<Action<T>>, a: Action<T>)
    requires Told(c, past) && Enabled(c, a) && a.PayloadArrives?
    ensures Told(Step(c, a), past + [a])
  {
    var d, id := Step(c, a), a.id;
    var p := c.refreshes[id].phase;
    OthersFollow(c, d, past, a, id);
    ArrivalsAfter(past, a, id);
    assert Follows(past, id, c.refreshes[id]);
    assert forall b :: b in past ==> b in past + [a];
    EvaluatedFollows(c, past + [a], id, p.addresses, p.payloads + [a.payload]);
    EvaluatedSnapshot(c, id, p.addresses, p.payloads + [a.payload]);
  }

  lemma SettleTold<T>(c: Cache<T>, past: seq<Action<T>>, a: Action<T>)
    requires Told(c, past) && Enabled(c, a) && a.Settle?
    ensures Told(Step(c, a), past + [a])
  {
    var d := Step(c, a);
    OthersFollow(c, d, past, a, a.id);
    FollowsOn(past, a, a.id, c.refreshes[a.id]);
    SnapshotStays(c, d);
  }

  lemma {:induction false} RunTold<T>(c: Cache<T>, past: seq<Action<T>>, actions: seq<Action<T>>)
    requires Told(c, past) && Possible(c, actions)
    ensures Told(Run(c, actions), past + actions)
    decreases |actions|
  {
    if actions == [] {
      assert past + actions == past;
    } else {
      var a := actions[0];
      match a {
        case Get(now) => GetTold(c, past, now);
        case SourceAnswers(_, _) => AnswerTold(c, past, a);
        case PayloadArrives(_, _) => PayloadTold(c, past, a);
        case Settle(_) => SettleTold(c, past, a);
      }
      RunTold(Step(c, a), past + [a], actions[1..]);
      assert past + [a] + actions[1..] == past + actions;
    }
  }

  /** In every interleaving a refresh that ended well had all its addresses evaluated, and
      its tokens are the payloads that came back for it, those that are there, each once and
      in the order they came; one that ended badly had no addresses. */
  lemma ResultIsArrivals<T>(ttlMs: int, actions: seq<Action<T>>, id: nat)
    requires Possible(NewCache(ttlMs), actions) && id < |Run(NewCache(ttlMs), actions).refreshes|
    requires !Run(NewCache(ttlMs), actions).refreshes[id].phase.AskingSource?
    requires !Run(NewCache(ttlMs), actions).refreshes[id].phase.Evaluating?
    ensures var r := Run(NewCache(ttlMs), actions).refreshes[id];
      var result := r.phase.result;
      if result.stale then SourceAnswers(id, None) in actions
      else
        && result.generatedAt == r.now
        && (exists addresses: seq<Token> ::
              Answered(actions, id, Some(addresses)) && |Arrivals(actions, id)| == |addresses|)
        && AreInOrder(result.tokens, Arrivals(actions, id))
  {
    var start: Cache<T> := NewCache(ttlMs);
    RunTold(start, [], actions);
    assert [] + actions == actions;
    assert Follows(actions, id, Run(start, actions).refreshes[id]);
  }

  /** And whatever snapshot is kept, fresh or stale, has the tokens and the time of a
      refresh that ended well. */
  lemma SnapshotIsArrivals<T>(ttlMs: int, actions: seq<Action<T>>) returns (id: nat)
    requires Possible(NewCache(ttlMs), actions) && Run(NewCache(ttlMs), actions).snapshot.Some?
    ensures var c := Run(NewCache(ttlMs), actions);
      && id < |c.refreshes| && c.snapshot.value.generatedAt == c.refreshes[id].now
      && AreInOrder(c.snapshot.value.tokens, Arrivals(actions, id))
  {
    var start: Cache<T> := NewCache(ttlMs);
    RunTold(start, [], actions);
    assert [] + actions == actions;
    var c := Run(start, actions);
    var found :| FromRefresh(c, found, c.snapshot.value);
    id := found;
    assert Follows(actions, id, c.refreshes[id]);
  }
}
