/** src/product/trending/trendingCache.ts: a lazily refreshed snapshot.  Requests, the
    answers of the address source and of each evaluation, and the end of a refresh
    are separate steps that interleave freely. */
module TrendingCache {
  import opened Results

  datatype Token = Token(chain: string, address: string)

  datatype Snapshot<T> = Snapshot(generatedAt: int, tokens: seq<T>, stale: bool)

  /** A refresh waits for the source, then for one evaluation at a time; it has
      ended once it has its result and is settled once nothing awaits it any more. */
  datatype Phase<T> =
    | AskingSource
    | Evaluating(addresses: seq<Token>, payloads: seq<Option<T>>)
    | Ended(result: Snapshot<T>)
    | Settled(result: Snapshot<T>)

  datatype Refresh<T> = Refresh(now: int, phase: Phase<T>)

  datatype Reply<T> = Served(snapshot: Snapshot<T>) | Waiting(refresh: nat)

  datatype Cache<T> = Cache(ttlMs: int, snapshot: Option<Snapshot<T>>, inFlight: Option<nat>,
                            refreshes: seq<Refresh<T>>)

  function NewCache<T>(ttlMs: int): Cache<T> { Cache(ttlMs, None, None, []) }

  predicate IsStale<T>(c: Cache<T>, now: int) {
    c.snapshot.None? || now - c.snapshot.value.generatedAt >= c.ttlMs
  }

  /** The payloads that are there, in the order of their addresses. */
  function Present<T>(payloads: seq<Option<T>>): seq<T> {
    if payloads == [] then []
    else
      var last := payloads[|payloads| - 1];
      Present(payloads[..|payloads| - 1]) + if last.Some? then [last.value] else []
  }

  function GetOn<T>(c: Cache<T>, now: int): (Cache<T>, Reply<T>) {
    if !IsStale(c, now) then (c, Served(c.snapshot.value))
    else if c.inFlight.Some? then (c, Waiting(c.inFlight.value))
    else (c.(inFlight := Some(|c.refreshes|), refreshes := c.refreshes + [Refresh(now, AskingSource)]),
      Waiting(|c.refreshes|))
  }

  function SetPhase<T>(c: Cache<T>, id: nat, phase: Phase<T>): Cache<T>
    requires id < |c.refreshes|
  {
    c.(refreshes := c.refreshes[id := c.refreshes[id].(phase := phase)])
  }

  /** The source failed: the last good snapshot, marked stale, or an empty one. */
  function FailOn<T>(c: Cache<T>, id: nat): Cache<T>
    requires id < |c.refreshes|
  {
    if c.snapshot.Some? then
      var kept := c.snapshot.value.(stale := true);
      SetPhase(c, id, Ended(kept)).(snapshot := Some(kept))
    else SetPhase(c, id, Ended(Snapshot(c.refreshes[id].now, [], true)))
  }

  /** Ends the refresh when its last address has been evaluated. */
  function EvaluateOn<T>(c: Cache<T>, id: nat, addresses: seq<Token>, payloads: seq<Option<T>>): Cache<T>
    requires id < |c.refreshes|
  {
    if |payloads| < |addresses| then SetPhase(c, id, Evaluating(addresses, payloads))
    else
      var fresh0 := Snapshot(c.refreshes[id].now, Present(payloads), false);
      SetPhase(c, id, Ended(fresh0)).(snapshot := Some(fresh0))
  }

  datatype Action<T> =
    | Get(now: int)
    | SourceAnswers(id: nat, addresses: Option<seq<Token>>)  // `None`: null or a throw
    | PayloadArrives(id: nat, payload: Option<T>)            // `None`: null or a throw
    | Settle(id: nat)

  predicate Enabled<T>(c: Cache<T>, a: Action<T>) {
    match a
    case Get(_) => true
    case SourceAnswers(id, _) => id < |c.refreshes| && c.refreshes[id].phase.AskingSource?
    case PayloadArrives(id, _) => id < |c.refreshes| && c.refreshes[id].phase.Evaluating?
    case Settle(id) => id < |c.refreshes| && c.refreshes[id].phase.Ended?
  }

  function Step<T>(c: Cache<T>, a: Action<T>): Cache<T>
    requires Enabled(c, a)
  {
    match a
    case Get(now) => GetOn(c, now).0
    case SourceAnswers(id, addresses) =>
      if addresses.None? then FailOn(c, id) else EvaluateOn(c, id, addresses.value, [])
    case PayloadArrives(id, payload) =>
      var p := c.refreshes[id].phase;
      EvaluateOn(c, id, p.addresses, p.payloads + [payload])
    case Settle(id) => SetPhase(c, id, Settled(c.refreshes[id].phase.result)).(inFlight := None)
  }

  ghost predicate Possible<T>(c: Cache<T>, actions: seq<Action<T>>)
    decreases |actions|
  {
    actions == [] || (Enabled(c, actions[0]) && Possible(Step(c, actions[0]), actions[1..]))
  }

  ghost function Run<T>(c: Cache<T>, actions: seq<Action<T>>): Cache<T>
    requires Possible(c, actions)
    decreases |actions|
  {
    if actions == [] then c else Run(Step(c, actions[0]), actions[1..])
  }

  // ------------------------------------------------------------------
  // What every run keeps
  // ------------------------------------------------------------------

  predicate Successful<T>(r: Refresh<T>) { (r.phase.Ended? || r.phase.Settled?) && !r.phase.result.stale }

  /** Exactly the refresh in flight, the latest, is not settled. */
  ghost predicate SingleFlight<T>(c: Cache<T>) {
    && (c.inFlight.Some? ==> c.inFlight.value == |c.refreshes| - 1)
    && forall i :: 0 <= i < |c.refreshes| ==> (!c.refreshes[i].phase.Settled? <==> c.inFlight == Some(i))
  }

  /** The snapshot is a successful refresh's, and whatever started after a successful
      refresh started a lifetime after it. */
  ghost predicate Spaced<T>(c: Cache<T>) {
    && (forall i, j :: 0 <= i < j < |c.refreshes| && Successful(c.refreshes[i])
          ==> c.refreshes[j].now - c.refreshes[i].now >= c.ttlMs)
    && (forall i :: 0 <= i < |c.refreshes| && Successful(c.refreshes[i]) ==>
          c.snapshot.Some? && (c.snapshot.value.generatedAt == c.refreshes[i].now
                               || c.snapshot.value.generatedAt - c.refreshes[i].now >= c.ttlMs))
    && (c.snapshot.Some? ==>
          exists i :: 0 <= i < |c.refreshes| && Successful(c.refreshes[i])
            && c.refreshes[i].now == c.snapshot.value.generatedAt)
  }

  ghost predicate Inv<T>(c: Cache<T>) { SingleFlight(c) && Spaced(c) }

  lemma GetKeeps<T>(c: Cache<T>, now: int)
    requires Inv(c) && c.ttlMs >= 0
    ensures Inv(GetOn(c, now).0)
  {
    var d := GetOn(c, now).0;
    if IsStale(c, now) && c.inFlight.None? {
      assert forall i :: 0 <= i < |c.refreshes| ==> d.refreshes[i] == c.refreshes[i];
      if c.snapshot.Some? {
        var i :| 0 <= i < |c.refreshes| && Successful(c.refreshes[i])
          && c.refreshes[i].now == c.snapshot.value.generatedAt;
        assert d.refreshes[i] == c.refreshes[i];
      }
    }
  }

  /** The refresh in flight moves on without a good result. */
  lemma PhaseKeeps<T>(c: Cache<T>, d: Cache<T>, id: nat, phase: Phase<T>)
    requires Inv(c) && id < |c.refreshes| && c.inFlight == Some(id) && !Successful(c.refreshes[id])
    requires phase.AskingSource? || phase.Evaluating? || (phase.Ended? && phase.result.stale)
    requires d == SetPhase(c, id, phase).(snapshot := d.snapshot)
    requires d.snapshot == c.snapshot || (c.snapshot.Some? && d.snapshot == Some(c.snapshot.value.(stale := true)))
    ensures Inv(d)
  {
    assert forall i :: 0 <= i < |c.refreshes| ==> d.refreshes[i].now == c.refreshes[i].now;
    assert forall i :: 0 <= i < |c.refreshes| ==> (Successful(d.refreshes[i]) <==> Successful(c.refreshes[i]));
    if c.snapshot.Some? {
      var i :| 0 <= i < |c.refreshes| && Successful(c.refreshes[i])
        && c.refreshes[i].now == c.snapshot.value.generatedAt;
      assert Successful(d.refreshes[i]);
    }
  }

  lemma SuccessKeeps<T>(c: Cache<T>, id: nat, tokens: seq<T>)
    requires Inv(c) && id < |c.refreshes| && c.inFlight == Some(id) && c.ttlMs >= 0
    ensures var good := Snapshot(c.refreshes[id].now, tokens, false);
      Inv(SetPhase(c, id, Ended(good)).(snapshot := Some(good)))
  {
    var good := Snapshot(c.refreshes[id].now, tokens, false);
    var d := SetPhase(c, id, Ended(good)).(snapshot := Some(good));
    assert Successful(d.refreshes[id]) && d.refreshes[id].now == good.generatedAt;
    forall i | 0 <= i < |d.refreshes| && Successful(d.refreshes[i])
      ensures i == id || d.refreshes[id].now - d.refreshes[i].now >= d.ttlMs
    {
      if i != id {
        assert Successful(c.refreshes[i]) && i < id;
      }
    }
  }

  lemma SettleKeeps<T>(c: Cache<T>, id: nat)
    requires Inv(c) && id < |c.refreshes| && c.refreshes[id].phase.Ended?
    ensures Inv(Step(c, Settle(id)))
  {
    var d := Step(c, Settle(id));
    assert c.inFlight == Some(id);
    assert forall i :: 0 <= i < |c.refreshes| ==> d.refreshes[i].now == c.refreshes[i].now;
    assert forall i :: 0 <= i < |c.refreshes| ==> (Successful(d.refreshes[i]) <==> Successful(c.refreshes[i]));
    if c.snapshot.Some? {
      var i :| 0 <= i < |c.refreshes| && Successful(c.refreshes[i])
        && c.refreshes[i].now == c.snapshot.value.generatedAt;
      assert Successful(d.refreshes[i]);
    }
  }

  lemma EvaluateKeeps<T>(c: Cache<T>, id: nat, addresses: seq<Token>, payloads: seq<Option<T>>)
    requires Inv(c) && id < |c.refreshes| && c.inFlight == Some(id) && !Successful(c.refreshes[id]) && c.ttlMs >= 0
    ensures Inv(EvaluateOn(c, id, addresses, payloads))
  {
    if |payloads| < |addresses| {
      PhaseKeeps(c, EvaluateOn(c, id, addresses, payloads), id, Evaluating(addresses, payloads));
    } else {
      SuccessKeeps(c, id, Present(payloads));
    }
  }

  lemma FailKeeps<T>(c: Cache<T>, id: nat)
    requires Inv(c) && id < |c.refreshes| && c.inFlight == Some(id) && !Successful(c.refreshes[id])
    ensures Inv(FailOn(c, id))
  {
    var d := FailOn(c, id);
    PhaseKeeps(c, d, id, d.refreshes[id].phase);
  }

  lemma StepKeeps<T>(c: Cache<T>, a: Action<T>)
    requires Inv(c) && Enabled(c, a) && c.ttlMs >= 0
    ensures Inv(Step(c, a))
  {
    match a
    case Get(now) => GetKeeps(c, now);
    case SourceAnswers(id, addresses) =>
      assert c.inFlight == Some(id);
      if addresses.None? {
        FailKeeps(c, id);
      } else {
        EvaluateKeeps(c, id, addresses.value, []);
      }
    case PayloadArrives(id, payload) =>
      assert c.inFlight == Some(id);
      var p := c.refreshes[id].phase;
      EvaluateKeeps(c, id, p.addresses, p.payloads + [payload]);
    case Settle(id) => SettleKeeps(c, id);
  }

  lemma {:induction false} RunKeeps<T>(c: Cache<T>, actions: seq<Action<T>>)
    requires Inv(c) && Possible(c, actions) && c.ttlMs >= 0
    ensures Inv(Run(c, actions)) && Run(c, actions).ttlMs == c.ttlMs
    decreases |actions|
  {
    if actions != [] {
      StepKeeps(c, actions[0]);
      RunKeeps(Step(c, actions[0]), actions[1..]);
    }
  }

  // ------------------------------------------------------------------
  // Main results
  // ------------------------------------------------------------------

  /** In every interleaving at most one refresh is in flight, and after a successful
      refresh no other starts within its lifetime. */
  lemma OneRefreshAndSpaced<T>(ttlMs: int, actions: seq<Action<T>>, i: nat, j: nat)
    requires ttlMs >= 0 && Possible(NewCache(ttlMs), actions)
    requires i < j < |Run(NewCache(ttlMs), actions).refreshes|
    ensures var rs := Run(NewCache(ttlMs), actions).refreshes;
      && (rs[i].phase.Settled? || rs[j].phase.Settled?)
      && (Successful(rs[i]) ==> rs[j].now - rs[i].now >= ttlMs)
  {
    var start: Cache<T> := NewCache(ttlMs);
    RunKeeps(start, actions);
  }

  /** A stale request during a refresh starts nothing and waits for that refresh;
      a refresh is started exactly by a stale request with none in flight. */
  lemma StartedIff<T>(c: Cache<T>, now: int)
    requires Inv(c)
    ensures var (d, reply) := GetOn(c, now);
      var young := c.snapshot.Some? && now - c.snapshot.value.generatedAt < c.ttlMs;
      && (reply.Served? <==> young) && (young ==> reply.snapshot == c.snapshot.value)
      && (|d.refreshes| == |c.refreshes| + 1 <==>
           !young && forall i :: 0 <= i < |c.refreshes| ==> c.refreshes[i].phase.Settled?)
      && (reply.Waiting? ==> reply.refresh < |d.refreshes| && d.inFlight == Some(reply.refresh))
  {
    if c.inFlight.Some? {
      assert !c.refreshes[c.inFlight.value].phase.Settled?;
    }
  }

  ghost predicate HasResult<T>(c: Cache<T>, id: nat, result: Snapshot<T>) {
    && id < |c.refreshes| && (c.refreshes[id].phase.Ended? || c.refreshes[id].phase.Settled?)
    && c.refreshes[id].phase.result == result
  }

  /** Whoever waits for a refresh gets its one result: it never changes. */
  lemma {:induction false} ResultShared<T>(c: Cache<T>, actions: seq<Action<T>>, id: nat, result: Snapshot<T>)
    requires Possible(c, actions) && HasResult(c, id, result)
    ensures HasResult(Run(c, actions), id, result)
    decreases |actions|
  {
    if actions != [] {
      ResultShared(Step(c, actions[0]), actions[1..], id, result);
    }
  }

  /** A failed refresh keeps the last good tokens and their time; with none there is
      still no snapshot, and the callers get an empty stale one. */
  lemma FailureKeepsTokens<T>(c: Cache<T>, id: nat)
    requires Enabled(c, SourceAnswers(id, None))
    ensures var d := Step(c, SourceAnswers(id, None));
      if c.snapshot.Some?
      then d.snapshot == Some(Snapshot(c.snapshot.value.generatedAt, c.snapshot.value.tokens, true))
        && HasResult(d, id, d.snapshot.value)
      else d.snapshot == None && HasResult(d, id, Snapshot(c.refreshes[id].now, [], true))
  {
  }

  // With a clock that does not go back -----------------------------------

  ghost predicate Clocked<T>(c: Cache<T>, clock: int) {
    && (forall i :: 0 <= i < |c.refreshes| ==> c.refreshes[i].now <= clock)
    && (c.snapshot.Some? && c.snapshot.value.stale ==> IsStale(c, clock))
    && (c.inFlight.Some? && c.inFlight.value < |c.refreshes| && c.refreshes[c.inFlight.value].phase.AskingSource? ==>
          IsStale(c, c.refreshes[c.inFlight.value].now))
  }

  function ClockAfter<T>(clock: int, a: Action<T>): int { if a.Get? then a.now else clock }

  ghost predicate Forward<T>(clock: int, actions: seq<Action<T>>)
    decreases |actions|
  {
    actions == [] || ((actions[0].Get? ==> actions[0].now >= clock)
      && Forward(ClockAfter(clock, actions[0]), actions[1..]))
  }

  lemma StepKeepsClock<T>(c: Cache<T>, clock: int, a: Action<T>)
    requires Inv(c) && Clocked(c, clock) && Enabled(c, a) && (a.Get? ==> a.now >= clock)
    ensures Clocked(Step(c, a), ClockAfter(clock, a))
  {
    if a.SourceAnswers? {
      assert c.inFlight == Some(a.id);
    }
  }

  /** The clock once all the requests have been made. */
  function ClockOf<T>(clock: int, actions: seq<Action<T>>): int
    decreases |actions|
  {
    if actions == [] then clock else ClockOf(ClockAfter(clock, actions[0]), actions[1..])
  }

  lemma {:induction false} RunKeepsClock<T>(c: Cache<T>, clock: int, actions: seq<Action<T>>)
    requires Inv(c) && Clocked(c, clock) && Possible(c, actions) && Forward(clock, actions) && c.ttlMs >= 0
    ensures Clocked(Run(c, actions), ClockOf(clock, actions))
    decreases |actions|
  {
    if actions != [] {
      StepKeeps(c, actions[0]);
      StepKeepsClock(c, clock, actions[0]);
      RunKeepsClock(Step(c, actions[0]), ClockAfter(clock, actions[0]), actions[1..]);
    }
  }

  /** Then what is served straight from the cache is never a stale fallback. */
  lemma ServedIsGood<T>(ttlMs: int, start: int, actions: seq<Action<T>>, now: int)
    requires ttlMs >= 0 && Possible(NewCache(ttlMs), actions) && Forward(start, actions)
      && now >= ClockOf(start, actions)
    requires GetOn(Run(NewCache(ttlMs), actions), now).1.Served?
    ensures !GetOn(Run(NewCache(ttlMs), actions), now).1.snapshot.stale
  {
    var c: Cache<T> := NewCache(ttlMs);
    RunKeeps(c, actions);
    RunKeepsClock(c, start, actions);
  }

  // Failed refreshes are not throttled -------------------------------------

  function Storm<T>(now: int, n: nat): seq<Action<T>> {
    if n == 0 then [] else Storm(now, n - 1) + [Get(now), SourceAnswers(n - 1, None), Settle(n - 1)]
  }

  lemma {:induction false} RunAppend<T>(c: Cache<T>, before: seq<Action<T>>, after: seq<Action<T>>)
    requires Possible(c, before) && Possible(Run(c, before), after)
    ensures Possible(c, before + after) && Run(c, before + after) == Run(Run(c, before), after)
    decreases |before|
  {
    if before == [] {
      assert before + after == after;
    } else {
      assert (before + after)[1..] == before[1..] + after;
      RunAppend(Step(c, before[0]), before[1..], after);
    }
  }

  lemma Then<T>(c: Cache<T>, a: Action<T>, rest: seq<Action<T>>)
    requires Enabled(c, a) && Possible(Step(c, a), rest)
    ensures Possible(c, [a] + rest) && Run(c, [a] + rest) == Run(Step(c, a), rest)
  {
    assert ([a] + rest)[1..] == rest;
  }

  /** Any number of refreshes can start and fail at one instant, whatever the lifetime. */
  lemma {:induction false} FailuresUnthrottled<T>(ttlMs: int, now: int, n: nat)
    ensures var actions: seq<Action<T>> := Storm(now, n);
      && Possible(NewCache(ttlMs), actions)
      && (var c := Run(NewCache(ttlMs), actions);
          |c.refreshes| == n && c.inFlight == None && c.snapshot == None && c.ttlMs == ttlMs
          && forall i :: 0 <= i < n ==> c.refreshes[i].now == now)
  {
    if n > 0 {
      FailuresUnthrottled<T>(ttlMs, now, n - 1);
      var start: Cache<T> := NewCache(ttlMs);
      var c := Run(start, Storm(now, n - 1));
      var g, f, s: Action<T> := Get(now), SourceAnswers(n - 1, None), Settle(n - 1);
      var c1 := Step(c, g);
      var c2 := Step(c1, f);
      Then(c2, s, []);
      Then(c1, f, [s] + []);
      Then(c, g, [f] + ([s] + []));
      var round := [g] + ([f] + ([s] + []));
      assert round == [g, f, s];
      RunAppend(start, Storm(now, n - 1), round);
    }
  }

  // Exactly when the source is called at most once in a lifetime --------------

  /** Any two refreshes start at least a lifetime apart. */
  ghost predicate Apart<T>(c: Cache<T>) {
    forall i, j :: 0 <= i < j < |c.refreshes| ==> c.refreshes[j].now - c.refreshes[i].now >= c.ttlMs
  }

  /** A request at `now` finds nothing fresh and nothing in flight, less than a lifetime
      after a refresh that failed. */
  predicate Hurried<T>(c: Cache<T>, now: int) {
    && IsStale(c, now) && c.inFlight.None?
    && exists i :: 0 <= i < |c.refreshes| && !Successful(c.refreshes[i]) && now - c.refreshes[i].now < c.ttlMs
  }

  predicate HurriedBy<T>(c: Cache<T>, a: Action<T>) { a.Get? && Hurried(c, a.now) }

  /** Some request of the run is such a one. */
  ghost predicate SomeHurried<T>(c: Cache<T>, actions: seq<Action<T>>)
    requires Possible(c, actions)
    decreases |actions|
  {
    actions != [] && (HurriedBy(c, actions[0]) || SomeHurried(Step(c, actions[0]), actions[1..]))
  }

  /** A refresh keeps the time it started at. */
  lemma StartsStay<T>(c: Cache<T>, a: Action<T>)
    requires Enabled(c, a)
    ensures var d := Step(c, a);
      && |c.refreshes| <= |d.refreshes| && d.ttlMs == c.ttlMs
      && forall i :: 0 <= i < |c.refreshes| ==> d.refreshes[i].now == c.refreshes[i].now
  {
  }

  /** A request that starts a refresh keeps all of them apart exactly when it is not hurried:
      what succeeded before is a lifetime old anyway. */
  lemma GetApartIff<T>(c: Cache<T>, now: int)
    requires Inv(c) && c.ttlMs >= 0
    ensures Apart(GetOn(c, now).0) <==> Apart(c) && !Hurried(c, now)
  {
    var d := GetOn(c, now).0;
    GetKeeps(c, now);
    if IsStale(c, now) && c.inFlight.None? {
      var n := |c.refreshes|;
      assert d.refreshes[n].now == now;
      assert forall i :: 0 <= i < n ==> d.refreshes[i] == c.refreshes[i];
      if Hurried(c, now) {
        var i :| 0 <= i < n && !Successful(c.refreshes[i]) && now - c.refreshes[i].now < c.ttlMs;
        assert d.refreshes[n].now - d.refreshes[i].now < d.ttlMs;
      }
    }
  }

  lemma StepApartIff<T>(c: Cache<T>, a: Action<T>)
    requires Inv(c) && Enabled(c, a) && c.ttlMs >= 0
    ensures Apart(Step(c, a)) <==> Apart(c) && !HurriedBy(c, a)
  {
    if a.Get? {
      GetApartIff(c, a.now);
    } else {
      StartsStay(c, a);
    }
  }

  lemma {:induction false} RunApartIff<T>(c: Cache<T>, actions: seq<Action<T>>)
    requires Inv(c) && Possible(c, actions) && c.ttlMs >= 0
    ensures Apart(Run(c, actions)) <==> Apart(c) && !SomeHurried(c, actions)
    decreases |actions|
  {
    if actions != [] {
      StepKeeps(c, actions[0]);
      StepApartIff(c, actions[0]);
      StartsStay(c, actions[0]);
      RunApartIff(Step(c, actions[0]), actions[1..]);
    }
  }

  /** In every interleaving any two refreshes - failed ones too - start at least a lifetime
      apart if and only if no request comes, with nothing fresh and nothing in flight, less
      than a lifetime after one that failed. */
  lemma OncePerLifetimeIff<T>(ttlMs: int, actions: seq<Action<T>>)
    requires ttlMs >= 0 && Possible(NewCache(ttlMs), actions)
    ensures (var rs := Run(NewCache(ttlMs), actions).refreshes;
              forall i, j :: 0 <= i < j < |rs| ==> rs[j].now - rs[i].now >= ttlMs)
      <==> !SomeHurried(NewCache(ttlMs), actions)
  {
    var c: Cache<T> := NewCache(ttlMs);
    RunKeeps(c, actions);
    RunApartIff(c, actions);
  }

  // ------------------------------------------------------------------
  // The cache object
  // ------------------------------------------------------------------

  class TrendingCache<T(==, !new)> {
    const ttlMs: int
    var snapshot: Option<Snapshot<T>>
    var inFlight: Option<nat>
    var refreshes: seq<Refresh<T>>

    function State(): Cache<T>
      reads this
    {
      Cache(ttlMs, snapshot, inFlight, refreshes)
    }

    constructor (ttlMs: int)
      ensures State() == NewCache(ttlMs)
    {
      this.ttlMs := ttlMs;
      snapshot, inFlight, refreshes := None, None, [];
    }

    method Get(now: int) returns (reply: Reply<T>)
      modifies this
      ensures (State(), reply) == GetOn(old(State()), now)
    {
      if snapshot.Some? && now - snapshot.value.generatedAt < ttlMs {
        return Served(snapshot.value);
      }
      if inFlight.Some? {
        return Waiting(inFlight.value);
      }
      var id := |refreshes|;
      refreshes := refreshes + [Refresh(now, AskingSource)];
      inFlight := Some(id);
      return Waiting(id);
    }

    /** The rest of a refresh when its answers come one after the other: the tokens
        are the payloads that were there, in the order of the addresses. */
    method Finish(id: nat, addresses: Option<seq<Token>>, evaluate: Token -> Option<T>) returns (result: Snapshot<T>)
      requires id < |refreshes| && refreshes[id].phase.AskingSource?
      modifies this
      ensures var asked := Step(old(State()), SourceAnswers(id, addresses));
        && HasResult(State(), id, result)
        && (addresses.None? ==> State() == asked)
        && (addresses.Some? ==> Possible(asked, Arrivals(id, addresses.value, evaluate, 0))
                                && State() == Run(asked, Arrivals(id, addresses.value, evaluate, 0))
                                && result == Snapshot(old(refreshes)[id].now,
                                     Present(Payloads(addresses.value, evaluate)), false))
    {
      var now := refreshes[id].now;
      if addresses.None? {
        if snapshot.Some? {
          result := snapshot.value.(stale := true);
          snapshot := Some(result);
        } else {
          result := Snapshot(now, [], true);
        }
        refreshes := refreshes[id := Refresh(now, Ended(result))];
        return;
      }
      var tokens: seq<T> := [];
      ghost var all := Payloads(addresses.value, evaluate);
      for k := 0 to |addresses.value|
        invariant tokens == Present(all[..k])
        invariant State() == old(State())
      {
        assert all[..k + 1][..k] == all[..k];
        var payload := evaluate(addresses.value[k]);
        if payload.Some? {
          tokens := tokens + [payload.value];
        }
      }
      assert all[..|all|] == all;
      ghost var before := State();
      result := Snapshot(now, tokens, false);
      snapshot := Some(result);
      refreshes := refreshes[id := Refresh(now, Ended(result))];
      ArrivalsEnd(before, id, addresses.value, evaluate, 0);
    }

    /** Once the refresh has its result, nothing is in flight. */
    method Finally(id: nat)
      requires id < |refreshes| && refreshes[id].phase.Ended?
      modifies this
      ensures State() == Step(old(State()), Settle(id))
    {
      inFlight := None;
      refreshes := refreshes[id := Refresh(refreshes[id].now, Settled(refreshes[id].phase.result))];
    }
  }

  function Payloads<T>(addresses: seq<Token>, evaluate: Token -> Option<T>): seq<Option<T>> {
    seq(|addresses|, k requires 0 <= k < |addresses| => evaluate(addresses[k]))
  }

  /** The answers to the evaluations from the `k`-th on. */
  function Arrivals<T>(id: nat, addresses: seq<Token>, evaluate: Token -> Option<T>, k: nat): seq<Action<T>>
    decreases |addresses| - k
  {
    if k >= |addresses| then []
    else [PayloadArrives(id, evaluate(addresses[k]))] + Arrivals(id, addresses, evaluate, k + 1)
  }

  lemma {:induction false} ArrivalsEnd<T>(c: Cache<T>, id: nat, addresses: seq<Token>,
                                          evaluate: Token -> Option<T>, k: nat)
    requires id < |c.refreshes| && k <= |addresses|
    ensures var all := Payloads(addresses, evaluate);
      var from := EvaluateOn(c, id, addresses, all[..k]);
      var good := Snapshot(c.refreshes[id].now, Present(all), false);
      && Possible(from, Arrivals(id, addresses, evaluate, k))
      && Run(from, Arrivals(id, addresses, evaluate, k)) == SetPhase(c, id, Ended(good)).(snapshot := Some(good))
    decreases |addresses| - k
  {
    var all := Payloads(addresses, evaluate);
    var from := EvaluateOn(c, id, addresses, all[..k]);
    if k == |addresses| {
      assert all[..k] == all;
    } else {
      var a: Action<T> := PayloadArrives(id, evaluate(addresses[k]));
      assert all[..k] + [evaluate(addresses[k])] == all[..k + 1];
      EvaluateAgain(c, id, addresses, all[..k], all[..k + 1]);
      assert Step(from, a) == EvaluateOn(c, id, addresses, all[..k + 1]);
      ArrivalsEnd(c, id, addresses, evaluate, k + 1);
      var rest := Arrivals(id, addresses, evaluate, k + 1);
      assert ([a] + rest)[1..] == rest;
    }
  }

  lemma EvaluateAgain<T>(c: Cache<T>, id: nat, addresses: seq<Token>, payloads: seq<Option<T>>, more: seq<Option<T>>)
    requires id < |c.refreshes| && |payloads| < |addresses|
    ensures EvaluateOn(EvaluateOn(c, id, addresses, payloads), id, addresses, more) ==
      EvaluateOn(c, id, addresses, more)
  {
    var d := EvaluateOn(c, id, addresses, payloads);
    assert d.refreshes[id].now == c.refreshes[id].now;
    forall phase: Phase<T> ensures SetPhase(d, id, phase).refreshes == SetPhase(c, id, phase).refreshes { }
  }
}
