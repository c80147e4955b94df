/** src/product/scan/orchestration/scanService.ts as a state machine: any number of
    `execute` calls in flight, each advancing at its own awaits, over one
    entitlement ledger and one set of tables. */
module ScanProtocol {
  import opened Entitlements
  import opened Results
  import opened ScanLifecycle
  import opened Store

  datatype ScanInput = ScanInput(requestId: string, userId: string, token: string, entitlementId: string)

  /** What the evaluation port found for the scanned token. */
  datatype Evaluation = Evaluation(report: string, evidence: seq<string>, events: seq<string>, signals: seq<Transition>)

  /** How the injected ports and the database answer one call.  `evaluated` is
      `None` when the evaluation fails or its battlefield lacks the token. */
  datatype Ports = Ports(reserveOk: bool, acquired: bool, evaluated: Option<Evaluation>, persistOk: bool,
                         finishedAt: int)

  datatype Outcome = Fresh(snapshotId: string, report: string) | Reused(snapshotId: string, report: string) | Failed

  /** Where a call stands: the await it will resume from. */
  datatype Pc =
    | Gate
    | Fetch(reportRef: string)
    | Reserve
    | Reserving
    | Marking
    | Acquiring
    | Evaluating
    | Persisting(found: Evaluation)
    | Failing
    | Releasing
    | Done(outcome: Outcome)
    | Threw(holding: bool)

  datatype Call = Call(input: ScanInput, now: int, exec: ScanExecution, pc: Pc)

  datatype State = State(books: Books, tables: Tables, calls: map<nat, Call>)

  const START := State(Books(map[], map[]), EMPTY_TABLES, map[])

  const ENGINE_VERSION := "engine"
  const MODEL_VERSIONS := "models"

  function ExecId(requestId: string): string { "exec:" + requestId }

  function SnapId(requestId: string): string { "snap:" + requestId }

  function NewCall(input: ScanInput, now: int): Call {
    Call(input, now, NewExecution(ExecId(input.requestId), input.requestId, now), Gate)
  }

  // ------------------------------------------------------------------
  // The transactions
  // ------------------------------------------------------------------

  function ReserveWrites(c: Call): seq<Write> {
    [ EnsureToken(c.input.token, None),
      CreateRequest(ScanRequest(c.input.requestId, c.input.userId, c.input.token, c.input.entitlementId, c.now)),
      PutExecution(c.exec),
      ConsumeUsage(UsageRecord(c.input.entitlementId, c.input.userId, c.now, ExecId(c.input.requestId))) ]
  }

  function SaveTransitions(signals: seq<Transition>): (ws: seq<Write>)
    ensures |ws| == |signals| && forall i :: 0 <= i < |ws| ==> ws[i].SaveTransition?
  {
    seq(|signals|, i requires 0 <= i < |signals| => SaveTransition(signals[i]))
  }

  function Completed(c: Call, at: int): Option<ScanExecution> { Complete(c.exec, SnapId(c.input.requestId), at) }

  /** The final transaction; an execution that may not complete makes the closure
      throw before its last two writes. */
  function PersistWrites(c: Call, found: Evaluation, at: int): seq<Write> {
    var saved := [ RecordEngine(ENGINE_VERSION, MODEL_VERSIONS),
                   EnsureToken(c.input.token, None),
                   SaveSnapshot(Snapshot(SnapId(c.input.requestId), c.input.token, found.report, c.now)),
                   SaveEvidence(found.evidence),
                   SaveEvents(found.events) ] + SaveTransitions(found.signals);
    if Completed(c, at).Some?
    then saved + [ PutExecution(Completed(c, at).value), UpdateStatus(c.input.entitlementId, CONSUMED) ]
    else saved
  }

  function FailWrites(c: Call): seq<Write> {
    var failed := Fail(c.exec, "reason", c.now);
    (if failed.Some? then [ PutExecution(failed.value) ] else []) +
    [ ReleaseUsage(c.input.entitlementId), UpdateStatus(c.input.entitlementId, ISSUED) ]
  }

  // ------------------------------------------------------------------
  // The steps
  // ------------------------------------------------------------------

  function At(s: State, i: nat, c: Call, pc: Pc): State { s.(calls := s.calls[i := c.(pc := pc)]) }

  /** The execution row says the request has completed. */
  predicate HasCompleted(t: Tables, requestId: string) {
    && ExecId(requestId) in t.scanExecutions
    && t.scanExecutions[ExecId(requestId)].status == COMPLETED
    && t.scanExecutions[ExecId(requestId)].reportRef.Some?
    && t.scanExecutions[ExecId(requestId)].reportRef.value != ""
  }

  function TakeLedger(s: State, i: nat, c: Call): State {
    var (books, r) := ConsumeOn(s.books, c.input.entitlementId, c.input.userId, ExecId(c.input.requestId), c.now);
    if r.Err? then At(s, i, c, Done(Failed))
    else
      var exec := NewExecution(ExecId(c.input.requestId), c.input.requestId, c.now);
      At(s, i, c.(exec := exec), Reserving).(books := books)
  }

  function CommitReservation(s: State, i: nat, c: Call, ok: bool): State {
    var (tables, done) := Transacted(s.tables, ReserveWrites(c), !ok);
    if done then At(s, i, c, Marking).(tables := tables)
    else At(s, i, c, Done(Failed)).(tables := tables, books := ReleaseOn(s.books, c.input.entitlementId).0)
  }

  function Mark(s: State, i: nat, c: Call): State {
    var begun := BeginExecuting(c.exec);
    if begun.None? then At(s, i, c, Acquiring)
    else At(s, i, c.(exec := begun.value), Acquiring).(tables := Written(s.tables, PutExecution(begun.value)))
  }

  function Persist(s: State, i: nat, c: Call, found: Evaluation, ports: Ports): State {
    var broken := !ports.persistOk || Completed(c, ports.finishedAt).None?;
    var (tables, done) := Transacted(s.tables, PersistWrites(c, found, ports.finishedAt), broken);
    At(s, i, c, if done then Done(Fresh(SnapId(c.input.requestId), found.report)) else Failing).(tables := tables)
  }

  function FailTransaction(s: State, i: nat, c: Call): State {
    var (tables, done) := Transacted(s.tables, FailWrites(c), false);
    At(s, i, c, if done then Releasing else Threw(true)).(tables := tables)
  }

  predicate Running(pc: Pc) { !pc.Done? && !pc.Threw? }

  /** How many awaits a call may still have before it. */
  function Rank(pc: Pc): nat {
    match pc
    case Gate => 10
    case Fetch(_) => 9
    case Reserve => 8
    case Reserving => 7
    case Marking => 6
    case Acquiring => 5
    case Evaluating => 4
    case Persisting(_) => 3
    case Failing => 2
    case Releasing => 1
    case _ => 0
  }

  /** Call `i` resumes from its await, which `ports` answers. */
  function Resume(s: State, i: nat, ports: Ports): (t: State)
    requires i in s.calls && Running(s.calls[i].pc)
    ensures t.calls.Keys == s.calls.Keys && Rank(t.calls[i].pc) < Rank(s.calls[i].pc)
  {
    var c := s.calls[i];
    match c.pc
    case Gate =>
      At(s, i, c, if HasCompleted(s.tables, c.input.requestId)
                  then Fetch(s.tables.scanExecutions[ExecId(c.input.requestId)].reportRef.value) else Reserve)
    case Fetch(ref) =>
      At(s, i, c, if ref in s.tables.snapshots then Done(Reused(ref, s.tables.snapshots[ref].report)) else Reserve)
    case Reserve => TakeLedger(s, i, c)
    case Reserving => CommitReservation(s, i, c, ports.reserveOk)
    case Marking => Mark(s, i, c)
    case Acquiring => At(s, i, c, if ports.acquired then Evaluating else Failing)
    case Evaluating => At(s, i, c, if ports.evaluated.Some? then Persisting(ports.evaluated.value) else Failing)
    case Persisting(found) => Persist(s, i, c, found, ports)
    case Failing => FailTransaction(s, i, c)
    case Releasing => At(s, i, c, Done(Failed)).(books := ReleaseOn(s.books, c.input.entitlementId).0)
  }

  datatype Action =
    | Issue(providerTxId: string, userId: string, at: int)  // the ledger issues
    | Mirror(row: Entitlement)                              // an issued entitlement's row is stored
    | Arrive(i: nat, input: ScanInput, now: int)
    | Go(i: nat, ports: Ports)
    | Throw(i: nat)                                         // a port or the database throws

  /** The awaits that no handler of `execute` guards. */
  predicate Unguarded(pc: Pc) {
    pc.Gate? || pc.Fetch? || pc.Marking? || pc.Acquiring? || pc.Evaluating? || pc.Failing?
  }

  predicate Enabled(s: State, a: Action) {
    match a
    case Issue(_, _, _) => true
    case Mirror(row) => row.status == ISSUED
    case Arrive(i, _, _) => i !in s.calls
    case Go(i, _) => i in s.calls && Running(s.calls[i].pc)
    case Throw(i) => i in s.calls && Unguarded(s.calls[i].pc)
  }

  function Step(s: State, a: Action): State
    requires Enabled(s, a)
  {
    match a
    case Issue(tx, user, at) => s.(books := IssueOn(s.books, tx, user, at).0)
    case Mirror(row) => s.(tables := Written(s.tables, IssueRow(row)))
    case Arrive(i, input, now) => s.(calls := s.calls[i := NewCall(input, now)])
    case Go(i, ports) => Resume(s, i, ports)
    case Throw(i) => At(s, i, s.calls[i], Threw(Holds(s.calls[i].pc)))
  }

  /** Every action can be taken when its turn comes. */
  ghost predicate Possible(s: State, actions: seq<Action>)
    decreases |actions|
  {
    actions == [] || (Enabled(s, actions[0]) && Possible(Step(s, actions[0]), actions[1..]))
  }

  ghost function Run(s: State, actions: seq<Action>): State
    requires Possible(s, actions)
    decreases |actions|
  {
    if actions == [] then s else Run(Step(s, actions[0]), actions[1..])
  }

  // ------------------------------------------------------------------
  // Four records of one consumption
  // ------------------------------------------------------------------

  datatype Facts = Facts(ledgerStatus: bool, ledgerUsage: bool, usageRow: bool, statusRow: bool)

  const NONE := Facts(false, false, false, false)
  const ALL := Facts(true, true, true, true)

  /** Whether the ledger status, the ledger's usage record, the usage row and the
      entitlement row say that `e` is consumed. */
  function FactsOf(s: State, e: string): Facts {
    Facts(e in s.books.entitlements && s.books.entitlements[e].status == CONSUMED,
          e in s.books.usage,
          e in s.tables.usage,
          e in s.tables.entitlements && s.tables.entitlements[e].status == CONSUMED)
  }

  /** Past its reservation and not finished. */
  predicate Holds(pc: Pc) {
    pc.Reserving? || pc.Marking? || pc.Acquiring? || pc.Evaluating? || pc.Persisting? || pc.Failing? || pc.Releasing?
  }

  predicate Dead(pc: Pc) { pc == Threw(true) }

  predicate Delivered(pc: Pc) { pc.Done? && pc.outcome.Fresh? }

  predicate Claims(pc: Pc) { Holds(pc) || Dead(pc) || Delivered(pc) }

  /** What the four records say while a call claims the entitlement. */
  function Expected(pc: Pc): Facts {
    if Delivered(pc) then ALL
    else if pc.Reserving? || pc.Releasing? then Facts(true, true, false, false)
    else Facts(true, true, true, false)
  }

  predicate ClaimedBy(s: State, i: nat, e: string) {
    i in s.calls && Claims(s.calls[i].pc) && s.calls[i].input.entitlementId == e
  }

  ghost predicate Inv(s: State) {
    && (forall i :: i in s.calls && Claims(s.calls[i].pc) ==>
          FactsOf(s, s.calls[i].input.entitlementId) == Expected(s.calls[i].pc))
    && (forall i, j, e :: ClaimedBy(s, i, e) && ClaimedBy(s, j, e) ==> i == j)
    && (forall e :: FactsOf(s, e) != NONE ==> exists i :: ClaimedBy(s, i, e))
  }

  /** One call moving on keeps the invariant when it leaves other entitlements'
      records alone and its own as its new place expects. */
  lemma CallMoves(s: State, t: State, i: nat)
    requires Inv(s) && i in s.calls && i in t.calls
    requires t.calls == s.calls[i := t.calls[i]] && t.calls[i].input == s.calls[i].input
    requires forall e :: e != s.calls[i].input.entitlementId ==> FactsOf(t, e) == FactsOf(s, e)
    requires var e := s.calls[i].input.entitlementId;
      && FactsOf(t, e) == (if Claims(t.calls[i].pc) then Expected(t.calls[i].pc)
                           else if Claims(s.calls[i].pc) then NONE else FactsOf(s, e))
      && (Claims(t.calls[i].pc) && !Claims(s.calls[i].pc) ==> FactsOf(s, e) == NONE)
    ensures Inv(t)
  {
    var mine := s.calls[i].input.entitlementId;
    forall j | j in s.calls && j != i && Claims(s.calls[j].pc)
      ensures ClaimedBy(s, j, s.calls[j].input.entitlementId)
      ensures s.calls[j].input.entitlementId == mine ==> !Claims(s.calls[i].pc) && !Claims(t.calls[i].pc)
      ensures FactsOf(t, s.calls[j].input.entitlementId) == Expected(s.calls[j].pc)
    {
      assert ClaimedBy(s, j, s.calls[j].input.entitlementId);
      assert Claims(s.calls[i].pc) ==> ClaimedBy(s, i, mine);
      assert FactsOf(s, s.calls[j].input.entitlementId) == Expected(s.calls[j].pc) != NONE;
    }
    forall j, k, e | ClaimedBy(t, j, e) && ClaimedBy(t, k, e) ensures j == k {
      assert j != i ==> ClaimedBy(s, j, e);
      assert k != i ==> ClaimedBy(s, k, e);
    }
    forall e | FactsOf(t, e) != NONE ensures exists j :: ClaimedBy(t, j, e) {
      if e == mine && Claims(t.calls[i].pc) {
        assert ClaimedBy(t, i, e);
      } else {
        var j :| ClaimedBy(s, j, e);
        assert ClaimedBy(t, j, e);
      }
    }
  }

  // What the transactions do to the records -----------------------------

  lemma ReserveEffect(t: Tables, c: Call)
    ensures Transacted(t, ReserveWrites(c), true) == (t, false)
    ensures var (u, done) := Transacted(t, ReserveWrites(c), false);
      && done
      && u.entitlements == t.entitlements && u.snapshots == t.snapshots
      && u.scanExecutions == t.scanExecutions[c.exec.id := c.exec]
      && u.usage == (var e := c.input.entitlementId;
                     if e in t.usage then t.usage
                     else t.usage[e := UsageRecord(e, c.input.userId, c.now, ExecId(c.input.requestId))])
  {
    var ws := ReserveWrites(c);
    AtomicWithoutMeta(t, ws, true);
    AtomicWithoutMeta(t, ws, false);
    ViewOfProgress(t, ws);
    var v := ViewOf(t);
    assert ws == [ws[0]] + ([ws[1]] + ([ws[2]] + ([ws[3]] + [])));
    ViewStep(v, ws[0], [ws[1]] + ([ws[2]] + ([ws[3]] + [])));
    ViewStep(v, ws[1], [ws[2]] + ([ws[3]] + []));
    ViewStep(v, ws[2], [ws[3]] + []);
    ViewStep(ViewWritten(v, ws[2]), ws[3], []);
  }

  lemma FailEffect(t: Tables, c: Call)
    ensures var e := c.input.entitlementId;
      var (u, done) := Transacted(t, FailWrites(c), false);
      && done == (e in t.entitlements)
      && (!done ==> u == t)
      && (done ==>
            && u.usage == t.usage - {e} && u.snapshots == t.snapshots
            && u.entitlements == t.entitlements[e := t.entitlements[e].(status := ISSUED)]
            && u.scanExecutions == (var f := Fail(c.exec, "reason", c.now);
                                    if f.Some? then t.scanExecutions[f.value.id := f.value] else t.scanExecutions))
  {
    var e, ws, f := c.input.entitlementId, FailWrites(c), Fail(c.exec, "reason", c.now);
    AtomicWithoutMeta(t, ws, false);
    ViewOfProgress(t, ws);
    var first := if f.Some? then [PutExecution(f.value)] else [];
    var v0 := ViewOf(t);
    var v := if f.Some? then ViewWritten(v0, PutExecution(f.value)) else v0;
    if f.Some? {
      ViewStep(v0, PutExecution(f.value), []);
      assert first == [PutExecution(f.value)] + [];
    }
    assert ViewProgress(v0, first) == (v, true);
    var release, update := ReleaseUsage(e), UpdateStatus(e, ISSUED);
    assert ws == first + ([release] + ([update] + []));
    ViewAppend(v0, first, [release] + ([update] + []));
    ViewStep(v, release, [update] + []);
    ViewStep(ViewWritten(v, release), update, []);
  }

  /** The snapshots with the call's own, unless one is there. */
  function WithSnapshot(snapshots: map<string, Snapshot>, c: Call, found: Evaluation): map<string, Snapshot> {
    var id := SnapId(c.input.requestId);
    if id in snapshots then snapshots else snapshots[id := Snapshot(id, c.input.token, found.report, c.now)]
  }

  lemma PersistView(v: View, c: Call, found: Evaluation, at: int)
    requires Completed(c, at).Some?
    ensures var e := c.input.entitlementId;
      var done := Completed(c, at).value;
      var u := v.(snapshots := WithSnapshot(v.snapshots, c, found),
        scanExecutions := v.scanExecutions[done.id := done]);
      ViewProgress(v, PersistWrites(c, found, at)) ==
      if e in v.entitlements
      then (u.(entitlements := v.entitlements[e := v.entitlements[e].(status := CONSUMED)]), true)
      else (u, false)
  {
    var e, done := c.input.entitlementId, Completed(c, at).value;
    var snap := SaveSnapshot(Snapshot(SnapId(c.input.requestId), c.input.token, found.report, c.now));
    var before := [RecordEngine(ENGINE_VERSION, MODEL_VERSIONS), EnsureToken(c.input.token, None)];
    var after := [SaveEvidence(found.evidence), SaveEvents(found.events)] + SaveTransitions(found.signals);
    var put, update := PutExecution(done), UpdateStatus(e, CONSUMED);
    assert PersistWrites(c, found, at) == before + ([snap] + (after + ([put] + ([update] + []))));
    ViewSkips(v, before);
    ViewAppend(v, before, [snap] + (after + ([put] + ([update] + []))));
    ViewStep(v, snap, after + ([put] + ([update] + [])));
    var v1 := ViewWritten(v, snap);
    ViewSkips(v1, after);
    ViewAppend(v1, after, [put] + ([update] + []));
    ViewStep(v1, put, [update] + []);
    ViewStep(ViewWritten(v1, put), update, []);
  }

  lemma PersistEffect(t: Tables, c: Call, found: Evaluation, ports: Ports)
    ensures var e := c.input.entitlementId;
      var completed := Completed(c, ports.finishedAt);
      var (u, done) := Transacted(t, PersistWrites(c, found, ports.finishedAt), !ports.persistOk || completed.None?);
      && done == (ports.persistOk && completed.Some? && e in t.entitlements)
      && (!done ==> u == t)
      && (done ==>
            && u.usage == t.usage && u.snapshots == WithSnapshot(t.snapshots, c, found)
            && u.entitlements == t.entitlements[e := t.entitlements[e].(status := CONSUMED)]
            && u.scanExecutions == t.scanExecutions[completed.value.id := completed.value])
  {
    var completed := Completed(c, ports.finishedAt);
    var ws := PersistWrites(c, found, ports.finishedAt);
    forall i | 0 <= i < |ws| ensures NoMeta(ws[i]) { }
    AtomicWithoutMeta(t, ws, !ports.persistOk || completed.None?);
    ViewOfProgress(t, ws);
    if completed.Some? {
      PersistView(ViewOf(t), c, found, ports.finishedAt);
    }
  }

  // What a result leaves besides ----------------------------------------

  function EvidenceOf(ws: seq<Write>): seq<string> {
    if ws == [] then [] else (if ws[0].SaveEvidence? then ws[0].rows else []) + EvidenceOf(ws[1..])
  }

  function EventsOf(ws: seq<Write>): seq<string> {
    if ws == [] then [] else (if ws[0].SaveEvents? then ws[0].rows else []) + EventsOf(ws[1..])
  }

  predicate HasTransition(t: Tables, tr: Transition) { exists x :: x in t.signalTransitions && SameTransition(x, tr) }

  lemma WriteAddsTransition(t: Tables, w: Write)
    requires !Throws(t, w)
    ensures Written(t, w).signalTransitions ==
      if w.SaveTransition? && !HasTransition(t, w.tr) then t.signalTransitions + [w.tr] else t.signalTransitions
  {
  }

  lemma WriteKeepsTransitions(t: Tables, w: Write, tr: Transition)
    requires !Throws(t, w)
    ensures HasTransition(t, tr) ==> HasTransition(Written(t, w), tr)
    ensures w == SaveTransition(tr) ==> HasTransition(Written(t, w), tr)
  {
    WriteAddsTransition(t, w);
    var u := Written(t, w);
    if HasTransition(t, tr) {
      var x :| x in t.signalTransitions && SameTransition(x, tr);
      assert x in u.signalTransitions;
    } else if w == SaveTransition(tr) {
      assert tr in u.signalTransitions && SameTransition(tr, tr);
    }
  }

  lemma OneWriteAdds(t: Tables, w: Write)
    requires !Throws(t, w)
    ensures Written(t, w).evidence == t.evidence + (if w.SaveEvidence? then w.rows else [])
    ensures Written(t, w).events == t.events + (if w.SaveEvents? then w.rows else [])
  {
    assert t.evidence + [] == t.evidence && t.events + [] == t.events;
  }

  /** A run of writes that goes through adds all its evidence and events, in order. */
  lemma {:induction false} WritesAdd(t: Tables, ws: seq<Write>)
    requires Progress(t, ws).1
    ensures Progress(t, ws).0.evidence == t.evidence + EvidenceOf(ws)
    ensures Progress(t, ws).0.events == t.events + EventsOf(ws)
    decreases |ws|
  {
    if ws != [] {
      OneWriteAdds(t, ws[0]);
      WritesAdd(Written(t, ws[0]), ws[1..]);
    }
  }

  /** And leaves every transition it names on record. */
  lemma {:induction false} WritesRecord(t: Tables, ws: seq<Write>, tr: Transition)
    requires Progress(t, ws).1
    ensures HasTransition(t, tr) || SaveTransition(tr) in ws ==> HasTransition(Progress(t, ws).0, tr)
    decreases |ws|
  {
    if ws != [] {
      WriteKeepsTransitions(t, ws[0], tr);
      WritesRecord(Written(t, ws[0]), ws[1..], tr);
      assert ws == [ws[0]] + ws[1..];
    }
  }

  lemma {:induction false} NothingSaved(ws: seq<Write>)
    requires forall k :: 0 <= k < |ws| ==> !ws[k].SaveEvidence? && !ws[k].SaveEvents?
    ensures EvidenceOf(ws) == [] && EventsOf(ws) == []
  {
    if ws != [] {
      NothingSaved(ws[1..]);
    }
  }

  lemma Unfold(w: Write, rest: seq<Write>)
    ensures EvidenceOf([w] + rest) == (if w.SaveEvidence? then w.rows else []) + EvidenceOf(rest)
    ensures EventsOf([w] + rest) == (if w.SaveEvents? then w.rows else []) + EventsOf(rest)
  {
    assert ([w] + rest)[0] == w && ([w] + rest)[1..] == rest;
  }

  lemma FindingsNamed(c: Call, found: Evaluation, at: int)
    ensures var ws := PersistWrites(c, found, at); EvidenceOf(ws) == found.evidence && EventsOf(ws) == found.events
  {
    var ws := PersistWrites(c, found, at);
    var tail := ws[5..];
    NothingSaved(tail);
    Unfold(ws[4], tail);
    Unfold(ws[3], [ws[4]] + tail);
    Unfold(ws[2], [ws[3]] + ([ws[4]] + tail));
    Unfold(ws[1], [ws[2]] + ([ws[3]] + ([ws[4]] + tail)));
    Unfold(ws[0], [ws[1]] + ([ws[2]] + ([ws[3]] + ([ws[4]] + tail))));
    assert ws == [ws[0]] + ([ws[1]] + ([ws[2]] + ([ws[3]] + ([ws[4]] + tail))));
  }

  lemma SignalsNamed(c: Call, found: Evaluation, at: int, tr: Transition)
    requires tr in found.signals
    ensures SaveTransition(tr) in PersistWrites(c, found, at)
  {
    var k :| 0 <= k < |found.signals| && found.signals[k] == tr;
    assert PersistWrites(c, found, at)[5 + k] == SaveTransition(tr);
  }

  /** The final transaction of a scan leaves exactly what the evaluation found: its
      evidence and its events once each, and each of its signal transitions on record. */
  lemma PersistStores(t: Tables, c: Call, found: Evaluation, ports: Ports, tr: Transition)
    requires Transacted(t, PersistWrites(c, found, ports.finishedAt), false).1
    ensures var u := Transacted(t, PersistWrites(c, found, ports.finishedAt), false).0;
      && u.evidence == t.evidence + found.evidence && u.events == t.events + found.events
      && (tr in found.signals ==> HasTransition(u, tr))
  {
    var ws := PersistWrites(c, found, ports.finishedAt);
    WritesAdd(t, ws);
    WritesRecord(t, ws, tr);
    FindingsNamed(c, found, ports.finishedAt);
    if tr in found.signals {
      SignalsNamed(c, found, ports.finishedAt, tr);
    }
  }

  /** The reservation stores the request under its id, for its user, token and entitlement. */
  lemma ReserveStores(t: Tables, c: Call)
    ensures var u := Transacted(t, ReserveWrites(c), false).0;
      && u.scanRequests == t.scanRequests[c.input.requestId :=
           ScanRequest(c.input.requestId, c.input.userId, c.input.token, c.input.entitlementId, c.now)]
      && u.tokens == t.tokens + {c.input.token}
  {
    var ws := ReserveWrites(c);
    var t1 := Written(t, ws[0]);
    var t2 := Written(t1, ws[1]);
    var t3 := Written(t2, ws[2]);
    assert ws[1..][0] == ws[1] && ws[1..][1..] == ws[2..] && ws[2..][0] == ws[2] && ws[2..][1..] == ws[3..]
      && ws[3..] == [ws[3]];
    assert Progress(t3, ws[3..]) == (Written(t3, ws[3]), true);
    assert Progress(t, ws) == Progress(t1, ws[1..]) == Progress(t2, ws[2..]) == Progress(t3, ws[3..]);
  }
}
