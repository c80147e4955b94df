/** The tables of src/product/persistence/memory/inMemory.ts that a scan touches,
    and the transaction that rolls them back. */
module Store {
  import opened Entitlements
  import opened Results
  import opened ScanLifecycle

  datatype TokenMeta = TokenMeta(symbol: Option<string>, name: Option<string>)

  datatype ScanRequest = ScanRequest(id: string, userId: string, token: string, entitlementId: string, requestedAt: int)

  /** `report` stands for the whole intelligence report. */
  datatype Snapshot = Snapshot(id: string, token: string, report: string, createdAt: int)

  datatype Transition = Transition(token: string, signalIdentity: string, toPhase: string, at: int)

  datatype Tables = Tables(
    tokens: set<string>,
    tokenMeta: map<string, TokenMeta>,
    engineVersions: map<string, string>,
    entitlements: map<string, Entitlement>,
    usage: map<string, UsageRecord>,
    scanRequests: map<string, ScanRequest>,
    scanExecutions: map<string, ScanExecution>,
    snapshots: map<string, Snapshot>,
    evidence: seq<string>,
    events: seq<string>,
    signalTransitions: seq<Transition>)

  const EMPTY_TABLES := Tables({}, map[], map[], map[], map[], map[], map[], map[], [], [], [])

  /** One repository call that writes. */
  datatype Write =
    | EnsureToken(key: string, meta: Option<TokenMeta>)
    | RecordEngine(version: string, models: string)
    | IssueRow(ent: Entitlement)
    | UpdateStatus(id: string, status: Status)
    | ConsumeUsage(record: UsageRecord)
    | ReleaseUsage(entitlementId: string)
    | CreateRequest(req: ScanRequest)
    | PutExecution(exec: ScanExecution)
    | SaveSnapshot(row: Snapshot)
    | SaveEvidence(rows: seq<string>)
    | SaveEvents(rows: seq<string>)
    | SaveTransition(tr: Transition)

  /** Of these writes only a status update of an entitlement that is not there throws. */
  predicate Throws(t: Tables, w: Write) { w.UpdateStatus? && w.id !in t.entitlements }

  predicate SameTransition(a: Transition, b: Transition) {
    a.signalIdentity == b.signalIdentity && a.at == b.at && a.toPhase == b.toPhase
  }

  function Written(t: Tables, w: Write): Tables
    requires !Throws(t, w)
  {
    match w
    case EnsureToken(key, meta) =>
      t.(tokens := t.tokens + {key}, tokenMeta := if meta.Some? then t.tokenMeta[key := meta.value] else t.tokenMeta)
    case RecordEngine(version, models) =>
      if version in t.engineVersions then t else t.(engineVersions := t.engineVersions[version := models])
    case IssueRow(ent) =>
      if ent.id in t.entitlements then t else t.(entitlements := t.entitlements[ent.id := ent])
    case UpdateStatus(id, status) =>
      t.(entitlements := t.entitlements[id := t.entitlements[id].(status := status)])
    case ConsumeUsage(record) =>
      if record.entitlementId in t.usage then t else t.(usage := t.usage[record.entitlementId := record])
    case ReleaseUsage(id) =>
      t.(usage := t.usage - {id})
    case CreateRequest(req) =>
      t.(scanRequests := t.scanRequests[req.id := req])
    case PutExecution(exec) =>
      t.(scanExecutions := t.scanExecutions[exec.id := exec])
    case SaveSnapshot(row) =>
      if row.id in t.snapshots then t else t.(snapshots := t.snapshots[row.id := row])
    case SaveEvidence(rows) => t.(evidence := t.evidence + rows)
    case SaveEvents(rows) => t.(events := t.events + rows)
    case SaveTransition(tr) =>
      if exists x :: x in t.signalTransitions && SameTransition(x, tr) then t
      else t.(signalTransitions := t.signalTransitions + [tr])
  }

  /** The tables after as many of the writes as run before one throws. */
  function Progress(t: Tables, ws: seq<Write>): (r: (Tables, bool))
    decreases |ws|
  {
    if ws == [] then (t, true)
    else if Throws(t, ws[0]) then (t, false)
    else Progress(Written(t, ws[0]), ws[1..])
  }

  /** What a transaction leaves: all writes, or the snapshot taken before them -
      except for the token metadata, which the rollback does not restore. */
  function Transacted(t: Tables, ws: seq<Write>, broken: bool): (Tables, bool) {
    var (reached, done) := Progress(t, ws);
    if done && !broken then (reached, true) else (t.(tokenMeta := reached.tokenMeta), false)
  }

  class InMemoryUnitOfWork {
    var tokens: set<string>
    var tokenMeta: map<string, TokenMeta>
    var engineVersions: map<string, string>
    var entitlements: map<string, Entitlement>
    var usage: map<string, UsageRecord>
    var scanRequests: map<string, ScanRequest>
    var scanExecutions: map<string, ScanExecution>
    var snapshots: map<string, Snapshot>
    var evidence: seq<string>
    var events: seq<string>
    var signalTransitions: seq<Transition>

    function State(): Tables
      reads this
    {
      Tables(tokens, tokenMeta, engineVersions, entitlements, usage, scanRequests, scanExecutions, snapshots,
             evidence, events, signalTransitions)
    }

    constructor ()
      ensures State() == EMPTY_TABLES
    {
      tokens, tokenMeta, engineVersions, entitlements := {}, map[], map[], map[];
      usage, scanRequests, scanExecutions, snapshots := map[], map[], map[], map[];
      evidence, events, signalTransitions := [], [], [];
    }

    method Perform(w: Write) returns (ok: bool)
      modifies this
      ensures ok == !Throws(old(State()), w)
      ensures State() == if ok then Written(old(State()), w) else old(State())
    {
      ok := true;
      match w
      case IssueRow(ent) =>
        if ent.id !in entitlements {
          entitlements := entitlements[ent.id := ent];
        }
      case UpdateStatus(id, status) =>
        if id in entitlements {
          entitlements := entitlements[id := entitlements[id].(status := status)];
        } else {
          ok := false;
        }
      case ConsumeUsage(record) =>
        if record.entitlementId !in usage {
          usage := usage[record.entitlementId := record];
        }
      case ReleaseUsage(id) =>
        usage := usage - {id};
      case CreateRequest(req) =>
        scanRequests := scanRequests[req.id := req];
      case PutExecution(exec) =>
        scanExecutions := scanExecutions[exec.id := exec];
      case _ =>
        Keep(w);
    }

    /** The writes about the token and what was found on it. */
    method Keep(w: Write)
      requires w.EnsureToken? || w.RecordEngine? || w.SaveSnapshot? || w.SaveEvidence? || w.SaveEvents?
        || w.SaveTransition?
      modifies this
      ensures State() == Written(old(State()), w)
    {
      match w
      case EnsureToken(key, meta) =>
        tokens := tokens + {key};
        if meta.Some? {
          tokenMeta := tokenMeta[key := meta.value];
        }
      case RecordEngine(version, models) =>
        if version !in engineVersions {
          engineVersions := engineVersions[version := models];
        }
      case SaveSnapshot(row) =>
        if row.id !in snapshots {
          snapshots := snapshots[row.id := row];
        }
      case SaveEvidence(rows) =>
        evidence := evidence + rows;
      case SaveEvents(rows) =>
        events := events + rows;
      case SaveTransition(tr) =>
        if !exists x :: x in signalTransitions && SameTransition(x, tr) {
          signalTransitions := signalTransitions + [tr];
        }
    }

    /** Restores every table but the token metadata. */
    method MutateFrom(snap: Tables)
      modifies this
      ensures State() == snap.(tokenMeta := old(tokenMeta))
    {
      tokens := snap.tokens;
      engineVersions := snap.engineVersions;
      entitlements := snap.entitlements;
      usage := snap.usage;
      scanRequests := snap.scanRequests;
      scanExecutions := snap.scanExecutions;
      snapshots := snap.snapshots;
      evidence := snap.evidence;
      events := snap.events;
      signalTransitions := snap.signalTransitions;
    }

    /** Runs the writes of one transaction.  `broken` stands for a closure that
        throws for a reason of its own after its writes. */
    method Transaction(ws: seq<Write>, broken: bool) returns (committed: bool)
      modifies this
      ensures (State(), committed) == Transacted(old(State()), ws, broken)
    {
      var snapshot := State();
      var n := 0;
      var ok := true;
      while n < |ws| && ok
        invariant 0 <= n <= |ws|
        invariant Progress(snapshot, ws) == if ok then Progress(State(), ws[n..]) else (State(), false)
        decreases |ws| - n, ok
      {
        assert ws[n..][0] == ws[n] && ws[n..][1..] == ws[n + 1..];
        ok := Perform(ws[n]);
        if ok {
          n := n + 1;
        }
      }
      if ok && !broken {
        return true;
      }
      MutateFrom(snapshot);
      return false;
    }
  }

  /** The metadata a single write gives a token. */
  function MetaIn(w: Write, key: string): Option<TokenMeta> { if w.EnsureToken? && w.key == key then w.meta else None }

  /** The last metadata that the writes give a token before one of them throws. */
  function MetaGiven(t: Tables, ws: seq<Write>, key: string): Option<TokenMeta>
    decreases |ws|
  {
    if ws == [] || Throws(t, ws[0]) then None
    else
      var later := MetaGiven(Written(t, ws[0]), ws[1..], key);
      if later.Some? then later else MetaIn(ws[0], key)
  }

  function MetaOf(t: Tables, key: string): Option<TokenMeta> {
    if key in t.tokenMeta then Some(t.tokenMeta[key]) else None
  }

  lemma MetaWritten(t: Tables, w: Write, key: string)
    requires !Throws(t, w)
    ensures MetaOf(Written(t, w), key) == if MetaIn(w, key).Some? then MetaIn(w, key) else MetaOf(t, key)
  {
  }

  lemma {:induction false} MetaAfter(t: Tables, ws: seq<Write>, key: string)
    ensures MetaOf(Progress(t, ws).0, key) == if MetaGiven(t, ws, key).Some? then MetaGiven(t, ws, key)
      else MetaOf(t, key)
    decreases |ws|
  {
    if ws != [] && !Throws(t, ws[0]) {
      MetaWritten(t, ws[0], key);
      MetaAfter(Written(t, ws[0]), ws[1..], key);
    }
  }

  lemma SameMeta(t: Tables, u: Tables)
    ensures t.tokenMeta == u.tokenMeta <==> forall key :: MetaOf(t, key) == MetaOf(u, key)
  {
    if forall key :: MetaOf(t, key) == MetaOf(u, key) {
      forall key ensures key in t.tokenMeta <==> key in u.tokenMeta {
        assert MetaOf(t, key) == MetaOf(u, key);
      }
      forall key | key in t.tokenMeta ensures t.tokenMeta[key] == u.tokenMeta[key] {
        assert MetaOf(t, key) == MetaOf(u, key);
      }
    }
  }

  /** A failed transaction leaves the store as it was if and only if the last metadata
      that its writes gave a token, before the throw, is what the token already had. */
  lemma RollbackCompleteIff(t: Tables, ws: seq<Write>, broken: bool)
    requires !Transacted(t, ws, broken).1
    ensures Transacted(t, ws, broken).0 == t <==>
      forall key :: MetaGiven(t, ws, key).Some? ==> MetaGiven(t, ws, key) == MetaOf(t, key)
  {
    forall key
      ensures MetaOf(Progress(t, ws).0, key) == MetaOf(t, key) <==>
        (MetaGiven(t, ws, key).Some? ==> MetaGiven(t, ws, key) == MetaOf(t, key))
    {
      MetaAfter(t, ws, key);
    }
    SameMeta(Progress(t, ws).0, t);
  }

  predicate NoMeta(w: Write) { w.EnsureToken? ==> w.meta == None }

  lemma WriteKeepsMeta(t: Tables, w: Write)
    requires !Throws(t, w) && NoMeta(w)
    ensures Written(t, w).tokenMeta == t.tokenMeta
  {
  }

  lemma {:induction false} MetaKept(t: Tables, ws: seq<Write>)
    requires forall i :: 0 <= i < |ws| ==> NoMeta(ws[i])
    ensures Progress(t, ws).0.tokenMeta == t.tokenMeta
    decreases |ws|
  {
    if ws != [] && !Throws(t, ws[0]) {
      WriteKeepsMeta(t, ws[0]);
      MetaKept(Written(t, ws[0]), ws[1..]);
    }
  }

  /** Transactions that name no token metadata - all those of a scan - are atomic. */
  lemma AtomicWithoutMeta(t: Tables, ws: seq<Write>, broken: bool)
    requires forall i :: 0 <= i < |ws| ==> NoMeta(ws[i])
    ensures Transacted(t, ws, broken) ==
      if !broken && Progress(t, ws).1 then (Progress(t, ws).0, true) else (t, false)
  {
    MetaKept(t, ws);
  }

  // The four tables the scan protocol reads back ---------------------

  datatype View = View(
    entitlements: map<string, Entitlement>, usage: map<string, UsageRecord>,
    scanExecutions: map<string, ScanExecution>, snapshots: map<string, Snapshot>)

  function ViewOf(t: Tables): View { View(t.entitlements, t.usage, t.scanExecutions, t.snapshots) }

  predicate ViewThrows(v: View, w: Write) { w.UpdateStatus? && w.id !in v.entitlements }

  function ViewWritten(v: View, w: Write): View
    requires !ViewThrows(v, w)
  {
    match w
    case IssueRow(ent) =>
      if ent.id in v.entitlements then v else v.(entitlements := v.entitlements[ent.id := ent])
    case UpdateStatus(id, status) =>
      v.(entitlements := v.entitlements[id := v.entitlements[id].(status := status)])
    case ConsumeUsage(record) =>
      if record.entitlementId in v.usage then v else v.(usage := v.usage[record.entitlementId := record])
    case ReleaseUsage(id) => v.(usage := v.usage - {id})
    case PutExecution(exec) => v.(scanExecutions := v.scanExecutions[exec.id := exec])
    case SaveSnapshot(row) =>
      if row.id in v.snapshots then v else v.(snapshots := v.snapshots[row.id := row])
    case _ => v
  }

  function ViewProgress(v: View, ws: seq<Write>): (View, bool)
    decreases |ws|
  {
    if ws == [] then (v, true)
    else if ViewThrows(v, ws[0]) then (v, false)
    else ViewProgress(ViewWritten(v, ws[0]), ws[1..])
  }

  lemma ViewOfWritten(t: Tables, w: Write)
    requires !Throws(t, w)
    ensures ViewOf(Written(t, w)) == ViewWritten(ViewOf(t), w)
  {
  }

  /** The four tables after a run of writes depend on those four tables alone. */
  lemma {:induction false} ViewOfProgress(t: Tables, ws: seq<Write>)
    ensures ViewProgress(ViewOf(t), ws) == (ViewOf(Progress(t, ws).0), Progress(t, ws).1)
    decreases |ws|
  {
    if ws != [] && !Throws(t, ws[0]) {
      ViewOfWritten(t, ws[0]);
      ViewOfProgress(Written(t, ws[0]), ws[1..]);
    }
  }

  lemma ViewStep(v: View, w: Write, ws: seq<Write>)
    ensures ViewProgress(v, [w] + ws) ==
      if ViewThrows(v, w) then (v, false) else ViewProgress(ViewWritten(v, w), ws)
  {
    assert ([w] + ws)[1..] == ws;
  }

  lemma {:induction false} ViewAppend(v: View, ws: seq<Write>, vs: seq<Write>)
    ensures ViewProgress(v, ws + vs) ==
      if ViewProgress(v, ws).1 then ViewProgress(ViewProgress(v, ws).0, vs) else ViewProgress(v, ws)
    decreases |ws|
  {
    if ws == [] {
      assert ws + vs == vs;
    } else {
      assert (ws + vs)[1..] == ws[1..] + vs;
      if !ViewThrows(v, ws[0]) {
        ViewAppend(ViewWritten(v, ws[0]), ws[1..], vs);
      }
    }
  }

  predicate Invisible(w: Write) {
    !(w.IssueRow? || w.UpdateStatus? || w.ConsumeUsage? || w.ReleaseUsage? || w.PutExecution? || w.SaveSnapshot?)
  }

  lemma {:induction false} ViewSkips(v: View, ws: seq<Write>)
    requires forall i :: 0 <= i < |ws| ==> Invisible(ws[i])
    ensures ViewProgress(v, ws) == (v, true)
    decreases |ws|
  {
    if ws != [] {
      assert Invisible(ws[0]);
      assert ViewWritten(v, ws[0]) == v;
      ViewSkips(v, ws[1..]);
    }
  }

  /** A metadata write followed by a throw is the write that survives. */
  lemma MetadataSurvivesRollback(t: Tables, key: string, meta: TokenMeta, id: string)
    requires id !in t.entitlements && !(key in t.tokenMeta && t.tokenMeta[key] == meta)
    ensures var ws := [EnsureToken(key, Some(meta)), UpdateStatus(id, CONSUMED)];
      !Transacted(t, ws, false).1 && Transacted(t, ws, false).0 != t
      && Transacted(t, ws, false).0 == t.(tokenMeta := t.tokenMeta[key := meta])
  {
    var ws := [EnsureToken(key, Some(meta)), UpdateStatus(id, CONSUMED)];
    assert ws[1..] == [UpdateStatus(id, CONSUMED)];
    assert Progress(t, ws) == Progress(Written(t, ws[0]), ws[1..]) == (Written(t, ws[0]), false);
    assert t.tokenMeta[key := meta][key] == meta;
  }
}
