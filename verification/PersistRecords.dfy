/** What the final transaction of a scan leaves on record beside its result. */
module PersistRecords {
  import opened Results
  import opened ScanLifecycle
  import opened ScanProtocol
  import opened Store

  /** No signal is on record twice in one phase at one time. */
  ghost predicate NoTransitionTwice(t: Tables) {
    forall i, j :: 0 <= i < j < |t.signalTransitions| ==>
      !SameTransition(t.signalTransitions[i], t.signalTransitions[j])
  }

  lemma WriteKeepsApart(t: Tables, w: Write)
    requires !Throws(t, w) && NoTransitionTwice(t)
    ensures NoTransitionTwice(Written(t, w)) && t.signalTransitions <= Written(t, w).signalTransitions
  {
    WriteAddsTransition(t, w);
    forall i | 0 <= i < |t.signalTransitions| ensures t.signalTransitions[i] in t.signalTransitions { }
  }

  /** A version is recorded once and stays as it was. */
  lemma WriteKeepsEngine(t: Tables, w: Write, version: string)
    requires !Throws(t, w)
    ensures version in t.engineVersions ==>
      version in Written(t, w).engineVersions && Written(t, w).engineVersions[version] == t.engineVersions[version]
    ensures t.tokens <= Written(t, w).tokens
  {
  }

  lemma {:induction false} WritesKeep(t: Tables, ws: seq<Write>, version: string)
    requires Progress(t, ws).1 && NoTransitionTwice(t)
    ensures var u := Progress(t, ws).0;
      && NoTransitionTwice(u) && t.signalTransitions <= u.signalTransitions && t.tokens <= u.tokens
      && (version in t.engineVersions ==>
            version in u.engineVersions && u.engineVersions[version] == t.engineVersions[version])
    decreases |ws|
  {
    if ws != [] {
      WriteKeepsApart(t, ws[0]);
      WriteKeepsEngine(t, ws[0], version);
      WritesKeep(Written(t, ws[0]), ws[1..], version);
    }
  }

  lemma FirstTwo(t: Tables, version: string, models: string, token: string, rest: seq<Write>)
    requires NoTransitionTwice(t)
    requires Progress(t, [RecordEngine(version, models)] + ([EnsureToken(token, None)] + rest)).1
    ensures var u := Progress(t, [RecordEngine(version, models)] + ([EnsureToken(token, None)] + rest)).0;
      && NoTransitionTwice(u) && t.signalTransitions <= u.signalTransitions
      && token in u.tokens && version in u.engineVersions
      && u.engineVersions[version] == if version in t.engineVersions then t.engineVersions[version] else models
  {
    var engine, known := RecordEngine(version, models), EnsureToken(token, None);
    var first := Written(t, engine);
    var second := Written(first, known);
    var tail := [known] + rest;
    assert ([engine] + tail)[0] == engine && ([engine] + tail)[1..] == tail && tail[0] == known && tail[1..] == rest;
    assert Progress(t, [engine] + tail) == Progress(first, tail) == Progress(second, rest);
    WritesKeep(second, rest, version);
  }

  /** Committed, it leaves the token known and the engine's models recorded under its version
      - those of the first scan by it - and a signal's change of phase once, however many
      scans find it. */
  lemma PersistRecordsOnce(t: Tables, c: Call, found: Evaluation, ports: Ports)
    requires Transacted(t, PersistWrites(c, found, ports.finishedAt), false).1 && NoTransitionTwice(t)
    ensures var u := Transacted(t, PersistWrites(c, found, ports.finishedAt), false).0;
      && NoTransitionTwice(u) && t.signalTransitions <= u.signalTransitions
      && c.input.token in u.tokens && "engine" in u.engineVersions
      && u.engineVersions["engine"]
         == if "engine" in t.engineVersions then t.engineVersions["engine"] else "models"
  {
    var ws := PersistWrites(c, found, ports.finishedAt);
    var engine, known := RecordEngine("engine", "models"), EnsureToken(c.input.token, None);
    assert ws == [engine] + ([known] + ws[2..]);
    FirstTwo(t, "engine", "models", c.input.token, ws[2..]);
  }
}
