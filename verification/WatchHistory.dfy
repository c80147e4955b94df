/** What any history of serial ticks does with a trade: how often it is alerted on,
    and where the cursors go. */
module WatchHistory {
  import opened Results
  import opened StableSort
  import opened WalletWatches
  import opened WatchTick

  predicate About(e: Entry, w: string, sig: string) { !e.Converged? && e.watch.id == w && e.trade.sig == sig }

  /** An alert on the trade is handed to the channel. */
  predicate Attempt(e: Entry, w: string, sig: string) { e.Base? && About(e, w, sig) }

  /** The cursor has moved behind the trade. */
  predicate Completion(e: Entry, w: string, sig: string) { e.Advance? && e.ok && About(e, w, sig) }

  predicate Throw(e: Entry, w: string, sig: string) {
    About(e, w, sig) && (if e.Advance? then !e.ok else e.answer == THROWS)
  }

  ghost predicate Completed(log: seq<Entry>, w: string, sig: string) {
    exists k :: 0 <= k < |log| && Completion(log[k], w, sig)
  }

  ghost predicate Attempted(log: seq<Entry>, w: string, sig: string) {
    exists k :: 0 <= k < |log| && Attempt(log[k], w, sig)
  }

  ghost predicate ThrowBetween(log: seq<Entry>, i: int, j: int, w: string, sig: string) {
    exists k :: 0 <= i <= k < j <= |log| && Throw(log[k], w, sig)
  }

  /** Between two attempts on a trade there is a throw at that trade. */
  ghost predicate Separated(log: seq<Entry>) {
    forall i, j, w, sig ::
      0 <= i < j < |log| && Attempt(log[i], w, sig) && Attempt(log[j], w, sig) ==> ThrowBetween(log, i, j, w, sig)
  }

  ghost predicate CompletedOnce(log: seq<Entry>) {
    forall i, j, w, sig :: 0 <= i < j < |log| && Completion(log[i], w, sig) ==> !Completion(log[j], w, sig)
  }

  /** Every attempt has come to a throw or a completion. */
  ghost predicate Settled(log: seq<Entry>) {
    forall i, w, sig :: 0 <= i < |log| && Attempt(log[i], w, sig) ==>
      Completed(log[i..], w, sig) || ThrowBetween(log, i, |log|, w, sig)
  }

  ghost predicate Orderly(log: seq<Entry>) { Separated(log) && CompletedOnce(log) && Settled(log) }

  /** The entries one trade adds: its base alert first, at the end a throw or the completion. */
  predicate OneTrade(es: seq<Entry>, w: string, sig: string) {
    && es != [] && es[0].Base? && (forall k :: 0 <= k < |es| ==> About(es[k], w, sig))
    && (forall k :: 0 < k < |es| ==> !es[k].Base?)
    && (forall k :: 0 <= k < |es| - 1 ==> !es[k].Advance?)
    && (Throw(es[|es| - 1], w, sig) || Completion(es[|es| - 1], w, sig))
  }

  lemma SuffixCompleted(log: seq<Entry>, i: nat, w: string, sig: string)
    requires i <= |log|
    ensures Completed(log[i..], w, sig) ==> Completed(log, w, sig)
  {
    if Completed(log[i..], w, sig) {
      var k :| 0 <= k < |log[i..]| && Completion(log[i..][k], w, sig);
      assert Completion(log[i + k], w, sig);
    }
  }

  lemma SeparatedMore(log: seq<Entry>, es: seq<Entry>, w: string, sig: string)
    requires Orderly(log) && !Completed(log, w, sig) && OneTrade(es, w, sig)
    ensures Separated(log + es)
  {
    var all := log + es;
    forall i, j, v, g | 0 <= i < j < |all| && Attempt(all[i], v, g) && Attempt(all[j], v, g)
      ensures ThrowBetween(all, i, j, v, g)
    {
      if j < |log| {
        assert Attempt(log[i], v, g) && Attempt(log[j], v, g);
        var k :| 0 <= i <= k < j <= |log| && Throw(log[k], v, g);
        assert Throw(all[k], v, g);
      } else {
        assert all[j] == es[j - |log|];
        assert j == |log| && v == w && g == sig;
        assert Attempt(log[i], w, sig);
        SuffixCompleted(log, i, w, sig);
        var k :| 0 <= i <= k < |log| && Throw(log[k], w, sig);
        assert Throw(all[k], w, sig);
      }
    }
  }

  lemma CompletedOnceMore(log: seq<Entry>, es: seq<Entry>, w: string, sig: string)
    requires Orderly(log) && !Completed(log, w, sig) && OneTrade(es, w, sig)
    ensures CompletedOnce(log + es)
  {
    var all := log + es;
    assert forall k :: |log| <= k < |all| - 1 ==> all[k] == es[k - |log|] && !all[k].Advance?;
    forall i, j, v, g | 0 <= i < j < |all| && Completion(all[i], v, g) ensures !Completion(all[j], v, g) {
      assert Completion(log[i], v, g);
      if j >= |log| {
        assert all[j] == es[j - |log|] && About(all[j], w, sig);
      }
    }
  }

  lemma SettledMore(log: seq<Entry>, es: seq<Entry>, w: string, sig: string)
    requires Orderly(log) && OneTrade(es, w, sig)
    ensures Settled(log + es)
  {
    var all := log + es;
    var last := |all| - 1;
    assert all[last] == es[|es| - 1];
    forall i, v, g | 0 <= i < |all| && Attempt(all[i], v, g)
      ensures Completed(all[i..], v, g) || ThrowBetween(all, i, |all|, v, g)
    {
      if i >= |log| {
        assert all[i] == es[i - |log|];
        assert v == w && g == sig;
        assert all[i..][last - i] == all[last];
      } else {
        assert Attempt(log[i], v, g);
        if Completed(log[i..], v, g) {
          var k :| 0 <= k < |log[i..]| && Completion(log[i..][k], v, g);
          assert all[i..][k] == log[i..][k];
        } else {
          var k :| 0 <= i <= k < |log| && Throw(log[k], v, g);
          assert Throw(all[k], v, g);
        }
      }
    }
  }

  // ------------------------------------------------------------------
  // Cursors
  // ------------------------------------------------------------------

  /** `at` gives every trade of a watch its one time. */
  predicate Timed(t: Trade, w: string, at: (string, string) -> int) { t.atMs == at(w, t.sig) }

  /** The cursor has reached `time`. */
  predicate Reached(cursors: map<string, Cursor>, w: string, time: int) {
    w in cursors && cursors[w].lastEventAt.Some? && time <= cursors[w].lastEventAt.value
  }

  predicate CursorTimed(c: Cursor, w: string, at: (string, string) -> int) {
    c.lastEventSig.Some? && c.lastEventAt == Some(at(w, c.lastEventSig.value))
  }

  /** Cursors are behind every completed trade, and name a trade at their own time. */
  ghost predicate CursorsBehind(b: Book, at: (string, string) -> int) {
    && (forall w, sig :: Completed(b.log, w, sig) ==> Reached(b.cursors, w, at(w, sig)))
    && (forall w :: w in b.cursors ==> CursorTimed(b.cursors[w], w, at))
  }

  ghost predicate Kept(b: Book, at: (string, string) -> int) { Orderly(b.log) && CursorsBehind(b, at) }

  ghost predicate CursorsGrow(c: map<string, Cursor>, d: map<string, Cursor>) {
    forall w, time :: Reached(c, w, time) ==> Reached(d, w, time)
  }

  /** What is added, in one line for each way a trade can go. */
  lemma TradeEntries(b: Book, watch: WalletWatch, t: Trade, ports: Ports, policy: TickPolicy) returns (es: seq<Entry>)
    ensures var (n, ok) := TradeOn(b, watch, t, ports, policy);
      && n.log == b.log + es && OneTrade(es, watch.id, t.sig)
      && (ok <==> Completion(es[|es| - 1], watch.id, t.sig))
      && n.cursors == (if ok then b.cursors[watch.id := Cursor(Some(t.sig), Some(t.atMs))] else b.cursors)
  {
    var (n, ok) := TradeOn(b, watch, t, ports, policy);
    var base := Base(watch, t, ports.deliver(|b.log|));
    es := [base];
    if base.answer != THROWS {
      var l1 := b.log + [base];
      if IsDump(t, policy) {
        var dump := Dump(watch, t, ports.deliver(|l1|));
        es := es + [dump];
        assert b.log + es == l1 + [dump];
        if dump.answer != THROWS {
          var l2 := l1 + [dump];
          es := es + [Advance(watch, t, ports.advance(|l2|))];
          assert b.log + es == l2 + [Advance(watch, t, ports.advance(|l2|))];
        }
      } else {
        es := es + [Advance(watch, t, ports.advance(|l1|))];
        assert b.log + es == l1 + [Advance(watch, t, ports.advance(|l1|))];
      }
    }
  }

  lemma CompletedWith(log: seq<Entry>, es: seq<Entry>, w: string, sig: string, v: string, g: string)
    requires OneTrade(es, w, sig)
    ensures Completed(log + es, v, g) <==>
      Completed(log, v, g) || (v == w && g == sig && Completion(es[|es| - 1], w, sig))
  {
    var all := log + es;
    if Completed(log, v, g) {
      var k :| 0 <= k < |log| && Completion(log[k], v, g);
      assert Completion(all[k], v, g);
    }
    if Completion(es[|es| - 1], v, g) {
      assert all[|all| - 1] == es[|es| - 1];
    }
    if Completed(all, v, g) {
      var k :| 0 <= k < |all| && Completion(all[k], v, g);
      assert k >= |log| ==> all[k] == es[k - |log|] && About(all[k], w, sig);
      assert k < |log| ==> Completion(log[k], v, g);
    }
  }

  /** One trade that is not completed and not before the cursor keeps all of it. */
  lemma TradeKeeps(b: Book, watch: WalletWatch, t: Trade, ports: Ports, policy: TickPolicy, at: (string, string) -> int)
    requires Kept(b, at) && !Completed(b.log, watch.id, t.sig) && Timed(t, watch.id, at)
    requires forall time :: Reached(b.cursors, watch.id, time) ==> time <= t.atMs
    ensures var (n, ok) := TradeOn(b, watch, t, ports, policy);
      && Kept(n, at) && CursorsGrow(b.cursors, n.cursors)
      && (forall g :: g != t.sig ==> (Completed(n.log, watch.id, g) <==> Completed(b.log, watch.id, g)))
      && (forall time :: Reached(n.cursors, watch.id, time) ==> time <= t.atMs)
      && (ok ==> Reached(n.cursors, watch.id, t.atMs) && Completed(n.log, watch.id, t.sig))
  {
    var (n, ok) := TradeOn(b, watch, t, ports, policy);
    var es := TradeEntries(b, watch, t, ports, policy);
    SeparatedMore(b.log, es, watch.id, t.sig);
    CompletedOnceMore(b.log, es, watch.id, t.sig);
    SettledMore(b.log, es, watch.id, t.sig);
    forall v, g
      ensures Completed(n.log, v, g) <==> Completed(b.log, v, g) || (v == watch.id && g == t.sig && ok)
    {
      CompletedWith(b.log, es, watch.id, t.sig, v, g);
    }
  }

  // ------------------------------------------------------------------
  // One watch
  // ------------------------------------------------------------------

  /** The trades still to alert on in this pass: in time order, not before the cursor, none completed. */
  ghost predicate Waiting(b: Book, w: string, pending: seq<Trade>, at: (string, string) -> int) {
    && Sorted(pending, (a, b) => NotLater(a, b)) && DistinctBy(pending, (t: Trade) => t.sig)
    && (forall k :: 0 <= k < |pending| ==> Timed(pending[k], w, at) && !Completed(b.log, w, pending[k].sig))
    && (forall k, time :: 0 <= k < |pending| && Reached(b.cursors, w, time) ==> time <= pending[k].atMs)
  }

  lemma WaitingRest(b: Book, watch: WalletWatch, pending: seq<Trade>, ports: Ports, policy: TickPolicy,
                    at: (string, string) -> int)
    requires pending != [] && Kept(b, at) && Waiting(b, watch.id, pending, at)
    ensures var (n, ok) := TradeOn(b, watch, pending[0], ports, policy);
      Kept(n, at) && CursorsGrow(b.cursors, n.cursors) && Waiting(n, watch.id, pending[1..], at)
  {
    TradeKeeps(b, watch, pending[0], ports, policy, at);
    var (n, ok) := TradeOn(b, watch, pending[0], ports, policy);
    var rest := pending[1..];
    forall k | 0 <= k < |rest| ensures !Completed(n.log, watch.id, rest[k].sig) && pending[0].atMs <= rest[k].atMs {
      assert rest[k] == pending[k + 1] && pending[0].sig != pending[k + 1].sig;
      assert NotLater(pending[0], pending[k + 1]);
    }
  }

  lemma {:induction false} TradesKeep(b: Book, watch: WalletWatch, pending: seq<Trade>, ports: Ports,
                                      policy: TickPolicy, at: (string, string) -> int)
    requires Kept(b, at) && Waiting(b, watch.id, pending, at)
    ensures var n := TradesOn(b, watch, pending, ports, policy).0; Kept(n, at) && CursorsGrow(b.cursors, n.cursors)
    decreases |pending|
  {
    if pending != [] {
      WaitingRest(b, watch, pending, ports, policy, at);
      var (n, ok) := TradeOn(b, watch, pending[0], ports, policy);
      if ok {
        TradesKeep(n, watch, pending[1..], ports, policy, at);
      }
    }
  }

  /** What a fetch promises: each signature once, at its own time. */
  ghost predicate Proper(w: string, fetched: Option<seq<Trade>>, at: (string, string) -> int) {
    fetched.Some? ==>
      DistinctBy(fetched.value, (t: Trade) => t.sig) && forall t :: t in fetched.value ==> Timed(t, w, at)
  }

  lemma NotLaterIsTotal()
    ensures TotalPreorder((a: Trade, b: Trade) => NotLater(a, b))
  {
  }

  lemma FreshMembers(c: Cursor, trades: seq<Trade>, t: Trade)
    ensures t in FreshTrades(c, trades) <==> t in trades && IsFresh(c, t)
  {
    SortMembers(Filter(trades, t => IsFresh(c, t)), (a, b) => NotLater(a, b));
  }

  lemma FreshWaits(b: Book, watch: WalletWatch, trades: seq<Trade>, at: (string, string) -> int)
    requires Kept(b, at) && Proper(watch.id, Some(trades), at)
    ensures Waiting(b, watch.id, FreshTrades(CursorOf(b.cursors, watch.id), trades), at)
  {
    var c := CursorOf(b.cursors, watch.id);
    var kept := Filter(trades, t => IsFresh(c, t));
    var pending := FreshTrades(c, trades);
    NotLaterIsTotal();
    SortSorted(kept, (a, b) => NotLater(a, b));
    FilterDistinct(trades, t => IsFresh(c, t), (t: Trade) => t.sig);
    SortDistinct(kept, (a, b) => NotLater(a, b), (t: Trade) => t.sig);
    forall k | 0 <= k < |pending|
      ensures Timed(pending[k], watch.id, at) && !Completed(b.log, watch.id, pending[k].sig) && IsFresh(c, pending[k])
    {
      FreshMembers(c, trades, pending[k]);
      assert pending[k] in pending;
      assert Timed(pending[k], watch.id, at);
      assert !Reached(b.cursors, watch.id, pending[k].atMs);
    }
  }

  lemma WatchKeeps(b: Book, watch: WalletWatch, fetched: Option<seq<Trade>>, ports: Ports, policy: TickPolicy,
                   at: (string, string) -> int)
    requires Kept(b, at) && Proper(watch.id, fetched, at)
    ensures var n := WatchOn(b, watch, fetched, ports, policy).0; Kept(n, at) && CursorsGrow(b.cursors, n.cursors)
  {
    if fetched.Some? {
      FreshWaits(b, watch, fetched.value, at);
      TradesKeep(b, watch, FreshTrades(CursorOf(b.cursors, watch.id), fetched.value), ports, policy, at);
    }
  }

  // ------------------------------------------------------------------
  // Histories of serial ticks
  // ------------------------------------------------------------------

  /** A tick is a pass over each active watch and then some convergence alerts. */
  datatype Event =
    | Pass(watch: WalletWatch, fetched: Option<seq<Trade>>)
    | Announcement(entry: Entry)

  ghost predicate ProperEvent(e: Event, at: (string, string) -> int) {
    match e
    case Pass(watch, fetched) => Proper(watch.id, fetched, at)
    case Announcement(entry) => entry.Converged?
  }

  ghost predicate AllProper(events: seq<Event>, at: (string, string) -> int) {
    forall k :: 0 <= k < |events| ==> ProperEvent(events[k], at)
  }

  function EventOn(b: Book, e: Event, ports: Ports, policy: TickPolicy): Book {
    match e
    case Pass(watch, fetched) => WatchOn(b, watch, fetched, ports, policy).0
    case Announcement(entry) => b.(log := b.log + [entry])
  }

  function After(b: Book, events: seq<Event>, ports: Ports, policy: TickPolicy): Book
    decreases |events|
  {
    if events == [] then b
    else EventOn(After(b, events[..|events| - 1], ports, policy), events[|events| - 1], ports, policy)
  }

  const NEW_BOOK := Book(map[], [])

  lemma AnnouncementKeeps(b: Book, e: Entry, at: (string, string) -> int)
    requires Kept(b, at) && e.Converged?
    ensures Kept(b.(log := b.log + [e]), at)
    ensures forall w, sig :: Completed(b.log + [e], w, sig) <==> Completed(b.log, w, sig)
  {
    var all := b.log + [e];
    forall w, sig ensures Completed(all, w, sig) <==> Completed(b.log, w, sig) {
      if Completed(b.log, w, sig) {
        var k :| 0 <= k < |b.log| && Completion(b.log[k], w, sig);
        assert Completion(all[k], w, sig);
      }
    }
    forall i, j, w, sig | 0 <= i < j < |all| && Attempt(all[i], w, sig) && Attempt(all[j], w, sig)
      ensures ThrowBetween(all, i, j, w, sig)
    {
      assert Attempt(b.log[i], w, sig) && Attempt(b.log[j], w, sig);
      var k :| 0 <= i <= k < j <= |b.log| && Throw(b.log[k], w, sig);
      assert Throw(all[k], w, sig);
    }
    forall i, w, sig | 0 <= i < |all| && Attempt(all[i], w, sig)
      ensures Completed(all[i..], w, sig) || ThrowBetween(all, i, |all|, w, sig)
    {
      assert Attempt(b.log[i], w, sig);
      if Completed(b.log[i..], w, sig) {
        var k :| 0 <= k < |b.log[i..]| && Completion(b.log[i..][k], w, sig);
        assert all[i..][k] == b.log[i..][k];
      } else {
        var k :| 0 <= i <= k < |b.log| && Throw(b.log[k], w, sig);
        assert Throw(all[k], w, sig);
      }
    }
  }

  lemma EventKeeps(b: Book, e: Event, ports: Ports, policy: TickPolicy, at: (string, string) -> int)
    requires Kept(b, at) && ProperEvent(e, at)
    ensures Kept(EventOn(b, e, ports, policy), at) && CursorsGrow(b.cursors, EventOn(b, e, ports, policy).cursors)
  {
    match e
    case Pass(watch, fetched) => WatchKeeps(b, watch, fetched, ports, policy, at);
    case Announcement(entry) => AnnouncementKeeps(b, entry, at);
  }

  lemma {:induction false} HistoryKeeps(events: seq<Event>, ports: Ports, policy: TickPolicy,
                                        at: (string, string) -> int)
    requires AllProper(events, at)
    ensures Kept(After(NEW_BOOK, events, ports, policy), at)
    decreases |events|
  {
    if events != [] {
      HistoryKeeps(events[..|events| - 1], ports, policy, at);
      EventKeeps(After(NEW_BOOK, events[..|events| - 1], ports, policy), events[|events| - 1], ports, policy, at);
    }
  }

  /** Over any history, with any answers and throws: a trade is completed at most
      once for a watch, and between any two alerts on it something threw at it. */
  lemma NeverTwiceWithoutThrow(events: seq<Event>, ports: Ports, policy: TickPolicy, at: (string, string) -> int,
                               i: nat, j: nat, w: string, sig: string)
    requires AllProper(events, at)
    requires i < j < |After(NEW_BOOK, events, ports, policy).log|
    ensures var log := After(NEW_BOOK, events, ports, policy).log;
      && (Attempt(log[i], w, sig) && Attempt(log[j], w, sig) ==> ThrowBetween(log, i, j, w, sig))
      && !(Completion(log[i], w, sig) && Completion(log[j], w, sig))
  {
    HistoryKeeps(events, ports, policy, at);
    var log := After(NEW_BOOK, events, ports, policy).log;
    if Attempt(log[i], w, sig) && Attempt(log[j], w, sig) {
      assert ThrowBetween(log, i, j, w, sig);
    }
  }

  /** Cursor times never decrease. */
  lemma {:induction false} CursorsNeverGoBack(events: seq<Event>, n: nat, ports: Ports, policy: TickPolicy,
                                              at: (string, string) -> int)
    requires AllProper(events, at) && n <= |events|
    ensures CursorsGrow(After(NEW_BOOK, events[..n], ports, policy).cursors,
      After(NEW_BOOK, events, ports, policy).cursors)
    decreases |events|
  {
    if n == |events| {
      assert events[..n] == events;
    } else {
      var before := events[..|events| - 1];
      assert before[..n] == events[..n];
      CursorsNeverGoBack(before, n, ports, policy, at);
      HistoryKeeps(before, ports, policy, at);
      EventKeeps(After(NEW_BOOK, before, ports, policy), events[|events| - 1], ports, policy, at);
    }
  }

  // ------------------------------------------------------------------
  // Without throws: exactly once, or never
  // ------------------------------------------------------------------

  ghost predicate NoThrows(ports: Ports) {
    forall n :: ports.deliver(n) != THROWS && ports.advance(n)
  }

  lemma AttemptedWith(log: seq<Entry>, es: seq<Entry>, w: string, sig: string, v: string, g: string)
    requires OneTrade(es, w, sig)
    ensures Attempted(log + es, v, g) <==> Attempted(log, v, g) || (v == w && g == sig)
  {
    var all := log + es;
    if Attempted(log, v, g) {
      var k :| 0 <= k < |log| && Attempt(log[k], v, g);
      assert Attempt(all[k], v, g);
    }
    if v == w && g == sig {
      assert all[|log|] == es[0];
    }
    if Attempted(all, v, g) {
      var k :| 0 <= k < |all| && Attempt(all[k], v, g);
      assert k >= |log| ==> all[k] == es[k - |log|] && About(all[k], w, sig);
      assert k < |log| ==> Attempt(log[k], v, g);
    }
  }

  ghost predicate Among(trades: seq<Trade>, sig: string) { exists k :: 0 <= k < |trades| && trades[k].sig == sig }

  lemma {:induction false} TradesAttempted(b: Book, watch: WalletWatch, pending: seq<Trade>, ports: Ports,
                                           policy: TickPolicy, at: (string, string) -> int)
    requires Kept(b, at) && Waiting(b, watch.id, pending, at) && NoThrows(ports)
    ensures var n := TradesOn(b, watch, pending, ports, policy).0;
      && (forall v, g :: Attempted(n.log, v, g) <==> Attempted(b.log, v, g) || (v == watch.id && Among(pending, g)))
      && (forall k :: 0 <= k < |pending| ==> Reached(n.cursors, watch.id, pending[k].atMs))
    decreases |pending|
  {
    if pending != [] {
      var t, rest := pending[0], pending[1..];
      WaitingRest(b, watch, pending, ports, policy, at);
      TradeKeeps(b, watch, t, ports, policy, at);
      var (n, ok) := TradeOn(b, watch, t, ports, policy);
      var es := TradeEntries(b, watch, t, ports, policy);
      TradesAttempted(n, watch, rest, ports, policy, at);
      TradesKeep(n, watch, rest, ports, policy, at);
      forall v, g ensures Attempted(n.log, v, g) <==> Attempted(b.log, v, g) || (v == watch.id && g == t.sig) {
        AttemptedWith(b.log, es, watch.id, t.sig, v, g);
      }
      forall g ensures Among(pending, g) <==> g == t.sig || Among(rest, g) {
        if Among(rest, g) {
          var k :| 0 <= k < |rest| && rest[k].sig == g;
          assert pending[k + 1].sig == g;
        }
        if Among(pending, g) && g != t.sig {
          var k :| 0 <= k < |pending| && pending[k].sig == g;
          assert rest[k - 1].sig == g;
        }
      }
    }
  }

  /** The trades a pass takes up are those it fetched that are after the cursor. */
  lemma FreshAmong(b: Book, watch: WalletWatch, trades: seq<Trade>, at: (string, string) -> int, g: string)
    requires Kept(b, at) && Proper(watch.id, Some(trades), at)
    ensures Among(FreshTrades(CursorOf(b.cursors, watch.id), trades), g)
      <==> Among(trades, g) && !Reached(b.cursors, watch.id, at(watch.id, g))
  {
    var c := CursorOf(b.cursors, watch.id);
    var pending := FreshTrades(c, trades);
    if Among(trades, g) {
      var k :| 0 <= k < |trades| && trades[k].sig == g;
      var t := trades[k];
      assert t in trades;
      FreshMembers(c, trades, t);
      assert IsFresh(c, t) <==> !Reached(b.cursors, watch.id, t.atMs);
      if t in pending {
        var m :| 0 <= m < |pending| && pending[m] == t;
        assert pending[m].sig == g;
      }
    }
    if Among(pending, g) {
      var m :| 0 <= m < |pending| && pending[m].sig == g;
      FreshMembers(c, trades, pending[m]);
      var k :| 0 <= k < |trades| && trades[k] == pending[m];
      assert trades[k].sig == g;
      assert IsFresh(c, pending[m]) ==> !Reached(b.cursors, watch.id, pending[m].atMs);
    }
  }

  /** Exactly the trades that are after the cursor are alerted on, and the cursor
      ends behind everything fetched. */
  lemma PassAttempts(b: Book, watch: WalletWatch, trades: seq<Trade>, ports: Ports, policy: TickPolicy,
                     at: (string, string) -> int)
    requires Kept(b, at) && Proper(watch.id, Some(trades), at) && NoThrows(ports)
    ensures var n := WatchOn(b, watch, Some(trades), ports, policy).0;
      && (forall v, g :: Attempted(n.log, v, g) <==>
            Attempted(b.log, v, g) || (v == watch.id && Among(trades, g) && !Reached(b.cursors, v, at(v, g))))
      && (forall g :: Among(trades, g) ==> Reached(n.cursors, watch.id, at(watch.id, g)))
  {
    var c := CursorOf(b.cursors, watch.id);
    var pending := FreshTrades(c, trades);
    var n := WatchOn(b, watch, Some(trades), ports, policy).0;
    FreshWaits(b, watch, trades, at);
    TradesAttempted(b, watch, pending, ports, policy, at);
    TradesKeep(b, watch, pending, ports, policy, at);
    forall g
      ensures Among(pending, g) <==> Among(trades, g) && !Reached(b.cursors, watch.id, at(watch.id, g))
      ensures Among(trades, g) ==> Reached(n.cursors, watch.id, at(watch.id, g))
    {
      FreshAmong(b, watch, trades, at, g);
      if Among(pending, g) {
        var m :| 0 <= m < |pending| && pending[m].sig == g;
        assert Reached(n.cursors, watch.id, pending[m].atMs) && pending[m] in pending;
        FreshMembers(c, trades, pending[m]);
      }
    }
  }

  ghost predicate Fetches(e: Event, w: string, sig: string) {
    e.Pass? && e.watch.id == w && e.fetched.Some? && Among(e.fetched.value, sig)
  }

  lemma EventAttempts(b: Book, e: Event, ports: Ports, policy: TickPolicy, at: (string, string) -> int,
                      w: string, sig: string)
    requires Kept(b, at) && ProperEvent(e, at) && NoThrows(ports)
    ensures var n := EventOn(b, e, ports, policy);
      && (Attempted(n.log, w, sig) <==>
           Attempted(b.log, w, sig) || (Fetches(e, w, sig) && !Reached(b.cursors, w, at(w, sig))))
      && (Fetches(e, w, sig) ==> Reached(n.cursors, w, at(w, sig)))
  {
    var n := EventOn(b, e, ports, policy);
    match e
    case Pass(watch, fetched) =>
      if fetched.Some? {
        PassAttempts(b, watch, fetched.value, ports, policy, at);
      }
    case Announcement(entry) =>
      if Attempted(b.log, w, sig) {
        var k :| 0 <= k < |b.log| && Attempt(b.log[k], w, sig);
        assert Attempt(n.log[k], w, sig);
      }
      if Attempted(n.log, w, sig) {
        var k :| 0 <= k < |n.log| && Attempt(n.log[k], w, sig);
        assert Attempt(b.log[k], w, sig);
      }
  }

  ghost predicate Unseen(events: seq<Event>, w: string, sig: string) {
    forall k :: 0 <= k < |events| ==> !Fetches(events[k], w, sig)
  }

  lemma {:induction false} UnseenUnattempted(events: seq<Event>, ports: Ports, policy: TickPolicy,
                                             at: (string, string) -> int, w: string, sig: string)
    requires AllProper(events, at) && NoThrows(ports) && Unseen(events, w, sig)
    ensures !Attempted(After(NEW_BOOK, events, ports, policy).log, w, sig)
    decreases |events|
  {
    if events != [] {
      var before := events[..|events| - 1];
      UnseenUnattempted(before, ports, policy, at, w, sig);
      HistoryKeeps(before, ports, policy, at);
      EventAttempts(After(NEW_BOOK, before, ports, policy), events[|events| - 1], ports, policy, at, w, sig);
    }
  }

  /** When nothing throws, a trade that is first fetched in pass `k` is ever alerted
      on if and only if it was then strictly after its watch's cursor; a trade that
      is never fetched is never alerted on. */
  lemma {:induction false} AlertedIffAfterCursor(events: seq<Event>, k: nat, ports: Ports, policy: TickPolicy,
                                                 at: (string, string) -> int, w: string, sig: string)
    requires AllProper(events, at) && NoThrows(ports)
    requires k < |events| && Fetches(events[k], w, sig) && Unseen(events[..k], w, sig)
    ensures Attempted(After(NEW_BOOK, events, ports, policy).log, w, sig)
      <==> !Reached(After(NEW_BOOK, events[..k], ports, policy).cursors, w, at(w, sig))
    ensures Reached(After(NEW_BOOK, events, ports, policy).cursors, w, at(w, sig))
    decreases |events|
  {
    var before := events[..|events| - 1];
    var b, last := After(NEW_BOOK, before, ports, policy), events[|events| - 1];
    HistoryKeeps(before, ports, policy, at);
    EventAttempts(b, last, ports, policy, at, w, sig);
    EventKeeps(b, last, ports, policy, at);
    if k == |events| - 1 {
      UnseenUnattempted(before, ports, policy, at, w, sig);
    } else {
      assert before[..k] == events[..k];
      AlertedIffAfterCursor(before, k, ports, policy, at, w, sig);
    }
  }

  predicate Threw(e: Entry) { if e.Advance? then !e.ok else e.answer == THROWS }

  ghost predicate Calm(log: seq<Entry>) { forall e :: e in log && !e.Converged? ==> !Threw(e) }

  lemma TradeCalm(b: Book, watch: WalletWatch, t: Trade, ports: Ports, policy: TickPolicy)
    requires NoThrows(ports) && Calm(b.log)
    ensures Calm(TradeOn(b, watch, t, ports, policy).0.log)
  {
    var base := b.log + [Base(watch, t, ports.deliver(|b.log|))];
    var dumped := base + [Dump(watch, t, ports.deliver(|base|))];
    assert Calm(base) && Calm(dumped);
    assert ports.advance(|base|) && ports.advance(|dumped|);
  }

  lemma {:induction false} TradesCalm(b: Book, watch: WalletWatch, pending: seq<Trade>, ports: Ports,
                                      policy: TickPolicy)
    requires NoThrows(ports) && Calm(b.log)
    ensures Calm(TradesOn(b, watch, pending, ports, policy).0.log)
    decreases |pending|
  {
    if pending != [] {
      TradeCalm(b, watch, pending[0], ports, policy);
      var (n, ok) := TradeOn(b, watch, pending[0], ports, policy);
      TradesCalm(n, watch, pending[1..], ports, policy);
    }
  }

  lemma {:induction false} HistoryCalm(events: seq<Event>, ports: Ports, policy: TickPolicy,
                                       at: (string, string) -> int)
    requires AllProper(events, at) && NoThrows(ports)
    ensures Calm(After(NEW_BOOK, events, ports, policy).log)
    decreases |events|
  {
    if events != [] {
      var before, e := events[..|events| - 1], events[|events| - 1];
      HistoryCalm(before, ports, policy, at);
      assert ProperEvent(e, at);
      var b := After(NEW_BOOK, before, ports, policy);
      if e.Pass? && e.fetched.Some? {
        TradesCalm(b, e.watch, FreshTrades(CursorOf(b.cursors, e.watch.id), e.fetched.value), ports, policy);
      }
    }
  }

  /** And when nothing throws it is never alerted on twice. */
  lemma AlertedAtMostOnce(events: seq<Event>, ports: Ports, policy: TickPolicy, at: (string, string) -> int,
                          i: nat, j: nat, w: string, sig: string)
    requires AllProper(events, at) && NoThrows(ports)
    requires i < j < |After(NEW_BOOK, events, ports, policy).log|
    ensures var log := After(NEW_BOOK, events, ports, policy).log; !(Attempt(log[i], w, sig) && Attempt(log[j], w, sig))
  {
    NeverTwiceWithoutThrow(events, ports, policy, at, i, j, w, sig);
    HistoryCalm(events, ports, policy, at);
    var log := After(NEW_BOOK, events, ports, policy).log;
    if ThrowBetween(log, i, j, w, sig) {
      var k :| 0 <= i <= k < j <= |log| && Throw(log[k], w, sig);
      assert log[k] in log;
    }
  }

  // ------------------------------------------------------------------
  // With throws: exactly when an alert is sent again
  // ------------------------------------------------------------------

  /** Alerts on the trade from place `from` of the log on. */
  ghost predicate AttemptedFrom(log: seq<Entry>, from: nat, w: string, sig: string) {
    exists k :: from <= k < |log| && Attempt(log[k], w, sig)
  }

  ghost predicate Twice(log: seq<Entry>, w: string, sig: string) {
    exists i, j :: 0 <= i < j < |log| && Attempt(log[i], w, sig) && Attempt(log[j], w, sig)
  }

  /** One of these trades has the signature, and nothing throws at those before it. */
  ghost predicate Comes(b: Book, watch: WalletWatch, pending: seq<Trade>, ports: Ports, policy: TickPolicy,
                        sig: string)
  {
    exists k :: 0 <= k < |pending| && pending[k].sig == sig && TradesOn(b, watch, pending[..k], ports, policy).1
  }

  lemma ComesFirstOrLater(b: Book, watch: WalletWatch, pending: seq<Trade>, ports: Ports, policy: TickPolicy,
                          sig: string)
    requires pending != []
    ensures var (n, ok) := TradeOn(b, watch, pending[0], ports, policy);
      Comes(b, watch, pending, ports, policy, sig) <==>
        pending[0].sig == sig || (ok && Comes(n, watch, pending[1..], ports, policy, sig))
  {
    var (n, ok) := TradeOn(b, watch, pending[0], ports, policy);
    var rest := pending[1..];
    assert TradesOn(b, watch, pending[..0], ports, policy).1;
    forall k | 0 < k < |pending|
      ensures TradesOn(b, watch, pending[..k], ports, policy).1 <==>
        ok && TradesOn(n, watch, rest[..k - 1], ports, policy).1
    {
      assert pending[..k][0] == pending[0] && pending[..k][1..] == rest[..k - 1];
    }
    if Comes(b, watch, pending, ports, policy, sig) && pending[0].sig != sig {
      var k :| 0 <= k < |pending| && pending[k].sig == sig && TradesOn(b, watch, pending[..k], ports, policy).1;
      assert rest[k - 1].sig == sig;
    }
    if ok && Comes(n, watch, rest, ports, policy, sig) {
      var k :| 0 <= k < |rest| && rest[k].sig == sig && TradesOn(n, watch, rest[..k], ports, policy).1;
      assert pending[k + 1].sig == sig && rest[..k + 1 - 1] == rest[..k];
    }
  }

  /** A pass alerts on exactly the trades it comes to, on each once. */
  lemma {:induction false} TradesAlert(b: Book, watch: WalletWatch, pending: seq<Trade>, ports: Ports,
                                       policy: TickPolicy, v: string, g: string)
    requires DistinctBy(pending, (t: Trade) => t.sig)
    ensures var log := TradesOn(b, watch, pending, ports, policy).0.log;
      && b.log <= log
      && (AttemptedFrom(log, |b.log|, v, g) <==> v == watch.id && Comes(b, watch, pending, ports, policy, g))
      && (forall i, j :: |b.log| <= i < j < |log| && Attempt(log[i], v, g) ==> !Attempt(log[j], v, g))
    decreases |pending|
  {
    if pending != [] {
      var t, rest := pending[0], pending[1..];
      var (n, ok) := TradeOn(b, watch, t, ports, policy);
      var es := TradeEntries(b, watch, t, ports, policy);
      ComesFirstOrLater(b, watch, pending, ports, policy, g);
      assert Attempt(n.log[|b.log|], watch.id, t.sig) by {
        assert n.log[|b.log|] == es[0];
      }
      forall k | |b.log| <= k < |n.log|
        ensures Attempt(n.log[k], v, g) <==> k == |b.log| && v == watch.id && g == t.sig
      {
        assert n.log[k] == es[k - |b.log|] && About(n.log[k], watch.id, t.sig);
      }
      if ok {
        TradesAlert(n, watch, rest, ports, policy, v, g);
        TradesAlertLater(b, n, watch, pending, ports, policy, v, g);
      }
    }
  }

  /** The alerts of a pass: the first trade's, and those of the rest. */
  lemma TradesAlertLater(b: Book, n: Book, watch: WalletWatch, pending: seq<Trade>, ports: Ports, policy: TickPolicy,
                         v: string, g: string)
    requires pending != [] && DistinctBy(pending, (t: Trade) => t.sig) && b.log < n.log
    requires forall k :: |b.log| <= k < |n.log| ==>
      (Attempt(n.log[k], v, g) <==> k == |b.log| && v == watch.id && g == pending[0].sig)
    requires var log := TradesOn(n, watch, pending[1..], ports, policy).0.log;
      && n.log <= log
      && (AttemptedFrom(log, |n.log|, v, g) <==> v == watch.id && Comes(n, watch, pending[1..], ports, policy, g))
      && (forall i, j :: |n.log| <= i < j < |log| && Attempt(log[i], v, g) ==> !Attempt(log[j], v, g))
    ensures var log := TradesOn(n, watch, pending[1..], ports, policy).0.log;
      && b.log <= log
      && (AttemptedFrom(log, |b.log|, v, g) <==>
            v == watch.id && (g == pending[0].sig || Comes(n, watch, pending[1..], ports, policy, g)))
      && (forall i, j :: |b.log| <= i < j < |log| && Attempt(log[i], v, g) ==> !Attempt(log[j], v, g))
  {
    var log := TradesOn(n, watch, pending[1..], ports, policy).0.log;
    assert forall k :: 0 <= k < |n.log| ==> log[k] == n.log[k];
    forall k | 0 <= k < |pending[1..]| ensures pending[1..][k].sig != pending[0].sig {
      assert pending[1..][k] == pending[k + 1];
    }
    forall j | |n.log| <= j < |log| && Attempt(log[j], v, g) ensures g != pending[0].sig {
      assert AttemptedFrom(log, |n.log|, v, g);
    }
    if v == watch.id && g == pending[0].sig {
      assert Attempt(log[|b.log|], v, g);
    }
    if AttemptedFrom(log, |b.log|, v, g) {
      var k :| |b.log| <= k < |log| && Attempt(log[k], v, g);
      assert k >= |n.log| ==> AttemptedFrom(log, |n.log|, v, g);
    }
    if AttemptedFrom(log, |n.log|, v, g) {
      var k :| |n.log| <= k < |log| && Attempt(log[k], v, g);
      assert |b.log| <= k;
    }
  }

  /** Nothing throws at the trades the pass takes up before this one. */
  ghost predicate Undisturbed(b: Book, watch: WalletWatch, trades: seq<Trade>, ports: Ports, policy: TickPolicy,
                              sig: string)
  {
    var pending := FreshTrades(CursorOf(b.cursors, watch.id), trades);
    forall k :: 0 <= k < |pending| && pending[k].sig == sig ==> TradesOn(b, watch, pending[..k], ports, policy).1
  }

  /** A pass over `w` fetches the trade while it is strictly after the cursor, and nothing
      throws before the pass comes to it. */
  ghost predicate TakesUp(b: Book, e: Event, ports: Ports, policy: TickPolicy, at: (string, string) -> int,
                          w: string, sig: string) {
    Fetches(e, w, sig) && !Reached(b.cursors, w, at(w, sig))
      && Undisturbed(b, e.watch, e.fetched.value, ports, policy, sig)
  }

  lemma ComesIff(b: Book, watch: WalletWatch, trades: seq<Trade>, ports: Ports, policy: TickPolicy,
                 at: (string, string) -> int, sig: string)
    requires Kept(b, at) && Proper(watch.id, Some(trades), at)
    ensures Comes(b, watch, FreshTrades(CursorOf(b.cursors, watch.id), trades), ports, policy, sig) <==>
      Among(trades, sig) && !Reached(b.cursors, watch.id, at(watch.id, sig))
        && Undisturbed(b, watch, trades, ports, policy, sig)
  {
    var pending := FreshTrades(CursorOf(b.cursors, watch.id), trades);
    FreshAmong(b, watch, trades, at, sig);
    FreshWaits(b, watch, trades, at);
    if Comes(b, watch, pending, ports, policy, sig) {
      var k :| 0 <= k < |pending| && pending[k].sig == sig && TradesOn(b, watch, pending[..k], ports, policy).1;
      assert forall m :: 0 <= m < |pending| && m != k ==> pending[m].sig != pending[k].sig;
      assert Among(pending, sig);
    } else if Among(pending, sig) {
      var k :| 0 <= k < |pending| && pending[k].sig == sig;
      assert !TradesOn(b, watch, pending[..k], ports, policy).1;
    }
  }

  /** An event alerts on a trade if and only if it takes it up, and then once. */
  lemma EventAlertsIff(b: Book, e: Event, ports: Ports, policy: TickPolicy, at: (string, string) -> int,
                       w: string, sig: string)
    requires Kept(b, at) && ProperEvent(e, at)
    ensures var log := EventOn(b, e, ports, policy).log;
      && b.log <= log
      && (AttemptedFrom(log, |b.log|, w, sig) <==> TakesUp(b, e, ports, policy, at, w, sig))
      && (forall i, j :: |b.log| <= i < j < |log| && Attempt(log[i], w, sig) ==> !Attempt(log[j], w, sig))
  {
    if e.Pass? && e.fetched.Some? {
      var pending := FreshTrades(CursorOf(b.cursors, e.watch.id), e.fetched.value);
      FreshWaits(b, e.watch, e.fetched.value, at);
      TradesAlert(b, e.watch, pending, ports, policy, w, sig);
      ComesIff(b, e.watch, e.fetched.value, ports, policy, at, sig);
    }
  }

  /** A trade alerted on before is alerted on again by the next event if and only if that
      takes it up: throws leave it waiting as long as the cursor stays behind it. */
  lemma ResentNextIff(events: seq<Event>, e: Event, ports: Ports, policy: TickPolicy, at: (string, string) -> int,
                      w: string, sig: string)
    requires AllProper(events, at) && ProperEvent(e, at)
    requires Attempted(After(NEW_BOOK, events, ports, policy).log, w, sig)
    ensures var b := After(NEW_BOOK, events, ports, policy);
      && (AttemptedFrom(EventOn(b, e, ports, policy).log, |b.log|, w, sig) <==>
           TakesUp(b, e, ports, policy, at, w, sig))
      && (TakesUp(b, e, ports, policy, at, w, sig) ==>
           ThrowBetween(b.log, 0, |b.log|, w, sig) && !Completed(b.log, w, sig))
  {
    var b := After(NEW_BOOK, events, ports, policy);
    HistoryKeeps(events, ports, policy, at);
    EventAlertsIff(b, e, ports, policy, at, w, sig);
    var i :| 0 <= i < |b.log| && Attempt(b.log[i], w, sig);
    if !Completed(b.log, w, sig) {
      SuffixCompleted(b.log, i, w, sig);
      var k :| 0 <= i <= k < |b.log| && Throw(b.log[k], w, sig);
      assert ThrowBetween(b.log, 0, |b.log|, w, sig);
    }
  }

  lemma TwiceSplits(before: seq<Entry>, log: seq<Entry>, w: string, sig: string)
    requires before <= log
    requires forall i, j :: |before| <= i < j < |log| && Attempt(log[i], w, sig) ==> !Attempt(log[j], w, sig)
    ensures Twice(log, w, sig) <==>
      Twice(before, w, sig) || (Attempted(before, w, sig) && AttemptedFrom(log, |before|, w, sig))
  {
    assert forall k :: 0 <= k < |before| ==> log[k] == before[k];
    if Twice(log, w, sig) {
      var i, j :| 0 <= i < j < |log| && Attempt(log[i], w, sig) && Attempt(log[j], w, sig);
      assert i < |before| && Attempt(before[i], w, sig);
      if j < |before| {
        assert Attempt(before[j], w, sig);
      }
    }
    if Twice(before, w, sig) {
      var i, j :| 0 <= i < j < |before| && Attempt(before[i], w, sig) && Attempt(before[j], w, sig);
      assert Attempt(log[i], w, sig) && Attempt(log[j], w, sig);
    }
    if Attempted(before, w, sig) && AttemptedFrom(log, |before|, w, sig) {
      var i :| 0 <= i < |before| && Attempt(before[i], w, sig);
      var j :| |before| <= j < |log| && Attempt(log[j], w, sig);
      assert Attempt(log[i], w, sig);
    }
  }

  /** Event `k` alerts on the trade again. */
  ghost predicate ResentAt(events: seq<Event>, k: nat, ports: Ports, policy: TickPolicy, at: (string, string) -> int,
                           w: string, sig: string)
    requires k < |events|
  {
    var b := After(NEW_BOOK, events[..k], ports, policy);
    Attempted(b.log, w, sig) && TakesUp(b, events[k], ports, policy, at, w, sig)
  }

  ghost predicate Resent(events: seq<Event>, ports: Ports, policy: TickPolicy, at: (string, string) -> int,
                         w: string, sig: string) {
    exists k: nat :: k < |events| && ResentAt(events, k, ports, policy, at, w, sig)
  }

  lemma ResentEarlierOrLast(events: seq<Event>, ports: Ports, policy: TickPolicy, at: (string, string) -> int,
                            w: string, sig: string)
    requires events != []
    ensures Resent(events, ports, policy, at, w, sig) <==>
      || Resent(events[..|events| - 1], ports, policy, at, w, sig)
      || ResentAt(events, |events| - 1, ports, policy, at, w, sig)
  {
    var n := |events| - 1;
    var before := events[..n];
    forall k: nat | k < n
      ensures ResentAt(events, k, ports, policy, at, w, sig) <==> ResentAt(before, k, ports, policy, at, w, sig)
    {
      assert before[..k] == events[..k] && before[k] == events[k];
    }
  }

  /** Over any history, with any answers and throws: an alert is sent more than once if and
      only if, after it was sent, some pass fetches its trade while the cursor is still
      before it and throws at no trade it comes to first. */
  lemma {:induction false} ResentIff(events: seq<Event>, ports: Ports, policy: TickPolicy, at: (string, string) -> int,
                                     w: string, sig: string)
    requires AllProper(events, at)
    ensures Twice(After(NEW_BOOK, events, ports, policy).log, w, sig) <==> Resent(events, ports, policy, at, w, sig)
    decreases |events|
  {
    if events != [] {
      var before, last := events[..|events| - 1], events[|events| - 1];
      var b := After(NEW_BOOK, before, ports, policy);
      HistoryKeeps(before, ports, policy, at);
      EventAlertsIff(b, last, ports, policy, at, w, sig);
      TwiceSplits(b.log, EventOn(b, last, ports, policy).log, w, sig);
      ResentIff(before, ports, policy, at, w, sig);
      ResentEarlierOrLast(events, ports, policy, at, w, sig);
    }
  }

  // ------------------------------------------------------------------
  // A tick is such a history
  // ------------------------------------------------------------------

  function Passes(active: seq<WalletWatch>, fetch: string -> Option<seq<Trade>>): (r: seq<Event>)
    ensures |r| == |active| && forall k :: 0 <= k < |active| ==> r[k] == Pass(active[k], fetch(active[k].id))
  {
    seq(|active|, k requires 0 <= k < |active| => Pass(active[k], fetch(active[k].id)))
  }

  lemma {:induction false} TickIsPasses(b: Book, active: seq<WalletWatch>, fetch: string -> Option<seq<Trade>>,
                                        ports: Ports, policy: TickPolicy)
    ensures WatchesOn(b, active, fetch, ports, policy).0 == After(b, Passes(active, fetch), ports, policy)
    decreases |active|
  {
    if active != [] {
      var before := active[..|active| - 1];
      TickIsPasses(b, before, fetch, ports, policy);
      assert Passes(active, fetch)[..|active| - 1] == Passes(before, fetch);
    }
  }

  lemma {:induction false} AnnouncementsFollow(b: Book, keys: seq<string>, aggs: map<string, ConvAgg>,
                                               ports: Ports, policy: TickPolicy)
      returns (events: seq<Event>)
    requires forall key | key in keys :: key in aggs
    ensures forall k :: 0 <= k < |events| ==> events[k].Announcement? && events[k].entry.Converged?
    ensures After(b, events, ports, policy) == b.(log := AnnounceOn(b.log, keys, aggs, ports, policy).0)
    decreases |keys|
  {
    if keys == [] {
      events := [];
    } else {
      events := AnnouncementsFollow(b, keys[..|keys| - 1], aggs, ports, policy);
      var (before, ok) := AnnounceOn(b.log, keys[..|keys| - 1], aggs, ports, policy);
      var key := keys[|keys| - 1];
      if ok && Converges(aggs[key], policy) {
        var e := Announcement(Converged(key, |aggs[key].wallets|, ports.deliver(|before|)));
        assert (events + [e])[..|events|] == events;
        events := events + [e];
      }
    }
  }

  /** One whole tick: the active watches with what each fetches, and the aggregator it ends
      with, its keys in order. */
  datatype Tick = Tick(
    active: seq<WalletWatch>, fetch: string -> Option<seq<Trade>>, aggs: map<string, ConvAgg>, keys: seq<string>)

  predicate Listed(tick: Tick) { forall key :: key in tick.keys ==> key in tick.aggs }

  /** The cursors and the log a tick leaves: its watches in turn, then its announcements. */
  function TickOn(b: Book, tick: Tick, ports: Ports, policy: TickPolicy): Book
    requires Listed(tick)
  {
    var passed := WatchesOn(b, tick.active, tick.fetch, ports, policy).0;
    passed.(log := AnnounceOn(passed.log, tick.keys, tick.aggs, ports, policy).0)
  }

  function TicksOn(b: Book, ticks: seq<Tick>, ports: Ports, policy: TickPolicy): Book
    requires forall k :: 0 <= k < |ticks| ==> Listed(ticks[k])
    decreases |ticks|
  {
    if ticks == [] then b
    else TickOn(TicksOn(b, ticks[..|ticks| - 1], ports, policy), ticks[|ticks| - 1], ports, policy)
  }

  lemma {:induction false} AfterAppend(b: Book, first: seq<Event>, second: seq<Event>, ports: Ports, policy: TickPolicy)
    ensures After(b, first + second, ports, policy) == After(After(b, first, ports, policy), second, ports, policy)
    decreases |second|
  {
    if second == [] {
      assert first + second == first;
    } else {
      var n := |second| - 1;
      assert (first + second)[..|first| + n] == first + second[..n];
      AfterAppend(b, first, second[..n], ports, policy);
    }
  }

  /** Every fetch of the tick gives each signature once, at its own time. */
  ghost predicate ProperTick(tick: Tick, at: (string, string) -> int) {
    forall w :: w in tick.active ==> Proper(w.id, tick.fetch(w.id), at)
  }

  lemma TickIsEvents(b: Book, tick: Tick, ports: Ports, policy: TickPolicy, at: (string, string) -> int)
      returns (events: seq<Event>)
    requires Listed(tick)
    ensures After(b, events, ports, policy) == TickOn(b, tick, ports, policy)
    ensures forall k :: 0 <= k < |events| && events[k].Announcement? ==> events[k].entry.Converged?
    ensures ProperTick(tick, at) ==> AllProper(events, at)
  {
    var passes := Passes(tick.active, tick.fetch);
    TickIsPasses(b, tick.active, tick.fetch, ports, policy);
    var said := AnnouncementsFollow(After(b, passes, ports, policy), tick.keys, tick.aggs, ports, policy);
    AfterAppend(b, passes, said, ports, policy);
    events := passes + said;
    assert forall k :: 0 <= k < |passes| ==> passes[k].watch in tick.active;
  }

  /** The cursors and the log of any sequence of whole ticks are those of one list of passes
      and announcements, so everything proved of such lists holds of ticks. */
  lemma {:induction false} TicksAreEvents(b: Book, ticks: seq<Tick>, ports: Ports, policy: TickPolicy,
                                          at: (string, string) -> int)
      returns (events: seq<Event>)
    requires forall k :: 0 <= k < |ticks| ==> Listed(ticks[k])
    ensures After(b, events, ports, policy) == TicksOn(b, ticks, ports, policy)
    ensures (forall k :: 0 <= k < |ticks| ==> ProperTick(ticks[k], at)) ==> AllProper(events, at)
    decreases |ticks|
  {
    if ticks == [] {
      events := [];
    } else {
      var n := |ticks| - 1;
      var before := TicksAreEvents(b, ticks[..n], ports, policy, at);
      var last := TickIsEvents(After(b, before, ports, policy), ticks[n], ports, policy, at);
      AfterAppend(b, before, last, ports, policy);
      events := before + last;
    }
  }

  /** A throw after the base alert but before the cursor moved sends that alert again
      on the next tick. */
  lemma ThrowResends(watch: WalletWatch, t: Trade, policy: TickPolicy)
    requires !IsDump(t, policy)
    ensures var ports := Ports(n => DELIVERED, n => n != 1);
      var pass := Pass(watch, Some([t]));
      After(NEW_BOOK, [pass, pass], ports, policy).log
        == [Base(watch, t, DELIVERED), Advance(watch, t, false), Base(watch, t, DELIVERED), Advance(watch, t, true)]
  {
    var ports := Ports(n => DELIVERED, n => n != 1);
    var pass := Pass(watch, Some([t]));
    OneFresh(t);
    var once, twice := [pass], [pass, pass];
    assert twice[..|twice| - 1] == once && once[..|once| - 1] == [];
    var b := After(NEW_BOOK, once, ports, policy);
    assert b == EventOn(After(NEW_BOOK, [], ports, policy), pass, ports, policy);
    assert b == Book(map[], [Base(watch, t, DELIVERED), Advance(watch, t, false)]);
    var (n, ok) := TradeOn(b, watch, t, ports, policy);
    assert ok;
    assert n.log == [Base(watch, t, DELIVERED), Advance(watch, t, false), Base(watch, t, DELIVERED),
      Advance(watch, t, true)];
    var all := [t];
    assert all[1..] == [];
    assert TradesOn(b, watch, all, ports, policy) == TradesOn(n, watch, all[1..], ports, policy) == (n, true);
    assert After(NEW_BOOK, twice, ports, policy) == EventOn(b, pass, ports, policy);
  }

  lemma OneFresh(t: Trade)
    ensures FreshTrades(NO_CURSOR, [t]) == [t]
  {
    var all := [t];
    assert all[1..] == [];
    assert Filter(all, x => IsFresh(NO_CURSOR, x)) == all;
  }
}
