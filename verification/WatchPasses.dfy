/** One pass over a watch: which of the fetched trades it alerts on, in what order, and
    where it leaves the cursor. */
module WatchPasses {
  import opened Results
  import opened StableSort
  import opened WalletWatches
  import opened WatchTick

  /** Strictly later than the cursor and not the trade it names. */
  predicate IsNews(c: Cursor, t: Trade) {
    && (c.lastEventAt.Some? ==> t.atMs > c.lastEventAt.value)
    && (c.lastEventSig.Some? ==> t.sig != c.lastEventSig.value)
  }

  function News(c: Cursor): Trade -> bool { (t: Trade) => IsNews(c, t) }

  /** The trades of the base alerts, in order. */
  function Alerted(log: seq<Entry>): seq<Trade> {
    if log == [] then []
    else
      var e := log[|log| - 1];
      var before := Alerted(log[..|log| - 1]);
      if e.Base? then before + [e.trade] else before
  }

  /** The cursor after the moves of the log that went through: the last of them decides. */
  function Moved(log: seq<Entry>, c: Cursor): Cursor {
    if log == [] then c
    else
      var e := log[|log| - 1];
      if e.Advance? && e.ok then Cursor(Some(e.trade.sig), Some(e.trade.atMs)) else Moved(log[..|log| - 1], c)
  }

  lemma {:induction false} AlertedAppend(a: seq<Entry>, b: seq<Entry>, c: Cursor)
    ensures Alerted(a + b) == Alerted(a) + Alerted(b) && Moved(a + b, c) == Moved(b, Moved(a, c))
    decreases |b|
  {
    if b == [] {
      assert a + b == a;
    } else {
      var n := |b| - 1;
      AlertedAppend(a, b[..n], c);
      assert (a + b)[..|a| + n] == a + b[..n];
    }
  }

  /** The entries of one stretch of the log, all about the watch, and what they leave. */
  ghost predicate Writes(b: Book, d: Book, es: seq<Entry>, watch: WalletWatch) {
    && d.log == b.log + es
    && (forall e :: e in es ==> !e.Converged? && e.watch == watch)
    && CursorOf(d.cursors, watch.id) == Moved(es, CursorOf(b.cursors, watch.id))
    && (forall id :: id != watch.id ==> CursorOf(d.cursors, id) == CursorOf(b.cursors, id))
  }

  lemma AdvanceWrites(b: Book, watch: WalletWatch, t: Trade, ports: Ports)
    ensures var (d, ok) := AdvanceOn(b, watch, t, ports);
      Writes(b, d, [Advance(watch, t, ok)], watch) && Alerted([Advance(watch, t, ok)]) == []
  {
    var e := Advance(watch, t, ports.advance(|b.log|));
    assert [e][..0] == [];
  }

  lemma JoinWrites(b: Book, c: Book, d: Book, first: seq<Entry>, second: seq<Entry>, watch: WalletWatch)
    requires Writes(b, c, first, watch) && Writes(c, d, second, watch)
    ensures Writes(b, d, first + second, watch) && Alerted(first + second) == Alerted(first) + Alerted(second)
  {
    AlertedAppend(first, second, CursorOf(b.cursors, watch.id));
    assert b.log + (first + second) == b.log + first + second;
  }

  /** Entries that move no cursor. */
  lemma LogWrites(b: Book, es: seq<Entry>, watch: WalletWatch)
    requires forall e :: e in es ==> (e.Base? || e.Dump?) && e.watch == watch
    ensures Writes(b, b.(log := b.log + es), es, watch)
    decreases |es|
  {
    NoMove(es, CursorOf(b.cursors, watch.id));
  }

  lemma {:induction false} NoMove(es: seq<Entry>, c: Cursor)
    requires forall e :: e in es ==> !e.Advance?
    ensures Moved(es, c) == c
    decreases |es|
  {
    if es != [] {
      NoMove(es[..|es| - 1], c);
    }
  }

  lemma TradeWrites(b: Book, watch: WalletWatch, t: Trade, ports: Ports, policy: TickPolicy) returns (es: seq<Entry>)
    ensures Writes(b, TradeOn(b, watch, t, ports, policy).0, es, watch) && Alerted(es) == [t]
  {
    var base := Base(watch, t, ports.deliver(|b.log|));
    var first := b.(log := b.log + [base]);
    es := [base];
    assert [base][..0] == [] && Alerted([base]) == Alerted([]) + [t];
    LogWrites(b, es, watch);
    if base.answer != THROWS {
      var second := first;
      if IsDump(t, policy) {
        var dump := Dump(watch, t, ports.deliver(|first.log|));
        second := first.(log := first.log + [dump]);
        LogWrites(first, [dump], watch);
        assert [dump][..0] == [];
        JoinWrites(b, first, second, es, [dump], watch);
        es := es + [dump];
      }
      if !IsDump(t, policy) || ports.deliver(|first.log|) != THROWS {
        var (d, ok) := AdvanceOn(second, watch, t, ports);
        AdvanceWrites(second, watch, t, ports);
        JoinWrites(b, second, d, es, [Advance(watch, t, ok)], watch);
        es := es + [Advance(watch, t, ok)];
      }
    }
  }

  lemma {:induction false} TradesWrite(b: Book, watch: WalletWatch, pending: seq<Trade>, ports: Ports,
                                       policy: TickPolicy)
      returns (es: seq<Entry>)
    ensures var (d, ok) := TradesOn(b, watch, pending, ports, policy);
      && Writes(b, d, es, watch) && Alerted(es) <= pending && (ok ==> Alerted(es) == pending)
    decreases |pending|
  {
    es := [];
    if pending == [] {
      LogWrites(b, [], watch);
      assert b.log + [] == b.log;
    } else {
      es := TradeWrites(b, watch, pending[0], ports, policy);
      var (next, ok) := TradeOn(b, watch, pending[0], ports, policy);
      if ok {
        var rest := TradesWrite(next, watch, pending[1..], ports, policy);
        JoinWrites(b, next, TradesOn(next, watch, pending[1..], ports, policy).0, es, rest, watch);
        es := es + rest;
      }
    }
  }

  lemma FreshAreNews(c: Cursor, trades: seq<Trade>)
    ensures var pending := FreshTrades(c, trades);
      && multiset(pending) == multiset(Filter(trades, News(c)))
      && InTime(pending)
  {
    var p, le := (t: Trade) => IsFresh(c, t), (a: Trade, b: Trade) => NotLater(a, b);
    FilterSame(trades, p, News(c));
    SortSorted(Filter(trades, p), le);
    var pending := FreshTrades(c, trades);
    assert pending == Sort(Filter(trades, p), le);
    forall i, j | 0 <= i < j < |pending| ensures pending[i].atMs <= pending[j].atMs {
      assert le(pending[i], pending[j]);
    }
  }

  lemma {:induction false} FilterSame(s: seq<Trade>, p: Trade -> bool, q: Trade -> bool)
    requires forall t :: p(t) <==> q(t)
    ensures Filter(s, p) == Filter(s, q)
  {
    if s != [] {
      FilterSame(s[1..], p, q);
    }
  }

  predicate InTime(trades: seq<Trade>) { forall i, j :: 0 <= i < j < |trades| ==> trades[i].atMs <= trades[j].atMs }

  /** Some of the news, as often as they are there, oldest first, and none later than one left out. */
  ghost predicate OldestOf(trades: seq<Trade>, news: seq<Trade>) {
    && InTime(trades) && multiset(trades) <= multiset(news)
    && forall t, k :: t in multiset(news) - multiset(trades) && 0 <= k < |trades| ==> trades[k].atMs <= t.atMs
  }

  lemma RestIsLater(first: seq<Trade>, rest: seq<Trade>)
    requires InTime(first + rest)
    ensures forall t, k :: t in rest && 0 <= k < |first| ==> first[k].atMs <= t.atMs
  {
    var all := first + rest;
    forall t, k | t in rest && 0 <= k < |first| ensures first[k].atMs <= t.atMs {
      var j :| 0 <= j < |rest| && rest[j] == t;
      assert all[k] == first[k] && all[|first| + j] == t;
    }
  }

  lemma PrefixIsOldest(first: seq<Trade>, rest: seq<Trade>, news: seq<Trade>)
    requires InTime(first + rest) && multiset(first + rest) == multiset(news)
    ensures OldestOf(first, news)
  {
    RestIsLater(first, rest);
    assert forall i :: 0 <= i < |first| ==> (first + rest)[i] == first[i];
    assert multiset(news) - multiset(first) == multiset(rest);
  }

  /** A pass writes about its own watch alone.  It alerts, oldest first, on fetched trades
      that are strictly later than the cursor and not the trade the cursor names, as often as
      they were fetched - on all of them unless something throws, and then on none later than
      one left out.  The cursor is left at the last trade it was moved to. */
  lemma PassAlerts(b: Book, watch: WalletWatch, fetched: seq<Trade>, ports: Ports, policy: TickPolicy)
      returns (es: seq<Entry>)
    ensures var (d, ok) := WatchOn(b, watch, Some(fetched), ports, policy);
      var news := Filter(fetched, News(CursorOf(b.cursors, watch.id)));
      && Writes(b, d, es, watch) && OldestOf(Alerted(es), news)
      && (ok ==> multiset(Alerted(es)) == multiset(news))
  {
    var c := CursorOf(b.cursors, watch.id);
    var pending := FreshTrades(c, fetched);
    FreshAreNews(c, fetched);
    es := TradesWrite(b, watch, pending, ports, policy);
    var rest := pending[|Alerted(es)|..];
    assert pending == Alerted(es) + rest;
    PrefixIsOldest(Alerted(es), rest, Filter(fetched, News(c)));
  }
}
