/** `runWalletWatchTick` of src/integration/tickEngine.ts: one cycle over the active
    watches - alert on each fresh trade, oldest first, moving the cursor behind it -
    and then the convergence of their buys. */
module WatchTick {
  import opened Results
  import opened StableSort
  import opened WalletWatches

  datatype Side = BUY | SELL

  datatype Trade = Trade(sig: string, atMs: int, side: Side, token: string, amountUsd: Option<real>)

  datatype Answer = DELIVERED | FAILED | THROWS

  datatype TickPolicy = TickPolicy(convergenceMinWallets: int, convergenceWindowMs: int, dumpUsdThreshold: real)

  /** What the tick asked of the world, in order. */
  datatype Entry =
    | Base(watch: WalletWatch, trade: Trade, answer: Answer)
    | Dump(watch: WalletWatch, trade: Trade, answer: Answer)
    | Advance(watch: WalletWatch, trade: Trade, ok: bool)
    | Converged(key: string, wallets: nat, answer: Answer)

  /** The answers of the channel and of the cursor store; every call in a history has
      its own place in the log, so any sequence of answers is covered. */
  datatype Ports = Ports(deliver: nat -> Answer, advance: nat -> bool)

  datatype Book = Book(cursors: map<string, Cursor>, log: seq<Entry>)

  predicate IsFresh(c: Cursor, t: Trade) {
    (c.lastEventAt.None? || t.atMs > c.lastEventAt.value) && c.lastEventSig != Some(t.sig)
  }

  predicate NotLater(a: Trade, b: Trade) { a.atMs <= b.atMs }

  /** The trades to alert on: strictly newer than the cursor, oldest first. */
  function FreshTrades(c: Cursor, trades: seq<Trade>): seq<Trade> {
    Sort(Filter(trades, t => IsFresh(c, t)), (a, b) => NotLater(a, b))
  }

  predicate IsDump(t: Trade, policy: TickPolicy) {
    t.side == SELL && t.amountUsd.Some? && t.amountUsd.value >= policy.dumpUsdThreshold
  }

  /** One trade; the flag tells whether nothing threw. */
  function TradeOn(b: Book, watch: WalletWatch, t: Trade, ports: Ports, policy: TickPolicy): (Book, bool) {
    var base := b.(log := b.log + [Base(watch, t, ports.deliver(|b.log|))]);
    if ports.deliver(|b.log|) == THROWS then (base, false)
    else if !IsDump(t, policy) then AdvanceOn(base, watch, t, ports)
    else
      var dumped := base.(log := base.log + [Dump(watch, t, ports.deliver(|base.log|))]);
      if ports.deliver(|base.log|) == THROWS then (dumped, false) else AdvanceOn(dumped, watch, t, ports)
  }

  function AdvanceOn(b: Book, watch: WalletWatch, t: Trade, ports: Ports): (Book, bool) {
    var ok := ports.advance(|b.log|);
    (Book(if ok then b.cursors[watch.id := Cursor(Some(t.sig), Some(t.atMs))] else b.cursors,
          b.log + [Advance(watch, t, ok)]),
     ok)
  }

  /** The trades of one watch, up to the first throw. */
  function TradesOn(b: Book, watch: WalletWatch, pending: seq<Trade>, ports: Ports, policy: TickPolicy): (Book, bool)
    decreases |pending|
  {
    if pending == [] then (b, true)
    else
      var (next, ok) := TradeOn(b, watch, pending[0], ports, policy);
      if ok then TradesOn(next, watch, pending[1..], ports, policy) else (next, false)
  }

  /** One watch; `fetched` is `None` when reading the cursor or fetching throws. */
  function WatchOn(b: Book, watch: WalletWatch, fetched: Option<seq<Trade>>, ports: Ports, policy: TickPolicy)
      : (Book, bool) {
    if fetched.None? then (b, false)
    else TradesOn(b, watch, FreshTrades(CursorOf(b.cursors, watch.id), fetched.value), ports, policy)
  }

  /** All watches; the count is of those that threw. */
  function WatchesOn(b: Book, active: seq<WalletWatch>, fetch: string -> Option<seq<Trade>>, ports: Ports,
                     policy: TickPolicy)
      : (Book, nat)
    decreases |active|
  {
    if active == [] then (b, 0)
    else
      var (before, errors) := WatchesOn(b, active[..|active| - 1], fetch, ports, policy);
      var (after, ok) := WatchOn(before, active[|active| - 1], fetch(active[|active| - 1].id), ports, policy);
      (after, errors + if ok then 0 else 1)
  }

  // ------------------------------------------------------------------
  // Convergence, read off the log of a tick
  // ------------------------------------------------------------------

  function TokenKey(userId: string, token: string): string { userId + "|" + token }

  /** A buy that reached the aggregator: its base alert did not throw. */
  predicate Counted(e: Entry) { e.Base? && e.trade.side == BUY && e.answer != THROWS }

  function EntryKey(e: Entry): string
    requires Counted(e)
  {
    TokenKey(e.watch.userId, e.trade.token)
  }

  datatype ConvAgg = ConvAgg(wallets: set<string>, firstAt: int, lastAt: int)

  function MinInt(a: int, b: int): int { if a <= b then a else b }

  function MaxInt(a: int, b: int): int { if a <= b then b else a }

  function AddBuy(aggs: map<string, ConvAgg>, key: string, wallet: string, atMs: int): map<string, ConvAgg> {
    if key in aggs
    then aggs[key := ConvAgg(aggs[key].wallets + {wallet}, MinInt(aggs[key].firstAt, atMs),
                             MaxInt(aggs[key].lastAt, atMs))]
    else aggs[key := ConvAgg({wallet}, atMs, atMs)]
  }

  /** `agg` is the summary of the buys under `key` in the log: whose they were, the first and the last. */
  ghost predicate Summarizes(agg: ConvAgg, log: seq<Entry>, key: string) {
    && (forall w :: w in agg.wallets <==>
         exists e :: e in log && Counted(e) && EntryKey(e) == key && e.watch.walletAddress == w)
    && (forall e :: e in log && Counted(e) && EntryKey(e) == key ==> agg.firstAt <= e.trade.atMs <= agg.lastAt)
    && (exists e :: e in log && Counted(e) && EntryKey(e) == key && e.trade.atMs == agg.firstAt)
    && (exists e :: e in log && Counted(e) && EntryKey(e) == key && e.trade.atMs == agg.lastAt)
  }

  /** Every key bought in the log has its summary, and `keys` lists those keys once each. */
  ghost predicate Aggregated(aggs: map<string, ConvAgg>, keys: seq<string>, log: seq<Entry>) {
    && (forall key :: key in aggs <==> key in keys)
    && (forall i, j :: 0 <= i < j < |keys| ==> keys[i] != keys[j])
    && (forall e :: e in log && Counted(e) ==> EntryKey(e) in aggs)
    && (forall key :: key in aggs ==> Summarizes(aggs[key], log, key))
  }

  predicate Converges(agg: ConvAgg, policy: TickPolicy) {
    |agg.wallets| >= policy.convergenceMinWallets && agg.lastAt - agg.firstAt <= policy.convergenceWindowMs
  }

  lemma AggregateBuy(aggs: map<string, ConvAgg>, keys: seq<string>, log: seq<Entry>, e: Entry)
    requires Aggregated(aggs, keys, log) && Counted(e)
    ensures var key := EntryKey(e);
      Aggregated(AddBuy(aggs, key, e.watch.walletAddress, e.trade.atMs),
                 if key in aggs then keys else keys + [key], log + [e])
  {
    var key := EntryKey(e);
    var next := AddBuy(aggs, key, e.watch.walletAddress, e.trade.atMs);
    forall k | k in next ensures Summarizes(next[k], log + [e], k) {
      SummarizesMore(aggs, log, e, k);
    }
  }

  lemma SummarizesMore(aggs: map<string, ConvAgg>, log: seq<Entry>, e: Entry, k: string)
    requires Counted(e) && (k in aggs ==> Summarizes(aggs[k], log, k)) && (k in aggs || k == EntryKey(e))
    requires forall x :: x in log && Counted(x) ==> EntryKey(x) in aggs
    ensures Summarizes(AddBuy(aggs, EntryKey(e), e.watch.walletAddress, e.trade.atMs)[k], log + [e], k)
  {
    var agg := AddBuy(aggs, EntryKey(e), e.watch.walletAddress, e.trade.atMs)[k];
    var longer := log + [e];
    assert e in longer && forall x :: x in log ==> x in longer;
    if k in aggs {
      var first :| first in log && Counted(first) && EntryKey(first) == k && first.trade.atMs == aggs[k].firstAt;
      var last :| last in log && Counted(last) && EntryKey(last) == k && last.trade.atMs == aggs[k].lastAt;
      assert first in longer && last in longer;
      forall w | w in agg.wallets
        ensures exists x :: x in longer && Counted(x) && EntryKey(x) == k && x.watch.walletAddress == w
      {
        if w in aggs[k].wallets {
          var x :| x in log && Counted(x) && EntryKey(x) == k && x.watch.walletAddress == w;
          assert x in longer;
        }
      }
    }
  }

  lemma AggregateSkip(aggs: map<string, ConvAgg>, keys: seq<string>, log: seq<Entry>, e: Entry)
    requires Aggregated(aggs, keys, log) && !Counted(e)
    ensures Aggregated(aggs, keys, log + [e])
  {
    forall k | k in aggs ensures Summarizes(aggs[k], log + [e], k) {
      assert Summarizes(aggs[k], log, k);
      assert forall x :: x in log ==> x in log + [e];
      assert forall x :: x in log + [e] && Counted(x) ==> x in log;
    }
  }

  // ------------------------------------------------------------------
  // The report, read off the log of a tick
  // ------------------------------------------------------------------

  predicate Answered(e: Entry, a: Answer) { !e.Advance? && e.answer == a }

  predicate Dumped(e: Entry) { e.Dump? && e.answer != THROWS }

  predicate Announced(e: Entry) { e.Converged? && e.answer != THROWS }

  datatype Totals = Totals(sent: nat, failed: nat, dumps: nat, convergences: nat)

  function TotalsOf(log: seq<Entry>): Totals {
    Totals(|Filter(log, e => Answered(e, DELIVERED))|, |Filter(log, e => Answered(e, FAILED))|,
           |Filter(log, Dumped)|, |Filter(log, Announced)|)
  }

  function Add(t: Totals, e: Entry): Totals {
    Totals(t.sent + (if Answered(e, DELIVERED) then 1 else 0), t.failed + (if Answered(e, FAILED) then 1 else 0),
           t.dumps + (if Dumped(e) then 1 else 0), t.convergences + (if Announced(e) then 1 else 0))
  }

  lemma TotalsAppend(log: seq<Entry>, e: Entry)
    ensures TotalsOf(log + [e]) == Add(TotalsOf(log), e)
  {
    FilterAppend(log, [e], x => Answered(x, DELIVERED));
    FilterAppend(log, [e], x => Answered(x, FAILED));
    FilterAppend(log, [e], Dumped);
    FilterAppend(log, [e], Announced);
  }

  /** What a tick keeps as it goes: the log, and of its own part of it the totals
      and the aggregator. */
  datatype Notes = Notes(log: seq<Entry>, totals: Totals, aggs: map<string, ConvAgg>, keys: seq<string>)

  ghost predicate Tracked(n: Notes, start: nat) {
    start <= |n.log| && n.totals == TotalsOf(n.log[start..]) && Aggregated(n.aggs, n.keys, n.log[start..])
  }

  method Note(n: Notes, e: Entry, ghost start: nat) returns (m: Notes)
    requires Tracked(n, start)
    ensures Tracked(m, start) && m.log == n.log + [e]
  {
    ghost var tick := n.log[start..];
    assert (n.log + [e])[start..] == tick + [e];
    TotalsAppend(tick, e);
    var aggs, keys := n.aggs, n.keys;
    if e.Base? && e.trade.side == BUY && e.answer != THROWS {
      AggregateBuy(aggs, keys, tick, e);
      var key := TokenKey(e.watch.userId, e.trade.token);
      keys := if key in aggs then keys else keys + [key];
      aggs := AddBuy(aggs, key, e.watch.walletAddress, e.trade.atMs);
    } else {
      AggregateSkip(aggs, keys, tick, e);
    }
    m := Notes(n.log + [e], Add(n.totals, e), aggs, keys);
  }

  // ------------------------------------------------------------------
  // The cycle
  // ------------------------------------------------------------------

  method AlertTrade(store: InMemoryWalletWatchStore, watch: WalletWatch, t: Trade, ports: Ports, policy: TickPolicy,
                    notes: Notes, ghost start: nat)
      returns (ok: bool, next: Notes)
    requires Tracked(notes, start)
    modifies store`cursors
    ensures (Book(store.cursors, next.log), ok) == TradeOn(Book(old(store.cursors), notes.log), watch, t, ports, policy)
    ensures Tracked(next, start)
  {
    var answer := ports.deliver(|notes.log|);
    next := Note(notes, Base(watch, t, answer), start);
    if answer == THROWS {
      ok := false;
      return;
    }
    if t.side == SELL && t.amountUsd.Some? && t.amountUsd.value >= policy.dumpUsdThreshold {
      answer := ports.deliver(|next.log|);
      next := Note(next, Dump(watch, t, answer), start);
      if answer == THROWS {
        ok := false;
        return;
      }
    }
    ok := ports.advance(|next.log|);
    if ok {
      store.AdvanceCursor(watch.id, t.sig, t.atMs);
    }
    next := Note(next, Advance(watch, t, ok), start);
  }

  method CheckWatch(store: InMemoryWalletWatchStore, watch: WalletWatch, fetched: Option<seq<Trade>>, ports: Ports,
                    policy: TickPolicy, notes: Notes, ghost start: nat)
      returns (ok: bool, next: Notes)
    requires Tracked(notes, start)
    modifies store`cursors
    ensures (Book(store.cursors, next.log), ok) ==
      WatchOn(Book(old(store.cursors), notes.log), watch, fetched, ports, policy)
    ensures Tracked(next, start)
  {
    ok, next := fetched.Some?, notes;
    if !ok {
      return;
    }
    var cursor := store.ReadCursor(watch.id);
    var pending := FreshTrades(cursor, fetched.value);
    var n := 0;
    while n < |pending| && ok
      invariant 0 <= n <= |pending|
      invariant Tracked(next, start)
      invariant TradesOn(Book(old(store.cursors), notes.log), watch, pending, ports, policy)
        == if ok then TradesOn(Book(store.cursors, next.log), watch, pending[n..], ports, policy)
           else (Book(store.cursors, next.log), false)
      decreases |pending| - n, ok
    {
      assert pending[n..][0] == pending[n] && pending[n..][1..] == pending[n + 1..];
      ok, next := AlertTrade(store, watch, pending[n], ports, policy, next, start);
      if ok {
        n := n + 1;
      }
    }
  }

  /** The convergence alerts, in the aggregator's order, up to the first throw. */
  function AnnounceOn(log: seq<Entry>, keys: seq<string>, aggs: map<string, ConvAgg>, ports: Ports, policy: TickPolicy)
      : (seq<Entry>, bool)
    requires forall key | key in keys :: key in aggs
    decreases |keys|
  {
    if keys == [] then (log, true)
    else
      var (before, ok) := AnnounceOn(log, keys[..|keys| - 1], aggs, ports, policy);
      var key := keys[|keys| - 1];
      if !ok then (before, false)
      else if !Converges(aggs[key], policy) then (before, true)
      else (before + [Converged(key, |aggs[key].wallets|, ports.deliver(|before|))], ports.deliver(|before|) != THROWS)
  }

  datatype TickReport = TickReport(watchesChecked: nat, totals: Totals, errors: nat)

  lemma {:induction false} AnnounceStops(log: seq<Entry>, keys: seq<string>, k: nat, aggs: map<string, ConvAgg>,
                                         ports: Ports, policy: TickPolicy)
    requires k <= |keys| && forall key | key in keys :: key in aggs
    requires !AnnounceOn(log, keys[..k], aggs, ports, policy).1
    ensures AnnounceOn(log, keys, aggs, ports, policy) == AnnounceOn(log, keys[..k], aggs, ports, policy)
    decreases |keys|
  {
    if k < |keys| {
      assert keys[..|keys| - 1][..k] == keys[..k];
      AnnounceStops(log, keys[..|keys| - 1], k, aggs, ports, policy);
    } else {
      assert keys[..k] == keys;
    }
  }

  method CheckAll(store: InMemoryWalletWatchStore, active: seq<WalletWatch>, fetch: string -> Option<seq<Trade>>,
                  ports: Ports, policy: TickPolicy, history: seq<Entry>)
      returns (notes: Notes, errors: nat)
    modifies store`cursors
    ensures WatchesOn(Book(old(store.cursors), history), active, fetch, ports, policy) ==
      (Book(store.cursors, notes.log), errors)
    ensures Tracked(notes, |history|)
  {
    notes := Notes(history, Totals(0, 0, 0, 0), map[], []);
    errors := 0;
    var n := 0;
    while n < |active|
      invariant 0 <= n <= |active|
      invariant Tracked(notes, |history|)
      invariant WatchesOn(Book(old(store.cursors), history), active[..n], fetch, ports, policy) ==
        (Book(store.cursors, notes.log), errors)
    {
      assert active[..n + 1][..n] == active[..n];
      var ok;
      ok, notes := CheckWatch(store, active[n], fetch(active[n].id), ports, policy, notes, |history|);
      if !ok {
        errors := errors + 1;
      }
      n := n + 1;
    }
    assert active[..n] == active;
  }

  method Announce(notes: Notes, ports: Ports, policy: TickPolicy, ghost start: nat)
      returns (ok: bool, log: seq<Entry>, totals: Totals)
    requires start <= |notes.log| && notes.totals == TotalsOf(notes.log[start..])
    requires forall key | key in notes.keys :: key in notes.aggs
    ensures (log, ok) == AnnounceOn(notes.log, notes.keys, notes.aggs, ports, policy)
    ensures start <= |log| && totals == TotalsOf(log[start..])
  {
    var keys, aggs := notes.keys, notes.aggs;
    log, totals := notes.log, notes.totals;
    var k := 0;
    while k < |keys|
      invariant 0 <= k <= |keys|
      invariant start <= |log| && totals == TotalsOf(log[start..])
      invariant AnnounceOn(notes.log, keys[..k], aggs, ports, policy) == (log, true)
    {
      assert keys[..k + 1][..k] == keys[..k];
      var agg := aggs[keys[k]];
      if |agg.wallets| >= policy.convergenceMinWallets && agg.lastAt - agg.firstAt <= policy.convergenceWindowMs {
        var e := Converged(keys[k], |agg.wallets|, ports.deliver(|log|));
        assert (log + [e])[start..] == log[start..] + [e];
        TotalsAppend(log[start..], e);
        log, totals := log + [e], Add(totals, e);
        if e.answer == THROWS {
          AnnounceStops(notes.log, keys, k + 1, aggs, ports, policy);
          ok := false;
          return;
        }
      }
      k := k + 1;
    }
    assert keys[..k] == keys;
    ok := true;
  }

  /** One cycle.  A throw while announcing a convergence rejects the whole call:
      it has no report, but what it did stands. */
  method RunWalletWatchTick(store: InMemoryWalletWatchStore, fetch: string -> Option<seq<Trade>>, ports: Ports,
                            policy: TickPolicy, nowMs: int, history: seq<Entry>)
      returns (report: Option<TickReport>, active: seq<WalletWatch>, log: seq<Entry>, aggs: map<string, ConvAgg>,
               keys: seq<string>)
    requires store.Valid()
    modifies store`cursors
    ensures forall w :: w in active <==>
      w.id in store.watches && store.watches[w.id] == w && WalletWatches.Running(w, nowMs)
    ensures var (book, errors) := WatchesOn(Book(old(store.cursors), history), active, fetch, ports, policy);
      && store.cursors == book.cursors && |history| <= |book.log|
      && Aggregated(aggs, keys, book.log[|history|..])
      && log == AnnounceOn(book.log, keys, aggs, ports, policy).0 && |history| <= |log|
      && report == (if AnnounceOn(book.log, keys, aggs, ports, policy).1
                    then Some(TickReport(|active|, TotalsOf(log[|history|..]), errors)) else None)
  {
    active := store.ActiveWatches(nowMs);
    var notes, errors := CheckAll(store, active, fetch, ports, policy, history);
    var ok, totals;
    ok, log, totals := Announce(notes, ports, policy, |history|);
    aggs, keys := notes.aggs, notes.keys;
    report := if ok then Some(TickReport(|active|, totals, errors)) else None;
  }

  ghost predicate AnnouncedIn(log: seq<Entry>, start: nat, key: string) {
    exists k :: start <= k < |log| && log[k].Converged? && log[k].key == key
  }

  /** When no announcement throws, exactly the keys that converge are announced, each
      once, with the number of wallets that bought. */
  lemma {:induction false} AnnouncedIff(log: seq<Entry>, keys: seq<string>, aggs: map<string, ConvAgg>, ports: Ports,
                                        policy: TickPolicy)
    requires forall key | key in keys :: key in aggs
    requires forall i, j :: 0 <= i < j < |keys| ==> keys[i] != keys[j]
    requires AnnounceOn(log, keys, aggs, ports, policy).1
    ensures var all := AnnounceOn(log, keys, aggs, ports, policy).0;
      && log <= all
      && (forall key :: AnnouncedIn(all, |log|, key) <==> key in keys && Converges(aggs[key], policy))
      && (forall k :: |log| <= k < |all| ==>
            all[k].Converged? && all[k].key in keys && all[k].wallets == |aggs[all[k].key].wallets|)
      && (forall j, k :: |log| <= j < k < |all| ==> all[j].key != all[k].key)
    decreases |keys|
  {
    if keys != [] {
      var before, last := keys[..|keys| - 1], keys[|keys| - 1];
      assert keys == before + [last];
      AnnouncedIff(log, before, aggs, ports, policy);
      var some, all := AnnounceOn(log, before, aggs, ports, policy).0, AnnounceOn(log, keys, aggs, ports, policy).0;
      forall key
        ensures AnnouncedIn(all, |log|, key) <==>
          AnnouncedIn(some, |log|, key) || (key == last && Converges(aggs[last], policy))
      {
        if AnnouncedIn(some, |log|, key) {
          var k :| |log| <= k < |some| && some[k].Converged? && some[k].key == key;
          assert all[k] == some[k];
        }
        if Converges(aggs[last], policy) {
          assert all[|some|].Converged? && all[|some|].key == last;
        }
      }
    }
  }
}
