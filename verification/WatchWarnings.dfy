/** What a tick's log and report say in the plain terms of the trades: which alerts are
    warned of as dumps, what the counts count, and whose buys converge. */
module WatchWarnings {
  import opened Results
  import opened StableSort
  import opened WalletWatches
  import opened WatchHistory
  import opened WatchTick

  // ------------------------------------------------------------------
  // Dump warnings
  // ------------------------------------------------------------------

  /** A base alert that did not throw, for a sale of at least the threshold. */
  predicate BigSale(e: Entry, policy: TickPolicy) {
    && e.Base? && e.answer != THROWS && e.trade.side == SELL
    && e.trade.amountUsd.Some? && e.trade.amountUsd.value >= policy.dumpUsdThreshold
  }

  /** A dump warning stands right after the base alert of its own watch and trade, and there
      stands one exactly when that is of a big sale. */
  ghost predicate WarnsRight(log: seq<Entry>, policy: TickPolicy) {
    && (log != [] ==> !log[0].Dump? && !BigSale(log[|log| - 1], policy))
    && (forall k :: 0 <= k < |log| - 1 ==> (log[k + 1].Dump? <==> BigSale(log[k], policy)))
    && (forall k :: 0 <= k < |log| - 1 && log[k + 1].Dump? ==>
          log[k].Base? && log[k + 1].watch == log[k].watch && log[k + 1].trade == log[k].trade)
  }

  lemma WarnsRightAppend(a: seq<Entry>, b: seq<Entry>, policy: TickPolicy)
    requires WarnsRight(a, policy) && WarnsRight(b, policy)
    ensures WarnsRight(a + b, policy)
  {
  }

  /** One stretch of the log after another. */
  lemma Extends(
      start: seq<Entry>, middle: seq<Entry>, end: seq<Entry>, a: seq<Entry>, b: seq<Entry>, policy: TickPolicy)
    requires middle == start + a && end == middle + b && WarnsRight(a, policy) && WarnsRight(b, policy)
    ensures end == start + (a + b) && WarnsRight(a + b, policy)
  {
    WarnsRightAppend(a, b, policy);
  }

  lemma TradeWarns(b: Book, watch: WalletWatch, t: Trade, ports: Ports, policy: TickPolicy) returns (es: seq<Entry>)
    ensures TradeOn(b, watch, t, ports, policy).0.log == b.log + es && WarnsRight(es, policy)
  {
    var base := Base(watch, t, ports.deliver(|b.log|));
    es := [base];
    if base.answer != THROWS {
      var l1 := b.log + [base];
      if t.side == SELL && t.amountUsd.Some? && t.amountUsd.value >= policy.dumpUsdThreshold {
        var dump := Dump(watch, t, ports.deliver(|l1|));
        es := es + [dump];
        assert b.log + es == l1 + [dump];
        if dump.answer != THROWS {
          var l2 := l1 + [dump];
          es := es + [Advance(watch, t, ports.advance(|l2|))];
          assert b.log + es == l2 + [Advance(watch, t, ports.advance(|l2|))];
        }
      } else {
        es := es + [Advance(watch, t, ports.advance(|l1|))];
        assert b.log + es == l1 + [Advance(watch, t, ports.advance(|l1|))];
      }
    }
  }

  lemma {:induction false} TradesWarn(b: Book, watch: WalletWatch, pending: seq<Trade>, ports: Ports,
                                      policy: TickPolicy)
      returns (es: seq<Entry>)
    ensures TradesOn(b, watch, pending, ports, policy).0.log == b.log + es && WarnsRight(es, policy)
    decreases |pending|
  {
    es := [];
    if pending == [] {
      assert b.log + es == b.log;
    } else {
      es := TradeWarns(b, watch, pending[0], ports, policy);
      var (n, ok) := TradeOn(b, watch, pending[0], ports, policy);
      if ok {
        var rest := TradesWarn(n, watch, pending[1..], ports, policy);
        Extends(b.log, n.log, TradesOn(n, watch, pending[1..], ports, policy).0.log, es, rest, policy);
        es := es + rest;
      }
    }
  }

  lemma EventWarns(b: Book, e: Event, ports: Ports, policy: TickPolicy) returns (es: seq<Entry>)
    requires e.Announcement? ==> e.entry.Converged?
    ensures EventOn(b, e, ports, policy).log == b.log + es && WarnsRight(es, policy)
  {
    match e
    case Pass(watch, fetched) =>
      if fetched.Some? {
        es := TradesWarn(b, watch, FreshTrades(CursorOf(b.cursors, watch.id), fetched.value), ports, policy);
      } else {
        es := [];
        assert b.log + es == b.log;
      }
    case Announcement(entry) => es := [entry];
  }

  /** Over any history of ticks, answers and throws: right after the base alert of a trade
      stands a dump warning of it if and only if the alert did not throw and the trade is a
      sale of a known amount of at least the threshold; and no warning stands elsewhere. */
  lemma {:induction false} HistoryWarns(b: Book, events: seq<Event>, ports: Ports, policy: TickPolicy)
      returns (es: seq<Entry>)
    requires forall k :: 0 <= k < |events| && events[k].Announcement? ==> events[k].entry.Converged?
    ensures After(b, events, ports, policy).log == b.log + es && WarnsRight(es, policy)
    decreases |events|
  {
    if events == [] {
      es := [];
      assert b.log + es == b.log;
    } else {
      var n := |events| - 1;
      var before := After(b, events[..n], ports, policy);
      es := HistoryWarns(b, events[..n], ports, policy);
      var last := EventWarns(before, events[n], ports, policy);
      Extends(b.log, before.log, EventOn(before, events[n], ports, policy).log, es, last, policy);
      es := es + last;
    }
  }

  // ------------------------------------------------------------------
  // What the report counts
  // ------------------------------------------------------------------

  /** How many entries of the log have the property. */
  function Count(log: seq<Entry>, p: Entry -> bool): nat {
    if log == [] then 0 else (if p(log[0]) then 1 else 0) + Count(log[1..], p)
  }

  /** How many big sales of the log have an entry after them that did not throw: their warning. */
  function WarnedSales(log: seq<Entry>, policy: TickPolicy): nat {
    if |log| < 2 then 0
    else
      (if BigSale(log[0], policy) && !log[1].Advance? && log[1].answer != THROWS then 1 else 0)
      + WarnedSales(log[1..], policy)
  }

  lemma {:induction false} CountIsFilter(log: seq<Entry>, p: Entry -> bool, q: Entry -> bool)
    requires forall e :: p(e) <==> q(e)
    ensures |Filter(log, p)| == Count(log, q)
  {
    if log != [] {
      CountIsFilter(log[1..], p, q);
    }
  }

  lemma {:induction false} DumpsAreSales(log: seq<Entry>, policy: TickPolicy)
    requires forall k :: 0 <= k < |log| - 1 ==> (log[k + 1].Dump? <==> BigSale(log[k], policy))
    ensures log != [] ==> |Filter(log[1..], Dumped)| == WarnedSales(log, policy)
  {
    if |log| >= 2 {
      var rest := log[1..];
      forall k | 0 <= k < |rest| - 1 ensures rest[k + 1].Dump? <==> BigSale(rest[k], policy) {
        assert rest[k] == log[k + 1] && rest[k + 1] == log[(k + 1) + 1];
      }
      DumpsAreSales(rest, policy);
      assert log[1..][0] == log[1] && log[1..][1..] == rest[1..];
    }
  }

  lemma TotalsTell(log: seq<Entry>, policy: TickPolicy)
    requires WarnsRight(log, policy)
    ensures var t := TotalsOf(log);
      && t.sent == Count(log, (e: Entry) => !e.Advance? && e.answer == DELIVERED)
      && t.failed == Count(log, (e: Entry) => !e.Advance? && e.answer == FAILED)
      && t.dumps == WarnedSales(log, policy)
      && t.convergences == Count(log, (e: Entry) => e.Converged? && e.answer != THROWS)
  {
    CountIsFilter(log, e => Answered(e, DELIVERED), (e: Entry) => !e.Advance? && e.answer == DELIVERED);
    CountIsFilter(log, e => Answered(e, FAILED), (e: Entry) => !e.Advance? && e.answer == FAILED);
    CountIsFilter(log, Announced, (e: Entry) => e.Converged? && e.answer != THROWS);
    if log != [] {
      DumpsAreSales(log, policy);
      assert !Dumped(log[0]);
    }
  }

  /** The report of a tick, told from its own part of the log: how many messages were
      delivered and how many failed, how many big sales were warned of, and how many
      convergences were announced - each but for those that threw. */
  lemma TickTells(b: Book, tick: Tick, ports: Ports, policy: TickPolicy)
    requires Listed(tick)
    ensures var log := TickOn(b, tick, ports, policy).log;
      && |b.log| <= |log|
      && var own := log[|b.log|..];
         && WarnsRight(own, policy)
         && TotalsOf(own).sent == Count(own, (e: Entry) => !e.Advance? && e.answer == DELIVERED)
         && TotalsOf(own).failed == Count(own, (e: Entry) => !e.Advance? && e.answer == FAILED)
         && TotalsOf(own).dumps == WarnedSales(own, policy)
         && TotalsOf(own).convergences == Count(own, (e: Entry) => e.Converged? && e.answer != THROWS)
  {
    var events := TickIsEvents(b, tick, ports, policy, (w, sig) => 0);
    var es := HistoryWarns(b, events, ports, policy);
    assert TickOn(b, tick, ports, policy).log[|b.log|..] == es;
    TotalsTell(es, policy);
  }

  // ------------------------------------------------------------------
  // Convergence
  // ------------------------------------------------------------------

  /** A purchase under the key - a user's, of a token - whose base alert did not throw. */
  predicate BuyOf(e: Entry, key: string) {
    && e.Base? && e.answer != THROWS && e.trade.side == BUY
    && e.watch.userId + "|" + e.trade.token == key
  }

  function BuyersOf(log: seq<Entry>, key: string): set<string> {
    set e | e in log && BuyOf(e, key) :: e.watch.walletAddress
  }

  /** Enough distinct wallets bought, no two of their purchases further apart than the window. */
  ghost predicate BoughtTogether(log: seq<Entry>, key: string, policy: TickPolicy) {
    && BuyersOf(log, key) != {} && |BuyersOf(log, key)| >= policy.convergenceMinWallets
    && forall e, f :: e in log && f in log && BuyOf(e, key) && BuyOf(f, key) ==>
         e.trade.atMs - f.trade.atMs <= policy.convergenceWindowMs
  }

  lemma SummaryTells(agg: ConvAgg, log: seq<Entry>, key: string, policy: TickPolicy)
    requires Summarizes(agg, log, key)
    ensures agg.wallets == BuyersOf(log, key) && agg.wallets != {}
    ensures Converges(agg, policy) <==> BoughtTogether(log, key, policy)
  {
    assert forall e :: BuyOf(e, key) <==> Counted(e) && EntryKey(e) == key;
    assert forall w :: w in agg.wallets <==> w in BuyersOf(log, key);
    var first :| first in log && Counted(first) && EntryKey(first) == key && first.trade.atMs == agg.firstAt;
    var last :| last in log && Counted(last) && EntryKey(last) == key && last.trade.atMs == agg.lastAt;
    assert BuyOf(first, key) && BuyOf(last, key);
    assert first.watch.walletAddress in BuyersOf(log, key);
  }

  lemma BoughtIsListed(aggs: map<string, ConvAgg>, keys: seq<string>, bought: seq<Entry>, key: string)
    requires Aggregated(aggs, keys, bought)
    ensures BuyersOf(bought, key) != {} ==> key in keys
  {
    if BuyersOf(bought, key) != {} {
      var w :| w in BuyersOf(bought, key);
      var e :| e in bought && BuyOf(e, key) && e.watch.walletAddress == w;
      assert Counted(e) && EntryKey(e) == key;
    }
  }

  /** When no announcement throws, exactly the keys that enough distinct wallets bought
      together in this tick are announced, each once, with the number of those wallets. */
  lemma AnnouncedIffBoughtTogether(log: seq<Entry>, bought: seq<Entry>, keys: seq<string>, aggs: map<string, ConvAgg>,
                                   ports: Ports, policy: TickPolicy)
    requires Aggregated(aggs, keys, bought) && AnnounceOn(log, keys, aggs, ports, policy).1
    ensures var all := AnnounceOn(log, keys, aggs, ports, policy).0;
      && (forall key :: AnnouncedIn(all, |log|, key) <==> BoughtTogether(bought, key, policy))
      && (forall k :: |log| <= k < |all| ==> all[k].Converged? && all[k].wallets == |BuyersOf(bought, all[k].key)|)
      && (forall j, k :: |log| <= j < k < |all| ==> all[j].key != all[k].key)
  {
    AnnouncedIff(log, keys, aggs, ports, policy);
    forall key ensures key in keys && Converges(aggs[key], policy) <==> BoughtTogether(bought, key, policy) {
      BoughtIsListed(aggs, keys, bought, key);
      if key in keys {
        SummaryTells(aggs[key], bought, key, policy);
      }
    }
    forall k | |log| <= k < |AnnounceOn(log, keys, aggs, ports, policy).0|
      ensures var all := AnnounceOn(log, keys, aggs, ports, policy).0; all[k].wallets == |BuyersOf(bought, all[k].key)|
    {
      var key := AnnounceOn(log, keys, aggs, ports, policy).0[k].key;
      SummaryTells(aggs[key], bought, key, policy);
    }
  }
}
