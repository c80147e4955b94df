/** The detector's result does not depend on the order of its inputs. */
module CoordinationOrder {
  import opened Coordination
  import opened Results
  import opened StableSort

  // ------------------------------------------------------------------
  // Funding records
  // ------------------------------------------------------------------

  predicate DistinctWallets(funding: seq<Funding>) {
    forall i, j :: 0 <= i < j < |funding| ==> funding[i].wallet != funding[j].wallet
  }

  lemma {:induction false} LastFundingIs(funding: seq<Funding>, f: Funding)
    requires DistinctWallets(funding)
    ensures LastFunding(funding, f.wallet) == Some(f) <==> f in funding
    decreases |funding|
  {
    if funding != [] {
      var n := |funding| - 1;
      LastFundingIs(funding[..n], f);
      assert funding == funding[..n] + [funding[n]];
      assert funding[n].wallet == f.wallet ==> f !in funding[..n];
    }
  }

  lemma {:induction false} LastFundingFound(funding: seq<Funding>, w: string)
    ensures var f := LastFunding(funding, w); f.Some? ==> f.value in funding && f.value.wallet == w
    decreases |funding|
  {
    if funding != [] && funding[|funding| - 1].wallet != w {
      LastFundingFound(funding[..|funding| - 1], w);
    }
  }

  /** With one record for each wallet their order does not matter. */
  lemma FundingOrder(funding: seq<Funding>, other: seq<Funding>, w: string)
    requires multiset(funding) == multiset(other) && DistinctWallets(funding) && DistinctWallets(other)
    ensures LastFunding(funding, w) == LastFunding(other, w)
  {
    assert forall f: Funding :: f in funding <==> f in multiset(funding);
    assert forall f: Funding :: f in other <==> f in multiset(other);
    LastFundingFound(funding, w);
    LastFundingFound(other, w);
    var f, g := LastFunding(funding, w), LastFunding(other, w);
    if f.Some? {
      LastFundingIs(other, f.value);
    }
    if g.Some? {
      LastFundingIs(funding, g.value);
    }
  }

  // ------------------------------------------------------------------
  // Eligible wallets
  // ------------------------------------------------------------------

  function Eligibility(w: Wallet, funding: seq<Funding>): multiset<Eligible> {
    var e := EligibleOf(w, funding);
    if e.Some? then multiset{e.value} else multiset{}
  }

  lemma {:induction false} EligibleAppend(a: seq<Wallet>, b: seq<Wallet>, funding: seq<Funding>)
    ensures EligibleFrom(a + b, funding) == EligibleFrom(a, funding) + EligibleFrom(b, funding)
    decreases |b|
  {
    if b == [] {
      assert a + b == a;
    } else {
      var n := |b| - 1;
      EligibleAppend(a, b[..n], funding);
      assert (a + b)[..|a| + n] == a + b[..n];
    }
  }

  lemma EligibleOne(w: Wallet, funding: seq<Funding>)
    ensures multiset(EligibleFrom([w], funding)) == Eligibility(w, funding)
  {
    assert [w][..0] == [];
    assert EligibleFrom([w][..0], funding) == [];
  }

  /** Which wallets are eligible, and how often, does not depend on their order. */
  lemma {:induction false} EligibleOrder(a: seq<Wallet>, b: seq<Wallet>, funding: seq<Funding>)
    requires multiset(a) == multiset(b)
    ensures multiset(EligibleFrom(a, funding)) == multiset(EligibleFrom(b, funding))
    decreases |a|
  {
    if a == [] {
      assert |multiset(b)| == |b| == 0;
    } else {
      var i := FindFirst(a, b);
      var rest := b[..i] + b[i + 1..];
      EligibleOrder(a[1..], rest, funding);
      EligibleOne(a[0], funding);
      assert a == [a[0]] + a[1..];
      EligibleAppend([a[0]], a[1..], funding);
      assert b == b[..i] + ([b[i]] + b[i + 1..]);
      EligibleAppend(b[..i], [b[i]] + b[i + 1..], funding);
      EligibleAppend([b[i]], b[i + 1..], funding);
      EligibleAppend(b[..i], b[i + 1..], funding);
    }
  }

  lemma {:induction false} EligibleSame(wallets: seq<Wallet>, f: seq<Funding>, g: seq<Funding>)
    requires forall w :: LastFunding(f, w) == LastFunding(g, w)
    ensures EligibleFrom(wallets, f) == EligibleFrom(wallets, g)
    decreases |wallets|
  {
    if wallets != [] {
      EligibleSame(wallets[..|wallets| - 1], f, g);
    }
  }

  // ------------------------------------------------------------------
  // The best funder and its group
  // ------------------------------------------------------------------

  lemma SameFunds(a: seq<Eligible>, b: seq<Eligible>, f: string)
    requires multiset(a) == multiset(b)
    ensures Funds(a, f) ==> Funds(b, f)
  {
    if Funds(a, f) {
      var k :| 0 <= k < |a| && a[k].funder == f;
      assert a[k] in multiset(b);
      var j :| 0 <= j < |b| && b[j] == a[k];
      assert b[j].funder == f;
    }
  }

  lemma SameBest(a: seq<Eligible>, b: seq<Eligible>, minCluster: int, best: Option<string>)
    requires multiset(a) == multiset(b) && IsBest(a, minCluster, best)
    ensures IsBest(b, minCluster, best)
  {
    forall f
      ensures Qualifies(a, minCluster, f) <==> Qualifies(b, minCluster, f)
      ensures |MembersOf(a, f)| == |MembersOf(b, f)|
    {
      SameFunds(a, b, f);
      SameFunds(b, a, f);
      FilterPermuted(a, b, HasFunder(f));
    }
  }

  // ------------------------------------------------------------------
  // Windows and sums of a group
  // ------------------------------------------------------------------

  lemma {:induction false} PresentIs<T(!new)>(values: seq<Option<T>>)
    ensures AllPresent(values).Some? <==> None !in values
    ensures AllPresent(values).Some? ==> |AllPresent(values).value| == |values|
    ensures AllPresent(values).Some? ==> forall v :: v in AllPresent(values).value <==> Some(v) in values
    decreases |values|
  {
    if values != [] {
      var n := |values| - 1;
      PresentIs(values[..n]);
      assert values == values[..n] + [values[n]];
    }
  }

  lemma {:induction false} LeastIs(times: seq<int>)
    requires times != []
    ensures Least(times) in times && forall t :: t in times ==> Least(times) <= t
    decreases |times|
  {
    if |times| > 1 {
      LeastIs(times[..|times| - 1]);
      assert times == times[..|times| - 1] + [times[|times| - 1]];
    }
  }

  lemma {:induction false} GreatestIs(times: seq<int>)
    requires times != []
    ensures Greatest(times) in times && forall t :: t in times ==> t <= Greatest(times)
    decreases |times|
  {
    if |times| > 1 {
      GreatestIs(times[..|times| - 1]);
      assert times == times[..|times| - 1] + [times[|times| - 1]];
    }
  }

  /** Two lists of times with the same members have the same window. */
  lemma SameWindow(a: seq<Option<int>>, b: seq<Option<int>>)
    requires |a| == |b| && forall x :: x in a <==> x in b
    ensures WindowOf(a) == WindowOf(b)
    ensures AllPresent(a).Some? <==> AllPresent(b).Some?
  {
    PresentIs(a);
    PresentIs(b);
    if AllPresent(a).Some? && a != [] {
      SameSpan(AllPresent(a).value, AllPresent(b).value);
    }
  }

  lemma SameSpan(s: seq<int>, t: seq<int>)
    requires s != [] && t != [] && forall v :: v in s <==> v in t
    ensures WindowSec(s) == WindowSec(t)
  {
    LeastIs(s);
    LeastIs(t);
    GreatestIs(s);
    GreatestIs(t);
  }

  function ShareOf(e: Eligible): real { if e.supplyShare.Some? then e.supplyShare.value else 0.0 }

  function SupplySum(members: seq<Eligible>): real {
    if members == [] then 0.0 else SupplySum(members[..|members| - 1]) + ShareOf(members[|members| - 1])
  }

  lemma {:induction false} SupplyAppend(a: seq<Eligible>, b: seq<Eligible>)
    ensures SupplySum(a + b) == SupplySum(a) + SupplySum(b)
    decreases |b|
  {
    if b == [] {
      assert a + b == a;
    } else {
      var n := |b| - 1;
      SupplyAppend(a, b[..n]);
      assert (a + b)[..|a| + n] == a + b[..n];
    }
  }

  lemma {:induction false} SupplyOrder(a: seq<Eligible>, b: seq<Eligible>)
    requires multiset(a) == multiset(b)
    ensures SupplySum(a) == SupplySum(b)
    decreases |a|
  {
    if a == [] {
      assert |multiset(b)| == |b| == 0;
    } else {
      var i := FindFirst(a, b);
      SupplyOrder(a[1..], b[..i] + b[i + 1..]);
      assert a == [a[0]] + a[1..];
      SupplyAppend([a[0]], a[1..]);
      assert b == b[..i] + ([b[i]] + b[i + 1..]);
      SupplyAppend(b[..i], [b[i]] + b[i + 1..]);
      SupplyAppend([b[i]], b[i + 1..]);
      SupplyAppend(b[..i], b[i + 1..]);
    }
  }

  lemma {:induction false} TotalIsSum(members: seq<Eligible>)
    ensures AllPresent(Shares(members)).Some? ==> Total(AllPresent(Shares(members)).value) == SupplySum(members)
    decreases |members|
  {
    if members != [] {
      var n := |members| - 1;
      TotalIsSum(members[..n]);
      assert Shares(members)[..n] == Shares(members[..n]);
      if AllPresent(Shares(members)).Some? {
        var before := AllPresent(Shares(members[..n])).value;
        assert (before + [ShareOf(members[n])])[..|before|] == before;
      }
    }
  }

  lemma SupplyIsSum(members: seq<Eligible>)
    ensures SupplyOf(Shares(members)) == if None in Shares(members) then None else Some(SupplySum(members))
  {
    PresentIs(Shares(members));
    TotalIsSum(members);
  }

  lemma PermutedField<T>(a: seq<Eligible>, b: seq<Eligible>, x: Option<T>, f: Eligible -> Option<T>,
                         fa: seq<Option<T>>, fb: seq<Option<T>>)
    requires multiset(a) == multiset(b) && |fa| == |a| && |fb| == |b|
    requires (forall i :: 0 <= i < |a| ==> fa[i] == f(a[i])) && (forall i :: 0 <= i < |b| ==> fb[i] == f(b[i]))
    ensures x in fa ==> x in fb
  {
    if x in fa {
      var i :| 0 <= i < |fa| && fa[i] == x;
      assert a[i] in multiset(b);
      var j :| 0 <= j < |b| && b[j] == a[i];
      assert fb[j] == x;
    }
  }

  lemma SameFields(a: seq<Eligible>, b: seq<Eligible>)
    requires multiset(a) == multiset(b)
    ensures forall x :: x in FundingTimes(a) <==> x in FundingTimes(b)
    ensures forall x :: x in EntryTimes(a) <==> x in EntryTimes(b)
    ensures None in Shares(a) <==> None in Shares(b)
  {
    forall x ensures x in FundingTimes(a) <==> x in FundingTimes(b) {
      PermutedField(a, b, x, (e: Eligible) => e.fundingTime, FundingTimes(a), FundingTimes(b));
      PermutedField(b, a, x, (e: Eligible) => e.fundingTime, FundingTimes(b), FundingTimes(a));
    }
    forall x ensures x in EntryTimes(a) <==> x in EntryTimes(b) {
      PermutedField(a, b, x, (e: Eligible) => e.entryTime, EntryTimes(a), EntryTimes(b));
      PermutedField(b, a, x, (e: Eligible) => e.entryTime, EntryTimes(b), EntryTimes(a));
    }
    PermutedField(a, b, None, (e: Eligible) => e.supplyShare, Shares(a), Shares(b));
    PermutedField(b, a, None, (e: Eligible) => e.supplyShare, Shares(b), Shares(a));
  }

  lemma {:induction false} AddressAppend(a: seq<Eligible>, b: seq<Eligible>)
    ensures Addresses(a + b) == Addresses(a) + Addresses(b)
  {
  }

  lemma {:induction false} AddressOrder(a: seq<Eligible>, b: seq<Eligible>)
    requires multiset(a) == multiset(b)
    ensures multiset(Addresses(a)) == multiset(Addresses(b))
    decreases |a|
  {
    if a == [] {
      assert |multiset(b)| == |b| == 0;
    } else {
      var i := FindFirst(a, b);
      AddressOrder(a[1..], b[..i] + b[i + 1..]);
      assert Addresses(a) == [a[0].wallet] + Addresses(a[1..]);
      assert Addresses(b) == Addresses(b[..i]) + [b[i].wallet] + Addresses(b[i + 1..]);
      AddressAppend(b[..i], b[i + 1..]);
    }
  }

  // ------------------------------------------------------------------
  // Main results
  // ------------------------------------------------------------------

  /** The same cluster up to the order in which its members are listed. */
  predicate SameCluster(c: Cluster, d: Cluster) {
    && c.anchor == d.anchor && multiset(c.members) == multiset(d.members)
    && c.fundingWindow == d.fundingWindow && c.entryWindow == d.entryWindow
    && c.supply == d.supply && c.evidence == d.evidence && c.strength == d.strength
  }

  lemma ClusterOrder(anchor: string, a: seq<Eligible>, b: seq<Eligible>, t: Thresholds)
    requires multiset(a) == multiset(b)
    ensures SameCluster(ClusterOf(anchor, a, t), ClusterOf(anchor, b, t))
    ensures AllPresent(EntryTimes(a)).Some? <==> AllPresent(EntryTimes(b)).Some?
  {
    assert |multiset(a)| == |a| && |multiset(b)| == |b|;
    SameFields(a, b);
    SameWindow(FundingTimes(a), FundingTimes(b));
    SameWindow(EntryTimes(a), EntryTimes(b));
    SupplyIsSum(a);
    SupplyIsSum(b);
    SupplyOrder(a, b);
    AddressOrder(a, b);
  }

  lemma SawOrder(a: seq<Wallet>, b: seq<Wallet>, f: seq<Funding>, g: seq<Funding>)
    requires multiset(a) == multiset(b) && forall w :: LastFunding(f, w) == LastFunding(g, w)
    ensures SawInsufficient(a, f) ==> SawInsufficient(b, g)
  {
    if SawInsufficient(a, f) {
      var w :| w in a && Unresolved(LastFunding(f, w.wallet));
      assert w in multiset(b);
      assert w in b;
    }
  }

  /** Both lists name the same record last for every wallet. */
  ghost predicate SameRecords(funding: seq<Funding>, other: seq<Funding>) {
    forall w :: LastFunding(funding, w) == LastFunding(other, w)
  }

  /** The same observation up to the order in which members are listed. */
  predicate SameObservation(o: Observation, p: Observation) {
    && o.status == p.status && (o.cluster.Some? <==> p.cluster.Some?)
    && (o.cluster.Some? ==> SameCluster(o.cluster.value, p.cluster.value))
  }

  /** Permuting the wallets, and reordering or repeating funding records in any way that
      keeps each wallet's last one, changes neither the status nor anything of the
      cluster but the order of its members. */
  lemma OrderIrrelevant(token: string, wallets: seq<Wallet>, others: seq<Wallet>, funding: seq<Funding>,
                        other: seq<Funding>, t: Thresholds, o: Observation, p: Observation)
    requires multiset(wallets) == multiset(others) && SameRecords(funding, other)
    requires Observes(token, wallets, funding, t, o) && Observes(token, others, other, t, p)
    ensures SameObservation(o, p)
  {
    var a, b := Filter(wallets, RealOf(token)), Filter(others, RealOf(token));
    FilterPermuted(wallets, others, RealOf(token));
    EligibleSame(b, funding, other);
    EligibleOrder(a, b, funding);
    var e, f := EligibleFrom(a, funding), EligibleFrom(b, other);
    var best := if o.cluster.Some? then Some(o.cluster.value.anchor) else None;
    SameBest(e, f, t.minCluster, best);
    BestUnique(f, t.minCluster, best, if p.cluster.Some? then Some(p.cluster.value.anchor) else None);
    if best.Some? {
      FilterPermuted(e, f, HasFunder(best.value));
      ClusterOrder(best.value, MembersOf(e, best.value), MembersOf(f, best.value), t);
    } else {
      SawOrder(a, b, funding, other);
      SawOrder(b, a, other, funding);
    }
  }

  /** So with one funding record for each wallet their order does not matter at all. */
  lemma OneRecordEach(token: string, wallets: seq<Wallet>, others: seq<Wallet>, funding: seq<Funding>,
                      other: seq<Funding>, t: Thresholds, o: Observation, p: Observation)
    requires multiset(wallets) == multiset(others) && multiset(funding) == multiset(other)
    requires DistinctWallets(funding) && DistinctWallets(other)
    requires Observes(token, wallets, funding, t, o) && Observes(token, others, other, t, p)
    ensures SameObservation(o, p)
  {
    forall w ensures LastFunding(funding, w) == LastFunding(other, w) {
      FundingOrder(funding, other, w);
    }
    OrderIrrelevant(token, wallets, others, funding, other, t, o, p);
  }

  lemma {:induction false} AllReal(wallets: seq<Wallet>, token: string)
    requires forall k :: 0 <= k < |wallets| ==> IsReal(wallets[k], token)
    ensures Filter(wallets, RealOf(token)) == wallets
  {
    if wallets != [] {
      AllReal(wallets[1..], token);
    }
  }

  lemma {:induction false} EligibleEach(wallets: seq<Wallet>, funding: seq<Funding>, members: seq<Eligible>)
    requires |members| == |wallets| && forall k :: 0 <= k < |wallets| ==>
      EligibleOf(wallets[k], funding) == Some(members[k])
    ensures EligibleFrom(wallets, funding) == members
    decreases |wallets|
  {
    if wallets != [] {
      var n := |wallets| - 1;
      EligibleEach(wallets[..n], funding, members[..n]);
    }
  }

  lemma {:induction false} AllOneFunder(members: seq<Eligible>, f: string)
    requires forall k :: 0 <= k < |members| ==> members[k].funder == f
    ensures MembersOf(members, f) == members
  {
    if members != [] {
      AllOneFunder(members[1..], f);
    }
  }

  lemma BestOfOneFunder(members: seq<Eligible>, f: string, best: Option<string>)
    requires |members| >= 3 && forall k :: 0 <= k < |members| ==> members[k].funder == f
    requires IsBest(members, 3, best)
    ensures best == Some(f)
  {
    AllOneFunder(members, f);
    assert members[0].funder == f;
    assert Qualifies(members, 3, f);
  }

  /** One wallet seen three times. */
  function Seen(w: string, token: string): seq<Wallet> {
    var seen := Wallet(w, token, None, false, None);
    [seen, seen, seen]
  }

  function FundedBy(w: string, funder: string): Funding { Funding(w, Some(funder), None, None, true) }

  lemma ThreeEligible(w: string, token: string, funder: string, funding: seq<Funding>)
    requires LastFunding(funding, w) == Some(FundedBy(w, funder))
    ensures var e := Eligible(w, funder, None, None, None);
      Filter(Seen(w, token), RealOf(token)) == Seen(w, token) && EligibleFrom(Seen(w, token), funding) == [e, e, e]
  {
    var e := Eligible(w, funder, None, None, None);
    AllReal(Seen(w, token), token);
    EligibleEach(Seen(w, token), funding, [e, e, e]);
  }

  /** A wallet observed several times counts as often: three observations of one wallet are a cluster. */
  lemma RepeatedWalletIsCluster(w: string, token: string, funder: string, funding: seq<Funding>, o: Observation)
    requires LastFunding(funding, w) == Some(FundedBy(w, funder))
    requires Observes(token, Seen(w, token), funding, DEFAULT_THRESHOLDS, o)
    ensures o.cluster.Some? && o.cluster.value.anchor == funder && |o.cluster.value.members| == 3
  {
    ThreeEligible(w, token, funder, funding);
    var e := Eligible(w, funder, None, None, None);
    AllOneFunder([e, e, e], funder);
    BestOfOneFunder([e, e, e], funder, if o.cluster.Some? then Some(o.cluster.value.anchor) else None);
  }

  /** With two records for a wallet the last one decides: the same records in the other
      order give the cluster of another funder. */
  lemma LastRecordWins(w: string, token: string, a: string, b: string, o: Observation, p: Observation)
    requires a != b
    requires Observes(token, Seen(w, token), [FundedBy(w, a), FundedBy(w, b)], DEFAULT_THRESHOLDS, o)
    requires Observes(token, Seen(w, token), [FundedBy(w, b), FundedBy(w, a)], DEFAULT_THRESHOLDS, p)
    ensures o.cluster.Some? && o.cluster.value.anchor == b && p.cluster.Some? && p.cluster.value.anchor == a
    ensures !SameObservation(o, p)
  {
    RepeatedWalletIsCluster(w, token, b, [FundedBy(w, a), FundedBy(w, b)], o);
    RepeatedWalletIsCluster(w, token, a, [FundedBy(w, b), FundedBy(w, a)], p);
  }

  // ------------------------------------------------------------------
  // What tight and strong mean
  // ------------------------------------------------------------------

  /** Tight: every time is known, and no two are further apart than the limit. */
  lemma TightIff(times: seq<Option<int>>, limit: int)
    ensures Tight(WindowOf(times), limit) <==>
      times != [] && None !in times && forall a, b :: Some(a) in times && Some(b) in times ==> a - b <= limit
  {
    PresentIs(times);
    if times != [] && None !in times {
      var present := AllPresent(times).value;
      LeastIs(present);
      GreatestIs(present);
      assert Some(Greatest(present)) in times && Some(Least(present)) in times;
    }
  }

  /** All of the group were funded - or entered - within `limit` of each other. */
  ghost predicate Together(times: seq<Option<int>>, limit: int) {
    None !in times && forall a, b :: Some(a) in times && Some(b) in times ==> a - b <= limit
  }

  /** A cluster is HIGH exactly when its members, four or more, were funded together and
      entered together; LOW exactly when they did neither; and its evidence names each. */
  lemma StrengthMeans(anchor: string, members: seq<Eligible>, t: Thresholds)
    requires members != []
    ensures var c := ClusterOf(anchor, members, t);
      var funded := Together(FundingTimes(members), t.fundingWindowTightSec);
      var entered := Together(EntryTimes(members), t.entryWindowTightSec);
      && (c.strength == HIGH <==> funded && entered && |members| >= 4)
      && (c.strength == LOW <==> !funded && !entered)
      && (FUNDING_PROXIMITY in c.evidence <==> funded) && (ENTRY_PROXIMITY in c.evidence <==> entered)
      && (CLUSTER_SIZE in c.evidence <==> |members| >= 4)
  {
    TightIff(FundingTimes(members), t.fundingWindowTightSec);
    TightIff(EntryTimes(members), t.entryWindowTightSec);
  }

  // ------------------------------------------------------------------
  // What observed means
  // ------------------------------------------------------------------

  /** The members of the reported cluster, with their times. */
  function ReportedMembers(token: string, wallets: seq<Wallet>, funding: seq<Funding>, anchor: string): seq<Eligible> {
    MembersOf(EligibleFrom(Filter(wallets, RealOf(token)), funding), anchor)
  }

  /** A cluster is observed exactly when the entry time of every member is known; so it is
      observed without being tight in time exactly when all are known and some two are
      further apart than the limit. */
  lemma ObservedIff(token: string, wallets: seq<Wallet>, funding: seq<Funding>, t: Thresholds, o: Observation)
    requires Observes(token, wallets, funding, t, o) && o.cluster.Some?
    ensures var times := EntryTimes(ReportedMembers(token, wallets, funding, o.cluster.value.anchor));
      && (o.status == OBSERVED <==> None !in times)
      && ((o.status == OBSERVED && ENTRY_PROXIMITY !in o.cluster.value.evidence) <==>
            (None !in times && !Together(times, t.entryWindowTightSec)))
  {
    var anchor := o.cluster.value.anchor;
    var members := ReportedMembers(token, wallets, funding, anchor);
    PresentIs(EntryTimes(members));
    FundedHasMembers(EligibleFrom(Filter(wallets, RealOf(token)), funding), anchor);
    StrengthMeans(anchor, members, t);
  }

  lemma FundedHasMembers(eligible: seq<Eligible>, f: string)
    ensures Funds(eligible, f) ==> MembersOf(eligible, f) != []
  {
    if Funds(eligible, f) {
      var k :| 0 <= k < |eligible| && eligible[k].funder == f;
      assert eligible[k] in eligible && HasFunder(f)(eligible[k]);
      assert eligible[k] in MembersOf(eligible, f);
    }
  }

  function EnteredAt(w: string, token: string, at: int): Wallet { Wallet(w, token, Some(at), false, None) }

  /** Three wallets of one funder, entering `apart` seconds after one another. */
  function Spread(token: string, apart: int): seq<Wallet> {
    [EnteredAt("a", token, 0), EnteredAt("b", token, apart), EnteredAt("c", token, 2 * apart)]
  }

  function Common(funder: string): seq<Funding> {
    [FundedBy("a", funder), FundedBy("b", funder), FundedBy("c", funder)]
  }

  lemma CommonRecords(funder: string)
    ensures LastFunding(Common(funder), "a") == Some(FundedBy("a", funder))
    ensures LastFunding(Common(funder), "b") == Some(FundedBy("b", funder))
    ensures LastFunding(Common(funder), "c") == Some(FundedBy("c", funder))
  {
    var f := Common(funder);
    assert f[..2] == [f[0], f[1]] && [f[0], f[1]][..1] == [f[0]];
    assert LastFunding([f[0]], "a") == Some(f[0]) && LastFunding([f[0], f[1]], "a") == Some(f[0]);
  }

  function SpreadMembers(funder: string, apart: int): seq<Eligible> {
    [Eligible("a", funder, None, Some(0), None), Eligible("b", funder, None, Some(apart), None),
     Eligible("c", funder, None, Some(2 * apart), None)]
  }

  lemma SpreadEligibleEach(token: string, funder: string, apart: int, k: nat)
    requires k < 3
    ensures EligibleOf(Spread(token, apart)[k], Common(funder)) == Some(SpreadMembers(funder, apart)[k])
    ensures IsReal(Spread(token, apart)[k], token)
  {
    CommonRecords(funder);
  }

  lemma SpreadEligible(token: string, funder: string, apart: int)
    ensures Filter(Spread(token, apart), RealOf(token)) == Spread(token, apart)
    ensures EligibleFrom(Spread(token, apart), Common(funder)) == SpreadMembers(funder, apart)
  {
    var s := Spread(token, apart);
    forall k | 0 <= k < 3
      ensures EligibleOf(s[k], Common(funder)) == Some(SpreadMembers(funder, apart)[k]) && IsReal(s[k], token)
    {
      SpreadEligibleEach(token, funder, apart, k);
    }
    AllReal(s, token);
    EligibleEach(s, Common(funder), SpreadMembers(funder, apart));
  }

  lemma WindowFrom(times: seq<Option<int>>, lo: int, hi: int)
    requires None !in times && Some(lo) in times && Some(hi) in times
    requires forall t :: Some(t) in times ==> lo <= t <= hi
    ensures WindowOf(times) == Some(hi - lo)
  {
    PresentIs(times);
    var present := AllPresent(times).value;
    assert lo in present && hi in present;
    LeastIs(present);
    GreatestIs(present);
  }

  lemma SpreadTimes(funder: string)
    ensures var times := EntryTimes(SpreadMembers(funder, 120));
      None !in times && !Together(times, 60) && WindowOf(times) == Some(240)
  {
    var times := EntryTimes(SpreadMembers(funder, 120));
    assert times == [Some(0), Some(120), Some(240)];
    assert times[2] in times && times[0] in times;
    WindowFrom(times, 0, 240);
  }

  lemma SpreadReported(token: string, funder: string, o: Observation)
    requires Observes(token, Spread(token, 120), Common(funder), DEFAULT_THRESHOLDS, o)
    ensures o.cluster == Some(ClusterOf(funder, SpreadMembers(funder, 120), DEFAULT_THRESHOLDS))
    ensures ReportedMembers(token, Spread(token, 120), Common(funder), funder) == SpreadMembers(funder, 120)
  {
    var members := SpreadMembers(funder, 120);
    SpreadEligible(token, funder, 120);
    AllOneFunder(members, funder);
    BestOfOneFunder(members, funder, if o.cluster.Some? then Some(o.cluster.value.anchor) else None);
  }

  /** A cluster whose members entered two minutes and more apart is reported as observed. */
  lemma ObservedNotTight(token: string, funder: string, o: Observation)
    requires Observes(token, Spread(token, 120), Common(funder), DEFAULT_THRESHOLDS, o)
    ensures o.status == OBSERVED && o.cluster.Some? && |o.cluster.value.members| == 3
    ensures ENTRY_PROXIMITY !in o.cluster.value.evidence && o.cluster.value.entryWindow == Some(240)
  {
    SpreadReported(token, funder, o);
    SpreadTimes(funder);
    ObservedIff(token, Spread(token, 120), Common(funder), DEFAULT_THRESHOLDS, o);
  }
}
