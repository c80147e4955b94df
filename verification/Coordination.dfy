/** src/structure/coordination/detector.ts: wallets of one token that share a funder,
    grouped, and the strongest group reported. */
module Coordination {
  import opened Results
  import opened StableSort
  import Strings

  datatype Wallet = Wallet(wallet: string, token: string, entryTime: Option<int>, sim: bool, supplyShare: Option<real>)

  datatype Funding = Funding(
    wallet: string, funder: Option<string>, funderType: Option<string>, fundingTime: Option<int>, resolved: bool)

  datatype Thresholds = Thresholds(minCluster: int, fundingWindowTightSec: int, entryWindowTightSec: int)

  const DEFAULT_THRESHOLDS := Thresholds(3, 120, 60)

  datatype Strength = HIGH | MEDIUM | LOW | NONE

  datatype Status = OBSERVED | CANDIDATE | INSUFFICIENT | NOTHING

  datatype Evidence = COMMON_FUNDER | FUNDING_PROXIMITY | ENTRY_PROXIMITY | CLUSTER_SIZE

  datatype Cluster = Cluster(
    anchor: string, members: seq<string>, fundingWindow: Option<int>, entryWindow: Option<int>,
    supply: Option<real>, evidence: seq<Evidence>, strength: Strength)

  datatype Observation = Observation(cluster: Option<Cluster>, status: Status)

  /** The funder types that are shared infrastructure. */
  const INFRA_FUNDER_TYPES := {
    "exchange", "centralized exchange", "cross-chain bridge", "bridge", "defi", "market maker",
    "validator", "stake pool", "system", "fees", "oracle" }

  /** What JavaScript's `trim` takes off: its white space and line terminators. */
  predicate IsSpace(c: char) {
    || '\t' <= c <= '\r' || c == ' ' || c == '\U{00A0}' || c == '\U{1680}' || '\U{2000}' <= c <= '\U{200A}'
    || c in {'\U{2028}', '\U{2029}', '\U{202F}', '\U{205F}', '\U{3000}', '\U{FEFF}'}
  }

  function TrimStart(s: string): string { if s != [] && IsSpace(s[0]) then TrimStart(s[1..]) else s }

  function TrimEnd(s: string): string { if s != [] && IsSpace(s[|s| - 1]) then TrimEnd(s[..|s| - 1]) else s }

  /** The Kelvin sign is the one character outside ASCII whose lower case is an ASCII letter
      alone; what the others become is in none of the names. */
  function LowerOf(c: char): char {
    if 'A' <= c <= 'Z' then (c as int + 32) as char else if c == '\U{212A}' then 'k' else c
  }

  function Lower(s: string): (r: string)
    ensures |r| == |s| && forall i :: 0 <= i < |s| ==> r[i] == LowerOf(s[i])
  {
    seq(|s|, i requires 0 <= i < |s| => LowerOf(s[i]))
  }

  predicate IsInfra(funderType: Option<string>) {
    funderType.Some? && Lower(TrimEnd(TrimStart(funderType.value))) in INFRA_FUNDER_TYPES
  }

  // ------------------------------------------------------------------
  // Eligible wallets
  // ------------------------------------------------------------------

  datatype Eligible = Eligible(
    wallet: string, funder: string, fundingTime: Option<int>, entryTime: Option<int>, supplyShare: Option<real>)

  /** The record that counts for a wallet: the last one. */
  function LastFunding(funding: seq<Funding>, wallet: string): Option<Funding> {
    if funding == [] then None
    else if funding[|funding| - 1].wallet == wallet then Some(funding[|funding| - 1])
    else LastFunding(funding[..|funding| - 1], wallet)
  }

  predicate IsReal(w: Wallet, token: string) { !w.sim && w.token == token }

  predicate Unresolved(f: Option<Funding>) { f.None? || !f.value.resolved || f.value.funder.None? }

  /** A wallet whose funder is known and not shared infrastructure. */
  function EligibleOf(w: Wallet, funding: seq<Funding>): Option<Eligible> {
    var f := LastFunding(funding, w.wallet);
    if Unresolved(f) || IsInfra(f.value.funderType) then None
    else Some(Eligible(w.wallet, f.value.funder.value, f.value.fundingTime, w.entryTime, w.supplyShare))
  }

  function EligibleFrom(wallets: seq<Wallet>, funding: seq<Funding>): seq<Eligible> {
    if wallets == [] then []
    else
      var e := EligibleOf(wallets[|wallets| - 1], funding);
      EligibleFrom(wallets[..|wallets| - 1], funding) + if e.Some? then [e.value] else []
  }

  function HasFunder(funder: string): Eligible -> bool { (e: Eligible) => e.funder == funder }

  function MembersOf(eligible: seq<Eligible>, funder: string): seq<Eligible> { Filter(eligible, HasFunder(funder)) }

  ghost predicate Funds(eligible: seq<Eligible>, funder: string) {
    exists k :: 0 <= k < |eligible| && eligible[k].funder == funder
  }

  /** `a` makes a stronger cluster than `b`: more members, or as many and the smaller name. */
  predicate Stronger(eligible: seq<Eligible>, a: string, b: string) {
    var (m, n) := (|MembersOf(eligible, a)|, |MembersOf(eligible, b)|);
    m > n || (m == n && Strings.Less(a, b))
  }

  ghost predicate Qualifies(eligible: seq<Eligible>, minCluster: int, funder: string) {
    Funds(eligible, funder) && |MembersOf(eligible, funder)| >= minCluster
  }

  /** The strongest qualifying funder, if any qualifies. */
  ghost predicate IsBest(eligible: seq<Eligible>, minCluster: int, best: Option<string>) {
    match best
    case None => forall f :: !Qualifies(eligible, minCluster, f)
    case Some(b) =>
      Qualifies(eligible, minCluster, b) && forall f :: Qualifies(eligible, minCluster, f) && f != b ==>
        Stronger(eligible, b, f)
  }

  lemma BestUnique(eligible: seq<Eligible>, minCluster: int, a: Option<string>, b: Option<string>)
    requires IsBest(eligible, minCluster, a) && IsBest(eligible, minCluster, b)
    ensures a == b
  {
    if a.Some? && b.Some? {
      Strings.LessTotal(a.value, b.value);
    }
  }

  // ------------------------------------------------------------------
  // The report on a group
  // ------------------------------------------------------------------

  /** The present values, when all are. */
  function AllPresent<T>(values: seq<Option<T>>): Option<seq<T>> {
    if values == [] then Some([])
    else
      var before := AllPresent(values[..|values| - 1]);
      if before.Some? && values[|values| - 1].Some? then Some(before.value + [values[|values| - 1].value]) else None
  }

  function Least(times: seq<int>): int
    requires times != []
  {
    if |times| == 1 then times[0]
    else var m := Least(times[..|times| - 1]); if times[|times| - 1] < m then times[|times| - 1] else m
  }

  function Greatest(times: seq<int>): int
    requires times != []
  {
    if |times| == 1 then times[0]
    else var m := Greatest(times[..|times| - 1]); if times[|times| - 1] > m then times[|times| - 1] else m
  }

  function WindowSec(times: seq<int>): Option<int> {
    if times == [] then None else Some(Greatest(times) - Least(times))
  }

  function Total(shares: seq<real>): real {
    if shares == [] then 0.0 else Total(shares[..|shares| - 1]) + shares[|shares| - 1]
  }

  function FundingTimes(members: seq<Eligible>): (r: seq<Option<int>>)
    ensures |r| == |members| && forall i :: 0 <= i < |r| ==> r[i] == members[i].fundingTime
  {
    seq(|members|, i requires 0 <= i < |members| => members[i].fundingTime)
  }

  function EntryTimes(members: seq<Eligible>): (r: seq<Option<int>>)
    ensures |r| == |members| && forall i :: 0 <= i < |r| ==> r[i] == members[i].entryTime
  {
    seq(|members|, i requires 0 <= i < |members| => members[i].entryTime)
  }

  function Shares(members: seq<Eligible>): (r: seq<Option<real>>)
    ensures |r| == |members| && forall i :: 0 <= i < |r| ==> r[i] == members[i].supplyShare
  {
    seq(|members|, i requires 0 <= i < |members| => members[i].supplyShare)
  }

  function Addresses(members: seq<Eligible>): (r: seq<string>)
    ensures |r| == |members| && forall i :: 0 <= i < |r| ==> r[i] == members[i].wallet
  {
    seq(|members|, i requires 0 <= i < |members| => members[i].wallet)
  }

  function WindowOf(times: seq<Option<int>>): Option<int> {
    var present := AllPresent(times);
    if present.Some? then WindowSec(present.value) else None
  }

  function SupplyOf(shares: seq<Option<real>>): Option<real> {
    var present := AllPresent(shares);
    if present.Some? then Some(Total(present.value)) else None
  }

  predicate Tight(window: Option<int>, limit: int) { window.Some? && window.value <= limit }

  function StrengthOf(fundingTight: bool, entryTight: bool, size: nat): Strength {
    if fundingTight && entryTight && size >= 4 then HIGH
    else if fundingTight || entryTight then MEDIUM
    else LOW
  }

  function EvidenceOf(fundingTight: bool, entryTight: bool, size: nat): seq<Evidence> {
    [COMMON_FUNDER] + (if fundingTight then [FUNDING_PROXIMITY] else [])
      + (if entryTight then [ENTRY_PROXIMITY] else [])
    + (if size >= 4 then [CLUSTER_SIZE] else [])
  }

  function ClusterOf(anchor: string, members: seq<Eligible>, t: Thresholds): Cluster {
    var (f, e) := (WindowOf(FundingTimes(members)), WindowOf(EntryTimes(members)));
    var (ft, et) := (Tight(f, t.fundingWindowTightSec), Tight(e, t.entryWindowTightSec));
    Cluster(anchor, Addresses(members), f, e, SupplyOf(Shares(members)),
            EvidenceOf(ft, et, |members|), StrengthOf(ft, et, |members|))
  }

  function RealOf(token: string): Wallet -> bool { (w: Wallet) => IsReal(w, token) }

  /** A real wallet whose funding could not be resolved. */
  ghost predicate SawInsufficient(wallets: seq<Wallet>, funding: seq<Funding>) {
    exists w :: w in wallets && Unresolved(LastFunding(funding, w.wallet))
  }

  /** The whole observation, for the best funder. */
  ghost predicate Observes(token: string, wallets: seq<Wallet>, funding: seq<Funding>, t: Thresholds, o: Observation) {
    var actual := Filter(wallets, RealOf(token));
    var eligible := EligibleFrom(actual, funding);
    match o.cluster
    case None => IsBest(eligible, t.minCluster, None)
                 && o.status == if SawInsufficient(actual, funding) then INSUFFICIENT else NOTHING
    case Some(c) => IsBest(eligible, t.minCluster, Some(c.anchor))
                    && c == ClusterOf(c.anchor, MembersOf(eligible, c.anchor), t)
                    && o.status == (if AllPresent(EntryTimes(MembersOf(eligible, c.anchor))).Some?
                                    then OBSERVED else CANDIDATE)
  }

  // ------------------------------------------------------------------
  // The detector
  // ------------------------------------------------------------------

  method IndexFunding(funding: seq<Funding>) returns (byWallet: map<string, Funding>)
    ensures forall w :: w in byWallet <==> LastFunding(funding, w).Some?
    ensures forall w :: w in byWallet ==> LastFunding(funding, w) == Some(byWallet[w])
  {
    byWallet := map[];
    for n := 0 to |funding|
      invariant forall w :: w in byWallet <==> LastFunding(funding[..n], w).Some?
      invariant forall w :: w in byWallet ==> LastFunding(funding[..n], w) == Some(byWallet[w])
    {
      assert funding[..n + 1][..n] == funding[..n];
      byWallet := byWallet[funding[n].wallet := funding[n]];
    }
    assert funding[..|funding|] == funding;
  }

  lemma SawMore(actual: seq<Wallet>, w: Wallet, funding: seq<Funding>)
    ensures SawInsufficient(actual + [w], funding) <==>
      SawInsufficient(actual, funding) || Unresolved(LastFunding(funding, w.wallet))
  {
    assert w in actual + [w] && forall x :: x in actual ==> x in actual + [w];
  }

  method CollectEligible(actual: seq<Wallet>, funding: seq<Funding>)
      returns (eligible: seq<Eligible>, insufficient: bool)
    ensures eligible == EligibleFrom(actual, funding)
    ensures insufficient <==> SawInsufficient(actual, funding)
  {
    var byWallet := IndexFunding(funding);
    eligible, insufficient := [], false;
    for n := 0 to |actual|
      invariant eligible == EligibleFrom(actual[..n], funding)
      invariant insufficient <==> SawInsufficient(actual[..n], funding)
    {
      assert actual[..n + 1][..n] == actual[..n];
      assert actual[..n + 1] == actual[..n] + [actual[n]];
      var w := actual[n];
      SawMore(actual[..n], w, funding);
      if w.wallet !in byWallet || !byWallet[w.wallet].resolved || byWallet[w.wallet].funder.None? {
        insufficient := true;
        continue;
      }
      var f := byWallet[w.wallet];
      if f.funderType.Some? && Lower(TrimEnd(TrimStart(f.funderType.value))) in INFRA_FUNDER_TYPES {
        continue;
      }
      eligible := eligible + [Eligible(w.wallet, f.funder.value, f.fundingTime, w.entryTime, w.supplyShare)];
    }
    assert actual[..|actual|] == actual;
  }

  /** Each funder's members, in order, and the funders in the order they appeared. */
  ghost predicate Grouped(groups: map<string, seq<Eligible>>, order: seq<string>, eligible: seq<Eligible>) {
    && (forall f :: f in groups <==> Funds(eligible, f))
    && (forall f :: f in groups <==> f in order)
    && (forall f :: f in groups ==> groups[f] == MembersOf(eligible, f))
  }

  lemma GroupOneMore(groups: map<string, seq<Eligible>>, order: seq<string>, eligible: seq<Eligible>, e: Eligible)
    requires Grouped(groups, order, eligible)
    ensures var mine := if e.funder in groups then groups[e.funder] + [e] else [e];
      Grouped(groups[e.funder := mine], if e.funder in groups then order else order + [e.funder], eligible + [e])
  {
    forall f
      ensures Funds(eligible + [e], f) <==> Funds(eligible, f) || f == e.funder
      ensures MembersOf(eligible + [e], f) == if f == e.funder then MembersOf(eligible, f) + [e]
        else MembersOf(eligible, f)
    {
      FundsMore(eligible, e, f);
      MembersMore(eligible, e, f);
    }
    MembersFunded(eligible, e.funder);
  }

  lemma FundsMore(eligible: seq<Eligible>, e: Eligible, f: string)
    ensures Funds(eligible + [e], f) <==> Funds(eligible, f) || f == e.funder
  {
    var more := eligible + [e];
    if Funds(eligible, f) {
      var k :| 0 <= k < |eligible| && eligible[k].funder == f;
      assert more[k].funder == f;
    }
    assert more[|eligible|] == e;
    if Funds(more, f) && f != e.funder {
      var k :| 0 <= k < |more| && more[k].funder == f;
      assert eligible[k].funder == f;
    }
  }

  lemma MembersMore(eligible: seq<Eligible>, e: Eligible, f: string)
    ensures MembersOf(eligible + [e], f) == if f == e.funder then MembersOf(eligible, f) + [e]
      else MembersOf(eligible, f)
  {
    FilterAppend(eligible, [e], HasFunder(f));
    assert MembersOf(eligible, f) + [] == MembersOf(eligible, f);
  }

  lemma MembersFunded(eligible: seq<Eligible>, f: string)
    ensures MembersOf(eligible, f) != [] ==> Funds(eligible, f)
  {
    var m := MembersOf(eligible, f);
    if m != [] {
      var e := m[0];
      assert e in m;
      var k :| 0 <= k < |eligible| && eligible[k] == e;
    }
  }

  method GroupByFunder(eligible: seq<Eligible>) returns (groups: map<string, seq<Eligible>>, order: seq<string>)
    ensures Grouped(groups, order, eligible)
  {
    groups, order := map[], [];
    for n := 0 to |eligible|
      invariant Grouped(groups, order, eligible[..n])
    {
      assert eligible[..n + 1] == eligible[..n] + [eligible[n]];
      var e := eligible[n];
      GroupOneMore(groups, order, eligible[..n], e);
      if e.funder in groups {
        groups := groups[e.funder := groups[e.funder] + [e]];
      } else {
        groups := groups[e.funder := [e]];
        order := order + [e.funder];
      }
    }
    assert eligible[..|eligible|] == eligible;
  }

  /** The best of the first funders in the order. */
  ghost predicate BestSoFar(eligible: seq<Eligible>, minCluster: int, seen: seq<string>, best: Option<string>) {
    && (best.Some? ==> best.value in seen && Qualifies(eligible, minCluster, best.value))
    && (forall f :: f in seen && Qualifies(eligible, minCluster, f) ==>
          best.Some? && (f != best.value ==> Stronger(eligible, best.value, f)))
  }

  lemma StrongerTransitive(eligible: seq<Eligible>, a: string, b: string, c: string)
    requires Stronger(eligible, a, b) && Stronger(eligible, b, c)
    ensures Stronger(eligible, a, c)
  {
    if Strings.Less(a, b) && Strings.Less(b, c) {
      Strings.LessTransitive(a, b, c);
    }
  }

  lemma SeeOneMore(eligible: seq<Eligible>, minCluster: int, seen: seq<string>, best: Option<string>, f: string)
    requires BestSoFar(eligible, minCluster, seen, best) && Funds(eligible, f)
    ensures var replaced := |MembersOf(eligible, f)| >= minCluster && (best.None? || Stronger(eligible, f, best.value));
      BestSoFar(eligible, minCluster, seen + [f], if replaced then Some(f) else best)
  {
    if best.Some? {
      Strings.LessTotal(f, best.value);
      forall g | Stronger(eligible, f, best.value) && Stronger(eligible, best.value, g)
        ensures Stronger(eligible, f, g)
      {
        StrongerTransitive(eligible, f, best.value, g);
      }
    }
  }

  method PickBest(groups: map<string, seq<Eligible>>, order: seq<string>, minCluster: int,
                  ghost eligible: seq<Eligible>)
      returns (best: Option<string>)
    requires Grouped(groups, order, eligible)
    ensures IsBest(eligible, minCluster, best)
  {
    best := None;
    for n := 0 to |order|
      invariant BestSoFar(eligible, minCluster, order[..n], best)
    {
      assert order[..n + 1] == order[..n] + [order[n]];
      var funder := order[n];
      assert funder in order;
      SeeOneMore(eligible, minCluster, order[..n], best, funder);
      var members := groups[funder];
      if |members| < minCluster {
        continue;
      }
      if best.None? || |members| > |groups[best.value]|
         || (|members| == |groups[best.value]| && Strings.Less(funder, best.value)) {
        best := Some(funder);
      }
    }
    assert order[..|order|] == order;
  }

  method WindowSeconds(times: seq<int>) returns (window: Option<int>)
    ensures window == WindowSec(times)
  {
    if times == [] {
      return None;
    }
    var lo, hi := times[0], times[0];
    for k := 1 to |times|
      invariant lo == Least(times[..k]) && hi == Greatest(times[..k])
    {
      assert times[..k + 1][..k] == times[..k];
      if times[k] < lo {
        lo := times[k];
      }
      if times[k] > hi {
        hi := times[k];
      }
    }
    assert times[..|times|] == times;
    return Some(hi - lo);
  }

  method WindowIfComplete(times: seq<Option<int>>) returns (window: Option<int>)
    ensures window == WindowOf(times)
  {
    var present := AllPresent(times);
    if present.None? {
      return None;
    }
    window := WindowSeconds(present.value);
  }

  method Describe(anchor: string, members: seq<Eligible>, t: Thresholds) returns (cluster: Cluster)
    ensures cluster == ClusterOf(anchor, members, t)
  {
    var fundingWindow := WindowIfComplete(FundingTimes(members));
    var entryWindow := WindowIfComplete(EntryTimes(members));
    var fundingTight := fundingWindow.Some? && fundingWindow.value <= t.fundingWindowTightSec;
    var entryTight := entryWindow.Some? && entryWindow.value <= t.entryWindowTightSec;
    var evidence := [COMMON_FUNDER];
    if fundingTight {
      evidence := evidence + [FUNDING_PROXIMITY];
    }
    if entryTight {
      evidence := evidence + [ENTRY_PROXIMITY];
    }
    if |members| >= 4 {
      evidence := evidence + [CLUSTER_SIZE];
    }
    var strength := LOW;
    if fundingTight && entryTight && |members| >= 4 {
      strength := HIGH;
    } else if fundingTight || entryTight {
      strength := MEDIUM;
    }
    cluster := Cluster(anchor, Addresses(members), fundingWindow, entryWindow, SupplyOf(Shares(members)), evidence,
      strength);
  }

  method DetectCoordination(token: string, wallets: seq<Wallet>, funding: seq<Funding>, t: Thresholds)
      returns (o: Observation)
    ensures Observes(token, wallets, funding, t, o)
  {
    var actual := Filter(wallets, RealOf(token));
    var eligible, insufficient := CollectEligible(actual, funding);
    var groups, order := GroupByFunder(eligible);
    var best := PickBest(groups, order, t.minCluster, eligible);
    if best.None? {
      return Observation(None, if insufficient then INSUFFICIENT else NOTHING);
    }
    var members := groups[best.value];
    var cluster := Describe(best.value, members, t);
    return Observation(Some(cluster), if AllPresent(EntryTimes(members)).Some? then OBSERVED else CANDIDATE);
  }
}
