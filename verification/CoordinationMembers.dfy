/** Whom the detector reports, told from the observations and the funding records alone. */
module CoordinationMembers {
  import opened Coordination
  import opened CoordinationOrder
  import opened FunderTypes
  import opened Results
  import opened StableSort
  import Strings

  /** `f` is the last record of the wallet. */
  ghost predicate IsLastRecord(funding: seq<Funding>, wallet: string, f: Funding) {
    exists j :: 0 <= j < |funding| && funding[j] == f && f.wallet == wallet
                && forall i :: j < i < |funding| ==> funding[i].wallet != wallet
  }

  /** The wallet's last record is resolved and names a funder. */
  ghost predicate Known(funding: seq<Funding>, wallet: string) {
    exists f :: IsLastRecord(funding, wallet, f) && f.resolved && f.funder.Some?
  }

  /** A real wallet of the token whose last record is resolved, names `funder` and has no
      type, or one that is not shared infrastructure. */
  ghost predicate IsFundedBy(w: Wallet, token: string, funding: seq<Funding>, funder: string) {
    && !w.sim && w.token == token
    && exists f :: IsLastRecord(funding, w.wallet, f) && f.resolved && f.funder == Some(funder)
                   && !SharedType(f.funderType)
  }

  ghost function Funded(token: string, funding: seq<Funding>, funder: string): Wallet -> bool {
    (w: Wallet) => IsFundedBy(w, token, funding, funder)
  }

  /** All observations of such wallets, in order. */
  ghost function FundedWallets(token: string, wallets: seq<Wallet>, funding: seq<Funding>, funder: string): seq<Wallet>
  {
    Filter(wallets, Funded(token, funding, funder))
  }

  // ------------------------------------------------------------------
  // The detector's own notions
  // ------------------------------------------------------------------

  lemma {:induction false} LastRecordIff(funding: seq<Funding>, wallet: string, f: Funding)
    ensures IsLastRecord(funding, wallet, f) <==> LastFunding(funding, wallet) == Some(f)
    decreases |funding|
  {
    if funding != [] {
      var n := |funding| - 1;
      var before := funding[..n];
      LastRecordIff(before, wallet, f);
      if funding[n].wallet == wallet {
        assert IsLastRecord(funding, wallet, funding[n]);
      } else {
        if IsLastRecord(before, wallet, f) {
          var j :| 0 <= j < n && before[j] == f && f.wallet == wallet
                   && forall i :: j < i < n ==> before[i].wallet != wallet;
          assert funding[j] == f && forall i :: j < i < |funding| ==> funding[i].wallet != wallet;
        }
        if IsLastRecord(funding, wallet, f) {
          var j :| 0 <= j < |funding| && funding[j] == f && f.wallet == wallet
                   && forall i :: j < i < |funding| ==> funding[i].wallet != wallet;
          assert before[j] == f && forall i :: j < i < n ==> before[i].wallet != wallet;
        }
      }
    }
  }

  lemma KnownIff(funding: seq<Funding>, wallet: string)
    ensures Known(funding, wallet) <==> !Unresolved(LastFunding(funding, wallet))
  {
    forall f ensures IsLastRecord(funding, wallet, f) <==> LastFunding(funding, wallet) == Some(f) {
      LastRecordIff(funding, wallet, f);
    }
    var last := LastFunding(funding, wallet);
    if last.Some? {
      assert IsLastRecord(funding, wallet, last.value);
    }
  }

  lemma FundedIff(w: Wallet, token: string, funding: seq<Funding>, funder: string)
    ensures var e := EligibleOf(w, funding);
      IsFundedBy(w, token, funding, funder) <==> IsReal(w, token) && e.Some? && HasFunder(funder)(e.value)
  {
    forall f ensures IsLastRecord(funding, w.wallet, f) <==> LastFunding(funding, w.wallet) == Some(f) {
      LastRecordIff(funding, w.wallet, f);
    }
    var last := LastFunding(funding, w.wallet);
    if last.Some? {
      assert IsLastRecord(funding, w.wallet, last.value);
      InfraIff(last.value.funderType);
    }
  }

  /** Each member of a group stands for one observation, in order. */
  ghost predicate StandFor(members: seq<Eligible>, wallets: seq<Wallet>, funding: seq<Funding>) {
    |members| == |wallets| && forall k :: 0 <= k < |wallets| ==> EligibleOf(wallets[k], funding) == Some(members[k])
  }

  /** The members for one more observation. */
  lemma GroupMore(token: string, ws: seq<Wallet>, w: Wallet, funding: seq<Funding>, funder: string)
    ensures var e := EligibleOf(w, funding);
      MembersOf(EligibleFrom(Filter(ws + [w], RealOf(token)), funding), funder)
      == MembersOf(EligibleFrom(Filter(ws, RealOf(token)), funding), funder)
       + if IsReal(w, token) && e.Some? && HasFunder(funder)(e.value) then [e.value] else []
  {
    FilterAppend(ws, [w], RealOf(token));
    var before, one := Filter(ws, RealOf(token)), Filter([w], RealOf(token));
    EligibleAppend(before, one, funding);
    FilterAppend(EligibleFrom(before, funding), EligibleFrom(one, funding), HasFunder(funder));
    assert [w][..0] == [];
    assert one == if IsReal(w, token) then [w] else [];
  }

  lemma {:induction false} MembersStandFor(token: string, wallets: seq<Wallet>, funding: seq<Funding>, funder: string)
    ensures StandFor(MembersOf(EligibleFrom(Filter(wallets, RealOf(token)), funding), funder),
                     FundedWallets(token, wallets, funding, funder), funding)
    decreases |wallets|
  {
    if wallets != [] {
      var n := |wallets| - 1;
      var ws, w := wallets[..n], wallets[n];
      assert wallets == ws + [w];
      MembersStandFor(token, ws, funding, funder);
      FundedIff(w, token, funding, funder);
      FilterAppend(ws, [w], Funded(token, funding, funder));
      GroupMore(token, ws, w, funding, funder);
    }
  }

  // ------------------------------------------------------------------
  // Whom it reports
  // ------------------------------------------------------------------

  /** More observations than `b` has, or as many and the smaller name. */
  ghost predicate Leads(token: string, wallets: seq<Wallet>, funding: seq<Funding>, a: string, b: string) {
    var (m, n) := (|FundedWallets(token, wallets, funding, a)|, |FundedWallets(token, wallets, funding, b)|);
    m > n || (m == n && Strings.Less(a, b))
  }

  /** Enough observations for a cluster. */
  ghost predicate Enough(token: string, wallets: seq<Wallet>, funding: seq<Funding>, funder: string, least: int) {
    |FundedWallets(token, wallets, funding, funder)| >= if least < 1 then 1 else least
  }

  lemma EnoughIff(token: string, wallets: seq<Wallet>, funding: seq<Funding>, funder: string, least: int)
    ensures Enough(token, wallets, funding, funder, least) <==>
      Qualifies(EligibleFrom(Filter(wallets, RealOf(token)), funding), least, funder)
  {
    var eligible := EligibleFrom(Filter(wallets, RealOf(token)), funding);
    MembersStandFor(token, wallets, funding, funder);
    MembersFunded(eligible, funder);
    FundedHasMembers(eligible, funder);
  }

  /** A cluster is reported if and only if some funder has enough observations; its anchor
      is the one that leads all others, and its members are the wallets of the anchor's
      observations, in order, once for each. */
  lemma MembersAre(token: string, wallets: seq<Wallet>, funding: seq<Funding>, t: Thresholds, o: Observation)
    requires Observes(token, wallets, funding, t, o)
    ensures o.cluster.Some? <==> exists f :: Enough(token, wallets, funding, f, t.minCluster)
    ensures o.cluster.Some? ==>
      var c := o.cluster.value;
      var of := FundedWallets(token, wallets, funding, c.anchor);
      && Enough(token, wallets, funding, c.anchor, t.minCluster)
      && (forall f :: Enough(token, wallets, funding, f, t.minCluster) && f != c.anchor ==>
            Leads(token, wallets, funding, c.anchor, f))
      && |c.members| == |of| && (forall k :: 0 <= k < |of| ==> c.members[k] == of[k].wallet)
  {
    forall f
      ensures Enough(token, wallets, funding, f, t.minCluster) <==>
        Qualifies(EligibleFrom(Filter(wallets, RealOf(token)), funding), t.minCluster, f)
      ensures StandFor(MembersOf(EligibleFrom(Filter(wallets, RealOf(token)), funding), f),
                       FundedWallets(token, wallets, funding, f), funding)
    {
      EnoughIff(token, wallets, funding, f, t.minCluster);
      MembersStandFor(token, wallets, funding, f);
    }
  }

  /** So no member is known by a type of shared infrastructure, and each was observed on
      the token, not simulated, with the anchor as the funder of its last record. */
  lemma NoSharedMember(token: string, wallets: seq<Wallet>, funding: seq<Funding>, t: Thresholds, o: Observation,
                       member: string, f: Funding)
    requires Observes(token, wallets, funding, t, o) && o.cluster.Some? && member in o.cluster.value.members
    requires IsLastRecord(funding, member, f)
    ensures f.resolved && f.funder == Some(o.cluster.value.anchor) && !SharedType(f.funderType)
    ensures exists w :: w in wallets && w.wallet == member && !w.sim && w.token == token
  {
    MembersAre(token, wallets, funding, t, o);
    var c := o.cluster.value;
    var of := FundedWallets(token, wallets, funding, c.anchor);
    var k :| 0 <= k < |c.members| && c.members[k] == member;
    assert of[k] in of && of[k] in wallets && IsFundedBy(of[k], token, funding, c.anchor);
    LastRecordIff(funding, member, f);
    var g :| IsLastRecord(funding, member, g) && g.resolved && g.funder == Some(c.anchor) && !SharedType(g.funderType);
    LastRecordIff(funding, member, g);
  }

  function At(wallet: string): Wallet -> bool { (w: Wallet) => w.wallet == wallet }

  lemma {:induction false} CountsEach(of: seq<Wallet>, members: seq<string>, wallet: string)
    requires |members| == |of| && forall k :: 0 <= k < |of| ==> members[k] == of[k].wallet
    ensures multiset(members)[wallet] == |Filter(of, At(wallet))|
  {
    if of != [] {
      CountsEach(of[1..], members[1..], wallet);
      assert members == [members[0]] + members[1..];
    }
  }

  lemma {:induction false} FilterTwice(s: seq<Wallet>, p: Wallet -> bool, q: Wallet -> bool, both: Wallet -> bool)
    requires forall w :: both(w) <==> p(w) && q(w)
    ensures Filter(Filter(s, p), q) == Filter(s, both)
  {
    if s != [] {
      FilterTwice(s[1..], p, q, both);
    }
  }

  ghost function FundedAt(wallet: string, token: string, funding: seq<Funding>, funder: string): Wallet -> bool {
    (w: Wallet) => w.wallet == wallet && IsFundedBy(w, token, funding, funder)
  }

  /** And each wallet is a member as often as it is observed on the token, not simulated,
      if its last record is resolved, names the anchor and has no type of shared
      infrastructure - and else never. */
  lemma MemberEachTime(token: string, wallets: seq<Wallet>, funding: seq<Funding>, t: Thresholds, o: Observation,
                       wallet: string)
    requires Observes(token, wallets, funding, t, o) && o.cluster.Some?
    ensures multiset(o.cluster.value.members)[wallet]
         == |Filter(wallets, FundedAt(wallet, token, funding, o.cluster.value.anchor))|
  {
    MembersAre(token, wallets, funding, t, o);
    var c := o.cluster.value;
    CountsEach(FundedWallets(token, wallets, funding, c.anchor), c.members, wallet);
    FilterTwice(wallets, Funded(token, funding, c.anchor), At(wallet), FundedAt(wallet, token, funding, c.anchor));
  }

  /** Without a cluster the observation says whether a real wallet's funding was unknown. */
  lemma NothingReported(token: string, wallets: seq<Wallet>, funding: seq<Funding>, t: Thresholds, o: Observation)
    requires Observes(token, wallets, funding, t, o) && o.cluster.None?
    ensures o.status == INSUFFICIENT <==>
      exists w :: w in wallets && !w.sim && w.token == token && !Known(funding, w.wallet)
    ensures o.status == INSUFFICIENT || o.status == NOTHING
  {
    forall w: string ensures Known(funding, w) <==> !Unresolved(LastFunding(funding, w)) {
      KnownIff(funding, w);
    }
    var actual := Filter(wallets, RealOf(token));
    if SawInsufficient(actual, funding) {
      var w :| w in actual && Unresolved(LastFunding(funding, w.wallet));
      assert RealOf(token)(w) && w in wallets;
    }
    if w :| w in wallets && !w.sim && w.token == token && !Known(funding, w.wallet) {
      assert RealOf(token)(w) && w in actual;
    }
  }

  // ------------------------------------------------------------------
  // What it says of them
  // ------------------------------------------------------------------

  /** The greatest distance between two of the times, when all are known. */
  ghost predicate IsWindow(window: Option<int>, times: seq<Option<int>>) {
    && (window.None? <==> None in times)
    && (window.Some? ==>
          && (exists a, b :: Some(a) in times && Some(b) in times && window.value == a - b)
          && (forall a, b :: Some(a) in times && Some(b) in times ==> a - b <= window.value))
  }

  lemma WindowOfIs(times: seq<Option<int>>)
    requires times != []
    ensures IsWindow(WindowOf(times), times)
  {
    PresentIs(times);
    if None !in times {
      var present := AllPresent(times).value;
      LeastIs(present);
      GreatestIs(present);
      assert Some(Greatest(present)) in times && Some(Least(present)) in times;
    }
  }

  function SharesOf(wallets: seq<Wallet>): real {
    if wallets == [] then 0.0
    else
      var share := wallets[|wallets| - 1].supplyShare;
      SharesOf(wallets[..|wallets| - 1]) + if share.Some? then share.value else 0.0
  }

  lemma {:induction false} SharesStandFor(members: seq<Eligible>, wallets: seq<Wallet>, funding: seq<Funding>)
    requires StandFor(members, wallets, funding)
    ensures SupplySum(members) == SharesOf(wallets)
    decreases |members|
  {
    if members != [] {
      SharesStandFor(members[..|members| - 1], wallets[..|wallets| - 1], funding);
    }
  }

  /** The times at which the observed wallets were funded by their last records. */
  ghost predicate AreFundingTimes(times: seq<Option<int>>, of: seq<Wallet>, funding: seq<Funding>) {
    |times| == |of|
    && forall k, f :: 0 <= k < |of| && IsLastRecord(funding, of[k].wallet, f) ==> times[k] == f.fundingTime
  }

  ghost predicate AreEntryTimes(times: seq<Option<int>>, of: seq<Wallet>) {
    |times| == |of| && forall k :: 0 <= k < |of| ==> times[k] == of[k].entryTime
  }

  lemma TimesStandFor(members: seq<Eligible>, of: seq<Wallet>, funding: seq<Funding>)
    requires StandFor(members, of, funding)
    ensures AreFundingTimes(FundingTimes(members), of, funding) && AreEntryTimes(EntryTimes(members), of)
    ensures None in Shares(members) <==> exists k :: 0 <= k < |of| && of[k].supplyShare.None?
  {
    forall k, f | 0 <= k < |of| && IsLastRecord(funding, of[k].wallet, f)
      ensures members[k].fundingTime == f.fundingTime
    {
      LastRecordIff(funding, of[k].wallet, f);
    }
    assert forall k :: 0 <= k < |of| ==> Shares(members)[k] == of[k].supplyShare;
  }

  /** The windows span the times of the last records and of the observations, the supply is
      the sum of the shares, each only when all are known, and the cluster is observed when
      all entry times are. */
  lemma ReportIs(token: string, wallets: seq<Wallet>, funding: seq<Funding>, t: Thresholds, o: Observation)
      returns (fundedAt: seq<Option<int>>, enteredAt: seq<Option<int>>)
    requires Observes(token, wallets, funding, t, o) && o.cluster.Some?
    ensures var c := o.cluster.value;
      var of := FundedWallets(token, wallets, funding, c.anchor);
      && AreFundingTimes(fundedAt, of, funding) && IsWindow(c.fundingWindow, fundedAt)
      && AreEntryTimes(enteredAt, of) && IsWindow(c.entryWindow, enteredAt)
      && (c.supply.None? <==> exists k :: 0 <= k < |of| && of[k].supplyShare.None?)
      && (c.supply.Some? ==> c.supply.value == SharesOf(of))
      && o.status == (if None in enteredAt then CANDIDATE else OBSERVED)
  {
    var anchor := o.cluster.value.anchor;
    var of := FundedWallets(token, wallets, funding, anchor);
    var eligible := EligibleFrom(Filter(wallets, RealOf(token)), funding);
    var members := MembersOf(eligible, anchor);
    MembersStandFor(token, wallets, funding, anchor);
    FundedHasMembers(eligible, anchor);
    TimesStandFor(members, of, funding);
    fundedAt, enteredAt := FundingTimes(members), EntryTimes(members);
    WindowOfIs(fundedAt);
    WindowOfIs(enteredAt);
    PresentIs(enteredAt);
    SupplyIsSum(members);
    SharesStandFor(members, of, funding);
  }

  // ------------------------------------------------------------------
  // Case and white space of a type
  // ------------------------------------------------------------------

  /** The same record but for the case of its type and the white space around it. */
  ghost predicate SameButText(f: Funding, g: Funding) {
    && g == f.(funderType := g.funderType)
    && (f.funderType.Some? <==> g.funderType.Some?)
    && (f.funderType.Some? ==> SameText(f.funderType.value, g.funderType.value))
  }

  ghost predicate SameButTexts(funding: seq<Funding>, other: seq<Funding>) {
    |funding| == |other| && forall i :: 0 <= i < |funding| ==> SameButText(funding[i], other[i])
  }

  lemma {:induction false} LastSameButText(funding: seq<Funding>, other: seq<Funding>, wallet: string)
    requires SameButTexts(funding, other)
    ensures LastFunding(funding, wallet).Some? <==> LastFunding(other, wallet).Some?
    ensures LastFunding(funding, wallet).Some? ==>
      SameButText(LastFunding(funding, wallet).value, LastFunding(other, wallet).value)
    decreases |funding|
  {
    if funding != [] && funding[|funding| - 1].wallet != wallet {
      LastSameButText(funding[..|funding| - 1], other[..|other| - 1], wallet);
    }
  }

  lemma {:induction false} EligibleSameButText(wallets: seq<Wallet>, funding: seq<Funding>, other: seq<Funding>)
    requires SameButTexts(funding, other)
    ensures EligibleFrom(wallets, funding) == EligibleFrom(wallets, other)
    decreases |wallets|
  {
    if wallets != [] {
      var n := |wallets| - 1;
      EligibleSameButText(wallets[..n], funding, other);
      LastSameButText(funding, other, wallets[n].wallet);
      var f, g := LastFunding(funding, wallets[n].wallet), LastFunding(other, wallets[n].wallet);
      if f.Some? && f.value.funderType.Some? {
        SameTextIff(f.value.funderType.value, g.value.funderType.value);
      }
    }
  }

  /** A type differing only in case or in the white space around it changes nothing. */
  lemma CaseAndSpaceIgnored(token: string, wallets: seq<Wallet>, funding: seq<Funding>, other: seq<Funding>,
                            t: Thresholds, o: Observation)
    requires SameButTexts(funding, other)
    ensures Observes(token, wallets, funding, t, o) <==> Observes(token, wallets, other, t, o)
  {
    var actual := Filter(wallets, RealOf(token));
    EligibleSameButText(actual, funding, other);
    forall w: string ensures Unresolved(LastFunding(funding, w)) <==> Unresolved(LastFunding(other, w)) {
      LastSameButText(funding, other, w);
    }
    assert SawInsufficient(actual, funding) <==> SawInsufficient(actual, other);
  }
}
