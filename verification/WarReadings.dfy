/** The readings of a token told from its inputs, and which of them are reported. */
module WarReadings {
  import opened Numbers
  import opened Results
  import opened StableSort
  import opened WarIndices

  /** A reading is the nearest whole number, half up, to a figure kept between 0 and 100. */
  predicate Reads(x: WarIndex, figure: real) {
    x.score.Some? &&
    var kept := if figure < 0.0 then 0.0 else if figure > 100.0 then 100.0 else figure;
    x.score.value as real - 0.5 <= kept < x.score.value as real + 0.5
  }

  predicate Positive(v: Option<real>) { v.Some? && v.value > 0.0 }

  /** What is present of it. */
  function Given(v: Option<real>): real { if v.Some? then v.value else 0.0 }

  /** What is left once a share is taken off. */
  function Rest(v: Option<real>): real { 1.0 - Given(v) }

  /** Concentration and snipers are risks: each figure is a weighted sum of rates. */
  lemma RisksRead(i: IndexInputs)
    ensures i.top10Rate.Some? ==>
      Reads(ConcentrationIndex(i), 45.0 * Given(i.top10Rate) + 25.0 * Given(i.devHoldRate)
                                   + 20.0 * Given(i.top70SniperRate) + 10.0 * Given(i.bundlerRate))
    ensures i.sniperCount.Some? && Positive(i.holders) ==>
      Reads(SniperIndex(i), i.sniperCount.value / i.holders.value * 600.0 + 100.0 * Given(i.top70SniperRate))
    ensures ConcentrationIndex(i).score.Some? <==> i.top10Rate.Some?
    ensures SniperIndex(i).score.Some? <==> i.sniperCount.Some? && Positive(i.holders)
    ensures !ConcentrationIndex(i).higherIsBetter && !SniperIndex(i).higherIsBetter
  {
  }

  /** What is genuine of all activity, in hundredths. */
  function Genuine(notBot: real, notRat: real, wash: real): real { 100.0 * notBot * notRat * wash }

  lemma DiscountReads(b: real, r: real, wash: real)
    ensures Reads(Scored(ORGANIC, Discounted(b, r, wash), true), Genuine(b, r, wash))
  {
  }

  /** The organic share is what bots and rat traders leave, halved by wash trading. */
  lemma OrganicRead(i: IndexInputs)
    ensures i.botRate.Some? || i.ratTraderRate.Some? || i.washTrading.Some? ==>
      Reads(OrganicIndex(i),
            Genuine(Rest(i.botRate), Rest(i.ratTraderRate), if i.washTrading == Some(true) then 0.5 else 1.0))
    ensures OrganicIndex(i).score.Some? <==> i.botRate.Some? || i.ratTraderRate.Some? || i.washTrading.Some?
  {
    DiscountReads(Rest(i.botRate), Rest(i.ratTraderRate), if i.washTrading == Some(true) then 0.5 else 1.0);
  }

  /** Absorption is full with liquidity of a fifth of the market cap. */
  lemma MarketRead(i: IndexInputs)
    ensures i.liquidity.Some? && Positive(i.marketCap) ==>
      Reads(AbsorptionIndex(i), i.liquidity.value / i.marketCap.value * 500.0)
    ensures i.marketCap.Some? && Positive(i.athMarketCap) ==>
      Reads(AthIndex(i), i.marketCap.value / i.athMarketCap.value * 100.0)
    ensures AbsorptionIndex(i).score.Some? <==> i.liquidity.Some? && Positive(i.marketCap)
    ensures AthIndex(i).score.Some? <==> i.marketCap.Some? && Positive(i.athMarketCap)
  {
    if i.liquidity.Some? && Positive(i.marketCap) {
      var q := i.liquidity.value / i.marketCap.value;
      assert q / 0.20 * 100.0 == q * 500.0;
    }
  }

  /** Conviction counts notable holders among all, flow the buys among the trades; turnover
      is full from 3 to 15 trades a holder. */
  lemma ActivityRead(i: IndexInputs)
    ensures (i.smartMoney.Some? || i.renowned.Some?) && Positive(i.holders) ==>
      Reads(ConvictionIndex(i), (Given(i.smartMoney) + 1.5 * Given(i.renowned)) / i.holders.value * 1200.0)
    ensures i.buys.Some? && i.sells.Some? && i.buys.value + i.sells.value != 0.0 ==>
      Reads(FlowIndex(i), i.buys.value / (i.buys.value + i.sells.value) * 100.0)
    ensures i.buys.Some? && i.sells.Some? && Positive(i.holders) ==>
      var trades := (i.buys.value + i.sells.value) / i.holders.value;
      Reads(TurnoverIndex(i), if trades < 3.0 then trades / 3.0 * 100.0
                              else if trades <= 15.0 then 100.0 else 100.0 - 3.0 * (trades - 15.0))
    ensures ConvictionIndex(i).score.Some? <==> (i.smartMoney.Some? || i.renowned.Some?) && Positive(i.holders)
    ensures FlowIndex(i).score.Some? <==> i.buys.Some? && i.sells.Some? && i.buys.value + i.sells.value != 0.0
    ensures TurnoverIndex(i).score.Some? <==> i.buys.Some? && i.sells.Some? && Positive(i.holders)
  {
    if (i.smartMoney.Some? || i.renowned.Some?) && Positive(i.holders) {
      var q := (Given(i.smartMoney) + Given(i.renowned) * 1.5) / i.holders.value;
      assert Given(i.renowned) * 1.5 == 1.5 * Given(i.renowned);
      assert q * 100.0 * 12.0 == q * 1200.0;
    }
  }

  /** What the checks that are done earn. */
  function Earned(i: IndexInputs): nat {
    (if i.renounced == Some(true) then 20 else 0) + (if i.openSource == Some(true) then 20 else 0)
    + (if i.renouncedMint == Some(true) then 15 else 0) + (if i.renouncedFreeze == Some(true) then 15 else 0)
    + (if Given(i.lockPercent) >= 0.5 || Given(i.burnRatio) >= 0.5 then 20 else 0)
    + (if (i.buyTax.Some? || i.sellTax.Some?) && Given(i.buyTax) <= 0.05 && Given(i.sellTax) <= 0.05 then 10 else 0)
  }

  /** What the checks that can be made could earn. */
  function Possible(i: IndexInputs): nat {
    (if i.renounced.Some? then 20 else 0) + (if i.openSource.Some? then 20 else 0)
    + (if i.renouncedMint.Some? then 15 else 0) + (if i.renouncedFreeze.Some? then 15 else 0)
    + (if i.lockPercent.Some? || i.burnRatio.Some? then 20 else 0)
    + (if i.buyTax.Some? || i.sellTax.Some? then 10 else 0)
  }

  /** Integrity is 0 and fatal for a honeypot; otherwise what is earned of what could be, a
      live mint or freeze authority capping the score.  Taxes alone do not make a reading. */
  lemma IntegrityRead(i: IndexInputs)
    ensures var beyondTaxes := i.renounced.Some? || i.openSource.Some? || i.renouncedMint.Some?
        || i.renouncedFreeze.Some? || i.lockPercent.Some? || i.burnRatio.Some?;
      && (IntegrityOf(i).score.Some? <==>
            i.honeypot == Some(true) || beyondTaxes || (i.honeypot.Some? && Possible(i) > 0))
      && (i.honeypot == Some(true) ==> IntegrityOf(i).score == Some(0) && IntegrityOf(i).fatal)
      && (i.honeypot != Some(true) ==>
            && !IntegrityOf(i).fatal
            && (IntegrityOf(i).score.Some? ==>
                  Reads(IntegrityOf(i), Earned(i) as real / Possible(i) as real * 100.0))
            && (IntegrityOf(i).capsScoreAt == Some(45) <==>
                  i.renouncedMint == Some(false) || i.renouncedFreeze == Some(false)))
  {
    assert Earned(i) == Points(i) && Possible(i) == MaxPoints(i);
  }

  // ------------------------------------------------------------------
  // The findings
  // ------------------------------------------------------------------

  /** How bad a reading is: how far a good thing is from 100, or a bad one from 0. */
  function Badness(x: WarIndex): int
    requires x.score.Some?
  {
    if x.higherIsBetter then 100 - x.score.value else x.score.value
  }

  /** The readings with a score, the worst first. */
  function Ranked(indices: seq<WarIndex>): seq<WarIndex> { Sort(Filter(indices, HasScore()), MoreSevereFirst()) }

  lemma RankedIs(indices: seq<WarIndex>)
    ensures forall k :: 0 <= k < |Ranked(indices)| ==> Ranked(indices)[k].score.Some?
    ensures forall j, k :: 0 <= j < k < |Ranked(indices)| ==> Badness(Ranked(indices)[j]) >= Badness(Ranked(indices)[k])
  {
    var readings, ranked := Filter(indices, HasScore()), Ranked(indices);
    SortSorted(readings, MoreSevereFirst());
    SortMembers(readings, MoreSevereFirst());
    forall k | 0 <= k < |ranked| ensures ranked[k].score.Some? {
      assert ranked[k] in readings && HasScore()(ranked[k]);
    }
    forall j, k | 0 <= j < k < |ranked| ensures Badness(ranked[j]) >= Badness(ranked[k]) {
      assert MoreSevereFirst()(ranked[j], ranked[k]);
    }
  }

  lemma FirstOf(ranked: seq<WarIndex>, f: seq<WarIndex>, readings: seq<WarIndex>)
    requires f <= ranked && multiset(ranked) == multiset(readings)
    ensures multiset(f) <= multiset(readings)
  {
    assert ranked == f + ranked[|f|..];
  }

  lemma LeftBehind(ranked: seq<WarIndex>, n: nat, left: WarIndex) returns (k: nat)
    requires n <= |ranked| && left in ranked && left !in ranked[..n]
    ensures n <= k < |ranked| && ranked[k] == left
  {
    k :| 0 <= k < |ranked| && ranked[k] == left;
    assert forall j :: 0 <= j < n ==> ranked[j] in ranked[..n];
  }

  /** The five worst readings, or all when there are fewer, the worst first: each is a reading
      that has a score, and none twice. */
  lemma FindingsAre(indices: seq<WarIndex>)
    ensures var f: seq<WarIndex> := Findings(indices);
      var readings: seq<WarIndex> := Filter(indices, HasScore());
      && |f| == (if |readings| < 5 then |readings| else 5)
      && multiset(f) <= multiset(readings)
      && (forall k :: 0 <= k < |f| ==> f[k].score.Some?)
      && (forall j, k :: 0 <= j < k < |f| ==> Badness(f[j]) >= Badness(f[k]))
  {
    var readings, ranked, f := Filter(indices, HasScore()), Ranked(indices), Findings(indices);
    RankedIs(indices);
    assert f == ranked[..|f|];
    FirstOf(ranked, f, readings);
  }

  /** And none left out is worse than any listed. */
  lemma NoneWorseLeftOut(indices: seq<WarIndex>, left: WarIndex)
    requires left in indices && left.score.Some? && left !in Findings(indices)
    ensures var f: seq<WarIndex> := Findings(indices);
      forall k :: 0 <= k < |f| ==> f[k].score.Some? && Badness(f[k]) >= Badness(left)
  {
    var readings, ranked, f := Filter(indices, HasScore()), Ranked(indices), Findings(indices);
    RankedIs(indices);
    SortMembers(readings, MoreSevereFirst());
    assert f == ranked[..|f|];
    var n := LeftBehind(ranked, |f|, left);
  }
}
