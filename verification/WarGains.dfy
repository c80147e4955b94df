/** The other way round: what a better reading of a token does to its composite score, and
    what the composite is when every index is there. */
module WarGains {
  import opened Numbers
  import opened Results
  import opened WarIndices

  /** The same, or turned from not done to done. */
  predicate Done(a: Option<bool>, b: Option<bool>) { a == b || (a == Some(false) && b == Some(true)) }

  /** A count that does not fall. */
  predicate MoreOf(a: Option<real>, b: Option<real>) { NoLess(a, b) && (a.Some? ==> a.value >= 0.0) }

  /** `j` differs from `i` only for the better: authorities given up, more locked or burned,
      lower taxes, no wash trading, more liquidity, more buys, more notable holders. */
  predicate Better(i: IndexInputs, j: IndexInputs) {
    && Done(i.renounced, j.renounced) && Done(i.openSource, j.openSource)
    && Done(i.renouncedMint, j.renouncedMint) && Done(i.renouncedFreeze, j.renouncedFreeze)
    && Done(j.washTrading, i.washTrading)
    && NoLess(i.lockPercent, j.lockPercent) && NoLess(i.burnRatio, j.burnRatio)
    && NoLess(j.buyTax, i.buyTax) && NoLess(j.sellTax, i.sellTax)
    && NoLess(i.liquidity, j.liquidity) && NoLess(i.smartMoney, j.smartMoney) && NoLess(i.renowned, j.renowned)
    && MoreOf(i.buys, j.buys) && MoreOf(i.sells, i.sells)
    && j == i.(renounced := j.renounced, openSource := j.openSource, renouncedMint := j.renouncedMint,
               renouncedFreeze := j.renouncedFreeze, washTrading := j.washTrading, lockPercent := j.lockPercent,
               burnRatio := j.burnRatio, buyTax := j.buyTax, sellTax := j.sellTax, liquidity := j.liquidity,
               smartMoney := j.smartMoney, renowned := j.renowned, buys := j.buys)
  }

  /** No lower contribution and no lower ceiling; one that was absent may appear, at its best. */
  predicate NoWorse(x: WarIndex, y: WarIndex) {
    && x.key == y.key && x.fatal == y.fatal && CapOf(x) <= CapOf(y)
    && (Weight(x.key) > 0 && x.score.Some? ==> y.score.Some? && Value(x) <= Value(y) && Value(x) <= 100)
    && (Weight(x.key) > 0 && x.score.None? && y.score.Some? ==> Value(y) == 100)
  }

  // ------------------------------------------------------------------
  // Each index
  // ------------------------------------------------------------------

  lemma PointsNoWorse(i: IndexInputs, j: IndexInputs)
    requires Better(i, j)
    ensures Points(i) <= Points(j) && MaxPoints(i) == MaxPoints(j)
    ensures RugAuthorityLive(j) ==> RugAuthorityLive(i)
  {
  }

  lemma IntegrityNoWorse(i: IndexInputs, j: IndexInputs)
    requires Better(i, j)
    ensures NoWorse(IntegrityOf(i), IntegrityOf(j))
  {
    PointsNoWorse(i, j);
    if MaxPoints(i) > 0 {
      var m := MaxPoints(i) as real;
      DivideMonotone(Points(i) as real, Points(j) as real, m);
      RoundMonotone(Clamp(Points(i) as real / m * 100.0), Clamp(Points(j) as real / m * 100.0));
    }
  }

  lemma AbsorptionNoWorse(i: IndexInputs, j: IndexInputs)
    requires Better(i, j)
    ensures NoWorse(AbsorptionIndex(i), AbsorptionIndex(j))
  {
    if AbsorptionIndex(i).score.Some? {
      var m := i.marketCap.value;
      DivideMonotone(i.liquidity.value, j.liquidity.value, m);
      RoundMonotone(Clamp(i.liquidity.value / m / 0.20 * 100.0), Clamp(j.liquidity.value / m / 0.20 * 100.0));
    }
  }

  lemma ConvictionNoWorse(i: IndexInputs, j: IndexInputs)
    requires Better(i, j)
    ensures NoWorse(ConvictionIndex(i), ConvictionIndex(j))
  {
    if ConvictionIndex(i).score.Some? {
      var h := i.holders.value;
      var a, b := Or(i.smartMoney, 0.0) + Or(i.renowned, 0.0) * 1.5, Or(j.smartMoney, 0.0) + Or(j.renowned, 0.0) * 1.5;
      DivideMonotone(a, b, h);
      RoundMonotone(Clamp(a / h * 100.0 * 12.0), Clamp(b / h * 100.0 * 12.0));
    }
  }

  lemma WashHalves(b: real, r: real)
    ensures Discounted(b, r, 0.5) <= Discounted(b, r, 1.0)
  {
    var share := 100.0 * b * r;
    assert share * 1.0 == share && share >= 0.0 ==> share * 0.5 <= share;
  }

  lemma OrganicNoWorse(i: IndexInputs, j: IndexInputs)
    requires Better(i, j)
    ensures NoWorse(OrganicIndex(i), OrganicIndex(j))
  {
    if OrganicIndex(i).score.Some? {
      WashHalves(1.0 - Or(i.botRate, 0.0), 1.0 - Or(i.ratTraderRate, 0.0));
      RoundMonotone(OrganicShare(i), OrganicShare(j));
    }
  }

  lemma NonNegativeFactor(a: real, b: real)
    requires a * b >= 0.0 && b > 0.0
    ensures a >= 0.0
  {
  }

  /** Of more buys against as many sells a greater part is buys. */
  lemma BuyShareGrows(b: real, c: real, s: real)
    requires 0.0 <= b <= c && s >= 0.0 && b + s > 0.0
    ensures b / (b + s) <= c / (c + s)
  {
    var t, u := b + s, c + s;
    var p, q := b / t, c / u;
    assert p * t == b && q * u == c;
    assert (q - p) * (t * u) == c * t - b * u == (c - b) * s;
    assert (c - b) * s >= 0.0 && t * u > 0.0;
    NonNegativeFactor(q - p, t * u);
  }

  lemma FlowNoWorse(i: IndexInputs, j: IndexInputs)
    requires Better(i, j)
    ensures NoWorse(FlowIndex(i), FlowIndex(j))
  {
    if i.buys.Some? && i.sells.Some? {
      var b, c, s := i.buys.value, j.buys.value, i.sells.value;
      if b + s > 0.0 {
        BuyShareGrows(b, c, s);
        RoundMonotone(Clamp(b / (b + s) * 100.0), Clamp(c / (c + s) * 100.0));
      } else if c > 0.0 {
        Cancel(1.0, c);
        assert c / (c + s) == 1.0;
      }
    }
  }

  // ------------------------------------------------------------------
  // The blend
  // ------------------------------------------------------------------

  /** What contributes to both does so no less, and what appears contributes its best. */
  lemma {:induction false} BlendRises(x: seq<WarIndex>, y: seq<WarIndex>)
    requires |x| == |y| && forall k :: 0 <= k < |x| ==> NoWorse(x[k], y[k])
    ensures WeightSum(x) <= WeightSum(y)
    ensures WeightedSum(y) >= WeightedSum(x) + 100 * (WeightSum(y) - WeightSum(x))
    ensures WeightedSum(x) <= 100 * WeightSum(x)
    ensures x != [] ==> LowestCap(x) <= LowestCap(y)
    decreases |x|
  {
    if x != [] {
      var n := |x| - 1;
      BlendRises(x[..n], y[..n]);
      assert NoWorse(x[n], y[n]);
      if Contributes(x[n]) {
        Scale(Value(x[n]), Value(y[n]), Weight(x[n].key));
        Scale(Value(x[n]), 100, Weight(x[n].key));
      }
    }
  }

  /** An average to which the best is added does not fall. */
  lemma AverageRises(sum: int, w: int, more: int, v: int)
    requires 0 < w <= v && more >= sum + 100 * (v - w) && sum <= 100 * w
    ensures sum as real / w as real <= more as real / v as real
  {
    var p, q, e := w as real, v as real, (v - w) as real;
    var s, m := sum as real, more as real;
    assert m >= s + 100.0 * e && s <= 100.0 * p && q == p + e;
    var a := s / p;
    assert a * p == s;
    assert (100.0 - a) * p == 100.0 * p - s;
    NonNegativeFactor(100.0 - a, p);
    assert (100.0 - a) * e >= 0.0;
    assert a * q == s + a * e;
    DivideMonotone(a * q, m, q);
    Cancel(a, q);
  }

  lemma BlendNeverFalls(x: seq<WarIndex>, y: seq<WarIndex>)
    requires x != [] && |x| == |y| && forall k :: 0 <= k < |x| ==> NoWorse(x[k], y[k])
    ensures ScoreOf(x).Some? ==> ScoreOf(y).Some? && ScoreOf(x).value <= ScoreOf(y).value
  {
    BlendRises(x, y);
    assert forall k :: 0 <= k < |x| ==> x[k].key == y[k].key && x[k].fatal == y[k].fatal;
    assert Fatal(x) <==> Fatal(y);
    if WeightSum(x) > 0 {
      AverageRises(WeightedSum(x), WeightSum(x), WeightedSum(y), WeightSum(y));
      RoundMonotone(WeightedSum(x) as real / WeightSum(x) as real, WeightedSum(y) as real / WeightSum(y) as real);
    }
  }

  lemma OthersNoWorse(i: IndexInputs, j: IndexInputs)
    requires Better(i, j)
    ensures NoWorse(ConcentrationIndex(i), ConcentrationIndex(j)) && NoWorse(SniperIndex(i), SniperIndex(j))
    ensures NoWorse(TurnoverIndex(i), TurnoverIndex(j)) && NoWorse(AthIndex(i), AthIndex(j))
  {
    assert ConcentrationIndex(i) == ConcentrationIndex(j) && SniperIndex(i) == SniperIndex(j);
  }

  /** A better reading never lowers the score: not more buys, liquidity or notable holders,
      not an authority given up, a larger lock or burn, a lower tax or an end of wash trading. */
  lemma BetterNeverLowers(i: IndexInputs, j: IndexInputs)
    requires Better(i, j)
    ensures Score(i).Some? ==> Score(j).Some? && Score(i).value <= Score(j).value
  {
    forall k | 0 <= k < 9 ensures NoWorse(Indices(i)[k], Indices(j)[k]) {
      if k == 0 {
        IntegrityNoWorse(i, j);
      } else if k == 2 {
        AbsorptionNoWorse(i, j);
      } else if k == 3 {
        OrganicNoWorse(i, j);
      } else if k == 5 {
        ConvictionNoWorse(i, j);
      } else if k == 6 {
        FlowNoWorse(i, j);
      } else {
        OthersNoWorse(i, j);
      }
    }
    BlendNeverFalls(Indices(i), Indices(j));
  }

  // ------------------------------------------------------------------
  // All seven
  // ------------------------------------------------------------------

  /** The index contributes `v`, with the given weight. */
  predicate Adds(x: WarIndex, v: int, weight: nat) {
    Weight(x.key) == weight && (weight > 0 ==> x.score.Some? && Value(x) == v)
  }

  lemma OneMoreIndex(x: seq<WarIndex>, n: nat, v: int, weight: nat)
    requires n < |x| && Adds(x[n], v, weight)
    ensures WeightedSum(x[..n + 1]) == WeightedSum(x[..n]) + v * weight
    ensures WeightSum(x[..n + 1]) == WeightSum(x[..n]) + weight
  {
    assert x[..n + 1][..n] == x[..n];
  }

  lemma NineIndices(x: seq<WarIndex>, a: int, b: int, c: int, d: int, e: int, f: int, g: int)
    requires |x| == 9 && Adds(x[0], a, 22) && Adds(x[1], b, 20) && Adds(x[2], c, 18) && Adds(x[3], d, 15)
    requires Adds(x[4], e, 10) && Adds(x[5], f, 8) && Adds(x[6], g, 7) && Adds(x[7], 0, 0) && Adds(x[8], 0, 0)
    ensures WeightSum(x) == 100
    ensures WeightedSum(x) == 22 * a + 20 * b + 18 * c + 15 * d + 10 * e + 8 * f + 7 * g
  {
    OneMoreIndex(x, 0, a, 22);
    OneMoreIndex(x, 1, b, 20);
    OneMoreIndex(x, 2, c, 18);
    OneMoreIndex(x, 3, d, 15);
    OneMoreIndex(x, 4, e, 10);
    OneMoreIndex(x, 5, f, 8);
    OneMoreIndex(x, 6, g, 7);
    OneMoreIndex(x, 7, 0, 0);
    OneMoreIndex(x, 8, 0, 0);
    assert x[..9] == x && x[..0] == [];
  }

  lemma ScoreIsMean(x: seq<WarIndex>)
    requires x != [] && WeightSum(x) == 100 && !Fatal(x)
    requires forall k :: 0 <= k < |x| ==> InRange(x[k]) && CapOf(x[k]) == 100
    ensures ScoreOf(x) == Some(Hundredths(WeightedSum(x)))
  {
    CapsAtLeast(x, 100);
    BlendBetween(x, 0, 100);
    RoundBetween(WeightedSum(x), 100, 0, 100);
  }

  /** Round, as half up, of a sum in hundredths. */
  function Hundredths(sum: int): int { (sum as real / 100.0 + 0.5).Floor }

  lemma NineBlend(x: seq<WarIndex>, a: int, b: int, c: int, d: int, e: int, f: int, g: int)
    requires |x| == 9 && Adds(x[0], a, 22) && Adds(x[1], b, 20) && Adds(x[2], c, 18) && Adds(x[3], d, 15)
    requires Adds(x[4], e, 10) && Adds(x[5], f, 8) && Adds(x[6], g, 7) && Adds(x[7], 0, 0) && Adds(x[8], 0, 0)
    requires forall k :: 0 <= k < 9 ==> InRange(x[k]) && CapOf(x[k]) == 100 && !x[k].fatal
    ensures ScoreOf(x) == Some(Hundredths(22 * a + 20 * b + 18 * c + 15 * d + 10 * e + 8 * f + 7 * g))
  {
    NineIndices(x, a, b, c, d, e, f, g);
    ScoreIsMean(x);
  }

  /** With all seven weighted indices there, no ceiling and no honeypot, the composite is
      their weighted mean in hundredths, concentration and snipers turned round. */
  lemma FullBlend(i: IndexInputs, integrity: int, concentration: int, absorption: int, organic: int, snipers: int,
                  conviction: int, flow: int)
    requires IntegrityOf(i).score == Some(integrity) && ConcentrationIndex(i).score == Some(concentration)
    requires AbsorptionIndex(i).score == Some(absorption) && OrganicIndex(i).score == Some(organic)
    requires SniperIndex(i).score == Some(snipers) && ConvictionIndex(i).score == Some(conviction)
    requires FlowIndex(i).score == Some(flow) && i.honeypot != Some(true) && !RugAuthorityLive(i)
    ensures Score(i) == Some(Hundredths(22 * integrity + 20 * (100 - concentration) + 18 * absorption + 15 * organic
                                        + 10 * (100 - snipers) + 8 * conviction + 7 * flow))
  {
    var x := Indices(i);
    forall k: nat | k < 9 ensures InRange(x[k]) && CapOf(x[k]) == 100 && !x[k].fatal {
      IndicesInRange(i, k);
    }
    NineBlend(x, integrity, 100 - concentration, absorption, organic, 100 - snipers, conviction, flow);
  }
}
