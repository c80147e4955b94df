/** src/product/analysis/warIndices.ts: the signature indices of a token, and the
    composite score blended from them. */
module WarIndices {
  import opened Numbers
  import opened Results
  import opened StableSort

  /** A missing number is absent; a tax text is its parsed number, 0 when it has none. */
  datatype IndexInputs = IndexInputs(
    marketCap: Option<real>, liquidity: Option<real>, athMarketCap: Option<real>, holders: Option<real>,
    top10Rate: Option<real>, devHoldRate: Option<real>, top70SniperRate: Option<real>, bundlerRate: Option<real>,
    sniperCount: Option<real>, botRate: Option<real>, ratTraderRate: Option<real>, washTrading: Option<bool>,
    honeypot: Option<bool>, renounced: Option<bool>, openSource: Option<bool>, renouncedMint: Option<bool>,
    renouncedFreeze: Option<bool>, lockPercent: Option<real>, burnRatio: Option<real>,
    buyTax: Option<real>, sellTax: Option<real>, buys: Option<real>, sells: Option<real>,
    smartMoney: Option<real>, renowned: Option<real>)

  datatype Key = INTEGRITY | CONCENTRATION | ABSORPTION | ORGANIC | SNIPERS | CONVICTION | FLOW | TURNOVER | ATH

  /** `fatal` is the honeypot display; `capsScoreAt` the ceiling on the composite. */
  datatype WarIndex = WarIndex(key: Key, score: Option<int>, higherIsBetter: bool, fatal: bool,
                               capsScoreAt: Option<int>)

  function Clamp(x: real): (r: real)
    ensures 0.0 <= r <= 100.0
  {
    Max(0.0, Min(100.0, x))
  }

  function Or(v: Option<real>, d: real): real { if v.Some? then v.value else d }

  function Scored(key: Key, score: real, higherIsBetter: bool): WarIndex {
    WarIndex(key, Some(Round(score)), higherIsBetter, false, None)
  }

  function Insufficient(key: Key, higherIsBetter: bool): WarIndex { WarIndex(key, None, higherIsBetter, false, None) }

  // ------------------------------------------------------------------
  // The indices
  // ------------------------------------------------------------------

  function AbsorptionIndex(i: IndexInputs): WarIndex {
    if i.liquidity.None? || i.marketCap.None? || i.marketCap.value <= 0.0 then Insufficient(ABSORPTION, true)
    else Scored(ABSORPTION, Clamp(i.liquidity.value / i.marketCap.value / 0.20 * 100.0), true)
  }

  function ConcentrationRisk(i: IndexInputs): real
    requires i.top10Rate.Some?
  {
    Clamp(i.top10Rate.value * 45.0 + Or(i.devHoldRate, 0.0) * 25.0 + Or(i.top70SniperRate, 0.0) * 20.0
          + Or(i.bundlerRate, 0.0) * 10.0)
  }

  function ConcentrationIndex(i: IndexInputs): WarIndex {
    if i.top10Rate.None? then Insufficient(CONCENTRATION, false) else Scored(CONCENTRATION, ConcentrationRisk(i), false)
  }

  /** What is left of the activity when each share that is genuine is taken of it. */
  function Discounted(notBot: real, notRat: real, wash: real): real { Clamp(100.0 * notBot * notRat * wash) }

  function OrganicShare(i: IndexInputs): real {
    Discounted(1.0 - Or(i.botRate, 0.0), 1.0 - Or(i.ratTraderRate, 0.0),
               if i.washTrading == Some(true) then 0.5 else 1.0)
  }

  function OrganicIndex(i: IndexInputs): WarIndex {
    if i.botRate.None? && i.ratTraderRate.None? && i.washTrading.None? then Insufficient(ORGANIC, true)
    else Scored(ORGANIC, OrganicShare(i), true)
  }

  function SniperLoad(i: IndexInputs): real
    requires i.sniperCount.Some? && i.holders.Some? && i.holders.value > 0.0
  {
    Clamp(i.sniperCount.value / i.holders.value * 100.0 * 6.0 + Or(i.top70SniperRate, 0.0) * 100.0)
  }

  function SniperIndex(i: IndexInputs): WarIndex {
    if i.sniperCount.None? || i.holders.None? || i.holders.value <= 0.0 then Insufficient(SNIPERS, false)
    else Scored(SNIPERS, SniperLoad(i), false)
  }

  function ConvictionIndex(i: IndexInputs): WarIndex {
    if i.smartMoney.None? && i.renowned.None? then Insufficient(CONVICTION, true)
    else if i.holders.None? || i.holders.value <= 0.0 then Insufficient(CONVICTION, true)
    else Scored(CONVICTION,
                Clamp((Or(i.smartMoney, 0.0) + Or(i.renowned, 0.0) * 1.5) / i.holders.value * 100.0 * 12.0), true)
  }

  function FlowIndex(i: IndexInputs): WarIndex {
    if i.buys.None? || i.sells.None? || i.buys.value + i.sells.value == 0.0 then Insufficient(FLOW, true)
    else Scored(FLOW, Clamp(i.buys.value / (i.buys.value + i.sells.value) * 100.0), true)
  }

  function AthIndex(i: IndexInputs): WarIndex {
    if i.marketCap.None? || i.athMarketCap.None? || i.athMarketCap.value <= 0.0 then Insufficient(ATH, true)
    else Scored(ATH, Clamp(i.marketCap.value / i.athMarketCap.value * 100.0), true)
  }

  function TurnoverIndex(i: IndexInputs): WarIndex {
    if i.buys.None? || i.sells.None? || i.holders.None? || i.holders.value <= 0.0 then Insufficient(TURNOVER, true)
    else
      var perHolder := (i.buys.value + i.sells.value) / i.holders.value;
      Scored(TURNOVER, if perHolder < 3.0 then Clamp(perHolder / 3.0 * 100.0)
                       else if perHolder <= 15.0 then 100.0 else Clamp(100.0 - (perHolder - 15.0) * 3.0), true)
  }

  // Contract integrity -------------------------------------------------

  predicate AnythingKnown(i: IndexInputs) {
    i.honeypot.Some? || i.renounced.Some? || i.openSource.Some? || i.renouncedMint.Some? || i.renouncedFreeze.Some?
  }

  predicate LpKnown(i: IndexInputs) { i.lockPercent.Some? || i.burnRatio.Some? }

  predicate LpSafe(i: IndexInputs) {
    (i.lockPercent.Some? && i.lockPercent.value >= 0.5) || (i.burnRatio.Some? && i.burnRatio.value >= 0.5)
  }

  predicate TaxKnown(i: IndexInputs) { i.buyTax.Some? || i.sellTax.Some? }

  predicate TaxLow(i: IndexInputs) { Max(Or(i.buyTax, 0.0), Or(i.sellTax, 0.0)) <= 0.05 }

  function Weighed(known: bool, w: nat): nat { if known then w else 0 }

  function Points(i: IndexInputs): nat {
    Weighed(i.renounced == Some(true), 20) + Weighed(i.openSource == Some(true), 20)
    + Weighed(i.renouncedMint == Some(true), 15) + Weighed(i.renouncedFreeze == Some(true), 15)
    + Weighed(LpKnown(i) && LpSafe(i), 20) + Weighed(TaxKnown(i) && TaxLow(i), 10)
  }

  function MaxPoints(i: IndexInputs): nat {
    Weighed(i.renounced.Some?, 20) + Weighed(i.openSource.Some?, 20)
    + Weighed(i.renouncedMint.Some?, 15) + Weighed(i.renouncedFreeze.Some?, 15)
    + Weighed(LpKnown(i), 20) + Weighed(TaxKnown(i), 10)
  }

  /** The developer can still mint or freeze. */
  predicate RugAuthorityLive(i: IndexInputs) { i.renouncedMint == Some(false) || i.renouncedFreeze == Some(false) }

  function IntegrityOf(i: IndexInputs): WarIndex {
    if !AnythingKnown(i) && !LpKnown(i) then Insufficient(INTEGRITY, true)
    else if i.honeypot == Some(true) then WarIndex(INTEGRITY, Some(0), true, true, None)
    else if MaxPoints(i) == 0 then Insufficient(INTEGRITY, true)
    else Scored(INTEGRITY, Clamp(Points(i) as real / MaxPoints(i) as real * 100.0), true)
         .(capsScoreAt := if RugAuthorityLive(i) then Some(45) else None)
  }

  method Checklist(i: IndexInputs) returns (pts: nat, max: nat)
    ensures pts == Points(i) && max == MaxPoints(i)
  {
    pts, max := 0, 0;
    var checks := [(i.renounced, 20), (i.openSource, 20), (i.renouncedMint, 15), (i.renouncedFreeze, 15)];
    for k := 0 to 4
      invariant pts == CheckPoints(checks[..k]) && max == CheckMax(checks[..k])
    {
      assert checks[..k + 1][..k] == checks[..k];
      if checks[k].0.Some? {
        max := max + checks[k].1;
        if checks[k].0.value {
          pts := pts + checks[k].1;
        }
      }
    }
    FourChecks(checks[0], checks[1], checks[2], checks[3]);
    assert checks[..4] == checks;
    if i.lockPercent.Some? || i.burnRatio.Some? {
      max := max + 20;
      if LpSafe(i) {
        pts := pts + 20;
      }
    }
    var tax := Max(Or(i.buyTax, 0.0), Or(i.sellTax, 0.0));
    if i.buyTax.Some? || i.sellTax.Some? {
      max := max + 10;
      if tax <= 0.05 {
        pts := pts + 10;
      }
    }
  }

  method IntegrityIndex(i: IndexInputs) returns (index: WarIndex)
    ensures index == IntegrityOf(i)
  {
    if !AnythingKnown(i) && i.lockPercent.None? && i.burnRatio.None? {
      return Insufficient(INTEGRITY, true);
    }
    if i.honeypot == Some(true) {
      return WarIndex(INTEGRITY, Some(0), true, true, None);
    }
    var pts, max := Checklist(i);
    if max == 0 {
      return Insufficient(INTEGRITY, true);
    }
    var score := Clamp(pts as real / max as real * 100.0);
    var live := i.renouncedMint == Some(false) || i.renouncedFreeze == Some(false);
    return WarIndex(INTEGRITY, Some(Round(score)), true, false, if live then Some(45) else None);
  }

  function CheckPoints(checks: seq<(Option<bool>, nat)>): nat {
    if checks == [] then 0
    else CheckPoints(checks[..|checks| - 1]) + Weighed(checks[|checks| - 1].0 == Some(true), checks[|checks| - 1].1)
  }

  function CheckMax(checks: seq<(Option<bool>, nat)>): nat {
    if checks == [] then 0
    else CheckMax(checks[..|checks| - 1]) + Weighed(checks[|checks| - 1].0.Some?, checks[|checks| - 1].1)
  }

  lemma FourChecks(a: (Option<bool>, nat), b: (Option<bool>, nat), c: (Option<bool>, nat), d: (Option<bool>, nat))
    ensures CheckPoints([a, b, c, d]) ==
      Weighed(a.0 == Some(true), a.1) + Weighed(b.0 == Some(true), b.1) + Weighed(c.0 == Some(true), c.1)
        + Weighed(d.0 == Some(true), d.1)
    ensures CheckMax([a, b, c, d]) ==
      Weighed(a.0.Some?, a.1) + Weighed(b.0.Some?, b.1) + Weighed(c.0.Some?, c.1) + Weighed(d.0.Some?, d.1)
  {
    var one, two, three, four := [a], [a, b], [a, b, c], [a, b, c, d];
    assert four[..|four| - 1] == three && three[..|three| - 1] == two && two[..|two| - 1] == one
      && one[..|one| - 1] == [];
    assert CheckPoints(two) == CheckPoints(one) + Weighed(b.0 == Some(true), b.1);
    assert CheckMax(two) == CheckMax(one) + Weighed(b.0.Some?, b.1);
  }

  // ------------------------------------------------------------------
  // The composite
  // ------------------------------------------------------------------

  /** The weight of an index in the blend; two of the nine have none. */
  function Weight(key: Key): nat {
    match key
    case INTEGRITY => 22
    case CONCENTRATION => 20
    case ABSORPTION => 18
    case ORGANIC => 15
    case SNIPERS => 10
    case CONVICTION => 8
    case FLOW => 7
    case TURNOVER => 0
    case ATH => 0
  }

  predicate Contributes(x: WarIndex) { Weight(x.key) > 0 && x.score.Some? }

  /** Risk indices are turned round. */
  function Value(x: WarIndex): int
    requires x.score.Some?
  {
    if x.higherIsBetter then x.score.value else 100 - x.score.value
  }

  function WeightedSum(indices: seq<WarIndex>): int {
    if indices == [] then 0
    else
      var x := indices[|indices| - 1];
      WeightedSum(indices[..|indices| - 1]) + if Contributes(x) then Value(x) * Weight(x.key) else 0
  }

  function WeightSum(indices: seq<WarIndex>): nat {
    if indices == [] then 0
    else
      var x := indices[|indices| - 1];
      WeightSum(indices[..|indices| - 1]) + if Contributes(x) then Weight(x.key) else 0
  }

  function CapOf(x: WarIndex): int { if x.capsScoreAt.Some? then x.capsScoreAt.value else 100 }

  function LowestCap(indices: seq<WarIndex>): int
    requires indices != []
  {
    if |indices| == 1 then CapOf(indices[0])
    else
      var c := CapOf(indices[|indices| - 1]);
      var before := LowestCap(indices[..|indices| - 1]);
      if c < before then c else before
  }

  predicate Fatal(indices: seq<WarIndex>) {
    exists k :: 0 <= k < |indices| && indices[k].key == INTEGRITY && indices[k].fatal
  }

  function ScoreOf(indices: seq<WarIndex>): Option<int>
    requires indices != []
  {
    if Fatal(indices) then Some(0)
    else if WeightSum(indices) == 0 then None
    else
      var raw := Round(WeightedSum(indices) as real / WeightSum(indices) as real);
      Some(if LowestCap(indices) < raw then LowestCap(indices) else raw)
  }

  /** A weighted index without a score. */
  predicate Missing(x: WarIndex) { Weight(x.key) > 0 && x.score.None? }

  function Keys(indices: seq<WarIndex>): (keys: seq<Key>)
    ensures |keys| == |indices| && forall k :: 0 <= k < |keys| ==> keys[k] == indices[k].key
  {
    seq(|indices|, k requires 0 <= k < |indices| => indices[k].key)
  }

  /** The keys of those that pass `p`, in order. */
  function KeysOf(indices: seq<WarIndex>, p: WarIndex -> bool): seq<Key> {
    if indices == [] then []
    else
      var x := indices[|indices| - 1];
      KeysOf(indices[..|indices| - 1], p) + if p(x) then [x.key] else []
  }

  lemma {:induction false} KeysOfFiltered(indices: seq<WarIndex>, p: WarIndex -> bool)
    ensures KeysOf(indices, p) == Keys(Filter(indices, p))
    decreases |indices|
  {
    if indices != [] {
      var n := |indices| - 1;
      KeysOfFiltered(indices[..n], p);
      assert indices == indices[..n] + [indices[n]];
      FilterAppend(indices[..n], [indices[n]], p);
    }
  }

  /** The lowest ceiling any index puts on the composite. */
  method HardCap(indices: seq<WarIndex>) returns (cap: int)
    requires indices != []
    ensures cap == LowestCap(indices)
  {
    cap := CapOf(indices[0]);
    for n := 1 to |indices|
      invariant cap == LowestCap(indices[..n])
    {
      assert indices[..n + 1][..n] == indices[..n];
      if CapOf(indices[n]) < cap {
        cap := CapOf(indices[n]);
      }
    }
    assert indices[..|indices|] == indices;
  }

  method WarScore(indices: seq<WarIndex>) returns (score: Option<int>, contributors: seq<Key>, excluded: seq<Key>)
    requires indices != []
    ensures score == ScoreOf(indices)
    ensures contributors == if Fatal(indices) then [INTEGRITY] else Keys(Filter(indices, Contributes))
    ensures excluded == if Fatal(indices) then [] else Keys(Filter(indices, Missing))
    ensures contributors == [] <==> score.None?
  {
    if Fatal(indices) {
      return Some(0), [INTEGRITY], [];
    }
    var sum, wsum := 0, 0;
    contributors, excluded := [], [];
    for n := 0 to |indices|
      invariant sum == WeightedSum(indices[..n]) && wsum == WeightSum(indices[..n])
      invariant contributors == KeysOf(indices[..n], Contributes) && excluded == KeysOf(indices[..n], Missing)
      invariant contributors == [] <==> wsum == 0
    {
      assert indices[..n + 1][..n] == indices[..n];
      var x := indices[n];
      if Weight(x.key) == 0 {
        continue;
      }
      if x.score.None? {
        excluded := excluded + [x.key];
        continue;
      }
      var val := if x.higherIsBetter then x.score.value else 100 - x.score.value;
      sum := sum + val * Weight(x.key);
      wsum := wsum + Weight(x.key);
      contributors := contributors + [x.key];
    }
    assert indices[..|indices|] == indices;
    KeysOfFiltered(indices, Contributes);
    KeysOfFiltered(indices, Missing);
    if wsum == 0 {
      return None, contributors, excluded;
    }
    var raw := Round(sum as real / wsum as real);
    var cap := HardCap(indices);
    score := Some(if cap < raw then cap else raw);
  }

  function Indices(i: IndexInputs): seq<WarIndex> {
    [IntegrityOf(i), ConcentrationIndex(i), AbsorptionIndex(i), OrganicIndex(i), SniperIndex(i), ConvictionIndex(i),
     FlowIndex(i), TurnoverIndex(i), AthIndex(i)]
  }

  method ComputeIndices(i: IndexInputs) returns (indices: seq<WarIndex>)
    ensures indices == Indices(i)
  {
    var integrity := IntegrityIndex(i);
    indices := [integrity, ConcentrationIndex(i), AbsorptionIndex(i), OrganicIndex(i), SniperIndex(i),
                ConvictionIndex(i), FlowIndex(i), TurnoverIndex(i), AthIndex(i)];
  }

  /** The composite for a token. */
  function Score(i: IndexInputs): Option<int> { ScoreOf(Indices(i)) }

  // Ranked findings ------------------------------------------------------

  function Severity(x: WarIndex): int
    requires x.score.Some?
  {
    if x.higherIsBetter then 100 - x.score.value else x.score.value
  }

  predicate NoLessSevere(a: WarIndex, b: WarIndex) {
    b.score.None? || (a.score.Some? && Severity(a) >= Severity(b))
  }

  function MoreSevereFirst(): (WarIndex, WarIndex) -> bool { (a, b) => NoLessSevere(a, b) }

  function HasScore(): WarIndex -> bool { (x: WarIndex) => x.score.Some? }

  /** The five most severe readings, the worst first. */
  function Findings(indices: seq<WarIndex>): seq<WarIndex> {
    var ranked := Sort(Filter(indices, HasScore()), MoreSevereFirst());
    if |ranked| <= 5 then ranked else ranked[..5]
  }

  lemma WorstFirst(indices: seq<WarIndex>)
    ensures forall a, b :: 0 <= a < b < |Findings(indices)| ==>
      Findings(indices)[a].score.Some? && Findings(indices)[b].score.Some?
      && Severity(Findings(indices)[a]) >= Severity(Findings(indices)[b])
    ensures forall x :: x in indices && x.score.Some? ==>
      Findings(indices) != [] && Findings(indices)[0].score.Some? && Severity(Findings(indices)[0]) >= Severity(x)
  {
    var kept := Filter(indices, HasScore());
    var ranked := Sort(kept, MoreSevereFirst());
    var f := Findings(indices);
    assert |f| <= |ranked| && forall k :: 0 <= k < |f| ==> f[k] == ranked[k];
    SortSorted(kept, MoreSevereFirst());
    SortMembers(kept, MoreSevereFirst());
    forall k | 0 <= k < |ranked| ensures ranked[k].score.Some? {
      assert ranked[k] in ranked;
    }
    forall x | x in indices && x.score.Some? ensures ranked != [] && Severity(ranked[0]) >= Severity(x) {
      assert x in ranked;
      var k :| 0 <= k < |ranked| && ranked[k] == x;
      assert k > 0 ==> MoreSevereFirst()(ranked[0], ranked[k]);
    }
    forall a, b | 0 <= a < b < |ranked| ensures Severity(ranked[a]) >= Severity(ranked[b]) {
      assert MoreSevereFirst()(ranked[a], ranked[b]);
    }
  }

  // ------------------------------------------------------------------
  // Bounds
  // ------------------------------------------------------------------

  predicate InRange(x: WarIndex) { x.score.Some? ==> 0 <= x.score.value <= 100 }

  /** The blend stays between any bounds on what contributes. */
  lemma {:induction false} BlendBetween(indices: seq<WarIndex>, lo: int, hi: int)
    requires forall k :: 0 <= k < |indices| && Contributes(indices[k]) ==> lo <= Value(indices[k]) <= hi
    ensures lo * WeightSum(indices) <= WeightedSum(indices) <= hi * WeightSum(indices)
    decreases |indices|
  {
    if indices != [] {
      var x, before := indices[|indices| - 1], indices[..|indices| - 1];
      BlendBetween(before, lo, hi);
      if Contributes(x) {
        Scale(lo, Value(x), Weight(x.key));
        Scale(Value(x), hi, Weight(x.key));
        Distribute(lo, WeightSum(before), Weight(x.key));
        Distribute(hi, WeightSum(before), Weight(x.key));
      }
    }
  }

  lemma Scale(a: int, b: int, w: nat)
    requires a <= b
    ensures a * w <= b * w
  {
  }

  lemma Distribute(a: int, v: nat, w: nat)
    ensures a * (v + w) == a * v + a * w
  {
  }

  lemma RoundBetween(sum: int, w: int, lo: int, hi: int)
    requires w > 0 && lo * w <= sum <= hi * w
    ensures lo <= Round(sum as real / w as real) <= hi
  {
    var q := sum as real / w as real;
    assert q * w as real == sum as real;
    assert (lo * w) as real == lo as real * w as real && (hi * w) as real == hi as real * w as real;
    if q < lo as real {
      assert q * w as real < lo as real * w as real;
    }
    if q > hi as real {
      assert q * w as real > hi as real * w as real;
    }
    RoundMonotone(lo as real, q);
    RoundMonotone(q, hi as real);
  }

  /** Leaving an index out never drags the score: without a cap it lies between the
      worst and the best of the indices that contribute, whatever is missing. */
  lemma ScoreBetweenContributors(indices: seq<WarIndex>, lo: int, hi: int)
    requires indices != [] && !Fatal(indices) && WeightSum(indices) > 0
    requires forall k :: 0 <= k < |indices| && Contributes(indices[k]) ==> lo <= Value(indices[k]) <= hi
    ensures ScoreOf(indices).Some? && ScoreOf(indices).value <= hi
    ensures LowestCap(indices) >= hi ==> lo <= ScoreOf(indices).value
  {
    BlendBetween(indices, lo, hi);
    RoundBetween(WeightedSum(indices), WeightSum(indices), lo, hi);
  }

  lemma {:induction false} CapFound(indices: seq<WarIndex>, k: nat)
    requires k < |indices|
    ensures LowestCap(indices) <= CapOf(indices[k])
    decreases |indices|
  {
    if |indices| > 1 && k < |indices| - 1 {
      CapFound(indices[..|indices| - 1], k);
    }
  }

  lemma {:induction false} CapsAtLeast(indices: seq<WarIndex>, c: int)
    requires indices != [] && forall k :: 0 <= k < |indices| ==> CapOf(indices[k]) >= c
    ensures LowestCap(indices) >= c
    decreases |indices|
  {
    if |indices| > 1 {
      CapsAtLeast(indices[..|indices| - 1], c);
    }
  }

  lemma {:induction false} WeightPositive(indices: seq<WarIndex>, k: nat)
    requires k < |indices| && Contributes(indices[k])
    ensures WeightSum(indices) > 0
    decreases |indices|
  {
    if k < |indices| - 1 {
      WeightPositive(indices[..|indices| - 1], k);
    }
  }

  /** Where each key stands in the list. */
  function Place(key: Key): (k: nat)
    ensures k < 9
  {
    match key
    case INTEGRITY => 0
    case CONCENTRATION => 1
    case ABSORPTION => 2
    case ORGANIC => 3
    case SNIPERS => 4
    case CONVICTION => 5
    case FLOW => 6
    case TURNOVER => 7
    case ATH => 8
  }

  lemma KeyAt(i: IndexInputs, k: nat)
    requires k < 9
    ensures Place(Indices(i)[k].key) == k
  {
  }

  lemma IndicesInRange(i: IndexInputs, k: nat)
    requires k < |Indices(i)|
    ensures InRange(Indices(i)[k]) && CapOf(Indices(i)[k]) >= 45
    ensures Indices(i)[k].fatal <==> k == 0 && i.honeypot == Some(true)
    ensures Indices(i)[k].capsScoreAt.Some? ==> k == 0 && RugAuthorityLive(i)
  {
  }

  /** The nine indices have the nine keys, one each, whatever is missing; what is scored
      lies between 0 and 100, only integrity is ever fatal, and nothing else caps. */
  lemma OneIndexForEachKey(i: IndexInputs, j: nat, k: nat)
    requires j < 9 && k < 9
    ensures Indices(i)[j].key == Indices(i)[k].key ==> j == k
    ensures InRange(Indices(i)[k])
    ensures Indices(i)[k].fatal <==> Indices(i)[k].key == INTEGRITY && i.honeypot == Some(true)
    ensures Indices(i)[k].capsScoreAt.Some? ==> Indices(i)[k].key == INTEGRITY && RugAuthorityLive(i)
  {
    KeyAt(i, j);
    KeyAt(i, k);
    IndicesInRange(i, k);
  }

  /** For every input the composite is absent or between 0 and 100, it is 0 on a
      honeypot, and with live mint or freeze authority it is there and at most 45. */
  lemma ScoreBounds(i: IndexInputs)
    ensures Score(i).Some? ==> 0 <= Score(i).value <= 100
    ensures i.honeypot == Some(true) ==> Score(i) == Some(0)
    ensures RugAuthorityLive(i) ==> Score(i).Some? && Score(i).value <= 45
  {
    var x := Indices(i);
    forall k | 0 <= k < |x|
      ensures InRange(x[k]) && CapOf(x[k]) >= 45 && (x[k].fatal <==> k == 0 && i.honeypot == Some(true))
    {
      IndicesInRange(i, k);
    }
    CapsAtLeast(x, 45);
    if !Fatal(x) && WeightSum(x) > 0 {
      ScoreBetweenContributors(x, 0, 100);
      BlendBetween(x, 0, 100);
      RoundBetween(WeightedSum(x), WeightSum(x), 0, 100);
    }
    if i.honeypot == Some(true) {
      assert x[0].key == INTEGRITY && x[0].fatal;
    } else if RugAuthorityLive(i) {
      assert Contributes(x[0]) && CapOf(x[0]) == 45;
      WeightPositive(x, 0);
      CapFound(x, 0);
    }
  }

  /** The whole analysis of a token: its nine indices, a composite within its bounds, and
      findings that begin with the most severe. */
  method Analyze(i: IndexInputs) returns (indices: seq<WarIndex>, score: Option<int>, findings: seq<WarIndex>)
    ensures indices == Indices(i) && score == Score(i) && findings == Findings(indices)
    ensures score.Some? ==> 0 <= score.value <= 100
    ensures i.honeypot == Some(true) ==> score == Some(0)
    ensures RugAuthorityLive(i) ==> score.Some? && score.value <= 45
    ensures forall x :: x in indices && x.score.Some? ==> findings != [] && NoLessSevere(findings[0], x)
  {
    indices := ComputeIndices(i);
    var composite, _, _ := WarScore(indices);
    score, findings := composite, Findings(indices);
    ScoreBounds(i);
    WorstFirst(indices);
  }

  // ------------------------------------------------------------------
  // More risk never raises the score
  // ------------------------------------------------------------------

  predicate NoLess(a: Option<real>, b: Option<real>) { a.Some? == b.Some? && (a.Some? ==> a.value <= b.value) }

  /** `j` differs from `i` only in higher risk inputs. */
  predicate Riskier(i: IndexInputs, j: IndexInputs) {
    && NoLess(i.top10Rate, j.top10Rate) && NoLess(i.devHoldRate, j.devHoldRate)
    && NoLess(i.top70SniperRate, j.top70SniperRate) && NoLess(i.bundlerRate, j.bundlerRate)
    && NoLess(i.sniperCount, j.sniperCount) && NoLess(i.botRate, j.botRate) && NoLess(i.ratTraderRate, j.ratTraderRate)
    && j == i.(top10Rate := j.top10Rate, devHoldRate := j.devHoldRate, top70SniperRate := j.top70SniperRate,
               bundlerRate := j.bundlerRate, sniperCount := j.sniperCount, botRate := j.botRate,
               ratTraderRate := j.ratTraderRate)
  }

  /** No higher contribution under the same conditions. */
  predicate NoBetter(x: WarIndex, y: WarIndex) {
    && x.key == y.key && x.score.Some? == y.score.Some? && x.higherIsBetter == y.higherIsBetter
    && x.fatal == y.fatal && x.capsScoreAt == y.capsScoreAt
    && (x.score.Some? ==> Value(y) <= Value(x))
  }

  lemma ConcentrationNoBetter(i: IndexInputs, j: IndexInputs)
    requires Riskier(i, j)
    ensures NoBetter(ConcentrationIndex(i), ConcentrationIndex(j))
  {
    if i.top10Rate.Some? {
      RoundMonotone(ConcentrationRisk(i), ConcentrationRisk(j));
    }
  }

  lemma SniperNoBetter(i: IndexInputs, j: IndexInputs)
    requires Riskier(i, j)
    ensures NoBetter(SniperIndex(i), SniperIndex(j))
  {
    if SniperIndex(i).score.Some? {
      var h := i.holders.value;
      DivideMonotone(i.sniperCount.value, j.sniperCount.value, h);
      RoundMonotone(SniperLoad(i), SniperLoad(j));
    }
  }

  lemma OrganicNoBetter(i: IndexInputs, j: IndexInputs)
    requires Riskier(i, j) && Or(j.botRate, 0.0) <= 1.0 && Or(j.ratTraderRate, 0.0) <= 1.0
    ensures NoBetter(OrganicIndex(i), OrganicIndex(j))
  {
    var wash := if i.washTrading == Some(true) then 0.5 else 1.0;
    SharesFall(1.0 - Or(i.botRate, 0.0), 1.0 - Or(i.ratTraderRate, 0.0),
               1.0 - Or(j.botRate, 0.0), 1.0 - Or(j.ratTraderRate, 0.0), wash);
    RoundMonotone(OrganicShare(j), OrganicShare(i));
  }

  lemma SharesFall(b: real, r: real, c: real, s: real, wash: real)
    requires 0.0 <= c <= b && 0.0 <= s <= r && wash >= 0.0
    ensures Discounted(c, s, wash) <= Discounted(b, r, wash)
  {
    ScaleReal(100.0 * c, 100.0 * b, s);
    ScaleReal(s, r, 100.0 * b);
    ScaleReal(100.0 * c * s, 100.0 * b * r, wash);
  }

  lemma ScaleReal(q: real, p: real, w: real)
    requires q <= p && w >= 0.0
    ensures q * w <= p * w
  {
    assert (p - q) * w >= 0.0;
  }

  lemma {:induction false} BlendFalls(x: seq<WarIndex>, y: seq<WarIndex>)
    requires |x| == |y| && forall k :: 0 <= k < |x| ==> NoBetter(x[k], y[k])
    ensures WeightSum(x) == WeightSum(y) && WeightedSum(y) <= WeightedSum(x)
    ensures x != [] ==> LowestCap(x) == LowestCap(y)
    decreases |x|
  {
    if x != [] {
      var n := |x| - 1;
      BlendFalls(x[..n], y[..n]);
      assert NoBetter(x[n], y[n]);
      if Contributes(x[n]) {
        Scale(Value(y[n]), Value(x[n]), Weight(x[n].key));
      }
    }
  }

  lemma Unaffected(i: IndexInputs, j: IndexInputs)
    requires Riskier(i, j)
    ensures IntegrityOf(i) == IntegrityOf(j) && AbsorptionIndex(i) == AbsorptionIndex(j)
    ensures ConvictionIndex(i) == ConvictionIndex(j) && FlowIndex(i) == FlowIndex(j)
    ensures TurnoverIndex(i) == TurnoverIndex(j) && AthIndex(i) == AthIndex(j)
  {
  }

  lemma BlendNeverRaises(x: seq<WarIndex>, y: seq<WarIndex>)
    requires x != [] && |x| == |y| && forall k :: 0 <= k < |x| ==> NoBetter(x[k], y[k])
    ensures ScoreOf(x).Some? == ScoreOf(y).Some?
    ensures ScoreOf(x).Some? ==> ScoreOf(y).value <= ScoreOf(x).value
  {
    BlendFalls(x, y);
    assert forall k :: 0 <= k < |x| ==> x[k].key == y[k].key && x[k].fatal == y[k].fatal;
    assert Fatal(x) <==> Fatal(y);
    if WeightSum(x) > 0 {
      var w := WeightSum(x) as real;
      DivideMonotone(WeightedSum(y) as real, WeightedSum(x) as real, w);
      RoundMonotone(WeightedSum(y) as real / w, WeightedSum(x) as real / w);
    }
  }

  /** With bot and rat-trader rates of at most 1, raising any risk input - and keeping
      the same inputs present - never raises the score. */
  lemma RiskNeverRaises(i: IndexInputs, j: IndexInputs)
    requires Riskier(i, j) && Or(j.botRate, 0.0) <= 1.0 && Or(j.ratTraderRate, 0.0) <= 1.0
    ensures Score(i).Some? == Score(j).Some?
    ensures Score(i).Some? ==> Score(j).value <= Score(i).value
  {
    InvisibleNeverRaises(i, j, 1.0, 1.0);
  }

  const NO_INPUTS := IndexInputs(None, None, None, None, None, None, None, None, None, None, None, None,
    None, None, None, None, None, None, None, None, None, None, None, None, None)

  /** Raising the risk from `i` to `j` keeps a score there and does not raise it. */
  predicate NotRaised(i: IndexInputs, j: IndexInputs) {
    && Score(i).Some? == Score(j).Some?
    && (Score(i).Some? ==> Score(j).value <= Score(i).value)
  }

  predicate RatesWithin(i: IndexInputs, bot: real, rat: real) {
    Or(i.botRate, 0.0) <= bot && Or(i.ratTraderRate, 0.0) <= rat
  }

  /** Two rates at their bounds, both above 1, give too small a share to be seen. */
  predicate Invisible(bot: real, rat: real) { bot <= 1.0 || rat <= 1.0 || 200.0 * (bot - 1.0) * (rat - 1.0) < 1.0 }

  /** The product of shares no lower than `-d` and `-e`: at most `d * e`, unless both are genuine. */
  lemma NegativeProduct(b: real, r: real, d: real, e: real)
    requires -d <= b && -e <= r && (b < 0.0 || r < 0.0)
    ensures b < 0.0 && r < 0.0 ==> b * r <= d * e
    ensures b >= 0.0 || r >= 0.0 ==> b * r <= 0.0
  {
    if b < 0.0 && r < 0.0 {
      ScaleReal(-b, d, -r);
      ScaleReal(-r, e, d);
      assert b * r == -b * -r;
    } else if b < 0.0 {
      ScaleReal(b, 0.0, r);
    } else {
      ScaleReal(r, 0.0, b);
    }
  }

  lemma HalfAtMost(x: real, wash: real, limit: real)
    requires x <= limit && limit >= 0.0 && 0.0 <= wash <= 1.0
    ensures x * wash <= limit
  {
    ScaleReal(x, limit, wash);
    ScaleReal(wash, 1.0, limit);
  }

  lemma InvisibleShare(b: real, r: real, wash: real, bot: real, rat: real)
    requires Invisible(bot, rat) && 1.0 - bot <= b && 1.0 - rat <= r && (b < 0.0 || r < 0.0)
    requires 0.0 <= wash <= 1.0
    ensures Round(Discounted(b, r, wash)) == 0
  {
    var d, e := bot - 1.0, rat - 1.0;
    NegativeProduct(b, r, d, e);
    assert 100.0 * b * r == 100.0 * (b * r);
    if b < 0.0 && r < 0.0 {
      assert d * e >= b * r >= 0.0 by { assert -b * -r >= 0.0; }
      assert 200.0 * d * e == 200.0 * (d * e);
      HalfAtMost(100.0 * b * r, wash, 100.0 * (d * e));
    } else {
      HalfAtMost(100.0 * b * r, wash, 0.0);
    }
  }

  lemma OrganicInvisible(i: IndexInputs, j: IndexInputs, bot: real, rat: real)
    requires Riskier(i, j) && RatesWithin(j, bot, rat) && Invisible(bot, rat)
    ensures NoBetter(OrganicIndex(i), OrganicIndex(j))
  {
    var b, r := 1.0 - Or(j.botRate, 0.0), 1.0 - Or(j.ratTraderRate, 0.0);
    if b >= 0.0 && r >= 0.0 {
      OrganicNoBetter(i, j);
    } else {
      InvisibleShare(b, r, if j.washTrading == Some(true) then 0.5 else 1.0, bot, rat);
      RoundMonotone(0.0, OrganicShare(i));
    }
  }

  lemma InvisibleNeverRaises(i: IndexInputs, j: IndexInputs, bot: real, rat: real)
    requires Riskier(i, j) && RatesWithin(j, bot, rat) && Invisible(bot, rat)
    ensures NotRaised(i, j)
  {
    forall k | 0 <= k < 9 ensures NoBetter(Indices(i)[k], Indices(j)[k]) {
      if k == 3 {
        OrganicInvisible(i, j, bot, rat);
      } else if k == 1 {
        ConcentrationNoBetter(i, j);
      } else if k == 4 {
        SniperNoBetter(i, j);
      } else {
        Unaffected(i, j);
      }
    }
    BlendNeverRaises(Indices(i), Indices(j));
  }

  /** Nothing known but two rates. */
  function OnlyRates(bot: real, rat: real): IndexInputs { NO_INPUTS.(botRate := Some(bot), ratTraderRate := Some(rat)) }

  lemma OnlyRatesIndices(bot: real, rat: real)
    ensures var x := Indices(OnlyRates(bot, rat));
      && Contributes(x[3]) && x[3].key == ORGANIC && x[3].higherIsBetter && InRange(x[3])
      && (forall k :: 0 <= k < 9 && k != 3 ==> !Contributes(x[k]))
      && (forall k :: 0 <= k < 9 ==> CapOf(x[k]) == 100 && !x[k].fatal)
  {
  }

  /** Then the score is the organic index. */
  lemma OnlyRatesScore(bot: real, rat: real)
    ensures Score(OnlyRates(bot, rat)) == OrganicIndex(OnlyRates(bot, rat)).score
  {
    var x := Indices(OnlyRates(bot, rat));
    OnlyRatesIndices(bot, rat);
    OneContributor(x);
    CapsAtLeast(x, 100);
    var v := x[3].score.value;
    Cancel(v as real, 15.0);
    assert (v * 15) as real == v as real * 15.0;
    assert Round(v as real) == v;
    assert x[3] == OrganicIndex(OnlyRates(bot, rat));
  }

  /** Of nine indices the fourth alone contributes. */
  lemma OneContributor(x: seq<WarIndex>)
    requires |x| == 9 && Contributes(x[3]) && forall k :: 0 <= k < 9 && k != 3 ==> !Contributes(x[k])
    ensures WeightSum(x) == Weight(x[3].key) && WeightedSum(x) == Value(x[3]) * Weight(x[3].key)
  {
    forall n: nat | n <= 9
      ensures WeightSum(x[..n]) == (if n <= 3 then 0 else Weight(x[3].key))
      ensures WeightedSum(x[..n]) == (if n <= 3 then 0 else Value(x[3]) * Weight(x[3].key))
    {
      ContributorUpTo(x, n);
    }
    assert x[..9] == x;
  }

  lemma {:induction false} ContributorUpTo(x: seq<WarIndex>, n: nat)
    requires n <= |x| == 9 && Contributes(x[3]) && forall k :: 0 <= k < 9 && k != 3 ==> !Contributes(x[k])
    ensures WeightSum(x[..n]) == (if n <= 3 then 0 else Weight(x[3].key))
    ensures WeightedSum(x[..n]) == (if n <= 3 then 0 else Value(x[3]) * Weight(x[3].key))
  {
    if n > 0 {
      ContributorUpTo(x, n - 1);
      assert x[..n][..n - 1] == x[..n - 1];
    }
  }

  lemma ProductAtBounds(d: real, e: real)
    requires d > 0.0 && e > 0.0 && 200.0 * d * e >= 1.0
    ensures 100.0 * -d * -e >= 0.5 && 100.0 * -d < 0.0
  {
    assert 100.0 * -d * -e == 100.0 * d * e;
    assert 200.0 * d * e == 2.0 * (100.0 * d * e);
  }

  lemma SharesAtBounds(bot: real, rat: real)
    requires !Invisible(bot, rat)
    ensures Discounted(1.0 - bot, 1.0 - rat, 1.0) >= 0.5
    ensures Discounted(1.0 - bot, 1.0, 1.0) == 0.0
  {
    ProductAtBounds(bot - 1.0, rat - 1.0);
    assert 1.0 - bot == -(bot - 1.0) && 1.0 - rat == -(rat - 1.0);
  }

  /** At or above the threshold two rates at their bounds multiply to a share that shows. */
  lemma VisibleRaises(bot: real, rat: real)
    requires !Invisible(bot, rat)
    ensures var (i, j) := (OnlyRates(bot, 0.0), OnlyRates(bot, rat));
      Riskier(i, j) && RatesWithin(j, bot, rat) && Score(i) == Some(0) && Score(j).Some? && Score(j).value > 0
  {
    OnlyRatesScore(bot, 0.0);
    OnlyRatesScore(bot, rat);
    SharesAtBounds(bot, rat);
    assert OrganicShare(OnlyRates(bot, 0.0)) == Discounted(1.0 - bot, 1.0, 1.0);
    assert OrganicShare(OnlyRates(bot, rat)) == Discounted(1.0 - bot, 1.0 - rat, 1.0);
    RoundMonotone(0.5, Discounted(1.0 - bot, 1.0 - rat, 1.0));
  }

  /** Raising any risk input never raises the score of inputs whose bot and rat-trader
      rates stay within two bounds, if and only if one of the bounds is at most 1 or two
      rates at them give a share that rounds to nothing. */
  lemma RiskNeverRaisesIff(bot: real, rat: real)
    ensures (forall i, j :: Riskier(i, j) && RatesWithin(j, bot, rat) ==> NotRaised(i, j)) <==> Invisible(bot, rat)
  {
    if Invisible(bot, rat) {
      forall i, j | Riskier(i, j) && RatesWithin(j, bot, rat) ensures NotRaised(i, j) {
        InvisibleNeverRaises(i, j, bot, rat);
      }
    } else {
      VisibleRaises(bot, rat);
      assert !NotRaised(OnlyRates(bot, 0.0), OnlyRates(bot, rat));
    }
  }
}
