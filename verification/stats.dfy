/** Outlier removal and aggregation of lib/stats.ts. */
module Stats {
  // Over real numbers. The square root and Peirce's threshold enter as functions: only what is done with them is
  // modelled.

  import opened Wrappers
  import opened Reals

  datatype Numerics = Numerics(sqrt: real -> real, peirceDev: (nat, nat) -> real)

  type Rule = real -> bool

  function Filter(values: seq<real>, keep: Rule): seq<real> {
    if values == [] then []
    else Filter(values[..|values| - 1], keep) + if keep(values[|values| - 1]) then [values[|values| - 1]] else []
  }

  // ----- centre and spread ---------------------------------------------------

  function Middle(sorted: seq<real>): real
    requires sorted != []
  {
    var mid := |sorted| / 2;
    if |sorted| % 2 == 0 then (sorted[mid - 1] + sorted[mid]) / 2.0 else sorted[mid]
  }

  function Median(values: seq<real>): real {
    if values == [] then 0.0
    else
      SortAscending(values);
      Middle(Sort(values))
  }

  function Distances(values: seq<real>, centre: real): seq<real> {
    seq(|values|, i requires 0 <= i < |values| => Abs(values[i] - centre))
  }

  function MedianAbsoluteDeviation(values: seq<real>): real {
    Median(Distances(values, Median(values)))
  }

  function Mean(values: seq<real>): real {
    if values == [] then 0.0 else Sum(values) / |values| as real
  }

  method CalculateMean(values: seq<real>) returns (mean: real)
    ensures mean == Mean(values)
  {
    if |values| == 0 {
      return 0.0;
    }
    var total := 0.0;
    for i := 0 to |values|
      invariant total == Sum(values[..i])
    {
      assert values[..i + 1][..i] == values[..i];
      total := total + values[i];
    }
    assert values[..|values|] == values;
    mean := total / |values| as real;
  }

  function Deviations(values: seq<real>, centre: real): seq<real> {
    seq(|values|, i requires 0 <= i < |values| => values[i] - centre)
  }

  /** The sample variance; no spread for fewer than two values. */
  function Variance(values: seq<real>): real {
    if |values| < 2 then 0.0 else SumSquares(Deviations(values, Mean(values))) / (|values| - 1) as real
  }

  function StdDev(num: Numerics, values: seq<real>): real {
    if |values| < 2 then 0.0 else num.sqrt(Variance(values))
  }

  // ----- removal by MAD, Chauvenet, Peirce and quartiles ---------------------

  const MAD_OUTLIER_THRESHOLD := 3.5

  const MAD_SCALE := 0.6745

  predicate IsMadOutlier(v: real, med: real, mad: real, threshold: real) {
    mad > 0.0 && MAD_SCALE * Abs(v - med) / mad > threshold
  }

  function MadRule(values: seq<real>, threshold: real): Rule {
    var med, mad := Median(values), MedianAbsoluteDeviation(values);
    (v: real) => |values| < 3 || !IsMadOutlier(v, med, mad, threshold)
  }

  function ChauvenetRule(num: Numerics, values: seq<real>, max: Option<real>): Rule {
    var dMax := if max.None? || max.value == 0.0 then 3.0 else max.value;
    var mean, sd := Mean(values), StdDev(num, values);
    (v: real) => if sd > 0.0 then dMax > Abs(v - mean) / sd else true
  }

  method RemoveOutliersChauvenet(num: Numerics, values: seq<real>, max: Option<real>) returns (ret: seq<real>)
    ensures ret == Filter(values, ChauvenetRule(num, values, max))
  {
    var dMax := if max.None? || max.value == 0.0 then 3.0 else max.value;
    var mean, sd := Mean(values), StdDev(num, values);
    ghost var rule := ChauvenetRule(num, values, max);
    ret := [];
    for i := 0 to |values|
      invariant ret == Filter(values[..i], rule)
    {
      assert values[..i + 1][..i] == values[..i];
      if sd > 0.0 {
        if dMax > Abs(values[i] - mean) / sd {
          ret := ret + [values[i]];
        }
      } else {
        ret := ret + [values[i]];
      }
    }
    assert values[..|values|] == values;
  }

  function PeirceWithin(num: Numerics, n: nat, k: nat, mean: real, sd: real): Rule {
    var maxDev := num.sqrt(num.peirceDev(n, k)) * sd;
    (v: real) => Abs(v - mean) < maxDev
  }

  /** The deviations allowed when k values are suspected. */
  function PeirceRound(num: Numerics, values: seq<real>, k: nat): Rule {
    PeirceWithin(num, |values|, k, Mean(values), StdDev(num, values))
  }

  lemma {:induction false} FilterLength(values: seq<real>, keep: Rule)
    ensures |Filter(values, keep)| <= |values|
  {
    if values != [] { FilterLength(values[..|values| - 1], keep); }
  }

  /** How many values a round with k suspects rejects. */
  function PeirceRejected(num: Numerics, values: seq<real>, k: nat): (r: nat)
    ensures r <= |values|
  {
    FilterLength(values, PeirceRound(num, values, k));
    |values| - |Filter(values, PeirceRound(num, values, k))|
  }

  /** The k at which the rounds stop: the number rejected has stopped exceeding it. */
  function PeirceStop(num: Numerics, values: seq<real>, k: nat): nat
    decreases |values| + 1 - k
  {
    var removed := PeirceRejected(num, values, k);
    if removed > k then PeirceStop(num, values, removed + 1) else k
  }

  function PeirceRule(num: Numerics, values: seq<real>): Rule {
    var all: Rule := (v: real) => true;
    if |values| < 3 || StdDev(num, values) == 0.0 then all else PeirceRound(num, values, PeirceStop(num, values, 1))
  }

  lemma {:induction false} FilterAll(values: seq<real>, keep: Rule)
    requires forall v :: keep(v)
    ensures Filter(values, keep) == values
  {
    if values != [] { FilterAll(values[..|values| - 1], keep); }
  }

  /** The rounds end: k grows strictly and never passes the number of values plus one. */
  method RemoveOutliersPeirce(num: Numerics, values: seq<real>) returns (kept: seq<real>)
    ensures kept == Filter(values, PeirceRule(num, values))
  {
    if |values| < 3 {
      FilterAll(values, PeirceRule(num, values));
      return values;
    }
    if StdDev(num, values) == 0.0 {
      FilterAll(values, PeirceRule(num, values));
      return values;
    }
    var removed: nat := 0;
    var k: nat := removed + 1;
    kept := Filter(values, PeirceRound(num, values, k));
    removed := PeirceRejected(num, values, k);
    while removed > k
      invariant kept == Filter(values, PeirceRound(num, values, k)) && removed == PeirceRejected(num, values, k)
      invariant PeirceStop(num, values, k) == PeirceStop(num, values, 1)
      decreases |values| + 1 - k
    {
      k := removed + 1;
      kept := Filter(values, PeirceRound(num, values, k));
      removed := PeirceRejected(num, values, k);
    }
  }

  function Quartile(sorted: seq<real>, q: real): real
    requires sorted != [] && 0.0 <= q <= 1.0
  {
    QuartilePosition((|sorted| - 1) as real, q);
    var pos := (|sorted| - 1) as real * q;
    var base := pos.Floor;
    var rest := pos - base as real;
    if base + 1 < |sorted| then sorted[base] + rest * (sorted[base + 1] - sorted[base]) else sorted[base]
  }

  lemma QuartilePosition(last: real, q: real)
    requires 0.0 <= last && 0.0 <= q <= 1.0
    ensures 0.0 <= last * q <= last
  {
  }

  function IqdRule(values: seq<real>): Rule {
    SortAscending(values);
    var sorted := Sort(values);
    var q1 := if sorted == [] then 0.0 else Quartile(sorted, 0.25);
    var q3 := if sorted == [] then 0.0 else Quartile(sorted, 0.75);
    var iqr := q3 - q1;
    (v: real) => !(v > q3 + 1.5 * iqr || v < q1 - 1.5 * iqr)
  }

  // ----- aggregation ---------------------------------------------------------

  datatype OutlierMethod = MAD | Chauvenet | Peirce | IQD | NoRemoval

  datatype Sample = Sample(price: real, liquidity: real)

  datatype AggregateResult = AggregateResult(price: real, nUsed: nat, nRejected: nat, kept: seq<Sample>,
    rejected: seq<Sample>)

  /** Every method judges a value against the whole set, never its position. */
  function RuleOf(num: Numerics, outlierMethod: OutlierMethod, prices: seq<real>, max: Option<real>): Rule {
    match outlierMethod
    case MAD => MadRule(prices, MAD_OUTLIER_THRESHOLD)
    case Chauvenet => ChauvenetRule(num, prices, max)
    case Peirce => PeirceRule(num, prices)
    case IQD => IqdRule(prices)
    case NoRemoval => (v: real) => true
  }

  method RemoveOutliersByMethod(num: Numerics, prices: seq<real>, outlierMethod: OutlierMethod, max: Option<real>)
    returns (survivors: seq<real>)
    ensures multiset(survivors) == multiset(Filter(prices, RuleOf(num, outlierMethod, prices, max)))
  {
    match outlierMethod
    case MAD => survivors := Filter(prices, MadRule(prices, MAD_OUTLIER_THRESHOLD));
    case Chauvenet => survivors := RemoveOutliersChauvenet(num, prices, max);
    case Peirce => survivors := RemoveOutliersPeirce(num, prices);
    case IQD =>
      survivors := Filter(Sort(prices), IqdRule(prices));
      SortAscending(prices);
      FilterPermutation(Sort(prices), prices, IqdRule(prices));
    case NoRemoval =>
      FilterAll(prices, RuleOf(num, outlierMethod, prices, max));
      survivors := prices;
  }

  lemma {:induction false} FilterCounts(values: seq<real>, keep: Rule, v: real)
    ensures multiset(Filter(values, keep))[v] == if keep(v) then multiset(values)[v] else 0
  {
    if values != [] {
      FilterCounts(values[..|values| - 1], keep, v);
      assert values == values[..|values| - 1] + [values[|values| - 1]];
    }
  }

  lemma FilterPermutation(s: seq<real>, t: seq<real>, keep: Rule)
    requires multiset(s) == multiset(t)
    ensures multiset(Filter(s, keep)) == multiset(Filter(t, keep))
  {
    forall v ensures multiset(Filter(s, keep))[v] == multiset(Filter(t, keep))[v] {
      FilterCounts(s, keep, v);
      FilterCounts(t, keep, v);
    }
  }

  function PricesOf(samples: seq<Sample>): seq<real> {
    seq(|samples|, i requires 0 <= i < |samples| => samples[i].price)
  }

  function LiquidityOf(samples: seq<Sample>): seq<real> {
    seq(|samples|, i requires 0 <= i < |samples| => samples[i].liquidity)
  }

  function Partition(samples: seq<Sample>, keep: Rule, side: bool): seq<Sample> {
    if samples == [] then []
    else
      var last := samples[|samples| - 1];
      Partition(samples[..|samples| - 1], keep, side) + if keep(last.price) == side then [last] else []
  }

  /** Every member of a side is a sample that the rule puts there. */
  lemma {:induction false} PartitionSide(samples: seq<Sample>, keep: Rule, side: bool, i: nat)
    requires i < |Partition(samples, keep, side)|
    ensures keep(Partition(samples, keep, side)[i].price) == side && Partition(samples, keep, side)[i] in samples
  {
    if samples != [] {
      var front := samples[..|samples| - 1];
      if i < |Partition(front, keep, side)| { PartitionSide(front, keep, side, i); }
    }
  }

  lemma {:induction false} PartitionPrices(samples: seq<Sample>, keep: Rule)
    ensures PricesOf(Partition(samples, keep, true)) == Filter(PricesOf(samples), keep)
  {
    if samples != [] {
      var front, last := samples[..|samples| - 1], samples[|samples| - 1];
      PartitionPrices(front, keep);
      assert PricesOf(samples)[..|samples| - 1] == PricesOf(front);
      var kept := Partition(front, keep, true);
      assert PricesOf(kept + [last]) == PricesOf(kept) + [last.price];
    }
  }

  function WeightAt(weights: seq<real>, i: nat): real {
    if i < |weights| then weights[i] else 0.0
  }

  function WeightSum(values: seq<real>, weights: seq<real>): real {
    if values == [] then 0.0 else WeightSum(values[..|values| - 1], weights) + WeightAt(weights, |values| - 1)
  }

  function WeightedSum(values: seq<real>, weights: seq<real>): real {
    if values == [] then 0.0
    else WeightedSum(values[..|values| - 1], weights) + values[|values| - 1] * WeightAt(weights, |values| - 1)
  }

  function WeightedMean(values: seq<real>, weights: seq<real>): real {
    if WeightSum(values, weights) > 0.0 then WeightedSum(values, weights) / WeightSum(values, weights) else Mean(values)
  }

  method ComputeWeightedMean(values: seq<real>, weights: seq<real>) returns (mean: real)
    ensures mean == WeightedMean(values, weights)
  {
    if |values| == 0 {
      return 0.0;
    }
    var weightSum, weightedSum := 0.0, 0.0;
    for i := 0 to |values|
      invariant weightSum == WeightSum(values[..i], weights) && weightedSum == WeightedSum(values[..i], weights)
    {
      assert values[..i + 1][..i] == values[..i];
      var w := WeightAt(weights, i);
      weightSum := weightSum + w;
      weightedSum := weightedSum + values[i] * w;
    }
    assert values[..|values|] == values;
    if weightSum > 0.0 {
      mean := weightedSum / weightSum;
    } else {
      mean := CalculateMean(values);
    }
  }

  function PriceOf(kept: seq<Sample>, weighted: bool): real {
    if weighted then WeightedMean(PricesOf(kept), LiquidityOf(kept)) else Mean(PricesOf(kept))
  }

  /** How many survivors of each price are still to be matched to samples. */
  ghost predicate Unmatched(counts: map<real, nat>, samples: seq<Sample>, keep: Rule) {
    forall v :: (if v in counts then counts[v] else 0) == if keep(v) then multiset(PricesOf(samples))[v] else 0
  }

  method CountSurvivors(survivors: seq<real>) returns (counts: map<real, nat>)
    ensures forall v :: (if v in counts then counts[v] else 0) == multiset(survivors)[v]
  {
    counts := map[];
    for i := 0 to |survivors|
      invariant forall v :: (if v in counts then counts[v] else 0) == multiset(survivors[..i])[v]
    {
      var p := survivors[i];
      assert survivors[..i + 1] == survivors[..i] + [p];
      counts := counts[p := (if p in counts then counts[p] else 0) + 1];
    }
    assert survivors[..|survivors|] == survivors;
  }

  /** Matching survivors back to samples by price keeps exactly the samples whose price the method keeps. */
  method AggregatePrices(num: Numerics, samples: seq<Sample>, outlierMethod: OutlierMethod, weighted: bool,
                         max: Option<real>)
    returns (r: AggregateResult)
    ensures r.kept == Partition(samples, RuleOf(num, outlierMethod, PricesOf(samples), max), true)
    ensures r.rejected == Partition(samples, RuleOf(num, outlierMethod, PricesOf(samples), max), false)
    ensures r.nUsed == |r.kept| && r.nRejected == |r.rejected| && r.price == PriceOf(r.kept, weighted)
  {
    var survivors := RemoveOutliersByMethod(num, PricesOf(samples), outlierMethod, max);
    ghost var keep := RuleOf(num, outlierMethod, PricesOf(samples), max);
    var counts := CountSurvivors(survivors);
    forall v ensures multiset(survivors)[v] == if keep(v) then multiset(PricesOf(samples))[v] else 0 {
      FilterCounts(PricesOf(samples), keep, v);
    }
    var kept, rejected := MatchSurvivors(counts, samples, keep);
    var price;
    if weighted {
      price := ComputeWeightedMean(PricesOf(kept), LiquidityOf(kept));
    } else {
      price := CalculateMean(PricesOf(kept));
    }
    r := AggregateResult(price, |kept|, |rejected|, kept, rejected);
  }

  method MatchSurvivors(survivors: map<real, nat>, samples: seq<Sample>, ghost keep: Rule)
    returns (kept: seq<Sample>, rejected: seq<Sample>)
    requires Unmatched(survivors, samples, keep)
    ensures kept == Partition(samples, keep, true) && rejected == Partition(samples, keep, false)
  {
    var counts := survivors;
    assert samples[0..] == samples;
    kept, rejected := [], [];
    for i := 0 to |samples|
      invariant Unmatched(counts, samples[i..], keep)
      invariant kept == Partition(samples[..i], keep, true) && rejected == Partition(samples[..i], keep, false)
    {
      var s := samples[i];
      TailPrices(samples, i);
      assert samples[..i + 1][..i] == samples[..i];
      var c := if s.price in counts then counts[s.price] else 0;
      assert c > 0 <==> keep(s.price);
      if c > 0 {
        kept := kept + [s];
        counts := counts[s.price := c - 1];
      } else {
        rejected := rejected + [s];
      }
    }
    assert samples[..|samples|] == samples;
  }

  lemma TailPrices(samples: seq<Sample>, i: nat)
    requires i < |samples|
    ensures multiset(PricesOf(samples[i..])) == multiset(PricesOf(samples[i + 1..])) + multiset{samples[i].price}
  {
    assert PricesOf(samples[i..]) == [samples[i].price] + PricesOf(samples[i + 1..]);
  }
}
