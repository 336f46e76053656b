/** The breakdown bound of lib/stats.ts: how far a minority of arbitrary prices can move the MAD price. */
module Breakdown {
  import opened Wrappers
  import opened Reals
  import opened Stats

  // ----- the median ----------------------------------------------------------

  /** Strictly more than half the values lie in [lo, hi]. */
  predicate MajorityIn(values: seq<real>, lo: real, hi: real) {
    2 * CountIn(values, lo, hi) > |values|
  }

  lemma CountBefore(s: seq<real>, lo: real, hi: real, m: nat)
    requires Ascending(s) && m < |s| && hi < s[m]
    ensures CountIn(s, lo, hi) <= m
  {
    var tail := s[m..];
    assert s == s[..m] + tail;
    CountConcat(s[..m], tail, lo, hi);
    CountAtMost(s[..m], lo, hi);
    forall i | 0 <= i < |tail| ensures hi < tail[i] {
      assert tail[i] == s[m + i];
    }
    CountNone(tail, lo, hi);
  }

  lemma CountAfter(s: seq<real>, lo: real, hi: real, m: nat)
    requires Ascending(s) && m < |s| && s[m] < lo
    ensures CountIn(s, lo, hi) <= |s| - m - 1
  {
    var head := s[..m + 1];
    assert s == head + s[m + 1..];
    CountConcat(head, s[m + 1..], lo, hi);
    forall i | 0 <= i < |head| ensures head[i] < lo {
      assert head[i] == s[i];
    }
    CountNone(head, lo, hi);
    CountAtMost(s[m + 1..], lo, hi);
  }

  /** In a sorted sequence with a majority in [lo, hi], the middle is in it too. */
  lemma MiddleInside(s: seq<real>, lo: real, hi: real, m: nat)
    requires Ascending(s) && m < |s| && MajorityIn(s, lo, hi)
    ensures 2 * m >= |s| - 2 + |s| % 2 ==> lo <= s[m]
    ensures 2 * m <= |s| ==> s[m] <= hi
  {
    if hi < s[m] { CountBefore(s, lo, hi, m); }
    if s[m] < lo { CountAfter(s, lo, hi, m); }
  }

  lemma MedianInMajority(values: seq<real>, lo: real, hi: real)
    requires MajorityIn(values, lo, hi)
    ensures lo <= Median(values) <= hi
  {
    var s := Sort(values);
    SortAscending(values);
    CountPermutation(values, s, lo, hi);
    CountAtMost(values, lo, hi);
    var mid := |s| / 2;
    MiddleInside(s, lo, hi, mid);
    if |s| % 2 == 0 { MiddleInside(s, lo, hi, mid - 1); }
  }

  lemma {:induction false} DistancesInside(values: seq<real>, lo: real, hi: real, centre: real)
    requires lo <= centre <= hi
    ensures CountIn(Distances(values, centre), 0.0, hi - lo) >= CountIn(values, lo, hi)
  {
    if values != [] {
      DistancesInside(values[..|values| - 1], lo, hi, centre);
      var d := Distances(values, centre);
      assert d[..|d| - 1] == Distances(values[..|values| - 1], centre);
      assert lo <= values[|values| - 1] <= hi ==> 0.0 <= d[|d| - 1] <= hi - lo;
    }
  }

  /** Neither the median nor the MAD can be driven beyond a majority's interval. */
  lemma MajorityBoundsSpread(values: seq<real>, lo: real, hi: real)
    requires MajorityIn(values, lo, hi)
    ensures lo <= Median(values) <= hi && 0.0 <= MedianAbsoluteDeviation(values) <= hi - lo
  {
    MedianInMajority(values, lo, hi);
    DistancesInside(values, lo, hi, Median(values));
    MedianInMajority(Distances(values, Median(values)), 0.0, hi - lo);
  }

  // ----- how many values MAD keeps -------------------------------------------

  lemma AtMostMiddle(s: seq<real>, lo: real)
    requires Ascending(s) && s != [] && lo <= s[0]
    ensures 2 * CountIn(s, lo, Middle(s)) >= |s|
  {
    var mid := |s| / 2;
    var k := if |s| % 2 == 0 then mid else mid + 1;
    var head := s[..k];
    assert s == head + s[k..];
    CountConcat(head, s[k..], lo, Middle(s));
    forall i | 0 <= i < |head| ensures lo <= head[i] <= Middle(s) {
      assert head[i] == s[i];
    }
    CountAll(head, lo, Middle(s));
  }

  lemma HalfBelowMedian(d: seq<real>)
    requires d != [] && forall i :: 0 <= i < |d| ==> d[i] >= 0.0
    ensures 2 * CountIn(d, 0.0, Median(d)) >= |d|
  {
    SortAscending(d);
    assert Sort(d)[0] in multiset(d);
    AtMostMiddle(Sort(d), 0.0);
    CountPermutation(d, Sort(d), 0.0, Median(d));
  }

  lemma HalfWithinMad(values: seq<real>)
    requires values != []
    ensures 2 * CountIn(Distances(values, Median(values)), 0.0, MedianAbsoluteDeviation(values)) >= |values|
  {
    HalfBelowMedian(Distances(values, Median(values)));
  }

  lemma {:induction false} CloseValuesKept(values: seq<real>, centre: real, reach: real, keep: Rule)
    requires forall v :: Abs(v - centre) <= reach ==> keep(v)
    ensures |Filter(values, keep)| >= CountIn(Distances(values, centre), 0.0, reach)
  {
    if values != [] {
      CloseValuesKept(values[..|values| - 1], centre, reach, keep);
      assert Distances(values, centre)[..|values| - 1] == Distances(values[..|values| - 1], centre);
    }
  }

  /** MAD always keeps at least half of the values, rounded up, whatever they are. */
  lemma MadKeepsHalf(values: seq<real>)
    ensures 2 * |Filter(values, MadRule(values, MAD_OUTLIER_THRESHOLD))| >= |values|
  {
    if values != [] {
      var mad := MedianAbsoluteDeviation(values);
      HalfWithinMad(values);
      forall v | Abs(v - Median(values)) <= mad ensures MadRule(values, MAD_OUTLIER_THRESHOLD)(v) {
        if mad > 0.0 { ScaledWithin(Abs(v - Median(values)), mad); }
      }
      CloseValuesKept(values, Median(values), mad, MadRule(values, MAD_OUTLIER_THRESHOLD));
    }
  }

  lemma ScaledWithin(distance: real, mad: real)
    requires 0.0 <= distance <= mad && mad > 0.0
    ensures MAD_SCALE * distance / mad <= MAD_OUTLIER_THRESHOLD
  {
    QuotientIff(MAD_SCALE * distance, mad, MAD_OUTLIER_THRESHOLD);
  }

  // ----- means ---------------------------------------------------------------

  ghost predicate AllIn(values: seq<real>, lo: real, hi: real) {
    forall i :: 0 <= i < |values| ==> lo <= values[i] <= hi
  }

  /** A sum of terms in [lo, hi] with the given total weight. */
  predicate Between(sum: real, weight: real, lo: real, hi: real) {
    weight * lo <= sum <= weight * hi
  }

  lemma {:induction false} SumInside(values: seq<real>, n: real, lo: real, hi: real)
    requires AllIn(values, lo, hi) && n == |values| as real
    ensures Between(Sum(values), n, lo, hi)
  {
    if values == [] {
      assert n == 0.0;
    } else {
      var front, v := values[..|values| - 1], values[|values| - 1];
      SumInside(front, n - 1.0, lo, hi);
      SumStep(n - 1.0, Sum(front), v, lo, hi);
    }
  }

  lemma SumStep(n: real, sum: real, v: real, lo: real, hi: real)
    requires lo <= v <= hi && Between(sum, n, lo, hi)
    ensures Between(sum + v, n + 1.0, lo, hi)
  {
  }

  ghost predicate NonNegativeWeights(weights: seq<real>) {
    forall i :: 0 <= i < |weights| ==> weights[i] >= 0.0
  }

  lemma {:induction false} WeightSumNonNegative(values: seq<real>, weights: seq<real>)
    requires NonNegativeWeights(weights)
    ensures WeightSum(values, weights) >= 0.0
  {
    if values != [] { WeightSumNonNegative(values[..|values| - 1], weights); }
  }

  lemma {:induction false} WeightedSumInside(values: seq<real>, weights: seq<real>, lo: real, hi: real)
    requires AllIn(values, lo, hi) && NonNegativeWeights(weights)
    ensures Between(WeightedSum(values, weights), WeightSum(values, weights), lo, hi)
  {
    if values != [] {
      var front, v, w := values[..|values| - 1], values[|values| - 1], WeightAt(weights, |values| - 1);
      WeightedSumInside(front, weights, lo, hi);
      WeightedStep(WeightSum(front, weights), WeightedSum(front, weights), v, w, lo, hi);
    }
  }

  lemma WeightedStep(weight: real, sum: real, v: real, w: real, lo: real, hi: real)
    requires lo <= v <= hi && w >= 0.0 && Between(sum, weight, lo, hi)
    ensures Between(sum + v * w, weight + w, lo, hi)
  {
    AtMostScaled(w, lo, v);
    AtMostScaled(w, v, hi);
  }

  /** Either mean of values in an interval lies in it, for non-negative weights. */
  lemma MeansInside(values: seq<real>, weights: seq<real>, lo: real, hi: real)
    requires values != [] && AllIn(values, lo, hi) && NonNegativeWeights(weights)
    ensures lo <= WeightedMean(values, weights) <= hi && lo <= Mean(values) <= hi
  {
    SumInside(values, |values| as real, lo, hi);
    QuotientInside(Sum(values), |values| as real, lo, hi);
    WeightSumNonNegative(values, weights);
    WeightedSumInside(values, weights, lo, hi);
    if WeightSum(values, weights) > 0.0 {
      QuotientInside(WeightedSum(values, weights), WeightSum(values, weights), lo, hi);
    }
  }

  // ----- the breakdown bound -------------------------------------------------

  /** How many MADs from the median a kept value may lie. */
  const REACH := MAD_OUTLIER_THRESHOLD / MAD_SCALE

  /** An interval widened on both sides by REACH times its width. */
  function Below(lo: real, hi: real): real { lo - REACH * (hi - lo) }

  function Above(lo: real, hi: real): real { hi + REACH * (hi - lo) }

  lemma KeptWithinReach(values: seq<real>, v: real)
    requires |values| >= 3 && MedianAbsoluteDeviation(values) > 0.0 && MadRule(values, MAD_OUTLIER_THRESHOLD)(v)
    ensures Abs(v - Median(values)) <= REACH * MedianAbsoluteDeviation(values)
  {
    ReachFromScore(Abs(v - Median(values)), MedianAbsoluteDeviation(values));
  }

  lemma ReachFromScore(distance: real, mad: real)
    requires mad > 0.0 && MAD_SCALE * distance / mad <= MAD_OUTLIER_THRESHOLD
    ensures distance <= REACH * mad
  {
    QuotientIff(MAD_SCALE * distance, mad, MAD_OUTLIER_THRESHOLD);
    QuotientTimes(MAD_OUTLIER_THRESHOLD, MAD_SCALE);
    assert MAD_SCALE * (REACH * mad) == MAD_OUTLIER_THRESHOLD * mad;
    ScaleIff(MAD_SCALE, distance, REACH * mad);
  }

  lemma ReachInside(v: real, med: real, mad: real, lo: real, hi: real)
    requires lo <= med <= hi && 0.0 <= mad <= hi - lo && Abs(v - med) <= REACH * mad
    ensures Below(lo, hi) <= v <= Above(lo, hi)
  {
    AtMostScaled(REACH, mad, hi - lo);
  }

  /** Half the samples can be anything at all: if the rest lie in [lo, hi], the MAD price, weighted by
      non-negative liquidity or not, stays within REACH interval widths of it. */
  lemma BreakdownBound(num: Numerics, samples: seq<Sample>, weighted: bool, lo: real, hi: real)
    requires MajorityIn(PricesOf(samples), lo, hi)
    requires |samples| < 3 || MedianAbsoluteDeviation(PricesOf(samples)) > 0.0
    requires forall i :: 0 <= i < |samples| ==> samples[i].liquidity >= 0.0
    ensures var kept := Partition(samples, RuleOf(num, MAD, PricesOf(samples), None), true);
      && 2 * |kept| >= |samples|
      && Below(lo, hi) <= PriceOf(kept, weighted) <= Above(lo, hi)
  {
    var kept := Partition(samples, RuleOf(num, MAD, PricesOf(samples), None), true);
    MadKeepsHalf(PricesOf(samples));
    PartitionPrices(samples, RuleOf(num, MAD, PricesOf(samples), None));
    KeptInside(samples, lo, hi);
    PartitionWeights(samples, RuleOf(num, MAD, PricesOf(samples), None), true);
    MeansInside(PricesOf(kept), LiquidityOf(kept), Below(lo, hi), Above(lo, hi));
  }

  /** The centre and spread of prices with a majority in [lo, hi], and how far out MAD keeps a price. */
  lemma KeptReach(prices: seq<real>, lo: real, hi: real) returns (med: real, mad: real)
    requires |prices| >= 3 && MajorityIn(prices, lo, hi) && MedianAbsoluteDeviation(prices) > 0.0
    ensures lo <= med <= hi && 0.0 <= mad <= hi - lo
    ensures forall v :: MadRule(prices, MAD_OUTLIER_THRESHOLD)(v) ==> Abs(v - med) <= REACH * mad
  {
    MajorityBoundsSpread(prices, lo, hi);
    med, mad := Median(prices), MedianAbsoluteDeviation(prices);
    forall v | MadRule(prices, MAD_OUTLIER_THRESHOLD)(v) ensures Abs(v - med) <= REACH * mad {
      KeptWithinReach(prices, v);
    }
  }

  lemma KeptInside(samples: seq<Sample>, lo: real, hi: real)
    requires MajorityIn(PricesOf(samples), lo, hi)
    requires |samples| < 3 || MedianAbsoluteDeviation(PricesOf(samples)) > 0.0
    ensures AllIn(PricesOf(Partition(samples, MadRule(PricesOf(samples), MAD_OUTLIER_THRESHOLD), true)), Below(lo, hi),
      Above(lo, hi))
  {
    if |samples| < 3 {
      PartitionAll(samples, MadRule(PricesOf(samples), MAD_OUTLIER_THRESHOLD));
      FewInside(PricesOf(samples), lo, hi);
    } else {
      RuleInside(PricesOf(samples), lo, hi);
      PartitionInside(samples, MadRule(PricesOf(samples), MAD_OUTLIER_THRESHOLD), Below(lo, hi), Above(lo, hi));
    }
  }

  lemma RuleInside(prices: seq<real>, lo: real, hi: real)
    requires |prices| >= 3 && MajorityIn(prices, lo, hi) && MedianAbsoluteDeviation(prices) > 0.0
    ensures RuleKeepsIn(MadRule(prices, MAD_OUTLIER_THRESHOLD), Below(lo, hi), Above(lo, hi))
  {
    var med, mad := KeptReach(prices, lo, hi);
    forall v | MadRule(prices, MAD_OUTLIER_THRESHOLD)(v) ensures Below(lo, hi) <= v <= Above(lo, hi) {
      ReachInside(v, med, mad, lo, hi);
    }
  }

  ghost predicate RuleKeepsIn(keep: Rule, lo: real, hi: real) {
    forall v :: keep(v) ==> lo <= v <= hi
  }

  lemma PartitionInside(samples: seq<Sample>, keep: Rule, lo: real, hi: real)
    requires RuleKeepsIn(keep, lo, hi)
    ensures AllIn(PricesOf(Partition(samples, keep, true)), lo, hi)
  {
    var kept := Partition(samples, keep, true);
    forall i | 0 <= i < |kept| ensures lo <= PricesOf(kept)[i] <= hi {
      PartitionSide(samples, keep, true, i);
    }
  }

  /** A majority of one or two values is all of them. */
  lemma FewInside(values: seq<real>, lo: real, hi: real)
    requires |values| < 3 && MajorityIn(values, lo, hi)
    ensures AllIn(values, Below(lo, hi), Above(lo, hi))
  {
    CountAtMost(values, lo, hi);
    CountFull(values, lo, hi);
    forall i | 0 <= i < |values| ensures Below(lo, hi) <= values[i] <= Above(lo, hi) {
      Widened(values[i], lo, hi);
    }
  }

  lemma Widened(v: real, lo: real, hi: real)
    requires lo <= v <= hi
    ensures Below(lo, hi) <= v <= Above(lo, hi)
  {
    ProductNonNegative(REACH, hi - lo);
  }

  lemma {:induction false} CountFull(values: seq<real>, lo: real, hi: real)
    requires CountIn(values, lo, hi) == |values|
    ensures AllIn(values, lo, hi)
  {
    if values != [] {
      CountAtMost(values[..|values| - 1], lo, hi);
      CountFull(values[..|values| - 1], lo, hi);
    }
  }

  lemma PartitionWeights(samples: seq<Sample>, keep: Rule, side: bool)
    requires forall i :: 0 <= i < |samples| ==> samples[i].liquidity >= 0.0
    ensures NonNegativeWeights(LiquidityOf(Partition(samples, keep, side)))
  {
    var part := Partition(samples, keep, side);
    forall i | 0 <= i < |part| ensures LiquidityOf(part)[i] >= 0.0 {
      PartitionSide(samples, keep, side, i);
    }
  }

  /** Without spread nothing is rejected, so the price is the mean of every sample, outliers included:
      the bound needs its condition. */
  lemma NoSpreadKeepsAll(num: Numerics, samples: seq<Sample>, weighted: bool)
    requires MedianAbsoluteDeviation(PricesOf(samples)) == 0.0
    ensures Partition(samples, RuleOf(num, MAD, PricesOf(samples), None), true) == samples
  {
    PartitionAll(samples, RuleOf(num, MAD, PricesOf(samples), None));
  }

  lemma {:induction false} PartitionAll(samples: seq<Sample>, keep: Rule)
    requires forall v :: keep(v)
    ensures Partition(samples, keep, true) == samples
  {
    if samples != [] { PartitionAll(samples[..|samples| - 1], keep); }
  }
}
