/** What the robust statistics of lib/stats.ts are, value by value. */
module MedianLaws {
  // The breakdown bounds hold for any value near the middle, a one-sided median included. Here median, MAD, quartiles
  // and the rules built on them are given on any ascending arrangement of the values, and mirrored prices give mirrored
  // results.

  import opened Wrappers
  import opened Reals
  import opened Stats
  import opened Aggregation

  /** The values from the smallest up. */
  ghost predicate Arranges(s: seq<real>, values: seq<real>) {
    multiset(s) == multiset(values) && forall i, j :: 0 <= i < j < |s| ==> s[i] <= s[j]
  }

  lemma ArrangementIsSort(s: seq<real>, values: seq<real>)
    requires Arranges(s, values)
    ensures Sort(values) == s && |s| == |values|
  {
    SortAscending(values);
    AscendingUnique(Sort(values), s);
    assert |multiset(s)| == |multiset(values)|;
  }

  // ----- the median ----------------------------------------------------------

  /** Twice the median is the sum of the two middle values, which are one and the same for an odd number. */
  lemma MedianInMiddle(s: seq<real>, values: seq<real>)
    requires Arranges(s, values) && s != []
    ensures 2.0 * Median(values) == s[(|s| - 1) / 2] + s[|s| / 2]
  {
    ArrangementIsSort(s, values);
  }

  function Negated(values: seq<real>): seq<real> {
    seq(|values|, i requires 0 <= i < |values| => -values[i])
  }

  function Backwards(values: seq<real>): seq<real> {
    seq(|values|, i requires 0 <= i < |values| => values[|values| - 1 - i])
  }

  lemma {:induction false} BackwardsMembers(s: seq<real>)
    ensures multiset(Backwards(s)) == multiset(s)
  {
    if s != [] {
      var front, last := s[..|s| - 1], s[|s| - 1];
      BackwardsMembers(front);
      assert s == front + [last] && Backwards(s) == [last] + Backwards(front);
    }
  }

  lemma NegatedMembers(s: seq<real>, t: seq<real>)
    requires multiset(s) == multiset(t)
    ensures multiset(Negated(s)) == multiset(Negated(t))
  {
    ViewPermutation((x: real) => -x, s, t, Negated(s), Negated(t));
  }

  lemma NegatedArrangement(s: seq<real>, values: seq<real>)
    requires Arranges(s, values)
    ensures Arranges(Negated(Backwards(s)), Negated(values))
  {
    BackwardsMembers(s);
    NegatedMembers(Backwards(s), values);
  }

  /** A sequence backwards and negated. */
  ghost predicate Mirrors(s: seq<real>, m: seq<real>) {
    |m| == |s| && forall i :: 0 <= i < |s| ==> m[i] == -s[|s| - 1 - i]
  }

  lemma MirrorsItself(s: seq<real>)
    ensures Mirrors(s, Negated(Backwards(s)))
  {
  }

  /** Halves of the middles of a sequence and its mirror. */
  lemma MiddleMirrored(s: seq<real>, m: seq<real>, a: real, b: real)
    requires s != [] && Mirrors(s, m)
    requires 2.0 * a == s[(|s| - 1) / 2] + s[|s| / 2] && 2.0 * b == m[(|m| - 1) / 2] + m[|m| / 2]
    ensures b == -a
  {
    assert |s| - 1 - (|s| - 1) / 2 == |s| / 2;
    assert m[(|m| - 1) / 2] == -s[|s| / 2] && m[|m| / 2] == -s[(|s| - 1) / 2];
  }

  /** The median of the mirrored values is the mirrored median. */
  lemma MedianMirrored(values: seq<real>)
    ensures Median(Negated(values)) == -Median(values)
  {
    if values != [] {
      var s := Sort(values);
      SortAscending(values);
      var m := Negated(Backwards(s));
      MirrorsItself(s);
      NegatedArrangement(s, values);
      MedianInMiddle(s, values);
      MedianInMiddle(m, Negated(values));
      MiddleMirrored(s, m, Median(values), Median(Negated(values)));
    }
  }

  // ----- the MAD -------------------------------------------------------------

  /** The distances of the values from a point. */
  ghost function Apart(values: seq<real>, centre: real): seq<real> {
    seq(|values|, i requires 0 <= i < |values| => if values[i] < centre then centre - values[i] else values[i] - centre)
  }

  /** Twice the MAD is the sum of the two middle distances from the median. */
  lemma MadInMiddle(d: seq<real>, values: seq<real>)
    requires values != [] && Arranges(d, Apart(values, Median(values)))
    ensures d != [] && 2.0 * MedianAbsoluteDeviation(values) == d[(|d| - 1) / 2] + d[|d| / 2]
  {
    assert Apart(values, Median(values)) == Distances(values, Median(values));
    ArrangementIsSort(d, Apart(values, Median(values)));
    MedianInMiddle(d, Distances(values, Median(values)));
  }

  lemma DistancesMirrored(values: seq<real>, centre: real)
    ensures Distances(Negated(values), -centre) == Distances(values, centre)
  {
  }

  lemma MadMirrored(values: seq<real>)
    ensures MedianAbsoluteDeviation(Negated(values)) == MedianAbsoluteDeviation(values)
  {
    MedianMirrored(values);
    DistancesMirrored(values, Median(values));
  }

  /** Which value the MAD rule keeps: of three values or more, with m the middle of the values and mad the middle of
      their distances from it, one with 0.6745 times its distance at most 3.5 times mad; or any when mad is 0. */
  lemma MadKeepsIff(s: seq<real>, d: seq<real>, values: seq<real>, m: real, mad: real, v: real)
    requires values != [] && Arranges(s, values) && Arranges(d, Apart(values, m)) && |s| == |d| == |values|
    requires 2.0 * m == s[(|s| - 1) / 2] + s[|s| / 2] && 2.0 * mad == d[(|d| - 1) / 2] + d[|d| / 2]
    ensures MadRule(values, 3.5)(v) <==>
      |values| < 3 || mad <= 0.0 || 0.6745 * (if v < m then m - v else v - m) <= 3.5 * mad
  {
    MedianInMiddle(s, values);
    MadInMiddle(d, values);
    OutlierIff(v, m, mad);
    assert m == Median(values) && mad == MedianAbsoluteDeviation(values);
  }

  lemma OutlierIff(v: real, m: real, mad: real)
    ensures IsMadOutlier(v, m, mad, 3.5) <==> mad > 0.0 && 0.6745 * (if v < m then m - v else v - m) > 3.5 * mad
  {
    if mad > 0.0 { QuotientIff(0.6745 * Abs(v - m), mad, 3.5); }
  }

  lemma OutlierMirrored(v: real, m: real, mad: real)
    ensures IsMadOutlier(-v, -m, mad, MAD_OUTLIER_THRESHOLD) <==> IsMadOutlier(v, m, mad, MAD_OUTLIER_THRESHOLD)
  {
    assert Abs(-v - -m) == Abs(v - m);
  }

  lemma RuleIs(values: seq<real>, v: real)
    ensures MadRule(values, MAD_OUTLIER_THRESHOLD)(v) <==>
      |values| < 3 || !IsMadOutlier(v, Median(values), MedianAbsoluteDeviation(values), MAD_OUTLIER_THRESHOLD)
  {
  }

  /** Mirrored prices are kept and rejected alike. */
  lemma MadRuleMirrored(values: seq<real>, v: real)
    ensures MadRule(Negated(values), MAD_OUTLIER_THRESHOLD)(-v) == MadRule(values, MAD_OUTLIER_THRESHOLD)(v)
  {
    MedianMirrored(values);
    MadMirrored(values);
    OutlierMirrored(v, Median(values), MedianAbsoluteDeviation(values));
    RuleIs(values, v);
    RuleIs(Negated(values), -v);
  }

  /** The default method uses this rule. */
  lemma DefaultThreshold(num: Numerics, prices: seq<real>, max: Option<real>, v: real)
    ensures RuleOf(num, MAD, prices, max)(v) == MadRule(prices, 3.5)(v)
  {
  }

  // ----- the quartiles -------------------------------------------------------

  /** Four times the value a quarter of the way through (q == 1), or three quarters (q == 3): the mean of its two
      neighbours, weighted by nearness. */
  ghost function FourQuartiles(s: seq<real>, q: nat): real
    requires s != [] && q <= 4
  {
    var at := q * (|s| - 1);
    var base, rest := at / 4, at % 4;
    (4 - rest) as real * s[base] + rest as real * s[if base + 1 < |s| then base + 1 else base]
  }

  lemma QuarterPosition(last: nat, q: nat, share: real)
    requires q <= 4 && 4.0 * share == q as real
    ensures (last as real * share).Floor == q * last / 4
    ensures last as real * share - (q * last / 4) as real == (q * last % 4) as real / 4.0
  {
    var at := q * last;
    assert at == at / 4 * 4 + at % 4;
    ProductQuarter(last, q, share);
    assert last as real * share == (at / 4) as real + (at % 4) as real / 4.0;
  }

  lemma ProductQuarter(last: nat, q: nat, share: real)
    requires 4.0 * share == q as real
    ensures 4.0 * (last as real * share) == (q * last) as real
  {
    assert 4.0 * (last as real * share) == last as real * (4.0 * share);
  }

  lemma QuartileIs(s: seq<real>, q: nat, share: real)
    requires s != [] && q <= 4 && 4.0 * share == q as real
    ensures 4.0 * Quartile(s, share) == FourQuartiles(s, q)
  {
    QuarterPosition(|s| - 1, q, share);
    var base, rest := q * (|s| - 1) / 4, q * (|s| - 1) % 4;
    var pos := (|s| - 1) as real * share;
    assert pos.Floor == base && pos - base as real == rest as real / 4.0;
    if base + 1 < |s| { Interpolated(s[base], s[base + 1], rest as real); }
  }

  lemma Interpolated(a: real, b: real, rest: real)
    ensures 4.0 * (a + rest / 4.0 * (b - a)) == (4.0 - rest) * a + rest * b
  {
  }

  /** Which value the interquartile rule keeps: one at most one and a half times the distance of the quartiles outside
      them. */
  lemma IqdKeepsIff(s: seq<real>, values: seq<real>, v: real)
    requires values != [] && Arranges(s, values) && |s| == |values|
    ensures IqdRule(values)(v) <==>
      var q1, q3 := FourQuartiles(s, 1), FourQuartiles(s, 3);
      2.0 * q1 - 3.0 * (q3 - q1) <= 8.0 * v <= 2.0 * q3 + 3.0 * (q3 - q1)
  {
    ArrangementIsSort(s, values);
    QuartileIs(s, 1, 0.25);
    QuartileIs(s, 3, 0.75);
  }

  // ----- Chauvenet and Peirce ------------------------------------------------

  /** Three standard deviations unless another number is given; and everything is kept when there is no spread. */
  lemma ChauvenetKeepsIff(num: Numerics, values: seq<real>, max: Option<real>, v: real)
    ensures ChauvenetRule(num, values, max)(v) <==>
      var limit := if max.Some? && max.value != 0.0 then max.value else 3.0;
      var sd, mean := StdDev(num, values), Mean(values);
      sd <= 0.0 || (if v < mean then mean - v else v - mean) < limit * sd
  {
    var sd := StdDev(num, values);
    var limit := if max.Some? && max.value != 0.0 then max.value else 3.0;
    if sd > 0.0 { QuotientIff(Abs(v - Mean(values)), sd, limit); }
  }

  lemma Share(total: real, n: real, share: real)
    requires n > 0.0 && share == total / n
    ensures share * n == total
  {
  }

  lemma MeanIs(values: seq<real>)
    requires values != []
    ensures Mean(values) * |values| as real == Sum(values)
  {
    Share(Sum(values), |values| as real, Mean(values));
  }

  lemma VarianceIs(values: seq<real>)
    requires |values| >= 2
    ensures Variance(values) * (|values| - 1) as real == SumSquares(Deviations(values, Mean(values)))
  {
    Share(SumSquares(Deviations(values, Mean(values))), (|values| - 1) as real, Variance(values));
  }

  /** The squared distances from a point, summed. */
  ghost function SquaresAround(values: seq<real>, centre: real): real {
    if values == [] then 0.0
    else
      var last := values[|values| - 1] - centre;
      SquaresAround(values[..|values| - 1], centre) + last * last
  }

  lemma {:induction false} SquaresAre(values: seq<real>, centre: real)
    ensures SumSquares(Deviations(values, centre)) == SquaresAround(values, centre)
  {
    if values != [] {
      var front := values[..|values| - 1];
      SquaresAre(front, centre);
      assert Deviations(values, centre)[..|values| - 1] == Deviations(front, centre);
    }
  }

  /** The mean balances the values, and the deviation is the root of their squared distances from it over n - 1. */
  lemma MomentsAre(num: Numerics, values: seq<real>)
    requires |values| >= 2
    ensures Mean(values) * |values| as real == Sum(values)
    ensures exists variance: real ::
      StdDev(num, values) == num.sqrt(variance) &&
      variance * (|values| - 1) as real == SquaresAround(values, Mean(values))
  {
    MeanIs(values);
    VarianceIs(values);
    SquaresAre(values, Mean(values));
    assert StdDev(num, values) == num.sqrt(Variance(values));
  }

  /** One round with k suspects keeps what is nearer to the mean than the allowed deviation. */
  ghost predicate Near(num: Numerics, values: seq<real>, k: nat, v: real) {
    (if v < Mean(values) then Mean(values) - v else v - Mean(values)) <
      num.sqrt(num.peirceDev(|values|, k)) * StdDev(num, values)
  }

  /** How many values such a round rejects. */
  ghost function Far(num: Numerics, values: seq<real>, k: nat, upTo: nat): nat
    requires upTo <= |values|
  {
    if upTo == 0 then 0 else Far(num, values, k, upTo - 1) + if Near(num, values, k, values[upTo - 1]) then 0 else 1
  }

  lemma {:induction false} FarIsRejected(num: Numerics, values: seq<real>, k: nat, upTo: nat)
    requires upTo <= |values|
    ensures |Filter(values[..upTo], PeirceRound(num, values, k))| == upTo - Far(num, values, k, upTo)
  {
    if upTo > 0 {
      FarIsRejected(num, values, k, upTo - 1);
      assert values[..upTo][..upTo - 1] == values[..upTo - 1];
      assert PeirceRound(num, values, k)(values[upTo - 1]) == Near(num, values, k, values[upTo - 1]);
    }
  }

  /** The rounds as numbers of suspects: the first has one, each next one more than were rejected. */
  ghost predicate Rounds(far: nat -> nat, ks: seq<nat>) {
    && ks != [] && ks[0] == 1
    && forall i :: 0 <= i < |ks| - 1 ==> ks[i + 1] == far(ks[i]) + 1 && far(ks[i]) > ks[i]
  }

  /** Where never more than n are rejected, there is a last round: no more were rejected than were suspected. */
  lemma {:induction false} LastRound(far: nat -> nat, n: nat, ks: seq<nat>) returns (all: seq<nat>)
    requires Rounds(far, ks) && (forall k :: far(k) <= n) && ks[|ks| - 1] <= n + 1
    ensures Rounds(far, all) && far(all[|all| - 1]) <= all[|all| - 1]
    decreases n + 1 - ks[|ks| - 1]
  {
    var k := ks[|ks| - 1];
    all := ks;
    if far(k) > k {
      all := LastRound(far, n, ks + [far(k) + 1]);
    }
  }

  ghost function FarOf(num: Numerics, values: seq<real>): nat -> nat {
    (k: nat) => Far(num, values, k, |values|)
  }

  lemma FarIs(num: Numerics, values: seq<real>, k: nat)
    ensures PeirceRejected(num, values, k) == FarOf(num, values)(k) <= |values|
  {
    FarIsRejected(num, values, k, |values|);
    assert values[..|values|] == values;
  }

  lemma StopGoesOn(num: Numerics, values: seq<real>, k: nat, far: nat)
    requires far == PeirceRejected(num, values, k)
    ensures PeirceStop(num, values, k) == if far > k then PeirceStop(num, values, far + 1) else k
  {
  }

  lemma {:induction false} StopAlong(num: Numerics, values: seq<real>, ks: seq<nat>, i: nat)
    requires Rounds(FarOf(num, values), ks) && i < |ks|
    ensures PeirceStop(num, values, 1) == PeirceStop(num, values, ks[i])
  {
    if i > 0 {
      var k := ks[i - 1];
      assert ks[i] == FarOf(num, values)(k) + 1 && FarOf(num, values)(k) > k;
      StopAlong(num, values, ks, i - 1);
      FarIs(num, values, k);
      StopGoesOn(num, values, k, PeirceRejected(num, values, k));
    }
  }

  lemma StopIsLast(num: Numerics, values: seq<real>) returns (ks: seq<nat>)
    ensures Rounds(FarOf(num, values), ks) && PeirceStop(num, values, 1) == ks[|ks| - 1]
    ensures FarOf(num, values)(ks[|ks| - 1]) <= ks[|ks| - 1]
  {
    forall k: nat ensures FarOf(num, values)(k) <= |values| { FarIs(num, values, k); }
    ks := LastRound(FarOf(num, values), |values|, [1]);
    var k := ks[|ks| - 1];
    StopAlong(num, values, ks, |ks| - 1);
    FarIs(num, values, k);
    StopGoesOn(num, values, k, FarOf(num, values)(k));
  }

  lemma RoundIsNear(num: Numerics, values: seq<real>, k: nat, v: real)
    ensures PeirceRound(num, values, k)(v) <==> Near(num, values, k, v)
  {
  }

  /** What Peirce's rounds keep: of three values or more with spread, the values near the mean in the last round, the
      first in which no more were rejected than were suspected. */
  lemma PeirceKeepsIff(num: Numerics, values: seq<real>, v: real) returns (ks: seq<nat>)
    ensures Rounds(FarOf(num, values), ks) && FarOf(num, values)(ks[|ks| - 1]) <= ks[|ks| - 1]
    ensures PeirceRule(num, values)(v) <==>
      |values| < 3 || StdDev(num, values) == 0.0 || Near(num, values, ks[|ks| - 1], v)
  {
    ks := StopIsLast(num, values);
    RoundIsNear(num, values, PeirceStop(num, values, 1), v);
  }

  // ----- the price -----------------------------------------------------------

  /** How the samples balance around a price: with their liquidity as weights, or each alike. */
  ghost function Balance(kept: seq<Sample>, price: real, weighted: bool): real {
    if kept == [] then 0.0
    else
      var last := kept[|kept| - 1];
      Balance(kept[..|kept| - 1], price, weighted) + (last.price - price) * if weighted then last.liquidity else 1.0
  }

  ghost function Liquidity(kept: seq<Sample>): real {
    if kept == [] then 0.0 else Liquidity(kept[..|kept| - 1]) + kept[|kept| - 1].liquidity
  }

  lemma Moment(value: real, price: real, weight: real)
    ensures (value - price) * weight == value * weight - price * weight
  {
  }

  lemma Spread(price: real, a: real, b: real)
    ensures price * (a + b) == price * a + price * b
  {
  }

  lemma {:induction false} WeightedBalance(kept: seq<Sample>, price: real, n: nat)
    requires n <= |kept|
    ensures Balance(kept[..n], price, true) == Sum(Products(kept)[..n]) - price * Sum(LiquidityOf(kept)[..n])
    ensures Liquidity(kept[..n]) == Sum(LiquidityOf(kept)[..n])
  {
    if n > 0 {
      WeightedBalance(kept, price, n - 1);
      assert kept[..n][..n - 1] == kept[..n - 1] && Products(kept)[..n][..n - 1] == Products(kept)[..n - 1];
      assert LiquidityOf(kept)[..n][..n - 1] == LiquidityOf(kept)[..n - 1];
      Moment(kept[n - 1].price, price, kept[n - 1].liquidity);
      Spread(price, Sum(LiquidityOf(kept)[..n - 1]), kept[n - 1].liquidity);
    }
  }

  lemma {:induction false} PlainBalance(kept: seq<Sample>, price: real, n: nat)
    requires n <= |kept|
    ensures Balance(kept[..n], price, false) == Sum(PricesOf(kept)[..n]) - price * n as real
  {
    if n > 0 {
      PlainBalance(kept, price, n - 1);
      assert kept[..n][..n - 1] == kept[..n - 1] && PricesOf(kept)[..n][..n - 1] == PricesOf(kept)[..n - 1];
      Spread(price, (n - 1) as real, 1.0);
    }
  }

  lemma WeightedBalances(kept: seq<Sample>)
    requires kept != [] && Liquidity(kept) > 0.0
    ensures Balance(kept, PriceOf(kept, true), true) == 0.0
  {
    var price := PriceOf(kept, true);
    assert kept[..|kept|] == kept;
    assert Products(kept)[..|kept|] == Products(kept) && LiquidityOf(kept)[..|kept|] == LiquidityOf(kept);
    WeightedBalance(kept, price, |kept|);
    WeightedMeanOf(kept);
    Share(Sum(Products(kept)), Sum(LiquidityOf(kept)), price);
  }

  lemma PlainBalances(kept: seq<Sample>, price: real)
    requires kept != [] && price == Mean(PricesOf(kept))
    ensures Balance(kept, price, false) == 0.0
  {
    assert kept[..|kept|] == kept && PricesOf(kept)[..|kept|] == PricesOf(kept);
    PlainBalance(kept, price, |kept|);
    Share(Sum(PricesOf(kept)), |kept| as real, price);
  }

  /** Without liquidity the weighted price is the plain one. */
  lemma NoLiquidity(kept: seq<Sample>)
    requires Liquidity(kept) <= 0.0
    ensures PriceOf(kept, true) == Mean(PricesOf(kept))
  {
    WeightedMeanOf(kept);
    WeightedBalance(kept, 0.0, |kept|);
    assert kept[..|kept|] == kept && LiquidityOf(kept)[..|kept|] == LiquidityOf(kept);
  }

  /** The price is the point around which the kept samples balance: by liquidity when that is asked for and there is
      any, else each alike. */
  lemma PriceBalances(kept: seq<Sample>, weighted: bool)
    requires kept != []
    ensures Balance(kept, PriceOf(kept, weighted), weighted && Liquidity(kept) > 0.0) == 0.0
  {
    if weighted && Liquidity(kept) > 0.0 {
      WeightedBalances(kept);
    } else {
      if weighted { NoLiquidity(kept); }
      PlainBalances(kept, PriceOf(kept, weighted));
    }
  }

  lemma NothingKept(weighted: bool)
    ensures PriceOf([], weighted) == 0.0
  {
  }

  // ----- weights that are missing --------------------------------------------

  function Zeros(n: nat): seq<real> {
    seq(n, i => 0.0)
  }

  lemma {:induction false} SumsWithZeros(values: seq<real>, weights: seq<real>, n: nat)
    ensures WeightSum(values, weights) == WeightSum(values, weights + Zeros(n))
    ensures WeightedSum(values, weights) == WeightedSum(values, weights + Zeros(n))
  {
    if values != [] { SumsWithZeros(values[..|values| - 1], weights, n); }
  }

  /** A value without a weight weighs nothing. */
  lemma MissingWeighsNothing(values: seq<real>, weights: seq<real>, n: nat)
    ensures WeightedMean(values, weights) == WeightedMean(values, weights + Zeros(n))
  {
    SumsWithZeros(values, weights, n);
  }

  // ----- the order of what is kept -------------------------------------------

  /** The samples at these places, from the first to the last. */
  ghost predicate PickedAt(samples: seq<Sample>, at: seq<nat>, picked: seq<Sample>) {
    && |at| == |picked| && (forall i :: 0 <= i < |at| ==> at[i] < |samples| && samples[at[i]] == picked[i])
    && (forall i, j :: 0 <= i < j < |at| ==> at[i] < at[j])
  }

  /** Both the kept and the rejected samples stand in the order in which they came. */
  lemma {:induction false} OrderKept(samples: seq<Sample>, keep: Rule, side: bool) returns (at: seq<nat>)
    ensures PickedAt(samples, at, Partition(samples, keep, side))
  {
    at := [];
    if samples != [] {
      var n := |samples| - 1;
      at := OrderKept(samples[..n], keep, side);
      if keep(samples[n].price) == side { at := at + [n]; }
    }
  }
}
