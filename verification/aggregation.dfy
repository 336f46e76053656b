/** Aggregation in lib/stats.ts is an exact partition of the samples, and neither the price
    nor any count depends on their order. */
module Aggregation {
  import opened Wrappers
  import opened Reals
  import opened Stats

  // ----- aggregation is an order-free partition ------------------------------

  lemma {:induction false} PartitionCounts(samples: seq<Sample>, keep: Rule, side: bool, s: Sample)
    ensures multiset(Partition(samples, keep, side))[s] == if keep(s.price) == side then multiset(samples)[s] else 0
  {
    if samples != [] {
      PartitionCounts(samples[..|samples| - 1], keep, side, s);
      assert samples == samples[..|samples| - 1] + [samples[|samples| - 1]];
    }
  }

  /** Kept and rejected together are the input, the kept prices are the survivors, and equal prices always
      share a side. */
  lemma PartitionExact(samples: seq<Sample>, keep: Rule)
    ensures multiset(Partition(samples, keep, true)) + multiset(Partition(samples, keep, false)) == multiset(samples)
    ensures PricesOf(Partition(samples, keep, true)) == Filter(PricesOf(samples), keep)
    ensures forall s, t :: s in Partition(samples, keep, true) && t in Partition(samples, keep, false) ==>
      s.price != t.price
  {
    var kept, rejected := Partition(samples, keep, true), Partition(samples, keep, false);
    PartitionPrices(samples, keep);
    forall s ensures (multiset(kept) + multiset(rejected))[s] == multiset(samples)[s] {
      PartitionCounts(samples, keep, true, s);
      PartitionCounts(samples, keep, false, s);
    }
    forall s, t | s in kept && t in rejected ensures s.price != t.price {
      PartitionCounts(samples, keep, true, s);
      PartitionCounts(samples, keep, false, t);
      assert multiset(kept)[s] > 0 && multiset(rejected)[t] > 0;
    }
  }

  // ----- order does not matter -----------------------------------------------

  function Image<T>(f: T -> real, s: seq<T>): seq<real> {
    if s == [] then [] else Image(f, s[..|s| - 1]) + [f(s[|s| - 1])]
  }

  lemma {:induction false} ImageConcat<T>(f: T -> real, s: seq<T>, t: seq<T>)
    ensures Image(f, s + t) == Image(f, s) + Image(f, t)
  {
    if t == [] {
      assert s + t == s;
    } else {
      ImageConcat(f, s, t[..|t| - 1]);
      assert (s + t)[..|s + t| - 1] == s + t[..|t| - 1];
    }
  }

  lemma ImageMiddle<T>(f: T -> real, a: seq<T>, x: T, b: seq<T>)
    ensures multiset(Image(f, a + [x] + b)) == multiset(Image(f, a + b)) + multiset{f(x)}
  {
    ImageConcat(f, a + [x], b);
    ImageConcat(f, a, [x]);
    ImageConcat(f, a, b);
    assert [x][..0] == [];
    assert Image(f, [x]) == [f(x)];
  }

  lemma Split<T>(s: seq<T>, i: nat)
    requires i < |s|
    ensures s == s[..i] + [s[i]] + s[i + 1..]
  {
  }

  lemma ImageWithout<T>(f: T -> real, s: seq<T>, i: nat)
    requires i < |s|
    ensures multiset(Image(f, s)) == multiset(Image(f, Without(s, i))) + multiset{f(s[i])}
  {
    Split(s, i);
    ImageMiddle(f, s[..i], s[i], s[i + 1..]);
  }

  /** Taking one occurrence of the same value out of two permutations leaves permutations. */
  lemma SameRest<T>(s: seq<T>, t: seq<T>, i: nat)
    requires s != [] && multiset(s) == multiset(t) && i < |t| && t[i] == s[|s| - 1]
    ensures multiset(s[..|s| - 1]) == multiset(Without(t, i))
  {
    assert s == s[..|s| - 1] + [s[|s| - 1]];
    assert t == t[..i] + [t[i]] + t[i + 1..];
    assert multiset(s[..|s| - 1]) == multiset(s) - multiset{s[|s| - 1]};
    assert multiset(Without(t, i)) == multiset(t) - multiset{t[i]};
  }

  lemma {:induction false} ImagePermutation<T>(f: T -> real, s: seq<T>, t: seq<T>)
    requires multiset(s) == multiset(t)
    ensures multiset(Image(f, s)) == multiset(Image(f, t))
    decreases |s|
  {
    assert |multiset(s)| == |s| && |multiset(t)| == |t|;
    if s != [] {
      assert s[|s| - 1] in multiset(t);
      var i: nat :| i < |t| && t[i] == s[|s| - 1];
      SameRest(s, t, i);
      ImagePermutation(f, s[..|s| - 1], Without(t, i));
      ImageWithout(f, t, i);
    }
  }

  lemma {:induction false} ImageAt<T>(f: T -> real, s: seq<T>, image: seq<real>)
    requires |image| == |s| && forall i :: 0 <= i < |s| ==> image[i] == f(s[i])
    ensures Image(f, s) == image
  {
    if s != [] { ImageAt(f, s[..|s| - 1], image[..|s| - 1]); }
  }

  /** A view of the samples, element by element, of two permutations. */
  lemma ViewPermutation<T>(f: T -> real, s: seq<T>, t: seq<T>, a: seq<real>, b: seq<real>)
    requires multiset(s) == multiset(t)
    requires |a| == |s| && forall i :: 0 <= i < |s| ==> a[i] == f(s[i])
    requires |b| == |t| && forall i :: 0 <= i < |t| ==> b[i] == f(t[i])
    ensures multiset(a) == multiset(b)
  {
    ImageAt(f, s, a);
    ImageAt(f, t, b);
    ImagePermutation(f, s, t);
  }

  function Products(samples: seq<Sample>): seq<real> {
    seq(|samples|, i requires 0 <= i < |samples| => samples[i].price * samples[i].liquidity)
  }

  lemma PricesPermutation(s: seq<Sample>, t: seq<Sample>)
    requires multiset(s) == multiset(t)
    ensures multiset(PricesOf(s)) == multiset(PricesOf(t))
  {
    ViewPermutation((x: Sample) => x.price, s, t, PricesOf(s), PricesOf(t));
  }

  lemma WeightsPermutation(s: seq<Sample>, t: seq<Sample>)
    requires multiset(s) == multiset(t)
    ensures multiset(LiquidityOf(s)) == multiset(LiquidityOf(t)) && multiset(Products(s)) == multiset(Products(t))
  {
    ViewPermutation((x: Sample) => x.liquidity, s, t, LiquidityOf(s), LiquidityOf(t));
    ViewPermutation((x: Sample) => x.price * x.liquidity, s, t, Products(s), Products(t));
  }

  lemma {:induction false} WeightedAsSums(samples: seq<Sample>, n: nat)
    requires n <= |samples|
    ensures WeightSum(PricesOf(samples)[..n], LiquidityOf(samples)) == Sum(LiquidityOf(samples)[..n])
    ensures WeightedSum(PricesOf(samples)[..n], LiquidityOf(samples)) == Sum(Products(samples)[..n])
  {
    if n > 0 {
      WeightedAsSums(samples, n - 1);
      assert PricesOf(samples)[..n][..n - 1] == PricesOf(samples)[..n - 1];
      assert LiquidityOf(samples)[..n][..n - 1] == LiquidityOf(samples)[..n - 1];
      assert Products(samples)[..n][..n - 1] == Products(samples)[..n - 1];
    }
  }

  lemma WeightedMeanOf(s: seq<Sample>)
    ensures WeightSum(PricesOf(s), LiquidityOf(s)) == Sum(LiquidityOf(s))
    ensures WeightedSum(PricesOf(s), LiquidityOf(s)) == Sum(Products(s))
  {
    WeightedAsSums(s, |s|);
    assert PricesOf(s)[..|s|] == PricesOf(s) && LiquidityOf(s)[..|s|] == LiquidityOf(s) &&
      Products(s)[..|s|] == Products(s);
  }

  lemma PricePermutation(s: seq<Sample>, t: seq<Sample>, weighted: bool)
    requires multiset(s) == multiset(t)
    ensures PriceOf(s, weighted) == PriceOf(t, weighted) && |s| == |t|
  {
    assert |multiset(s)| == |s| && |multiset(t)| == |t|;
    PricesPermutation(s, t);
    SumPermutation(PricesOf(s), PricesOf(t));
    if weighted {
      WeightsPermutation(s, t);
      SumPermutation(LiquidityOf(s), LiquidityOf(t));
      SumPermutation(Products(s), Products(t));
      WeightedMeanOf(s);
      WeightedMeanOf(t);
    }
  }

  lemma MeanPermutation(s: seq<real>, t: seq<real>)
    requires multiset(s) == multiset(t)
    ensures Mean(s) == Mean(t) && |s| == |t|
  {
    assert |multiset(s)| == |s| && |multiset(t)| == |t|;
    SumPermutation(s, t);
  }

  lemma MedianPermutation(s: seq<real>, t: seq<real>)
    requires multiset(s) == multiset(t)
    ensures Median(s) == Median(t)
  {
    assert |multiset(s)| == |s| && |multiset(t)| == |t|;
    SortPermutation(s, t);
  }

  lemma SpreadPermutation(s: seq<real>, t: seq<real>)
    requires multiset(s) == multiset(t)
    ensures MedianAbsoluteDeviation(s) == MedianAbsoluteDeviation(t)
  {
    MedianPermutation(s, t);
    var centre := Median(s);
    ViewPermutation((x: real) => Abs(x - centre), s, t, Distances(s, centre), Distances(t, centre));
    MedianPermutation(Distances(s, centre), Distances(t, centre));
  }

  lemma {:induction false} SumSquaresAsSum(s: seq<real>)
    ensures SumSquares(s) == Sum(Image(Square, s))
  {
    if s != [] {
      SumSquaresAsSum(s[..|s| - 1]);
      assert Image(Square, s)[..|s| - 1] == Image(Square, s[..|s| - 1]) by { ImageLength(Square, s[..|s| - 1]); }
      ImageLength(Square, s);
    }
  }

  lemma {:induction false} ImageLength<T>(f: T -> real, s: seq<T>)
    ensures |Image(f, s)| == |s|
  {
    if s != [] { ImageLength(f, s[..|s| - 1]); }
  }

  lemma DeviationsPermutation(num: Numerics, s: seq<real>, t: seq<real>)
    requires multiset(s) == multiset(t)
    ensures StdDev(num, s) == StdDev(num, t)
  {
    MeanPermutation(s, t);
    var centre := Mean(s);
    var a, b := Deviations(s, centre), Deviations(t, centre);
    ViewPermutation((x: real) => x - centre, s, t, a, b);
    ImagePermutation(Square, a, b);
    SumPermutation(Image(Square, a), Image(Square, b));
    SumSquaresAsSum(a);
    SumSquaresAsSum(b);
  }

  lemma RoundPermutation(num: Numerics, s: seq<real>, t: seq<real>, k: nat)
    requires multiset(s) == multiset(t)
    ensures PeirceRound(num, s, k) == PeirceRound(num, t, k) && PeirceRejected(num, s, k) == PeirceRejected(num, t, k)
  {
    MeanPermutation(s, t);
    DeviationsPermutation(num, s, t);
    SameSurvivors(s, t, PeirceRound(num, s, k), PeirceRound(num, t, k));
  }

  lemma {:induction false} PeirceStopPermutation(num: Numerics, s: seq<real>, t: seq<real>, k: nat)
    requires |s| == |t| && forall j: nat :: PeirceRejected(num, s, j) == PeirceRejected(num, t, j)
    ensures PeirceStop(num, s, k) == PeirceStop(num, t, k)
    decreases |s| + 1 - k
  {
    var removed := PeirceRejected(num, s, k);
    if removed > k { PeirceStopPermutation(num, s, t, removed + 1); }
  }

  lemma SameSurvivors(s: seq<real>, t: seq<real>, a: Rule, b: Rule)
    requires multiset(s) == multiset(t) && forall v :: a(v) == b(v)
    ensures |Filter(s, a)| == |Filter(t, b)|
  {
    forall v ensures multiset(Filter(s, a))[v] == multiset(Filter(t, b))[v] {
      FilterCounts(s, a, v);
      FilterCounts(t, b, v);
    }
    assert multiset(Filter(s, a)) == multiset(Filter(t, b));
    assert |multiset(Filter(s, a))| == |Filter(s, a)| && |multiset(Filter(t, b))| == |Filter(t, b)|;
  }

  lemma MadRulePermutation(s: seq<real>, t: seq<real>, v: real)
    requires multiset(s) == multiset(t) && |s| == |t|
    ensures MadRule(s, MAD_OUTLIER_THRESHOLD)(v) == MadRule(t, MAD_OUTLIER_THRESHOLD)(v)
  {
    MedianPermutation(s, t);
    SpreadPermutation(s, t);
  }

  lemma ChauvenetRulePermutation(num: Numerics, s: seq<real>, t: seq<real>, max: Option<real>, v: real)
    requires multiset(s) == multiset(t)
    ensures ChauvenetRule(num, s, max)(v) == ChauvenetRule(num, t, max)(v)
  {
    MeanPermutation(s, t);
    DeviationsPermutation(num, s, t);
  }

  lemma PeirceRulePermutation(num: Numerics, s: seq<real>, t: seq<real>, v: real)
    requires multiset(s) == multiset(t)
    ensures PeirceRule(num, s)(v) == PeirceRule(num, t)(v)
  {
    MeanPermutation(s, t);
    DeviationsPermutation(num, s, t);
    forall j: nat ensures PeirceRejected(num, s, j) == PeirceRejected(num, t, j) {
      RoundPermutation(num, s, t, j);
    }
    PeirceStopPermutation(num, s, t, 1);
    RoundPermutation(num, s, t, PeirceStop(num, s, 1));
  }

  lemma IqdRulePermutation(s: seq<real>, t: seq<real>, v: real)
    requires multiset(s) == multiset(t)
    ensures IqdRule(s)(v) == IqdRule(t)(v)
  {
    SortPermutation(s, t);
  }

  /** Every rule judges a value by the set it stands in, not by the order. */
  lemma RulePermutation(num: Numerics, m: OutlierMethod, s: seq<real>, t: seq<real>, max: Option<real>, v: real)
    requires multiset(s) == multiset(t)
    ensures RuleOf(num, m, s, max)(v) == RuleOf(num, m, t, max)(v)
  {
    match m
    case MAD =>
      MeanPermutation(s, t);
      MadRulePermutation(s, t, v);
    case Chauvenet => ChauvenetRulePermutation(num, s, t, max, v);
    case Peirce => PeirceRulePermutation(num, s, t, v);
    case IQD => IqdRulePermutation(s, t, v);
    case NoRemoval =>
  }

  lemma PartitionPermutation(s: seq<Sample>, t: seq<Sample>, a: Rule, b: Rule, side: bool)
    requires multiset(s) == multiset(t) && forall v :: a(v) == b(v)
    ensures multiset(Partition(s, a, side)) == multiset(Partition(t, b, side))
  {
    forall x ensures multiset(Partition(s, a, side))[x] == multiset(Partition(t, b, side))[x] {
      PartitionCounts(s, a, side, x);
      PartitionCounts(t, b, side, x);
    }
  }

  /** Reordering the samples changes neither the price nor how many are used and rejected. */
  lemma SampleOrderIrrelevant(num: Numerics, m: OutlierMethod, s: seq<Sample>, t: seq<Sample>, weighted: bool,
                              max: Option<real>)
    requires multiset(s) == multiset(t)
    ensures var a, b := RuleOf(num, m, PricesOf(s), max), RuleOf(num, m, PricesOf(t), max);
      && PriceOf(Partition(s, a, true), weighted) == PriceOf(Partition(t, b, true), weighted)
      && |Partition(s, a, true)| == |Partition(t, b, true)| && |Partition(s, a, false)| == |Partition(t, b, false)|
  {
    var a, b := RuleOf(num, m, PricesOf(s), max), RuleOf(num, m, PricesOf(t), max);
    PricesPermutation(s, t);
    forall v ensures a(v) == b(v) {
      RulePermutation(num, m, PricesOf(s), PricesOf(t), max, v);
    }
    PartitionPermutation(s, t, a, b, true);
    PartitionPermutation(s, t, a, b, false);
    PricePermutation(Partition(s, a, true), Partition(t, b, true), weighted);
    PricePermutation(Partition(s, a, false), Partition(t, b, false), weighted);
  }
}
