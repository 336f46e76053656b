/** The exact breakdown point of the MAD price of lib/stats.ts: against which minorities
    of arbitrary prices it holds. */
module BreakdownPoint {
  // `Breakdown` bounds the price while the MAD is positive. Here is the other half: when the MAD is 0, what an
  // outsider can then do, and on which honest prices no choice of the outsiders brings that about.

  import opened Wrappers
  import opened Reals
  import opened Stats
  import opened Aggregation
  import opened Breakdown

  // ----- when the MAD is zero ------------------------------------------------

  /** In a sorted sequence of distances whose m-th is 0, all up to it are. */
  lemma ZeroPrefix(s: seq<real>, m: nat)
    requires Ascending(s) && m < |s| && s[0] >= 0.0 && s[m] == 0.0
    ensures CountIn(s, 0.0, 0.0) >= m + 1
  {
    var head := s[..m + 1];
    assert s == head + s[m + 1..];
    CountConcat(head, s[m + 1..], 0.0, 0.0);
    forall i | 0 <= i < |head| ensures 0.0 <= head[i] <= 0.0 {
      assert head[i] == s[i];
    }
    CountAll(head, 0.0, 0.0);
  }

  lemma ZeroMiddle(s: seq<real>)
    requires Ascending(s) && s != [] && s[0] >= 0.0 && Middle(s) == 0.0
    ensures s[|s| / 2] == 0.0
  {
    var mid := |s| / 2;
    if |s| % 2 == 0 { assert 0.0 <= s[mid - 1] <= s[mid]; }
  }

  lemma ZeroMedian(d: seq<real>)
    requires d != [] && Median(d) == 0.0 && forall i :: 0 <= i < |d| ==> d[i] >= 0.0
    ensures 2 * CountIn(d, 0.0, 0.0) > |d|
  {
    var s := Sort(d);
    SortAscending(d);
    assert s[0] in multiset(d);
    ZeroMiddle(s);
    ZeroPrefix(s, |s| / 2);
    CountPermutation(d, s, 0.0, 0.0);
  }

  lemma {:induction false} ZeroDistances(values: seq<real>, centre: real)
    ensures CountIn(Distances(values, centre), 0.0, 0.0) == CountIn(values, centre, centre)
  {
    if values != [] {
      ZeroDistances(values[..|values| - 1], centre);
      assert Distances(values, centre)[..|values| - 1] == Distances(values[..|values| - 1], centre);
    }
  }

  /** The MAD is 0 exactly when more than half of the values are one value, which is then the median. */
  lemma NoSpreadIff(values: seq<real>)
    requires values != []
    ensures MedianAbsoluteDeviation(values) == 0.0 <==> MajorityIn(values, Median(values), Median(values))
  {
    var centre := Median(values);
    if MedianAbsoluteDeviation(values) == 0.0 {
      ZeroMedian(Distances(values, centre));
      ZeroDistances(values, centre);
    }
    if MajorityIn(values, centre, centre) {
      MajorityBoundsSpread(values, centre, centre);
    }
  }

  lemma MajorityHasNoSpread(values: seq<real>, p: real)
    requires MajorityIn(values, p, p)
    ensures Median(values) == p && MedianAbsoluteDeviation(values) == 0.0
  {
    MajorityBoundsSpread(values, p, p);
  }

  // ----- what one sample can then do -----------------------------------------

  ghost predicate NonNegativeLiquidity(samples: seq<Sample>) {
    forall i :: 0 <= i < |samples| ==> samples[i].liquidity >= 0.0
  }

  /** The price that MAD removal and either mean give. */
  function MadPrice(num: Numerics, samples: seq<Sample>, weighted: bool): real {
    PriceOf(Partition(samples, RuleOf(num, MAD, PricesOf(samples), None), true), weighted)
  }

  lemma {:induction false} SumNonNegative(s: seq<real>)
    requires NonNegativeWeights(s)
    ensures Sum(s) >= 0.0
  {
    if s != [] { SumNonNegative(s[..|s| - 1]); }
  }

  lemma ReplacedPrices(s: seq<Sample>, i: nat, x: Sample)
    requires i < |s|
    ensures Sum(PricesOf(s[i := x])) == Sum(Without(PricesOf(s), i)) + x.price
  {
    assert Without(PricesOf(s[i := x]), i) == Without(PricesOf(s), i);
    SumRest(PricesOf(s[i := x]), i);
  }

  lemma ReplacedLiquidity(s: seq<Sample>, i: nat, x: Sample)
    requires i < |s|
    ensures Sum(LiquidityOf(s[i := x])) == Sum(Without(LiquidityOf(s), i)) + x.liquidity
  {
    assert Without(LiquidityOf(s[i := x]), i) == Without(LiquidityOf(s), i);
    SumRest(LiquidityOf(s[i := x]), i);
  }

  lemma ReplacedProducts(s: seq<Sample>, i: nat, x: Sample, term: real)
    requires i < |s| && term == x.price * x.liquidity
    ensures Sum(Products(s[i := x])) == Sum(Without(Products(s), i)) + term
  {
    var t := s[i := x];
    forall k | 0 <= k < |s| && k != i ensures Products(t)[k] == Products(s)[k] {
      assert t[k] == s[k];
    }
    assert Without(Products(t), i) == Without(Products(s), i);
    SumRest(Products(t), i);
  }

  lemma QuotientOf(sum: real, total: real, target: real)
    requires total > 0.0 && sum == total * target
    ensures sum / total == target
  {
    QuotientIff(sum, total, target);
  }

  /** A factor whose term brings a mean to any target. */
  lemma Reaching(rest: real, w: real, total: real, target: real) returns (v: real, term: real)
    requires w > 0.0 && total > 0.0
    ensures term == v * w && (rest + term) / total == target
  {
    term := total * target - rest;
    v := term / w;
    QuotientTimes(term, w);
    QuotientOf(rest + term, total, target);
  }

  lemma PlainPrice(s: seq<Sample>, total: real)
    requires s != [] && total == Sum(PricesOf(s))
    ensures PriceOf(s, false) == total / |s| as real
  {
  }

  lemma WeightedPrice(s: seq<Sample>, total: real, weight: real)
    requires total == Sum(Products(s)) && weight == Sum(LiquidityOf(s)) && weight > 0.0
    ensures PriceOf(s, true) == total / weight
  {
    WeightedMeanOf(s);
  }

  lemma PlainReaching(s: seq<Sample>, i: nat, liquidity: real, target: real) returns (v: real)
    requires i < |s|
    ensures PriceOf(s[i := Sample(v, liquidity)], false) == target
  {
    var rest := Sum(Without(PricesOf(s), i));
    var term: real;
    v, term := Reaching(rest, 1.0, |s| as real, target);
    ReplacedPrices(s, i, Sample(v, liquidity));
    PlainPrice(s[i := Sample(v, liquidity)], rest + term);
  }

  lemma ReplacedSums(s: seq<Sample>, i: nat, x: Sample, term: real) returns (moved: seq<Sample>)
    requires i < |s| && term == x.price * x.liquidity
    ensures moved == s[i := x]
    ensures Sum(Products(moved)) == Sum(Without(Products(s), i)) + term
    ensures Sum(LiquidityOf(moved)) == Sum(Without(LiquidityOf(s), i)) + x.liquidity
  {
    moved := s[i := x];
    ReplacedProducts(s, i, x, term);
    ReplacedLiquidity(s, i, x);
  }

  lemma WeightedReaching(s: seq<Sample>, i: nat, liquidity: real, target: real) returns (v: real)
    requires NonNegativeLiquidity(s) && liquidity > 0.0 && i < |s|
    ensures PriceOf(s[i := Sample(v, liquidity)], true) == target
  {
    var rest, others := Sum(Without(Products(s), i)), Sum(Without(LiquidityOf(s), i));
    var term: real;
    SumNonNegative(Without(LiquidityOf(s), i));
    v, term := Reaching(rest, liquidity, others + liquidity, target);
    var moved := ReplacedSums(s, i, Sample(v, liquidity), term);
    WeightedPrice(moved, rest + term, others + liquidity);
  }

  /** A price for one sample that brings the mean of them all to any target. */
  lemma PriceReaching(s: seq<Sample>, i: nat, liquidity: real, weighted: bool, target: real) returns (v: real)
    requires NonNegativeLiquidity(s) && liquidity > 0.0 && i < |s|
    ensures PriceOf(s[i := Sample(v, liquidity)], weighted) == target
  {
    if weighted {
      v := WeightedReaching(s, i, liquidity, target);
    } else {
      v := PlainReaching(s, i, liquidity, target);
    }
  }

  lemma MajorityKept(values: seq<real>, i: nat, v: real, p: real)
    requires MajorityIn(values, p, p) && i < |values| && values[i] != p
    ensures MajorityIn(values[i := v], p, p)
  {
    CountWithout(values, i, p, p);
    CountWithout(values[i := v], i, p, p);
    assert values[i := v][..i] + values[i := v][i + 1..] == values[..i] + values[i + 1..];
  }

  lemma StillNoSpread(num: Numerics, samples: seq<Sample>, i: nat, x: Sample, weighted: bool)
    requires i < |samples| && samples[i].price != Median(PricesOf(samples))
    requires MedianAbsoluteDeviation(PricesOf(samples)) == 0.0
    ensures MadPrice(num, samples[i := x], weighted) == PriceOf(samples[i := x], weighted)
  {
    var med := Median(PricesOf(samples));
    NoSpreadIff(PricesOf(samples));
    MajorityKept(PricesOf(samples), i, x.price, med);
    assert PricesOf(samples[i := x]) == PricesOf(samples)[i := x.price];
    MajorityHasNoSpread(PricesOf(samples[i := x]), med);
    NoSpreadKeepsAll(num, samples[i := x], weighted);
  }

  /** Whenever the MAD is 0, any sample away from the median can be given a price that brings the aggregate to
      any target at all, with whatever liquidity, weighted or not. */
  lemma NoSpreadBreaks(num: Numerics, samples: seq<Sample>, i: nat, liquidity: real, weighted: bool, target: real)
    requires NonNegativeLiquidity(samples) && liquidity > 0.0
    requires i < |samples| && samples[i].price != Median(PricesOf(samples))
    requires MedianAbsoluteDeviation(PricesOf(samples)) == 0.0
    ensures exists v :: MadPrice(num, samples[i := Sample(v, liquidity)], weighted) == target
  {
    var v := PriceReaching(samples, i, liquidity, weighted, target);
    StillNoSpread(num, samples, i, Sample(v, liquidity), weighted);
  }

  // ----- the exact breakdown point -------------------------------------------

  /** Whatever k further samples say, the price stays within reach of the interval. */
  ghost predicate Withstands(num: Numerics, honest: seq<Sample>, k: nat, weighted: bool, lo: real, hi: real) {
    forall extra: seq<Sample> :: |extra| == k && NonNegativeLiquidity(extra) ==>
      Below(lo, hi) <= MadPrice(num, honest + extra, weighted) <= Above(lo, hi)
  }

  /** No price is so common among these that k - 1 further copies of it would be a majority of all. */
  predicate NoNearMajority(prices: seq<real>, k: nat) {
    forall i :: 0 <= i < |prices| ==> 2 * (CountIn(prices, prices[i], prices[i]) + k - 1) <= |prices| + k
  }

  lemma PricesConcat(a: seq<Sample>, b: seq<Sample>)
    ensures PricesOf(a + b) == PricesOf(a) + PricesOf(b)
  {
  }

  lemma HonestMajority(honest: seq<Sample>, extra: seq<Sample>, lo: real, hi: real)
    requires |honest| > |extra| && AllIn(PricesOf(honest), lo, hi)
    ensures MajorityIn(PricesOf(honest + extra), lo, hi)
  {
    PricesConcat(honest, extra);
    CountConcat(PricesOf(honest), PricesOf(extra), lo, hi);
    CountAll(PricesOf(honest), lo, hi);
  }

  lemma AbsentCount(values: seq<real>, p: real)
    requires CountIn(values, p, p) > 0
    ensures exists i :: 0 <= i < |values| && values[i] == p
  {
    if forall i :: 0 <= i < |values| ==> values[i] != p { CountNone(values, p, p); }
  }

  /** If no price is nearly a majority, the MAD can only be 0 when every outsider agrees with an honest price. */
  lemma NoSpreadAgrees(honest: seq<Sample>, extra: seq<Sample>)
    requires |honest| > |extra| >= 1 && NoNearMajority(PricesOf(honest), |extra|)
    requires MedianAbsoluteDeviation(PricesOf(honest + extra)) == 0.0
    ensures var med := Median(PricesOf(honest + extra)); AllIn(PricesOf(extra), med, med)
  {
    var h, e, med := PricesOf(honest), PricesOf(extra), Median(PricesOf(honest + extra));
    NoSpreadIff(PricesOf(honest + extra));
    PricesConcat(honest, extra);
    CountConcat(h, e, med, med);
    CountAtMost(e, med, med);
    if CountIn(h, med, med) > 0 {
      AbsentCount(h, med);
      var i :| 0 <= i < |h| && h[i] == med;
      assert 2 * (CountIn(h, h[i], h[i]) + |e| - 1) <= |h| + |e|;
    }
    CountFull(e, med, med);
  }

  lemma AgreeingPrice(num: Numerics, honest: seq<Sample>, extra: seq<Sample>, weighted: bool, lo: real, hi: real)
    requires |honest| > |extra| && AllIn(PricesOf(honest), lo, hi)
    requires NonNegativeLiquidity(honest) && NonNegativeLiquidity(extra)
    requires MedianAbsoluteDeviation(PricesOf(honest + extra)) == 0.0
    requires var med := Median(PricesOf(honest + extra)); AllIn(PricesOf(extra), med, med)
    ensures Below(lo, hi) <= MadPrice(num, honest + extra, weighted) <= Above(lo, hi)
  {
    var all := honest + extra;
    HonestMajority(honest, extra, lo, hi);
    MedianInMajority(PricesOf(all), lo, hi);
    PricesConcat(honest, extra);
    assert AllIn(PricesOf(all), lo, hi);
    NoSpreadKeepsAll(num, all, weighted);
    assert NonNegativeWeights(LiquidityOf(all));
    MeansInside(PricesOf(all), LiquidityOf(all), lo, hi);
    Widened(MadPrice(num, all, weighted), lo, hi);
  }

  lemma NoNearMajorityWithstands(num: Numerics, honest: seq<Sample>, k: nat, weighted: bool, lo: real, hi: real)
    requires |honest| > k >= 1 && AllIn(PricesOf(honest), lo, hi) && NonNegativeLiquidity(honest)
    requires NoNearMajority(PricesOf(honest), k)
    ensures Withstands(num, honest, k, weighted, lo, hi)
  {
    forall extra: seq<Sample> | |extra| == k && NonNegativeLiquidity(extra)
      ensures Below(lo, hi) <= MadPrice(num, honest + extra, weighted) <= Above(lo, hi)
    {
      HonestMajority(honest, extra, lo, hi);
      if MedianAbsoluteDeviation(PricesOf(honest + extra)) == 0.0 {
        NoSpreadAgrees(honest, extra);
        AgreeingPrice(num, honest, extra, weighted, lo, hi);
      } else {
        MajorityBoundsSpread(PricesOf(honest + extra), lo, hi);
        BreakdownBound(num, honest + extra, weighted, lo, hi);
      }
    }
  }

  function Copies(p: real, n: nat): seq<Sample> {
    seq(n, i => Sample(p, 1.0))
  }

  /** k - 1 samples that repeat one price, and one at any price. */
  function Outsiders(p: real, k: nat, v: real): seq<Sample>
    requires k >= 1
  {
    Copies(p, k - 1) + [Sample(v, 1.0)]
  }

  lemma CopiesMakeMajority(honest: seq<Sample>, k: nat, p: real, q: real)
    requires k >= 1 && 2 * (CountIn(PricesOf(honest), p, p) + k - 1) > |honest| + k
    ensures MajorityIn(PricesOf(honest + Outsiders(p, k, q)), p, p)
  {
    var h, c, e := PricesOf(honest), PricesOf(Copies(p, k - 1)), PricesOf([Sample(q, 1.0)]);
    PricesConcat(honest, Outsiders(p, k, q));
    PricesConcat(Copies(p, k - 1), [Sample(q, 1.0)]);
    CountConcat(h, c + e, p, p);
    CountConcat(c, e, p, p);
    CountAll(c, p, p);
  }

  lemma LastReplaced(honest: seq<Sample>, k: nat, p: real, q: real, v: real)
    requires k >= 1 && NonNegativeLiquidity(honest)
    ensures var s := honest + Outsiders(p, k, q);
      && NonNegativeLiquidity(s) && s[|s| - 1].price == q
      && s[|s| - 1 := Sample(v, 1.0)] == honest + Outsiders(p, k, v)
  {
  }

  lemma NearMajorityStart(honest: seq<Sample>, k: nat, p: real) returns (start: seq<Sample>)
    requires k >= 1 && NonNegativeLiquidity(honest) && 2 * (CountIn(PricesOf(honest), p, p) + k - 1) > |honest| + k
    ensures start == honest + Outsiders(p, k, p + 1.0) && NonNegativeLiquidity(start)
    ensures start[|start| - 1].price != p && MajorityIn(PricesOf(start), p, p)
  {
    start := honest + Outsiders(p, k, p + 1.0);
    CopiesMakeMajority(honest, k, p, p + 1.0);
    LastReplaced(honest, k, p, p + 1.0, 0.0);
  }

  lemma MinorityPrice(num: Numerics, s: seq<Sample>, i: nat, p: real, weighted: bool, target: real) returns (v: real)
    requires NonNegativeLiquidity(s) && i < |s| && s[i].price != p && MajorityIn(PricesOf(s), p, p)
    ensures forall t: seq<Sample> :: t == s[i := Sample(v, 1.0)] ==> MadPrice(num, t, weighted) == target
  {
    MajorityHasNoSpread(PricesOf(s), p);
    v := PriceReaching(s, i, 1.0, weighted, target);
    StillNoSpread(num, s, i, Sample(v, 1.0), weighted);
  }

  /** Outsiders who repeat a price that is nearly a majority bring the aggregate to any target. */
  lemma NearMajorityBreaks(num: Numerics, honest: seq<Sample>, k: nat, p: real, weighted: bool, target: real)
    returns (v: real)
    requires k >= 1 && NonNegativeLiquidity(honest) && 2 * (CountIn(PricesOf(honest), p, p) + k - 1) > |honest| + k
    ensures NonNegativeLiquidity(Outsiders(p, k, v)) && |Outsiders(p, k, v)| == k
    ensures MadPrice(num, honest + Outsiders(p, k, v), weighted) == target
  {
    var start := NearMajorityStart(honest, k, p);
    v := MinorityPrice(num, start, |start| - 1, p, weighted, target);
    LastReplaced(honest, k, p, p + 1.0, v);
  }

  /** The breakdown point, exactly: k arbitrary samples against a larger number of honest ones cannot move the
      price out of reach of the honest interval if and only if no honest price is so common that k - 1
      further copies of it would make it a majority. */
  lemma BreakdownIff(num: Numerics, honest: seq<Sample>, k: nat, weighted: bool, lo: real, hi: real)
    requires |honest| > k >= 1 && AllIn(PricesOf(honest), lo, hi) && NonNegativeLiquidity(honest)
    ensures Withstands(num, honest, k, weighted, lo, hi) <==> NoNearMajority(PricesOf(honest), k)
  {
    if NoNearMajority(PricesOf(honest), k) {
      NoNearMajorityWithstands(num, honest, k, weighted, lo, hi);
    } else {
      var h := PricesOf(honest);
      var j: nat :| j < |h| && 2 * (CountIn(h, h[j], h[j]) + k - 1) > |h| + k;
      var v := NearMajorityBreaks(num, honest, k, h[j], weighted, Above(lo, hi) + 1.0);
      var extra := Outsiders(h[j], k, v);
      assert !(MadPrice(num, honest + extra, weighted) <= Above(lo, hi));
    }
  }

  /** So honest prices that all differ withstand every smaller number of outsiders. */
  lemma DifferingPricesWithstand(num: Numerics, honest: seq<Sample>, k: nat, weighted: bool, lo: real, hi: real)
    requires |honest| > k >= 1 && AllIn(PricesOf(honest), lo, hi) && NonNegativeLiquidity(honest)
    requires forall i, j :: 0 <= i < j < |honest| ==> honest[i].price != honest[j].price
    ensures Withstands(num, honest, k, weighted, lo, hi)
  {
    var h := PricesOf(honest);
    forall i | 0 <= i < |h| ensures 2 * (CountIn(h, h[i], h[i]) + k - 1) <= |h| + k {
      CountWithout(h, i, h[i], h[i]);
      var rest := h[..i] + h[i + 1..];
      forall x | 0 <= x < |rest| ensures rest[x] != h[i] {
        if x < i { assert rest[x] == h[x]; } else { assert rest[x] == h[x + 1]; }
      }
      CountNone(rest, h[i], h[i]);
    }
    BreakdownIff(num, honest, k, weighted, lo, hi);
  }

  /** And two equal prices do not withstand one outsider: one sample in three moves the price anywhere. */
  lemma OneInThreeBreaks(num: Numerics, p: real, weighted: bool, target: real)
    ensures exists v :: MadPrice(num, [Sample(p, 1.0), Sample(p, 1.0), Sample(v, 1.0)], weighted) == target
  {
    var honest := [Sample(p, 1.0), Sample(p, 1.0)];
    CountAll(PricesOf(honest), p, p);
    var v := NearMajorityBreaks(num, honest, 1, p, weighted, target);
    assert honest + Outsiders(p, 1, v) == [Sample(p, 1.0), Sample(p, 1.0), Sample(v, 1.0)];
  }
}
