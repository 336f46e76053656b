/** Chauvenet's test in lib/stats.ts: how many values it can reject, and when an outlier masks itself. */
module ChauvenetTest {
  import opened Wrappers
  import opened Reals
  import opened Stats

  // ----- one value against the spread it is part of ---------------------------

  lemma {:induction false} CauchySchwarz(s: seq<real>)
    ensures Square(Sum(s)) <= |s| as real * SumSquares(s)
  {
    if s != [] {
      var front, x := s[..|s| - 1], s[|s| - 1];
      if front == [] {
        SumOne(x);
        assert s == [x];
      } else {
        CauchySchwarz(front);
        CauchyStep(Sum(front), x, SumSquares(front), |front| as real);
      }
    }
  }

  lemma CauchyStep(sum: real, x: real, squares: real, m: real)
    requires m >= 1.0 && Square(sum) <= m * squares
    ensures Square(sum + x) <= (m + 1.0) * (squares + Square(x))
  {
    SquareSign(sum - m * x);
    ExpandGap(sum, x, m);
    CrossTerm(Square(sum), sum * x, Square(x), squares, m);
    Expand(sum, x, squares, Square(x), m);
  }

  lemma ExpandGap(sum: real, x: real, m: real)
    ensures Square(sum - m * x) == Square(sum) - m * (2.0 * (sum * x)) + m * (m * Square(x))
  {
  }

  lemma CrossTerm(s: real, p: real, t: real, squares: real, m: real)
    requires m > 0.0 && s <= m * squares && s - m * (2.0 * p) + m * (m * t) >= 0.0
    ensures 2.0 * p <= squares + m * t
  {
    assert m * (squares + m * t) == m * squares + m * (m * t);
    ScaleIff(m, 2.0 * p, squares + m * t);
  }

  lemma Expand(sum: real, x: real, squares: real, t: real, m: real)
    ensures Square(sum + x) == Square(sum) + 2.0 * (sum * x) + Square(x)
    ensures (m + 1.0) * (squares + t) == m * squares + m * t + squares + t
  {
  }
  lemma {:induction false} DeviationSums(values: seq<real>, centre: real)
    ensures Sum(Deviations(values, centre)) == Sum(values) - |values| as real * centre
  {
    if values != [] {
      DeviationSums(values[..|values| - 1], centre);
      assert Deviations(values, centre)[..|values| - 1] == Deviations(values[..|values| - 1], centre);
    }
  }

  /** Deviations from the mean cancel. */
  lemma DeviationsCancel(values: seq<real>)
    ensures Sum(Deviations(values, Mean(values))) == 0.0
  {
    DeviationSums(values, Mean(values));
    if values != [] {
      QuotientTimes(Sum(values), |values| as real);
    }
  }

  /** In values that sum to zero each one is balanced by the others. */
  lemma CancellingBound(devs: seq<real>, i: nat, others: real, square: real, total: real)
    requires i < |devs| && others + 1.0 == |devs| as real && Sum(devs) == 0.0
    requires square == Square(devs[i]) && total == SumSquares(devs)
    ensures others * square + square <= others * total
  {
    SumRest(devs, i);
    RestBound(Without(devs, i), devs[i], total, others);
  }

  lemma RestBound(rest: seq<real>, d: real, total: real, m: real)
    requires m == |rest| as real && Sum(rest) == -d && total == SumSquares(rest) + Square(d)
    ensures m * Square(d) + Square(d) <= m * total
  {
    CauchySchwarz(rest);
    SquareOfMinus(d);
    OneAgainstRest(Square(d), SumSquares(rest), total, m);
  }

  lemma OneAgainstRest(dd: real, squares: real, total: real, m: real)
    requires dd <= m * squares && total == squares + dd
    ensures m * dd + dd <= m * total
  {
    assert m * total == m * squares + m * dd;
  }

  // ----- what the test rejects -----------------------------------------------

  ghost predicate IsSquareRoot(sqrt: real -> real) {
    forall x :: x >= 0.0 ==> sqrt(x) >= 0.0 && Square(sqrt(x)) == x
  }

  function DMax(max: Option<real>): real {
    if max.None? || max.value == 0.0 then 3.0 else max.value
  }

  lemma VarianceNonNegative(values: seq<real>)
    ensures Variance(values) >= 0.0
  {
    if |values| >= 2 {
      var squares := SumSquares(Deviations(values, Mean(values)));
      SumSquaresNonNegative(Deviations(values, Mean(values)));
      QuotientIff(squares, (|values| - 1) as real, 0.0);
    }
  }

  lemma VarianceTimes(values: seq<real>, others: real)
    requires |values| >= 2 && others == (|values| - 1) as real
    ensures Variance(values) * others == SumSquares(Deviations(values, Mean(values)))
  {
    QuotientTimes(SumSquares(Deviations(values, Mean(values))), others);
  }

  lemma SpreadSquared(num: Numerics, values: seq<real>)
    requires IsSquareRoot(num.sqrt) && |values| >= 2
    ensures StdDev(num, values) >= 0.0 && Square(StdDev(num, values)) == Variance(values)
  {
    VarianceNonNegative(values);
  }

  lemma NonZeroSquare(root: real, x: real)
    requires root >= 0.0 && Square(root) == x
    ensures root > 0.0 <==> x > 0.0
  {
    SquareSign(root);
  }

  lemma SpreadPositiveIff(num: Numerics, values: seq<real>)
    requires IsSquareRoot(num.sqrt) && |values| >= 2
    ensures StdDev(num, values) > 0.0 <==> Variance(values) > 0.0
  {
    SpreadSquared(num, values);
    NonZeroSquare(StdDev(num, values), Variance(values));
  }

  lemma FarOutSquares(d: real, sd: real, dMax: real)
    requires d >= 0.0 && sd > 0.0 && dMax > 0.0
    ensures !(dMax > d / sd) <==> Square(dMax) * Square(sd) <= Square(d)
  {
    QuotientIff(d, sd, dMax);
    LessScaled(sd, 0.0, dMax);
    SquareOfProduct(dMax, sd);
    if dMax * sd < d {
      SquareLess(dMax * sd, d);
    } else if d < dMax * sd {
      SquareLess(d, dMax * sd);
    }
  }

  /** A rejected value lies at least dMax standard deviations out, in squares. */
  lemma RejectedFarOut(num: Numerics, values: seq<real>, max: Option<real>, v: real)
    requires IsSquareRoot(num.sqrt) && DMax(max) > 0.0 && |values| >= 2 && StdDev(num, values) > 0.0
    ensures !ChauvenetRule(num, values, max)(v) <==> Square(DMax(max)) * Variance(values) <= Square(v - Mean(values))
  {
    SpreadSquared(num, values);
    FarOutSquares(Abs(v - Mean(values)), StdDev(num, values), DMax(max));
    SquareOfAbs(v - Mean(values));
  }

  /** With the default cutoff of 3 Chauvenet's test rejects nothing from ten or fewer values, however
      extreme one of them is. */
  lemma NothingRejectedFromTen(num: Numerics, values: seq<real>, i: nat)
    requires IsSquareRoot(num.sqrt) && i < |values| <= 10
    ensures ChauvenetRule(num, values, None)(values[i])
  {
    if |values| >= 2 && StdDev(num, values) > 0.0 {
      var devs, others := Deviations(values, Mean(values)), (|values| - 1) as real;
      RejectedFarOut(num, values, None, values[i]);
      DeviationsCancel(values);
      CancellingBound(devs, i, others, Square(devs[i]), SumSquares(devs));
      SpreadPositiveIff(num, values);
      VarianceTimes(values, others);
      TenOrFewer(Square(devs[i]), others, Variance(values), SumSquares(devs));
    }
  }

  lemma TenOrFewer(dd: real, m: real, variance: real, squares: real)
    requires 1.0 <= m <= 9.0 && variance > 0.0 && variance * m == squares && m * dd + dd <= m * squares
    ensures dd < Square(3.0) * variance
  {
    FewSquares(m);
    LessScaled(variance, Square(m), 9.0 * (m + 1.0));
    assert variance * Square(m) == m * squares;
    assert variance * (9.0 * (m + 1.0)) == (m + 1.0) * (9.0 * variance);
    ScaleIff(m + 1.0, 9.0 * variance, dd);
  }

  lemma FewSquares(m: real)
    requires 1.0 <= m <= 9.0
    ensures Square(m) < 9.0 * (m + 1.0)
  {
    ProductNonNegative(m, 9.0 - m);
    assert m * (9.0 - m) == 9.0 * m - m * m;
  }

  // ----- how many values the test rejects ------------------------------------

  /** How many values a rule removes. */
  function Removed(values: seq<real>, keep: Rule): nat {
    FilterLength(values, keep);
    |values| - |Filter(values, keep)|
  }

  /** Every value the rule removes lies at least the root of floor from the centre. */
  ghost predicate FarOut(keep: Rule, centre: real, floor: real) {
    forall v :: !keep(v) ==> floor <= Square(v - centre)
  }

  lemma {:induction false} FarOutSum(values: seq<real>, centre: real, keep: Rule, floor: real, r: real)
    requires FarOut(keep, centre, floor) && r == Removed(values, keep) as real
    ensures r * floor <= SumSquares(Deviations(values, centre))
  {
    if values != [] {
      var front, v := values[..|values| - 1], values[|values| - 1];
      RemovedStep(values, keep);
      SquaresStep(values, centre);
      SquareSign(v - centre);
      if keep(v) {
        FarOutSum(front, centre, keep, floor, r);
      } else {
        FarOutSum(front, centre, keep, floor, r - 1.0);
        FarOutStep(r, floor, SumSquares(Deviations(front, centre)), Square(v - centre));
      }
    }
  }

  lemma RemovedStep(values: seq<real>, keep: Rule)
    requires values != []
    ensures Removed(values, keep) == Removed(values[..|values| - 1], keep) + if keep(values[|values| - 1]) then 0 else 1
  {
  }

  lemma SquaresStep(values: seq<real>, centre: real)
    requires values != []
    ensures SumSquares(Deviations(values, centre))
      == SumSquares(Deviations(values[..|values| - 1], centre)) + Square(values[|values| - 1] - centre)
  {
    var devs := Deviations(values, centre);
    assert devs[..|values| - 1] == Deviations(values[..|values| - 1], centre);
  }

  lemma FarOutStep(r: real, floor: real, squares: real, dd: real)
    requires (r - 1.0) * floor <= squares && floor <= dd
    ensures r * floor <= squares + dd
  {
  }

  lemma ChauvenetFarOut(num: Numerics, values: seq<real>, max: Option<real>, floor: real)
    requires IsSquareRoot(num.sqrt) && DMax(max) > 0.0 && |values| >= 2 && StdDev(num, values) > 0.0
    requires floor == Square(DMax(max)) * Variance(values)
    ensures FarOut(ChauvenetRule(num, values, max), Mean(values), floor)
  {
    forall v ensures !ChauvenetRule(num, values, max)(v) ==> floor <= Square(v - Mean(values)) {
      RejectedFarOut(num, values, max, v);
    }
  }

  /** The number rejected is at most (n - 1) / dMax^2: gross outliers hide each other. */
  lemma RejectionBound(num: Numerics, values: seq<real>, max: Option<real>)
    requires IsSquareRoot(num.sqrt) && DMax(max) > 0.0 && |values| >= 2 && StdDev(num, values) > 0.0
    ensures Removed(values, ChauvenetRule(num, values, max)) as real * Square(DMax(max)) <= (|values| - 1) as real
  {
    var r, dd := Removed(values, ChauvenetRule(num, values, max)) as real, Square(DMax(max));
    var variance, others, floor := Variance(values), (|values| - 1) as real, dd * Variance(values);
    SpreadPositiveIff(num, values);
    ChauvenetFarOut(num, values, max, floor);
    FarOutSum(values, Mean(values), ChauvenetRule(num, values, max), floor, r);
    VarianceTimes(values, others);
    CancelVariance(r, dd, variance, floor, others, SumSquares(Deviations(values, Mean(values))));
  }

  lemma CancelVariance(r: real, dd: real, variance: real, floor: real, m: real, squares: real)
    requires variance > 0.0 && variance * m == squares && floor == dd * variance && r * floor <= squares
    ensures r * dd <= m
  {
    assert variance * (r * dd) == r * (dd * variance);
    ScaleIff(variance, r * dd, m);
  }

  // ----- masking -------------------------------------------------------------

  /** Some equal values and one that differs from them by v. */
  function LoneOutlier(base: real, v: real, others: nat): seq<real> {
    seq(others + 1, i requires 0 <= i <= others => if i < others then base else base + v)
  }

  lemma {:induction false} ConstantSums(s: seq<real>, c: real)
    requires forall i :: 0 <= i < |s| ==> s[i] == c
    ensures Sum(s) == |s| as real * c && SumSquares(s) == |s| as real * Square(c)
  {
    if s != [] {
      ConstantSums(s[..|s| - 1], c);
      ConstantStep((|s| - 1) as real, c);
      ConstantStep((|s| - 1) as real, Square(c));
    }
  }

  lemma ConstantStep(m: real, c: real)
    ensures (m + 1.0) * c == m * c + c
  {
  }

  lemma LoneOutlierMean(base: real, v: real, others: nat, q: real)
    requires q * (others as real + 1.0) == v
    ensures Mean(LoneOutlier(base, v, others)) == base + q
  {
    var s, m := LoneOutlier(base, v, others), others as real;
    ConstantSums(s[..others], base);
    assert Sum(s) == m * base + (base + v);
    MeanAlgebra(base, v, m, q);
    QuotientTimes(Sum(s), m + 1.0);
    ScaleIff(m + 1.0, Mean(s), base + q);
  }

  lemma MeanAlgebra(base: real, v: real, m: real, q: real)
    requires q * (m + 1.0) == v
    ensures (m + 1.0) * (base + q) == m * base + (base + v)
  {
  }

  lemma LoneOutlierSquares(base: real, v: real, others: nat, q: real)
    requires q * (others as real + 1.0) == v
    ensures var s, m := LoneOutlier(base, v, others), others as real;
      SumSquares(Deviations(s, base + q)) == m * (m * Square(q) + Square(q))
  {
    var s, m := LoneOutlier(base, v, others), others as real;
    var devs := Deviations(s, base + q);
    ConstantSums(devs[..others], -q);
    assert devs[others] == m * q by { assert v - q == m * q; }
    SquareOfMinus(q);
    SquareOfProduct(m, q);
    SquaresAlgebra(m, Square(q));
  }

  lemma SquaresAlgebra(m: real, k: real)
    ensures m * k + Square(m) * k == m * (m * k + k)
  {
  }

  /** The spread of a lone outlier is carried by the outlier itself. */
  lemma LoneOutlierVariance(base: real, v: real, others: nat, q: real)
    requires others >= 1 && q * (others as real + 1.0) == v
    ensures Variance(LoneOutlier(base, v, others)) == others as real * Square(q) + Square(q)
  {
    var s, m := LoneOutlier(base, v, others), others as real;
    LoneOutlierMean(base, v, others, q);
    LoneOutlierSquares(base, v, others, q);
    VarianceTimes(s, m);
    ScaleIff(m, Variance(s), m * Square(q) + Square(q));
  }

  /** Masking, exactly: whether a lone outlier is rejected depends on how many values there are and on
      the cutoff, and not at all on how far out it is. */
  lemma MaskingIff(num: Numerics, base: real, v: real, others: nat, max: Option<real>)
    requires IsSquareRoot(num.sqrt) && DMax(max) > 0.0 && others >= 1 && v != 0.0
    ensures !ChauvenetRule(num, LoneOutlier(base, v, others), max)(base + v) <==>
      Square(DMax(max)) * (others as real + 1.0) <= Square(others as real)
  {
    var s, m := LoneOutlier(base, v, others), others as real;
    var q := v / (m + 1.0);
    QuotientTimes(v, m + 1.0);
    LoneOutlierMean(base, v, others, q);
    LoneOutlierVariance(base, v, others, q);
    ShareNonZero(q, m, v);
    SpreadPositiveIff(num, s);
    RejectedFarOut(num, s, max, base + v);
    assert base + v - Mean(s) == m * q by { assert v - q == m * q; }
    SquareOfProduct(m, q);
    CompareScaled(Square(q), Square(DMax(max)), m, Variance(s), Square(m));
  }

  /** Ten values are the most that are always safe: with eleven every lone outlier is rejected. */
  lemma ElevenRejects(num: Numerics, base: real, v: real)
    requires IsSquareRoot(num.sqrt) && v != 0.0
    ensures !ChauvenetRule(num, LoneOutlier(base, v, 10), None)(base + v)
  {
    MaskingIff(num, base, v, 10, None);
    assert Square(3.0) == 9.0 && Square(10.0) == 100.0;
  }

  lemma ShareNonZero(q: real, m: real, v: real)
    requires m >= 1.0 && q * (m + 1.0) == v && v != 0.0
    ensures Square(q) > 0.0 && m * Square(q) + Square(q) > 0.0
  {
    SquareSign(q);
    assert q != 0.0;
    LessScaled(m, 0.0, Square(q));
  }

  lemma CompareScaled(k: real, dd: real, m: real, variance: real, b: real)
    requires k > 0.0 && variance == m * k + k
    ensures dd * variance <= b * k <==> dd * (m + 1.0) <= b
  {
    assert dd * variance == k * (dd * (m + 1.0)) && b * k == k * b;
    ScaleIff(k, dd * (m + 1.0), b);
  }
}
