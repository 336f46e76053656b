/** Sequences of reals, as lib/stats.ts uses them.

    Sorting is ascending and does not depend on the order of the input; sums, sums of squares and
    counts do not either.

    The last part holds the facts about products, squares and quotients that the statistics need. They
    are stated one at a time over plain variables, because the solver handles a product of two named
    numbers far better than a product of sums or of recursive functions. */
module Reals {

  function Abs(x: real): real { if x < 0.0 then -x else x }

  function Square(x: real): real { x * x }

  // ----- ascending sort ------------------------------------------------------

  function Insert(x: real, s: seq<real>): seq<real> {
    if s == [] || x <= s[0] then [x] + s else [s[0]] + Insert(x, s[1..])
  }

  /** A sorted copy. */
  function Sort(s: seq<real>): seq<real> {
    if s == [] then [] else Insert(s[0], Sort(s[1..]))
  }

  ghost predicate Ascending(s: seq<real>) {
    forall i, j :: 0 <= i < j < |s| ==> s[i] <= s[j]
  }

  lemma {:induction false} InsertMembers(x: real, s: seq<real>)
    ensures multiset(Insert(x, s)) == multiset(s) + multiset{x} && |Insert(x, s)| == |s| + 1
    ensures forall e :: e in Insert(x, s) <==> e == x || e in s
  {
    if s != [] && s[0] < x {
      InsertMembers(x, s[1..]);
      assert s == [s[0]] + s[1..];
    }
  }

  lemma {:induction false} InsertAscending(x: real, s: seq<real>)
    requires Ascending(s)
    ensures Ascending(Insert(x, s))
  {
    if s != [] && s[0] < x {
      InsertAscending(x, s[1..]);
      InsertMembers(x, s[1..]);
      var t := Insert(x, s[1..]);
      forall j | 0 <= j < |t| ensures s[0] <= t[j] {
        assert t[j] in t;
      }
    }
  }

  lemma {:induction false} SortAscending(s: seq<real>)
    ensures Ascending(Sort(s)) && multiset(Sort(s)) == multiset(s) && |Sort(s)| == |s|
  {
    if s != [] {
      SortAscending(s[1..]);
      InsertMembers(s[0], Sort(s[1..]));
      InsertAscending(s[0], Sort(s[1..]));
      assert s == [s[0]] + s[1..];
    }
  }

  lemma AscendingHead(s: seq<real>, t: seq<real>)
    requires s != [] && t != [] && Ascending(s) && Ascending(t) && multiset(s) == multiset(t)
    ensures s[0] == t[0]
  {
    assert s[0] in multiset(t) && t[0] in multiset(s);
    assert s[0] in t && t[0] in s;
  }

  lemma TailMultiset(s: seq<real>)
    requires s != []
    ensures multiset(s[1..]) == multiset(s) - multiset{s[0]}
  {
    assert s == [s[0]] + s[1..];
  }

  lemma {:induction false} AscendingUnique(s: seq<real>, t: seq<real>)
    requires Ascending(s) && Ascending(t) && multiset(s) == multiset(t)
    ensures s == t
  {
    assert |multiset(s)| == |s| && |multiset(t)| == |t|;
    if s != [] {
      AscendingHead(s, t);
      TailMultiset(s);
      TailMultiset(t);
      AscendingUnique(s[1..], t[1..]);
      assert s == [s[0]] + s[1..] && t == [t[0]] + t[1..];
    }
  }

  /** The sorted copy does not depend on the input order. */
  lemma SortPermutation(s: seq<real>, t: seq<real>)
    requires multiset(s) == multiset(t)
    ensures Sort(s) == Sort(t)
  {
    SortAscending(s);
    SortAscending(t);
    AscendingUnique(Sort(s), Sort(t));
  }

  // ----- sums ----------------------------------------------------------------

  function Sum(s: seq<real>): real {
    if s == [] then 0.0 else Sum(s[..|s| - 1]) + s[|s| - 1]
  }

  function SumSquares(s: seq<real>): real {
    if s == [] then 0.0 else SumSquares(s[..|s| - 1]) + Square(s[|s| - 1])
  }

  lemma {:induction false} SumConcat(s: seq<real>, t: seq<real>)
    ensures Sum(s + t) == Sum(s) + Sum(t)
    ensures SumSquares(s + t) == SumSquares(s) + SumSquares(t)
  {
    if t == [] {
      assert s + t == s;
    } else {
      SumConcat(s, t[..|t| - 1]);
      assert (s + t)[..|s + t| - 1] == s + t[..|t| - 1];
    }
  }

  lemma SumOne(x: real)
    ensures Sum([x]) == x && SumSquares([x]) == Square(x)
  {
    assert [x][..0] == [];
  }

  lemma {:induction false} SumSquaresNonNegative(s: seq<real>)
    ensures SumSquares(s) >= 0.0
  {
    if s != [] {
      SumSquaresNonNegative(s[..|s| - 1]);
      SquareSign(s[|s| - 1]);
    }
  }

  lemma SquareLess(a: real, b: real)
    requires 0.0 <= a < b
    ensures Square(a) < Square(b)
  {
    var d := b - a;
    assert b * b == a * a + 2.0 * (a * d) + d * d;
  }

  lemma SquareOfMinus(x: real)
    ensures Square(-x) == Square(x)
  {
  }

  lemma SquareSign(x: real)
    ensures Square(x) >= 0.0
    ensures Square(x) == 0.0 <==> x == 0.0
  {
    if x > 0.0 {
      SquareLess(0.0, x);
    } else if x < 0.0 {
      SquareLess(0.0, -x);
      SquareOfMinus(x);
    }
  }

  lemma ProductNonNegative(a: real, b: real)
    requires a >= 0.0 && b >= 0.0
    ensures a * b >= 0.0
  {
  }

  lemma SquareOfProduct(a: real, b: real)
    ensures Square(a * b) == Square(a) * Square(b)
  {
  }

  lemma SquareOfAbs(x: real)
    ensures Square(Abs(x)) == Square(x)
  {
  }

  /** An element and the rest of a sequence. */
  lemma {:induction false} SumWithout(s: seq<real>, i: nat)
    requires i < |s|
    ensures Sum(s) == Sum(s[..i] + s[i + 1..]) + s[i]
    ensures SumSquares(s) == SumSquares(s[..i] + s[i + 1..]) + Square(s[i])
    ensures multiset(s) == multiset(s[..i] + s[i + 1..]) + multiset{s[i]}
  {
    assert s == s[..i] + [s[i]] + s[i + 1..];
    SumConcat(s[..i] + [s[i]], s[i + 1..]);
    SumConcat(s[..i], [s[i]]);
    SumConcat(s[..i], s[i + 1..]);
    SumOne(s[i]);
  }

  function Without<T>(s: seq<T>, i: nat): (rest: seq<T>)
    requires i < |s|
    ensures |rest| == |s| - 1
  {
    s[..i] + s[i + 1..]
  }

  lemma SumRest(s: seq<real>, i: nat)
    requires i < |s|
    ensures Sum(s) == Sum(Without(s, i)) + s[i]
    ensures SumSquares(s) == SumSquares(Without(s, i)) + Square(s[i])
  {
    SumWithout(s, i);
  }

  /** Sums do not depend on the order. */
  lemma {:induction false} SumPermutation(s: seq<real>, t: seq<real>)
    requires multiset(s) == multiset(t)
    ensures Sum(s) == Sum(t)
    decreases |s|
  {
    assert |multiset(s)| == |s| && |multiset(t)| == |t|;
    if s != [] {
      var x := s[|s| - 1];
      assert s == s[..|s| - 1] + [x];
      assert x in multiset(s) && x in multiset(t);
      var i :| 0 <= i < |t| && t[i] == x;
      SumWithout(t, i);
      assert multiset(s[..|s| - 1]) == multiset(s) - multiset{x};
      assert multiset(t[..i] + t[i + 1..]) == multiset(t) - multiset{x};
      SumPermutation(s[..|s| - 1], t[..i] + t[i + 1..]);
    }
  }

  // ----- counting ------------------------------------------------------------

  /** How many elements lie in [lo, hi]. */
  function CountIn(s: seq<real>, lo: real, hi: real): nat {
    if s == [] then 0 else CountIn(s[..|s| - 1], lo, hi) + if lo <= s[|s| - 1] <= hi then 1 else 0
  }

  lemma {:induction false} CountConcat(s: seq<real>, t: seq<real>, lo: real, hi: real)
    ensures CountIn(s + t, lo, hi) == CountIn(s, lo, hi) + CountIn(t, lo, hi)
  {
    if t == [] {
      assert s + t == s;
    } else {
      CountConcat(s, t[..|t| - 1], lo, hi);
      assert (s + t)[..|s + t| - 1] == s + t[..|t| - 1];
    }
  }

  lemma {:induction false} CountAtMost(s: seq<real>, lo: real, hi: real)
    ensures CountIn(s, lo, hi) <= |s|
  {
    if s != [] { CountAtMost(s[..|s| - 1], lo, hi); }
  }

  lemma {:induction false} CountNone(s: seq<real>, lo: real, hi: real)
    requires forall i :: 0 <= i < |s| ==> s[i] < lo || hi < s[i]
    ensures CountIn(s, lo, hi) == 0
  {
    if s != [] { CountNone(s[..|s| - 1], lo, hi); }
  }

  lemma {:induction false} CountAll(s: seq<real>, lo: real, hi: real)
    requires forall i :: 0 <= i < |s| ==> lo <= s[i] <= hi
    ensures CountIn(s, lo, hi) == |s|
  {
    if s != [] { CountAll(s[..|s| - 1], lo, hi); }
  }

  lemma CountWithout(s: seq<real>, i: nat, lo: real, hi: real)
    requires i < |s|
    ensures CountIn(s, lo, hi) == CountIn(s[..i] + s[i + 1..], lo, hi) + if lo <= s[i] <= hi then 1 else 0
  {
    assert s == s[..i] + [s[i]] + s[i + 1..];
    CountConcat(s[..i] + [s[i]], s[i + 1..], lo, hi);
    CountConcat(s[..i], [s[i]], lo, hi);
    CountConcat(s[..i], s[i + 1..], lo, hi);
    assert [s[i]][..0] == [];
  }

  lemma {:induction false} CountPermutation(s: seq<real>, t: seq<real>, lo: real, hi: real)
    requires multiset(s) == multiset(t)
    ensures CountIn(s, lo, hi) == CountIn(t, lo, hi)
    decreases |s|
  {
    assert |multiset(s)| == |s| && |multiset(t)| == |t|;
    if s != [] {
      var x := s[|s| - 1];
      assert s == s[..|s| - 1] + [x];
      assert x in multiset(s) && x in multiset(t);
      var i :| 0 <= i < |t| && t[i] == x;
      CountWithout(t, i, lo, hi);
      SumWithout(t, i);
      assert multiset(s[..|s| - 1]) == multiset(s) - multiset{x};
      CountPermutation(s[..|s| - 1], t[..i] + t[i + 1..], lo, hi);
    }
  }

  // ----- products and quotients ----------------------------------------------

  lemma LessScaled(m: real, a: real, b: real)
    requires m > 0.0 && a < b
    ensures m * a < m * b
  {
  }

  lemma AtMostScaled(m: real, a: real, b: real)
    requires m >= 0.0 && a <= b
    ensures m * a <= m * b
  {
  }

  /** A positive factor may be divided out of an inequality. */
  lemma ScaleIff(m: real, a: real, b: real)
    requires m > 0.0
    ensures m * a <= m * b <==> a <= b
    ensures m * a == m * b <==> a == b
  {
    if a < b { LessScaled(m, a, b); }
    if b < a { LessScaled(m, b, a); }
  }

  lemma QuotientTimes(a: real, m: real)
    requires m != 0.0
    ensures a / m * m == a
  {
  }

  lemma QuotientIff(a: real, m: real, t: real)
    requires m > 0.0
    ensures a / m <= t <==> a <= t * m
    ensures t <= a / m <==> t * m <= a
  {
    QuotientTimes(a, m);
    ScaleIff(m, a / m, t);
    ScaleIff(m, t, a / m);
  }

  lemma QuotientInside(total: real, n: real, lo: real, hi: real)
    requires n > 0.0 && n * lo <= total <= n * hi
    ensures lo <= total / n <= hi
  {
    QuotientIff(total, n, hi);
    QuotientIff(total, n, lo);
  }
}
