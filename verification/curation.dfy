/** What the curated page of lib/cosmosPage.ts contains, said without its maps and loops. */
module Curation {
  import opened JsString
  import opened CosmosPage

  // ----- the deepest pool of a pair ------------------------------------------

  /** Position i holds the deepest candidate of its key, the first one among equals. */
  ghost predicate Wins(known: seq<Candidate>, i: nat) {
    && i < |known|
    && (forall j :: 0 <= j < |known| && KeyOf(known[j]) == KeyOf(known[i]) ==> known[j].reserve <= known[i].reserve)
    && (forall j :: 0 <= j < i && KeyOf(known[j]) == KeyOf(known[i]) ==> known[j].reserve < known[i].reserve)
  }

  ghost predicate HoldsWinner(known: seq<Candidate>, key: Str, c: Candidate) {
    exists i: nat :: Wins(known, i) && known[i] == c && KeyOf(c) == key
  }

  lemma WinnersDiffer(known: seq<Candidate>, i: nat, j: nat)
    requires Wins(known, i) && Wins(known, j) && KeyOf(known[i]) == KeyOf(known[j])
    ensures i == j
  {
  }

  /** One more candidate leaves the winners of the other keys alone. */
  lemma WinnerStays(known: seq<Candidate>, i: nat)
    requires known != [] && Wins(known[..|known| - 1], i)
    requires KeyOf(known[i]) == KeyOf(known[|known| - 1]) ==> known[|known| - 1].reserve <= known[i].reserve
    ensures Wins(known, i)
  {
    var front := known[..|known| - 1];
    forall j | 0 <= j < |known| && KeyOf(known[j]) == KeyOf(known[i]) ensures known[j].reserve <= known[i].reserve {
      if j < |front| { assert front[j] == known[j]; }
    }
    forall j | 0 <= j < i && KeyOf(known[j]) == KeyOf(known[i]) ensures known[j].reserve < known[i].reserve {
      assert front[j] == known[j];
    }
  }

  /** A candidate that beats the winner so far wins. */
  lemma NewWinner(known: seq<Candidate>, i: nat)
    requires known != [] && Wins(known[..|known| - 1], i) && KeyOf(known[i]) == KeyOf(known[|known| - 1])
    requires known[|known| - 1].reserve > known[i].reserve
    ensures Wins(known, |known| - 1)
  {
    var front := known[..|known| - 1];
    forall j | 0 <= j < |known| - 1 && KeyOf(known[j]) == KeyOf(known[i])
      ensures known[j].reserve < known[|known| - 1].reserve
    {
      assert front[j] == known[j];
    }
  }

  lemma {:induction false} DepthsHoldWinners(known: seq<Candidate>, key: Str)
    ensures key in DepthsOf(known).at ==> HoldsWinner(known, key, DepthsOf(known).at[key])
    ensures key !in DepthsOf(known).at ==> forall i :: 0 <= i < |known| ==> KeyOf(known[i]) != key
  {
    if known != [] {
      var front, c := known[..|known| - 1], known[|known| - 1];
      DepthsHoldWinners(front, key);
      if key in DepthsOf(front).at {
        var i: nat :| Wins(front, i) && front[i] == DepthsOf(front).at[key] && KeyOf(front[i]) == key;
        if KeyOf(c) == key && c.reserve > front[i].reserve {
          NewWinner(known, i);
        } else {
          WinnerStays(known, i);
        }
      } else if KeyOf(c) == key {
        forall i | 0 <= i < |known| - 1 ensures KeyOf(known[i]) != key { assert front[i] == known[i]; }
        FirstOfKey(known);
      }
    }
  }

  lemma FirstOfKey(known: seq<Candidate>)
    requires known != [] && forall i :: 0 <= i < |known| - 1 ==> KeyOf(known[i]) != KeyOf(known[|known| - 1])
    ensures Wins(known, |known| - 1)
  {
  }

  /** What is left is exactly the winners. */
  lemma SurvivorsAreWinners(known: seq<Candidate>, c: Candidate)
    ensures c in Survivors(known) <==> exists i: nat :: Wins(known, i) && known[i] == c
  {
    var d := DepthsOf(known);
    DepthsKeyed(known);
    if c in Survivors(known) {
      var k :| 0 <= k < |d.keys| && Survivors(known)[k] == c;
      assert d.keys[k] in d.keys;
      DepthsHoldWinners(known, d.keys[k]);
    }
    forall i: nat | Wins(known, i) && known[i] == c ensures c in Survivors(known) {
      DepthsHoldWinners(known, KeyOf(c));
      var j: nat :| Wins(known, j) && known[j] == d.at[KeyOf(c)] && KeyOf(known[j]) == KeyOf(c);
      WinnersDiffer(known, i, j);
      var k :| 0 <= k < |d.keys| && d.keys[k] == KeyOf(c);
      assert Survivors(known)[k] == c;
    }
  }

  lemma {:induction false} KeysDistinct(known: seq<Candidate>)
    ensures forall i, j :: 0 <= i < j < |DepthsOf(known).keys| ==> DepthsOf(known).keys[i] != DepthsOf(known).keys[j]
  {
    if known != [] {
      KeysDistinct(known[..|known| - 1]);
      DepthsKeyed(known[..|known| - 1]);
    }
  }

  /** No two survivors share a key. */
  lemma SurvivorKeysDiffer(known: seq<Candidate>, i: nat, j: nat)
    requires i < j < |Survivors(known)|
    ensures KeyOf(Survivors(known)[i]) != KeyOf(Survivors(known)[j])
  {
    var d := DepthsOf(known);
    DepthsKeyed(known);
    KeysDistinct(known);
    assert d.keys[i] in d.keys && d.keys[j] in d.keys;
    DepthsHoldWinners(known, d.keys[i]);
    DepthsHoldWinners(known, d.keys[j]);
  }

  // ----- which pools are emitted ---------------------------------------------

  lemma {:induction false} PoolsMembers(assets: Registry, cs: seq<Candidate>, p: Pool)
    requires AllKnown(assets, cs)
    ensures p in PoolsOf(assets, cs) <==>
      exists i :: 0 <= i < |cs| && Emits(assets, cs[i]) && p == Oriented(assets, cs[i])
  {
    if cs != [] {
      var front, n := cs[..|cs| - 1], |cs| - 1;
      PoolsMembers(assets, front, p);
      forall i | 0 <= i < n ensures front[i] == cs[i] {}
      if p in PoolsOf(assets, front) {
        var i :| 0 <= i < |front| && Emits(assets, front[i]) && p == Oriented(assets, front[i]);
        assert cs[i] == front[i];
      }
    }
  }

  /** The pool is the oriented winner of its key, and that candidate may be emitted. */
  ghost predicate FromWinner(assets: Registry, known: seq<Candidate>, p: Pool)
    requires AllKnown(assets, known)
  {
    exists i: nat :: Wins(known, i) && Emits(assets, known[i]) && p == Oriented(assets, known[i])
  }

  lemma AllKnownKnown(assets: Registry, candidates: seq<Candidate>)
    ensures AllKnown(assets, Known(assets, candidates))
  {
    var known := Known(assets, candidates);
    forall i | 0 <= i < |known| ensures IsKnown(assets, known[i]) {
      KnownAreKnown(assets, candidates, known[i]);
    }
  }

  /** A pool is on the page exactly when it is the oriented first candidate of greatest depth of its key and
      that candidate has two positive prices and two different symbols. */
  lemma PageExactly(assets: Registry, candidates: seq<Candidate>, p: Pool)
    ensures AllKnown(assets, Known(assets, candidates))
    ensures p in Curated(assets, candidates).pools <==> FromWinner(assets, Known(assets, candidates), p)
  {
    var known := Known(assets, candidates);
    AllKnownKnown(assets, candidates);
    SurvivorsKnown(assets, candidates);
    var left := Survivors(known);
    PoolsMembers(assets, left, p);
    if p in Curated(assets, candidates).pools {
      var k :| 0 <= k < |left| && Emits(assets, left[k]) && p == Oriented(assets, left[k]);
      SurvivorsAreWinners(known, left[k]);
    }
    if i: nat :| Wins(known, i) && Emits(assets, known[i]) && p == Oriented(assets, known[i]) {
      SurvivorsAreWinners(known, known[i]);
      var k :| 0 <= k < |left| && left[k] == known[i];
    }
  }

  // ----- keys and pairs ------------------------------------------------------

  predicate SamePair(c: Candidate, d: Candidate) {
    (c.denom0 == d.denom0 && c.denom1 == d.denom1) || (c.denom0 == d.denom1 && c.denom1 == d.denom0)
  }

  /** Listed candidates with one key have the same two denoms. */
  ghost predicate KeysSeparate(known: seq<Candidate>) {
    forall c, d :: c in known && d in known && KeyOf(c) == KeyOf(d) ==> SamePair(c, d)
  }

  /** No registered denom contains the character that joins the key. */
  ghost predicate NoPipes(assets: Registry) {
    forall d :: d in assets ==> PIPE !in d
  }

  lemma NoPipesSeparate(assets: Registry, candidates: seq<Candidate>)
    requires NoPipes(assets)
    ensures KeysSeparate(Known(assets, candidates))
  {
    forall c, d | c in Known(assets, candidates) && d in Known(assets, candidates) && KeyOf(c) == KeyOf(d)
      ensures SamePair(c, d)
    {
      KnownAreKnown(assets, candidates, c);
      KnownAreKnown(assets, candidates, d);
      JoinSortedDecides(c.denom0, c.denom1, d.denom0, d.denom1, PIPE);
    }
  }

  /** The deepest candidate of an unordered denom pair, the first listed among equals. */
  ghost predicate IsDeepest(known: seq<Candidate>, i: nat) {
    && i < |known|
    && (forall j :: 0 <= j < |known| && SamePair(known[j], known[i]) ==> known[j].reserve <= known[i].reserve)
    && (forall j :: 0 <= j < i && SamePair(known[j], known[i]) ==> known[j].reserve < known[i].reserve)
  }

  lemma PairsShareKeys(c: Candidate, d: Candidate)
    requires SamePair(c, d)
    ensures KeyOf(c) == KeyOf(d)
  {
    JoinSortedUnordered(c.denom0, c.denom1, PIPE);
  }

  lemma WinsIsDeepest(known: seq<Candidate>, i: nat)
    requires KeysSeparate(known)
    ensures Wins(known, i) <==> IsDeepest(known, i)
  {
    if i < |known| {
      forall j | 0 <= j < |known| ensures KeyOf(known[j]) == KeyOf(known[i]) <==> SamePair(known[j], known[i]) {
        assert known[j] in known && known[i] in known;
        if SamePair(known[j], known[i]) { PairsShareKeys(known[j], known[i]); }
      }
    }
  }

  /** The pool is the oriented deepest candidate of its pair, and that candidate may be emitted. */
  ghost predicate FromDeepest(assets: Registry, known: seq<Candidate>, p: Pool)
    requires AllKnown(assets, known)
  {
    exists i: nat :: IsDeepest(known, i) && Emits(assets, known[i]) && p == Oriented(assets, known[i])
  }

  /** Where keys tell pairs apart, the page holds the deepest pool of each pair of denoms. */
  lemma PageByPair(assets: Registry, candidates: seq<Candidate>, p: Pool)
    requires KeysSeparate(Known(assets, candidates))
    ensures AllKnown(assets, Known(assets, candidates))
    ensures p in Curated(assets, candidates).pools <==> FromDeepest(assets, Known(assets, candidates), p)
  {
    var known := Known(assets, candidates);
    PageExactly(assets, candidates, p);
    forall i: nat ensures Wins(known, i) <==> IsDeepest(known, i) {
      WinsIsDeepest(known, i);
    }
    if FromWinner(assets, known, p) {
      var i: nat :| Wins(known, i) && Emits(assets, known[i]) && p == Oriented(assets, known[i]);
      assert IsDeepest(known, i);
    }
    if FromDeepest(assets, known, p) {
      var i: nat :| IsDeepest(known, i) && Emits(assets, known[i]) && p == Oriented(assets, known[i]);
      assert Wins(known, i);
    }
  }

  function PoolKey(p: Pool): Str {
    JoinSorted(p.base, p.quote, PIPE)
  }

  lemma OrientedKey(assets: Registry, c: Candidate)
    requires IsKnown(assets, c)
    ensures PoolKey(Oriented(assets, c)) == KeyOf(c)
  {
    JoinSortedUnordered(c.denom0, c.denom1, PIPE);
  }

  lemma {:induction false} PoolKeysDiffer(assets: Registry, cs: seq<Candidate>, i: nat, j: nat)
    requires AllKnown(assets, cs) && forall x, y :: 0 <= x < y < |cs| ==> KeyOf(cs[x]) != KeyOf(cs[y])
    requires i < j < |PoolsOf(assets, cs)|
    ensures PoolKey(PoolsOf(assets, cs)[i]) != PoolKey(PoolsOf(assets, cs)[j])
  {
    var front, last := cs[..|cs| - 1], cs[|cs| - 1];
    if j < |PoolsOf(assets, front)| {
      PoolKeysDiffer(assets, front, i, j);
    } else {
      var p := PoolsOf(assets, front)[i];
      PoolsMembers(assets, front, p);
      var k :| 0 <= k < |front| && Emits(assets, front[k]) && p == Oriented(assets, front[k]);
      OrientedKey(assets, front[k]);
      OrientedKey(assets, last);
      assert KeyOf(cs[k]) != KeyOf(last);
    }
  }

  /** At most one pool per unordered pair of denoms. */
  lemma OnePoolPerPair(assets: Registry, candidates: seq<Candidate>, i: nat, j: nat)
    requires i < j < |Curated(assets, candidates).pools|
    ensures var p, q := Curated(assets, candidates).pools[i], Curated(assets, candidates).pools[j];
      !(p.base == q.base && p.quote == q.quote) && !(p.base == q.quote && p.quote == q.base)
  {
    SurvivorsKnown(assets, candidates);
    var left := Survivors(Known(assets, candidates));
    forall x, y | 0 <= x < y < |left| ensures KeyOf(left[x]) != KeyOf(left[y]) {
      SurvivorKeysDiffer(Known(assets, candidates), x, y);
    }
    PoolKeysDiffer(assets, left, i, j);
    var p := Curated(assets, candidates).pools[i];
    JoinSortedUnordered(p.base, p.quote, PIPE);
  }

  // ----- tokens --------------------------------------------------------------

  predicate IsSide(p: Pool, denom: Str) {
    denom == p.base || denom == p.quote
  }

  predicate PricesSide(p: Pool, denom: Str, price: real) {
    (denom == p.base && price == p.basePrice) || (denom == p.quote && price == p.quotePrice)
  }

  ghost predicate OnPage(pools: seq<Pool>, denom: Str) {
    exists i :: 0 <= i < |pools| && IsSide(pools[i], denom)
  }

  ghost predicate PricedBy(pools: seq<Pool>, denom: Str, price: real) {
    exists i :: 0 <= i < |pools| && PricesSide(pools[i], denom, price)
  }

  /** The map has an entry for a denom exactly when it is on the page: its registry entry and a price that
      one of its pools gives. */
  ghost predicate Listed(assets: Registry, tokens: map<Str, Token>, pools: seq<Pool>, denom: Str) {
    && (denom in tokens <==> OnPage(pools, denom))
    && (denom in tokens ==>
      denom in assets && tokens[denom].asset == assets[denom] && PricedBy(pools, denom, tokens[denom].price))
  }

  lemma ListedStep(assets: Registry, tokens: map<Str, Token>, pools: seq<Pool>, p: Pool, denom: Str)
    requires Listed(assets, tokens, pools, denom) && p.base in assets && p.quote in assets
    ensures var more := tokens[p.base := Token(assets[p.base], p.basePrice)];
      Listed(assets, more[p.quote := Token(assets[p.quote], p.quotePrice)], pools + [p], denom)
  {
    var all := pools + [p];
    assert all[|pools|] == p;
    if IsSide(p, denom) {
      assert IsSide(all[|pools|], denom);
      var price := if denom == p.quote then p.quotePrice else p.basePrice;
      assert PricesSide(all[|pools|], denom, price);
    } else if denom in tokens {
      var i :| 0 <= i < |pools| && IsSide(pools[i], denom);
      assert IsSide(all[i], denom);
      var j :| 0 <= j < |pools| && PricesSide(pools[j], denom, tokens[denom].price);
      assert PricesSide(all[j], denom, tokens[denom].price);
    } else {
      forall i | 0 <= i < |all| ensures !IsSide(all[i], denom) {
        if i < |pools| { assert all[i] == pools[i]; }
      }
    }
  }

  lemma {:induction false} TokensFollowPools(assets: Registry, cs: seq<Candidate>, denom: Str)
    requires AllKnown(assets, cs)
    ensures Listed(assets, TokensOf(assets, cs), PoolsOf(assets, cs), denom)
  {
    if cs != [] {
      var front, c := cs[..|cs| - 1], cs[|cs| - 1];
      TokensFollowPools(assets, front, denom);
      if Emits(assets, c) {
        ListedStep(assets, TokensOf(assets, front), PoolsOf(assets, front), Oriented(assets, c), denom);
      }
    }
  }

  /** The token map holds exactly the sides of the emitted pools. */
  lemma TokensExactly(assets: Registry, candidates: seq<Candidate>, denom: Str)
    ensures Listed(assets, Curated(assets, candidates).tokens, Curated(assets, candidates).pools, denom)
  {
    SurvivorsKnown(assets, candidates);
    TokensFollowPools(assets, Survivors(Known(assets, candidates)), denom);
  }

  // ----- order ---------------------------------------------------------------

  /** Two different candidates of one key never have the same depth. */
  ghost predicate NoTies(assets: Registry, candidates: seq<Candidate>) {
    forall c, d :: (
      c in candidates && d in candidates && IsKnown(assets, c) && IsKnown(assets, d) &&
      KeyOf(c) == KeyOf(d) && c.reserve == d.reserve) ==> c == d
  }

  ghost predicate DeepestAmong(assets: Registry, candidates: seq<Candidate>, c: Candidate) {
    && c in candidates && IsKnown(assets, c)
    && forall d :: d in candidates && IsKnown(assets, d) && KeyOf(d) == KeyOf(c) ==> d.reserve <= c.reserve
  }

  /** The least position of a value. */
  lemma {:induction false} FirstPosition(s: seq<Candidate>, c: Candidate) returns (i: nat)
    requires c in s
    ensures i < |s| && s[i] == c && forall j :: 0 <= j < i ==> s[j] != c
  {
    if s[0] == c {
      i := 0;
    } else {
      i := FirstPosition(s[1..], c);
      i := i + 1;
    }
  }

  lemma WinnerIsDeepest(assets: Registry, candidates: seq<Candidate>, c: Candidate)
    requires HoldsWinner(Known(assets, candidates), KeyOf(c), c)
    ensures DeepestAmong(assets, candidates, c)
  {
    var known := Known(assets, candidates);
    var i: nat :| Wins(known, i) && known[i] == c;
    KnownAreKnown(assets, candidates, c);
    forall d | d in candidates && IsKnown(assets, d) && KeyOf(d) == KeyOf(c) ensures d.reserve <= c.reserve {
      KnownAreKnown(assets, candidates, d);
      var j :| 0 <= j < |known| && known[j] == d;
    }
  }

  /** Without ties the deepest candidate by value stands at a position that wins. */
  lemma DeepestIsHeld(assets: Registry, candidates: seq<Candidate>, c: Candidate)
    requires NoTies(assets, candidates) && DeepestAmong(assets, candidates, c)
    ensures HoldsWinner(Known(assets, candidates), KeyOf(c), c)
  {
    var known := Known(assets, candidates);
    KnownAreKnown(assets, candidates, c);
    var i := FirstPosition(known, c);
    forall j | 0 <= j < |known| && KeyOf(known[j]) == KeyOf(c)
      ensures known[j].reserve <= c.reserve && (j < i ==> known[j].reserve < c.reserve)
    {
      KnownAreKnown(assets, candidates, known[j]);
    }
    assert Wins(known, i);
  }

  /** Without ties the pools of the page do not depend on the order of the candidates. */
  lemma OrderIrrelevant(assets: Registry, candidates: seq<Candidate>, other: seq<Candidate>, p: Pool)
    requires NoTies(assets, candidates) && forall c :: c in candidates <==> c in other
    ensures p in Curated(assets, candidates).pools <==> p in Curated(assets, other).pools
  {
    if p in Curated(assets, candidates).pools {
      PoolMoves(assets, candidates, other, p);
    }
    if p in Curated(assets, other).pools {
      PoolMoves(assets, other, candidates, p);
    }
  }

  lemma PoolMoves(assets: Registry, candidates: seq<Candidate>, other: seq<Candidate>, p: Pool)
    requires NoTies(assets, candidates) && forall c :: c in candidates <==> c in other
    requires p in Curated(assets, candidates).pools
    ensures p in Curated(assets, other).pools
  {
    PageExactly(assets, candidates, p);
    PageExactly(assets, other, p);
    var known := Known(assets, candidates);
    var i: nat :| Wins(known, i) && Emits(assets, known[i]) && p == Oriented(assets, known[i]);
    assert HoldsWinner(known, KeyOf(known[i]), known[i]);
    WinnerIsDeepest(assets, candidates, known[i]);
    DeepestIsHeld(assets, other, known[i]);
    var j: nat :| Wins(Known(assets, other), j) && Known(assets, other)[j] == known[i];
  }

  /** With a tie the first listed pool wins, so the order does matter then. */
  lemma TieFollowsOrder(assets: Registry, c: Candidate, d: Candidate)
    requires IsKnown(assets, c) && IsKnown(assets, d) && KeyOf(c) == KeyOf(d) && c.reserve == d.reserve
    requires Emits(assets, c) && Emits(assets, d)
    ensures Curated(assets, [c, d]).pools == [Oriented(assets, c)] &&
      Curated(assets, [d, c]).pools == [Oriented(assets, d)]
  {
    FirstOfTwo(assets, c, d);
    FirstOfTwo(assets, d, c);
  }

  lemma FirstOfTwo(assets: Registry, c: Candidate, d: Candidate)
    requires IsKnown(assets, c) && IsKnown(assets, d) && KeyOf(c) == KeyOf(d) && c.reserve >= d.reserve &&
      Emits(assets, c)
    ensures Curated(assets, [c, d]).pools == [Oriented(assets, c)]
  {
    assert [c, d][..1] == [c] && [c][..0] == [];
    assert Known(assets, [c]) == [c] && Known(assets, [c, d]) == [c, d];
    var key := KeyOf(c);
    assert DepthsOf([c]) == Depths([key], map[key := c]);
    assert DepthsOf([c, d]) == Depths([key], map[key := c]);
    assert Survivors([c, d]) == [c];
    assert PoolsOf(assets, [c]) == [Oriented(assets, c)];
  }

  /** Why keys must tell pairs apart: these are two pairs with one key, and the shallower one's only pool is
      left off the page. */
  lemma PipesCollide(assets: Registry, c: Candidate, d: Candidate)
    requires c.denom0 == Ascii("a|b") && c.denom1 == Ascii("c") && d.denom0 == Ascii("a") && d.denom1 == Ascii("b|c")
    requires IsKnown(assets, c) && IsKnown(assets, d) && Emits(assets, c) && Emits(assets, d) && c.reserve >= d.reserve
    ensures KeyOf(c) == KeyOf(d) && !SamePair(c, d) && IsDeepest([c, d], 1)
    ensures Curated(assets, [c, d]).pools == [Oriented(assets, c)]
  {
    assert c.denom0[0] < c.denom1[0] && d.denom0[0] < d.denom1[0];
    LessAsymmetric(c.denom0, c.denom1);
    LessAsymmetric(d.denom0, d.denom1);
    assert KeyOf(c) == Ascii("a|b|c") && KeyOf(d) == Ascii("a|b|c");
    assert |c.denom0| != |d.denom0| && c.denom0 != d.denom1 by { assert c.denom0[0] != d.denom1[0]; }
    FirstOfTwo(assets, c, d);
  }
}
