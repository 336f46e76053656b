/** The curated page of lib/cosmosPage.ts in terms of the candidates alone. */
module PageLaws {
  import opened JsString
  import opened CosmosPage
  import opened Curation

  /** A coin that is worth a dollar. */
  predicate Pegged(coinId: Str) {
    || coinId == Ascii("usd-coin") || coinId == Ascii("tether") || coinId == Ascii("dai")
    || coinId == Ascii("axlusdc") || coinId == Ascii("first-digital-usd")
  }

  lemma PeggedIs(a: Asset)
    ensures IsStable(a) <==> Pegged(a.coinId)
  {
  }

  /** The pool has the candidate's id, depth, volume and two denoms, and each side the price of its own denom. */
  predicate IsPoolOf(p: Pool, c: Candidate) {
    && p.poolId == c.poolId && p.reserve == c.reserve && p.volume == c.volume
    && ((p.base == c.denom0 && p.basePrice == c.price0 && p.quote == c.denom1 && p.quotePrice == c.price1) ||
        (p.base == c.denom1 && p.basePrice == c.price1 && p.quote == c.denom0 && p.quotePrice == c.price0))
  }

  /** Where exactly one of the two coins is pegged it is the quote; otherwise the sides stay as listed. */
  predicate IsFacing(assets: Registry, p: Pool, c: Candidate)
    requires c.denom0 in assets && c.denom1 in assets
  {
    var first, second := Pegged(assets[c.denom0].coinId), Pegged(assets[c.denom1].coinId);
    if first && !second then p.quote == c.denom0 && p.quotePrice == c.price0
    else p.quote == c.denom1 && p.quotePrice == c.price1
  }

  /** The candidate can be a price feed: two symbols and two prices. */
  predicate IsFeed(assets: Registry, c: Candidate)
    requires c.denom0 in assets && c.denom1 in assets
  {
    assets[c.denom0].symbol != assets[c.denom1].symbol && c.price0 > 0.0 && c.price1 > 0.0
  }

  lemma FacingIs(assets: Registry, c: Candidate, p: Pool)
    requires IsKnown(assets, c) && c.denom0 != c.denom1
    ensures p == Oriented(assets, c) <==> IsPoolOf(p, c) && IsFacing(assets, p, c)
  {
    PeggedIs(assets[c.denom0]);
    PeggedIs(assets[c.denom1]);
  }

  /** A candidate in the list that has an id and two registered denoms, and that is the first of the deepest such
      candidates of its key. */
  ghost predicate IsBest(assets: Registry, candidates: seq<Candidate>, c: Candidate) {
    HoldsWinner(Known(assets, candidates), KeyOf(c), c)
  }

  lemma BestIsDeepest(assets: Registry, candidates: seq<Candidate>, c: Candidate)
    requires IsBest(assets, candidates, c)
    ensures c in candidates && c.poolId != [] && c.denom0 in assets && c.denom1 in assets
    ensures forall d :: d in candidates && d.poolId != [] && SamePair(d, c) ==> d.reserve <= c.reserve
  {
    WinnerIsDeepest(assets, candidates, c);
    forall d | d in candidates && d.poolId != [] && SamePair(d, c) ensures d.reserve <= c.reserve {
      PairsShareKeys(d, c);
    }
  }

  ghost predicate FacesBest(assets: Registry, candidates: seq<Candidate>, p: Pool, c: Candidate) {
    && IsBest(assets, candidates, c) && c.denom0 in assets && c.denom1 in assets
    && IsFeed(assets, c) && IsPoolOf(p, c) && IsFacing(assets, p, c)
  }

  /** A pool is on the page exactly when it shows a best candidate that can be a feed, a lone pegged coin as the
      quote. */
  lemma PageShows(assets: Registry, candidates: seq<Candidate>, p: Pool)
    ensures p in Curated(assets, candidates).pools <==> exists c :: FacesBest(assets, candidates, p, c)
  {
    var known := Known(assets, candidates);
    PageExactly(assets, candidates, p);
    if FromWinner(assets, known, p) {
      var i: nat :| Wins(known, i) && Emits(assets, known[i]) && p == Oriented(assets, known[i]);
      FacingIs(assets, known[i], p);
      assert FacesBest(assets, candidates, p, known[i]);
    }
    if c :| FacesBest(assets, candidates, p, c) {
      var i: nat :| Wins(known, i) && known[i] == c && KeyOf(c) == KeyOf(c);
      FacingIs(assets, c, p);
    }
  }

  /** What a reader of the page can rely on. */
  lemma EveryPoolIs(assets: Registry, candidates: seq<Candidate>, p: Pool)
    requires p in Curated(assets, candidates).pools
    ensures p.base in assets && p.quote in assets && p.basePrice > 0.0 && p.quotePrice > 0.0
    ensures assets[p.base].symbol != assets[p.quote].symbol
    ensures Pegged(assets[p.base].coinId) ==> Pegged(assets[p.quote].coinId)
    ensures exists c :: c in candidates && c.poolId != [] && IsPoolOf(p, c)
  {
    PageShows(assets, candidates, p);
    var c :| FacesBest(assets, candidates, p, c);
    BestIsDeepest(assets, candidates, c);
  }

  // ----- the count -----------------------------------------------------------

  function PlacesOfKnown(assets: Registry, candidates: seq<Candidate>): set<nat> {
    set i: nat | i < |candidates| && |candidates[i].poolId| > 0 && candidates[i].denom0 in assets
             && candidates[i].denom1 in assets
  }

  /** The page's count is the number of candidates with an id and two registered denoms, before any is dropped. */
  lemma {:induction false} CountIs(assets: Registry, candidates: seq<Candidate>)
    ensures |Known(assets, candidates)| == |PlacesOfKnown(assets, candidates)|
    ensures Curated(assets, candidates).poolCount == |PlacesOfKnown(assets, candidates)|
  {
    if candidates != [] {
      var front, n := candidates[..|candidates| - 1], |candidates| - 1;
      CountIs(assets, front);
      assert forall i: nat :: i < n ==> front[i] == candidates[i];
      if IsKnown(assets, candidates[n]) {
        assert PlacesOfKnown(assets, candidates) == PlacesOfKnown(assets, front) + {n};
      } else {
        assert PlacesOfKnown(assets, candidates) == PlacesOfKnown(assets, front);
      }
    }
  }
}
