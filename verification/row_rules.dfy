/** Which column of a stored row decides what. */
module RowRules {
  // The verdict of lib/verdictRunner.ts in terms of the tables.

  import opened Wrappers
  import opened JsString
  import opened Verdict
  import opened Tables
  import opened Passes
  import opened EngineRules

  // ----- the columns of a row ------------------------------------------------

  /** Another row with this key, elsewhere, that the engine or an operator has verified. */
  predicate HasVouching(t: Tables, id: Id, key: Option<Str>)
    requires id in t.pairs
  {
    exists o :: (
      && key.Some? && o in t.pairs && o != id && t.pairs[o].canonicalKey == key
      && (t.pairs[o].chain != t.pairs[id].chain || t.pairs[o].dex != t.pairs[id].dex)
      && (t.pairs[o].status == AutoVerified || t.pairs[o].status == ManualVerified))
  }

  /** Another row with this key on the same exchange of the same chain, over other contracts. */
  predicate HasRival(t: Tables, id: Id, key: Option<Str>)
    requires id in t.pairs
  {
    exists o :: (
      && key.Some? && o in t.pairs && o != id && t.pairs[o].canonicalKey == key
      && t.pairs[o].chain == t.pairs[id].chain && t.pairs[o].dex == t.pairs[id].dex
      && TokenSetOf(t, t.pairs[o]) != TokenSetOf(t, t.pairs[id]))
  }

  /** Without the separator inside them, two pairs of contracts are one set exactly when they are the same two, capitals
      apart. */
  lemma TokenSetsAre(a: Str, b: Str, c: Str, d: Str)
    requires forall s :: s in {a, b, c, d} ==> Ascii("|")[0] !in ToLower(s)
    ensures TokenSet(a, b) == TokenSet(c, d) <==>
      (ToLower(a) == ToLower(c) && ToLower(b) == ToLower(d)) || (ToLower(a) == ToLower(d) && ToLower(b) == ToLower(c))
  {
    JoinSortedDecides(ToLower(a), ToLower(b), ToLower(c), ToLower(d), 124);
  }

  /** The canonical contract: the cached one, and where there is none but a rival, the one looked up. */
  function Resolved(w: World, coinId: Str, chain: Str, rival: bool): Option<Str> {
    if |coinId| == 0 then None
    else if Present(w.cachedCanonical(coinId, chain)) || !rival then w.cachedCanonical(coinId, chain)
    else w.liveCanonical(coinId, chain)
  }

  function RowSide(r: TokenRow, canonical: Option<Str>, priceCg: real, priceDex: real): Side {
    Side(r.contractAddress, Some(r.coingeckoCoinId), r.identityConfirmed, canonical, r.decimals, r.deploymentTimestamp,
      priceCg, priceDex)
  }

  predicate Matches(address: Str, canonical: Option<Str>) {
    Present(canonical) && ToLower(address) == ToLower(canonical.value)
  }

  function RowColumns(t: Tables, w: World, id: Id, now: int): Columns
    requires Loadable(t, id)
  {
    var p := t.pairs[id];
    var a, b := t.tokens[p.token0], t.tokens[p.token1];
    var key := CanonicalKey(a.coingeckoCoinId, b.coingeckoCoinId);
    var rival := HasRival(t, id, key);
    var canonicalA := Resolved(w, a.coingeckoCoinId, p.chain, rival);
    var canonicalB := Resolved(w, b.coingeckoCoinId, p.chain, rival);
    Columns(now, w.config(p.chain, p.dex), p.lastChecked,
      rival && Present(canonicalA) && Present(canonicalB) &&
        !(Matches(a.contractAddress, canonicalA) && Matches(b.contractAddress, canonicalB)),
      HasVouching(t, id, key), a.isScamFlagged || b.isScamFlagged, p.hooked, p.subgraphPresent == Some(false),
      w.firstParty(p.chain, a.contractAddress) || w.firstParty(p.chain, b.contractAddress), w.reserveTrusted(p.chain),
      p.reserveUsd, p.volumeUsd, p.txCount, p.factoryAddress, w.canonicalFactory(p.chain, p.dex),
      RowSide(a, canonicalA, p.token0PriceCg, p.token0PriceDex),
      RowSide(b, canonicalB, p.token1PriceCg, p.token1PriceDex))
  }

  lemma VouchingIs(t: Tables, id: Id, key: Option<Str>)
    requires id in t.pairs
    ensures HasVerifiedSibling(t, id, key) <==> HasVouching(t, id, key)
  {
    if HasVerifiedSibling(t, id, key) {
      var o :| o in t.pairs && o != id && t.pairs[o].canonicalKey == key && !SameSource(t.pairs[id], t.pairs[o])
        && IsVerified(t.pairs[o].status);
      assert t.pairs[o].status == AutoVerified || t.pairs[o].status == ManualVerified;
    }
    if HasVouching(t, id, key) {
      var o :| key.Some? && o in t.pairs && o != id && t.pairs[o].canonicalKey == key
        && (t.pairs[o].chain != t.pairs[id].chain || t.pairs[o].dex != t.pairs[id].dex)
        && (t.pairs[o].status == AutoVerified || t.pairs[o].status == ManualVerified);
      assert !SameSource(t.pairs[id], t.pairs[o]) && IsVerified(t.pairs[o].status);
    }
  }

  lemma RivalIs(t: Tables, id: Id, key: Option<Str>)
    requires id in t.pairs
    ensures HasIntraConflict(t, id, key) <==> HasRival(t, id, key)
  {
    if HasIntraConflict(t, id, key) {
      var o :| o in t.pairs && o != id && t.pairs[o].canonicalKey == key && SameSource(t.pairs[id], t.pairs[o])
        && TokenSetOf(t, t.pairs[id]) != TokenSetOf(t, t.pairs[o]);
      assert t.pairs[o].chain == t.pairs[id].chain && t.pairs[o].dex == t.pairs[id].dex;
    }
    if HasRival(t, id, key) {
      var o :| key.Some? && o in t.pairs && o != id && t.pairs[o].canonicalKey == key
        && t.pairs[o].chain == t.pairs[id].chain && t.pairs[o].dex == t.pairs[id].dex
        && TokenSetOf(t, t.pairs[o]) != TokenSetOf(t, t.pairs[id]);
      assert SameSource(t.pairs[id], t.pairs[o]);
    }
  }

  lemma ResolvedIs(w: World, coinId: Str, chain: Str, rival: bool)
    ensures CanonicalAddress(w, coinId, chain, rival) == Resolved(w, coinId, chain, rival)
  {
  }

  lemma MatchesIs(address: Str, canonical: Option<Str>)
    ensures AddrEq(address, canonical) <==> Matches(address, canonical)
  {
  }

  /** What is gathered for a pair are the columns of its row and its tokens' rows. */
  lemma ContextIsRow(t: Tables, w: World, id: Id, now: int)
    requires Loadable(t, id)
    ensures ColumnsOf(ContextOf(t, w, id, now).0, ContextOf(t, w, id, now).1) == RowColumns(t, w, id, now)
    ensures ContextOf(t, w, id, now).1.canonicalKey ==
      CanonicalKey(t.tokens[t.pairs[id].token0].coingeckoCoinId, t.tokens[t.pairs[id].token1].coingeckoCoinId)
  {
    var p := t.pairs[id];
    var a, b := t.tokens[p.token0], t.tokens[p.token1];
    var key := KeyOf(t, id);
    VouchingIs(t, id, key);
    RivalIs(t, id, key);
    var rival := HasRival(t, id, key);
    ResolvedIs(w, a.coingeckoCoinId, p.chain, rival);
    ResolvedIs(w, b.coingeckoCoinId, p.chain, rival);
    MatchesIs(a.contractAddress, Resolved(w, a.coingeckoCoinId, p.chain, rival));
    MatchesIs(b.contractAddress, Resolved(w, b.coingeckoCoinId, p.chain, rival));
  }

  /** The verdict of a stored pair: the first rule that applies to the columns of its row and its tokens' rows, with the
      score and the key. */
  lemma RowDecides(t: Tables, w: World, id: Id, now: int)
    requires Loadable(t, id)
    ensures var x, r := RowColumns(t, w, id, now), Judge(t, w, id, now);
      && (r.verdict, r.reason) == Decided(x)
      && Weight(x) > 0 && r.confidence == (if x.flagged then 0.0 else Passed(x) as real / Weight(x) as real)
      && r.canonicalKey ==
           CanonicalKey(t.tokens[t.pairs[id].token0].coingeckoCoinId, t.tokens[t.pairs[id].token1].coingeckoCoinId)
  {
    var (input, context) := ContextOf(t, w, id, now);
    ContextIsRow(t, w, id, now);
    FirstRuleDecides(input, context);
  }

  // ----- one column at a time ------------------------------------------------

  /** The exchange's price of one token of the row is too far from the reference. */
  predicate PriceApart(priceCg: real, priceDex: real, percent: real) {
    priceCg > 0.0 && priceDex > 0.0 && Abs(priceDex - priceCg) * 100.0 > percent * priceCg
  }

  lemma ApartIs(x: Columns, s: Side)
    ensures PriceApart(s.priceCg, s.priceDex, x.config.maxPriceDeviationPercent) <==> Deviates(x, s)
  {
  }

  /** The reasons of the rules that come after the prices. */
  predicate PastPrices(reason: Reason) {
    reason in {PriceDeviation, PhantomLiquidity, HighConfidence, CanonicalConfirmed, BelowAutoVerifyBar}
  }

  lemma PriceRule(x: Columns)
    ensures (Deviates(x, x.a) || Deviates(x, x.b)) && Decided(x).0 == AutoVerified ==> x.sibling
    ensures PastPrices(Decided(x).1) ==> (Decided(x).1 == PriceDeviation <==> Deviates(x, x.a) || Deviates(x, x.b))
  {
  }

  /** A pair with a price apart is verified by the engine only when a verified pair elsewhere has its key; and of the
      pairs that no earlier rule takes, exactly these are held for their prices. */
  lemma PricesHold(t: Tables, w: World, id: Id, now: int)
    requires Loadable(t, id)
    ensures var p, r := t.pairs[id], Judge(t, w, id, now);
      var percent := w.config(p.chain, p.dex).maxPriceDeviationPercent;
      var apart := PriceApart(p.token0PriceCg, p.token0PriceDex, percent) ||
        PriceApart(p.token1PriceCg, p.token1PriceDex, percent);
      && (apart && r.verdict == AutoVerified ==> HasVouching(t, id, r.canonicalKey))
      && (PastPrices(r.reason) ==> (r.reason == PriceDeviation <==> apart))
  {
    var x := RowColumns(t, w, id, now);
    RowDecides(t, w, id, now);
    ApartIs(x, x.a);
    ApartIs(x, x.b);
    PriceRule(x);
  }

  predicate Sane(c: VerdictConfig, decimals: int) {
    c.minDecimals <= decimals <= c.maxDecimals
  }

  /** What takes a pair out or holds it, each for itself. */
  lemma ColumnsHold(t: Tables, w: World, id: Id, now: int)
    requires Loadable(t, id)
    ensures var p, v := t.pairs[id], Judge(t, w, id, now).verdict;
      var a, b, c := t.tokens[p.token0], t.tokens[p.token1], w.config(p.chain, p.dex);
      var ours := w.firstParty(p.chain, a.contractAddress) || w.firstParty(p.chain, b.contractAddress);
      && (p.hooked || p.subgraphPresent == Some(false) || a.isScamFlagged || b.isScamFlagged ==> v != AutoVerified)
      && (!Sane(c, a.decimals) || !Sane(c, b.decimals) ==> v in {AutoRejected, NotCurrentlyUsable})
      && (!ours && p.reserveUsd < c.hardMinLiquidityUsd ==> v in {AutoRejected, NotCurrentlyUsable})
      && (Differ(p.factoryAddress, w.canonicalFactory(p.chain, p.dex)) ==> v != AutoVerified)
      && (p.lastChecked > 0 && (now - p.lastChecked) as real > c.maxUnseenDays * 86400.0 ==> v == AutoRejected)
  {
    RowDecides(t, w, id, now);
  }

  // ----- what a run writes ---------------------------------------------------

  /** The rows of a judged pair and of its tokens afterwards, and that no other row changes. */
  lemma RunWrites(t: Tables, w: World, id: Id, now: int)
    requires Judgeable(t, id)
    ensures var u, p, x := RunVerdict(t, w, id, now), t.pairs[id], RowColumns(t, w, id, now);
      var q := u.pairs[id];
      && u.pairs == t.pairs[id := q] && SamePairInputs(p, q)
      && q.status == Decided(x).0 && q.reason == Some(Decided(x).1)
      && Weight(x) > 0 && q.confidence == (if x.flagged then 0.0 else Passed(x) as real / Weight(x) as real)
      && q.canonicalKey == CanonicalKey(t.tokens[p.token0].coingeckoCoinId, t.tokens[p.token1].coingeckoCoinId)
      && q.verdictAt == now && q.verificationMethod == Auto
      && q.statusChangedAt == (if q.status != p.status then now else p.statusChangedAt)
  {
    RowDecides(t, w, id, now);
  }

  /** A token's row: a verified pair's own tokens are promoted unless an operator has set them or they are flagged. */
  lemma RunPromotes(t: Tables, w: World, id: Id, now: int, k: Id)
    requires Judgeable(t, id) && k in t.tokens
    ensures var u, r := RunVerdict(t, w, id, now), t.tokens[k];
      u.tokens.Keys == t.tokens.Keys && u.tokens[k] ==
        if Decided(RowColumns(t, w, id, now)).0 == AutoVerified && (k == t.pairs[id].token0 || k == t.pairs[id].token1)
          && r.status != ManualVerified && r.status != ManualRejected && !r.isScamFlagged
        then r.(status := AutoVerified, verificationMethod := Auto,
                statusChangedAt := if r.status != AutoVerified then now else r.statusChangedAt)
        else r
  {
    RowDecides(t, w, id, now);
    var (input, context) := ContextOf(t, w, id, now);
    VerdictShape(input, context);
  }

  /** The sweep: exactly the flagged tokens in its scope that stand at AutoVerified go into review. */
  lemma SweepWrites(t: Tables, scope: Option<set<Id>>, now: int, k: Id)
    requires k in t.tokens
    ensures var u, r := Demote(t, scope, now), t.tokens[k];
      u.pairs == t.pairs && u.tokens.Keys == t.tokens.Keys && u.tokens[k] ==
        if r.isScamFlagged && r.status == AutoVerified && (scope.None? || k in scope.value)
        then r.(status := NeedsReview, verificationMethod := Auto, statusChangedAt := now)
        else r
  {
  }
}
