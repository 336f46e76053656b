/** What an ingested pool leaves in the tables, and what a complete pass of lib/pipeline.ts leaves unchecked. */
module IntakeLaws {
  import opened Wrappers
  import opened JsString
  import opened Verdict
  import opened Tables
  import opened Passes
  import opened Drain
  import opened EngineRules
  import opened RowRules

  // ----- after a pass --------------------------------------------------------

  predicate IsSideOf(p: PairRow, k: Id) {
    p.token0 == k || p.token1 == k
  }

  lemma SideIsPaired(t: Tables, p: Id, k: Id)
    requires p in t.pairs && IsSideOf(t.pairs[p], k)
    ensures p in PairsOf(t, k)
  {
  }

  /** The two tokens of every verified pair have been checked since the cutoff. */
  lemma VerifiedAreChecked(f: Feed, t0: Tables, batch: nat, batches: seq<seq<Id>>, p: Id, k: Id)
    requires Drained(t0, DueForScamCheck(f), ScamProcess(f), batch, batches)
    ensures var u := ProcessAll(t0, ScamProcess(f), Flatten(batches));
      (p in u.pairs && k in u.tokens && IsSideOf(u.pairs[p], k) && f.w.evmChain(u.tokens[k].chain) &&
       (u.pairs[p].status == AutoVerified || u.pairs[p].status == ManualVerified)) ==>
      u.tokens[k].scamCheckedAt >= f.cutoff
  {
    var u := ProcessAll(t0, ScamProcess(f), Flatten(batches));
    if p in u.pairs && k in u.tokens && IsSideOf(u.pairs[p], k) {
      SideIsPaired(u, p, k);
      assert k !in DueForScamCheck(f)(u);
    }
  }

  /** The two tokens of every pair in review have been scanned since the cutoff. */
  lemma ReviewedAreScanned(f: Feed, t0: Tables, batch: nat, batches: seq<seq<Id>>, p: Id, k: Id)
    requires Drained(t0, DueForReviewScan(f), ReviewProcess(f), batch, batches)
    ensures var u := ProcessAll(t0, ReviewProcess(f), Flatten(batches));
      (p in u.pairs && k in u.tokens && IsSideOf(u.pairs[p], k) && f.w.evmChain(u.tokens[k].chain) &&
       u.pairs[p].status == NeedsReview) ==> u.tokens[k].securityCheckedAt >= f.cutoff
  {
    var u := ProcessAll(t0, ReviewProcess(f), Flatten(batches));
    if p in u.pairs && k in u.tokens && IsSideOf(u.pairs[p], k) {
      SideIsPaired(u, p, k);
      assert k !in DueForReviewScan(f)(u);
    }
  }

  /** An unlisted token of a pair in review, of a pair as deep as its source's floor, or of a source without a floor has
      been looked at in this run, or its wait is not over. */
  lemma UnlistedAreLookedAt(f: Feed, t0: Tables, batch: nat, batches: seq<seq<Id>>, p: Id, k: Id)
    requires Drained(t0, DueForIdentityCheck(f), IdentityProcess(f), batch, batches)
    ensures var u := ProcessAll(t0, IdentityProcess(f), Flatten(batches));
      (p in u.pairs && k in u.tokens && IsSideOf(u.pairs[p], k) && |u.tokens[k].coingeckoCoinId| == 0 &&
       f.w.evmChain(u.tokens[k].chain) &&
       (u.pairs[p].status == NeedsReview || !f.hasThreshold(u.pairs[p].chain, u.pairs[p].dex) ||
         u.pairs[p].reserveUsd >= f.w.config(u.pairs[p].chain, u.pairs[p].dex).minLiquidityUsd)) ==>
      u.tokens[k].identityCheckedAt >= f.now || u.tokens[k].identityNextCheckAt > f.now
  {
    var u := ProcessAll(t0, IdentityProcess(f), Flatten(batches));
    if p in u.pairs && k in u.tokens && IsSideOf(u.pairs[p], k) {
      SideIsPaired(u, p, k);
      assert k !in DueForIdentityCheck(f)(u);
    }
  }

  /** Every pair without a factory has been tried since the cutoff. */
  lemma FactoriesAreTried(f: Feed, t0: Tables, batch: nat, batches: seq<seq<Id>>, p: Id)
    requires Drained(t0, DueForFactoryCheck(f), FactoryProcess(f), batch, batches)
    ensures var u := ProcessAll(t0, FactoryProcess(f), Flatten(batches));
      p in u.pairs && f.w.evmChain(u.pairs[p].chain) && u.pairs[p].factoryAddress == None ==>
      u.pairs[p].factoryCheckedAt >= f.cutoff
  {
    var u := ProcessAll(t0, FactoryProcess(f), Flatten(batches));
    if p in u.pairs { assert p !in DueForFactoryCheck(f)(u); }
  }

  /** Every listed token that has a pair has been compared with its coin's contract since the cutoff. */
  lemma ListedAreCompared(f: Feed, t0: Tables, batch: nat, batches: seq<seq<Id>>, p: Id, k: Id)
    requires Drained(t0, DueForCanonicalCheck(f), CanonicalProcess(f), batch, batches)
    ensures var u := ProcessAll(t0, CanonicalProcess(f), Flatten(batches));
      (p in u.pairs && k in u.tokens && IsSideOf(u.pairs[p], k) && |u.tokens[k].coingeckoCoinId| > 0 &&
       f.w.coinGeckoChain(u.tokens[k].chain)) ==> u.tokens[k].canonicalCheckedAt >= f.cutoff
  {
    var u := ProcessAll(t0, CanonicalProcess(f), Flatten(batches));
    if p in u.pairs && k in u.tokens && IsSideOf(u.pairs[p], k) {
      SideIsPaired(u, p, k);
      assert k !in DueForCanonicalCheck(f)(u);
    }
  }

  // ----- who is due ----------------------------------------------------------

  predicate HasPair(t: Tables, k: Id, wanted: set<Status>) {
    exists p :: p in t.pairs && IsSideOf(t.pairs[p], k) && t.pairs[p].status in wanted
  }

  lemma PairedIs(t: Tables, k: Id, wanted: set<Status>)
    ensures InPair(t, k, wanted) <==> HasPair(t, k, wanted)
  {
    if InPair(t, k, wanted) {
      var p :| p in PairsOf(t, k) && t.pairs[p].status in wanted;
      assert IsSideOf(t.pairs[p], k);
    }
    if HasPair(t, k, wanted) {
      var p :| p in t.pairs && IsSideOf(t.pairs[p], k) && t.pairs[p].status in wanted;
      SideIsPaired(t, p, k);
    }
  }

  /** Whom the passes over tokens with pairs of some status take up, and the pairs without a factory. */
  lemma OnlyThose(f: Feed, t: Tables, k: Id)
    ensures k in DueForScamCheck(f)(t) <==>
      (k in t.tokens && f.w.evmChain(t.tokens[k].chain) && t.tokens[k].scamCheckedAt < f.cutoff &&
       HasPair(t, k, {AutoVerified, ManualVerified}))
    ensures k in DueForReviewScan(f)(t) <==>
      (k in t.tokens && f.w.evmChain(t.tokens[k].chain) && t.tokens[k].securityCheckedAt < f.cutoff &&
       HasPair(t, k, {NeedsReview}))
    ensures k in DueForFactoryCheck(f)(t) <==>
      (k in t.pairs && f.w.evmChain(t.pairs[k].chain) && t.pairs[k].factoryAddress == None &&
       t.pairs[k].factoryCheckedAt < f.cutoff)
  {
    PairedIs(t, k, {AutoVerified, ManualVerified});
    assert {AutoVerified, ManualVerified} == {ManualVerified, AutoVerified};
    PairedIs(t, k, {NeedsReview});
  }

  // ----- ingest --------------------------------------------------------------

  /** The rows of the pool's two tokens once stored: listed under the coin id and with the decimals of the answer, and
      deployed no later than the earliest pool seen. */
  predicate StoredToken(t: Tables, u: Tables, id: Id, chain: Str, f: TokenFacts, createdAt: Option<int>) {
    id in u.tokens &&
    var r := u.tokens[id];
    r.coingeckoCoinId == f.coingeckoCoinId && r.decimals == f.decimals &&
    if id in t.tokens then
      var was := t.tokens[id];
      r == was.(
        coingeckoCoinId := r.coingeckoCoinId, decimals := r.decimals, deploymentTimestamp := r.deploymentTimestamp)
      && ((createdAt.Some? || was.deploymentTimestamp.Some?) <==> r.deploymentTimestamp.Some?)
      && (r.deploymentTimestamp.Some? ==> r.deploymentTimestamp in {was.deploymentTimestamp, createdAt})
      && (createdAt.Some? ==> r.deploymentTimestamp.value <= createdAt.value)
      && (was.deploymentTimestamp.Some? ==> r.deploymentTimestamp.value <= was.deploymentTimestamp.value)
    else
      && r.chain == chain && r.contractAddress == f.contractAddress && r.deploymentTimestamp == createdAt
      && r.status == Unverified && !r.identityConfirmed && !r.isScamFlagged && r.goPlus == None && r.honeypot == None
      && r.scamCheckedAt == 0 && r.identityCheckedAt == 0 && r.identityNextCheckAt == 0 && r.canonicalCheckedAt == 0
      && r.securityCheckedAt == 0
  }

  lemma TokenStored(t: Tables, id: Id, chain: Str, f: TokenFacts, createdAt: Option<int>, now: int)
    ensures var u := UpsertToken(t, id, chain, f, createdAt, now);
      StoredToken(t, u, id, chain, f, createdAt) && u.pairs == t.pairs && u.tokens == t.tokens[id := u.tokens[id]]
  {
  }

  /** The market columns of a pair's row are those of the pool, each price on its own token's side. */
  predicate IsPool(q: PairRow, f: PoolFacts, now: int) {
    && q.reserveUsd == f.reserveUsd && q.volumeUsd == f.volume24hUsd && q.txCount == f.trades24h
    && q.token0PriceDex == f.basePriceUsd && q.token1PriceDex == f.quotePriceUsd
    && q.token0PriceCg == f.base.priceUsd && q.token1PriceCg == f.quote.priceUsd
    && q.hooked == f.hooked && q.subgraphPresent == f.subgraphPresent && q.lastChecked == now
  }

  /** Where a pair is, and of what. */
  predicate IsPairOf(q: PairRow, f: PoolFacts, base: Id, quote: Id) {
    q.chain == f.chain && q.dex == f.dex && q.contractAddress == f.poolId && q.token0 == base && q.token1 == quote
  }

  predicate IsOldPair(q: PairRow, p: PairRow) {
    && q.chain == p.chain && q.dex == p.dex && q.contractAddress == p.contractAddress
    && q.token0 == p.token0 && q.token1 == p.token1
    && q.factoryAddress == p.factoryAddress && q.factoryCheckedAt == p.factoryCheckedAt
  }

  /** The tables before the verdict: the pool's own three rows are stored, all others kept. */
  ghost predicate Stored(t: Tables, u: Tables, now: int, f: PoolFacts, base: Id, quote: Id, pair: Id) {
    && StoredToken(t, u, base, f.chain, f.base, f.createdAt) && StoredToken(t, u, quote, f.chain, f.quote, f.createdAt)
    && pair in u.pairs && IsPool(u.pairs[pair], f, now)
    && (if pair in t.pairs then
          IsOldPair(u.pairs[pair], t.pairs[pair]) && u.pairs[pair].status == t.pairs[pair].status
        else
          IsPairOf(u.pairs[pair], f, base, quote) && u.pairs[pair].status == Unverified
          && u.pairs[pair].factoryAddress == None && u.pairs[pair].factoryCheckedAt == 0)
    && u.pairs == t.pairs[pair := u.pairs[pair]]
    && u.tokens == t.tokens[base := u.tokens[base]][quote := u.tokens[quote]]
  }

  /** An ingested pool is stored, then judged. */
  lemma IngestStores(t: Tables, w: World, now: int, f: PoolFacts, base: Id, quote: Id, pair: Id) returns (u: Tables)
    requires base != quote
    ensures Stored(t, u, now, f, base, quote, pair)
    ensures IngestPool(t, w, now, f, base, quote, pair) == RunVerdict(u, w, pair, now)
  {
    var withBase := UpsertToken(t, base, f.chain, f.base, f.createdAt, now);
    var withQuote := UpsertToken(withBase, quote, f.chain, f.quote, f.createdAt, now);
    TokenStored(t, base, f.chain, f.base, f.createdAt, now);
    TokenStored(withBase, quote, f.chain, f.quote, f.createdAt, now);
    u := UpsertPair(withQuote, pair, base, quote, f, now);
  }

  /** What the facts of a pool decide about a pair of these two tokens that no operator has set. */
  lemma FactsDecide(t: Tables, w: World, now: int, f: PoolFacts, base: Id, quote: Id, pair: Id)
    requires base != quote
    requires pair in t.pairs ==> !IsManual(t.pairs[pair].status) && IsPairOf(t.pairs[pair], f, base, quote)
    ensures var u, c := IngestPool(t, w, now, f, base, quote, pair), w.config(f.chain, f.dex);
      && pair in u.pairs && IsPool(u.pairs[pair], f, now) && IsPairOf(u.pairs[pair], f, base, quote)
      && base in u.tokens && quote in u.tokens
      && var ours := w.firstParty(f.chain, u.tokens[base].contractAddress) ||
           w.firstParty(f.chain, u.tokens[quote].contractAddress);
      Ruled(u.pairs[pair].status, u.pairs[pair].reason, f, ours, c, now)
  {
    var u := IngestStores(t, w, now, f, base, quote, pair);
    RunWrites(u, w, pair, now);
    RunVerdictKeepsInputs(u, w, pair, now);
    assert SameTokenInputs(u.tokens[base], RunVerdict(u, w, pair, now).tokens[base]);
    assert SameTokenInputs(u.tokens[quote], RunVerdict(u, w, pair, now).tokens[quote]);
    var x := RowColumns(u, w, pair, now);
    RuledBy(x, f, now);
  }

  /** Hooks, an absence from the subgraph, decimals, a hard floor on the reserve, and a price apart from the token's
      own; and it has just been seen. */
  predicate Ruled(status: Status, reason: Option<Reason>, f: PoolFacts, ours: bool, c: VerdictConfig, now: int) {
    && (f.hooked || f.subgraphPresent == Some(false) ==> status != AutoVerified)
    && (!Sane(c, f.base.decimals) || !Sane(c, f.quote.decimals) ==> status in {AutoRejected, NotCurrentlyUsable})
    && (!ours && f.reserveUsd < c.hardMinLiquidityUsd ==> status in {AutoRejected, NotCurrentlyUsable})
    && (PriceApart(f.base.priceUsd, f.basePriceUsd, c.maxPriceDeviationPercent) ||
        PriceApart(f.quote.priceUsd, f.quotePriceUsd, c.maxPriceDeviationPercent) ==>
        status == AutoVerified ==> reason == Some(SiblingVouched))
    && (c.maxUnseenDays >= 0.0 ==> reason != Some(UnseenTooLong))
  }

  lemma RuledBy(x: Columns, f: PoolFacts, now: int)
    requires x.hooked == f.hooked && x.absent == (f.subgraphPresent == Some(false)) && x.lastSeenAt == now == x.now
    requires x.reserve == f.reserveUsd
    requires x.a.decimals == f.base.decimals && x.b.decimals == f.quote.decimals
    requires x.a.priceCg == f.base.priceUsd && x.a.priceDex == f.basePriceUsd
    requires x.b.priceCg == f.quote.priceUsd && x.b.priceDex == f.quotePriceUsd
    ensures Ruled(Decided(x).0, Some(Decided(x).1), f, x.firstParty, x.config, now)
  {
    ApartIs(x, x.a);
    ApartIs(x, x.b);
  }
}
