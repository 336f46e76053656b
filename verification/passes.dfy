/** The pass steps of lib/ingest.ts, lib/identityCheck.ts, lib/canonicalCheck.ts, lib/factoryCheck.ts, lib/scamCheck.ts,
    lib/securitySignals.ts and lib/pipeline.ts as functions of the tables. What an external service answers is an
    argument; so is the order in which a query returns its rows. */
module Passes {
  import opened Wrappers
  import opened JsString
  import opened Verdict
  import opened Tables

  function PairsOf(t: Tables, token: Id): set<Id> {
    set p | p in t.pairs && (t.pairs[p].token0 == token || t.pairs[p].token1 == token)
  }

  ghost predicate Lists(order: seq<Id>, ids: set<Id>) {
    forall id :: id in order <==> id in ids
  }

  ghost predicate Distinct(ids: seq<Id>) {
    forall i, j :: 0 <= i < j < |ids| ==> ids[i] != ids[j]
  }

  function Members(ids: seq<Id>): set<Id> {
    set id | id in ids
  }

  const HIGH_TAX := 0.1

  /** Either source's strong evidence that a holder cannot safely sell. */
  function IsScam(security: Option<Security>, honeypot: Option<bool>): bool {
    || (security.Some? &&
        var s := security.value;
        s.isHoneypot || s.cannotSellAll || s.selfdestruct ||
        (s.buyTax.Some? && s.buyTax.value > HIGH_TAX) || (s.sellTax.Some? && s.sellTax.value > HIGH_TAX))
    || honeypot == Some(true)
  }

  /** The token row with what the two services answered; without an answer only the attempt is stamped. */
  function WithScamAnswer(r: TokenRow, now: int, security: Option<Security>, honeypot: Option<bool>): TokenRow {
    if security.None? && honeypot.None? then r.(scamCheckedAt := now)
    else
      r.(goPlus := if security.Some? then security else r.goPlus,
         honeypot := if honeypot.Some? then honeypot else r.honeypot,
         isScamFlagged := IsScam(security, honeypot), scamCheckedAt := now)
  }

  function ScamCheck(t: Tables, w: World, token: Id, now: int, security: Option<Security>, honeypot: Option<bool>,
                     order: seq<Id>): Tables {
    if token !in t.tokens || !w.evmChain(t.tokens[token].chain) then t
    else
      var stored := t.(tokens := t.tokens[token := WithScamAnswer(t.tokens[token], now, security, honeypot)]);
      if IsScam(security, honeypot) then Demote(RunAll(stored, w, order, now), Some({token}), now) else stored
  }

  /** A scam check, then the scan's own stamp on the row. */
  function ReviewScan(t: Tables, w: World, token: Id, now: int, security: Option<Security>, honeypot: Option<bool>,
                      order: seq<Id>): Tables {
    if token !in t.tokens then t
    else
      ScamCheckKeepsTokens(t, w, token, now, security, honeypot, order);
      var scanned := ScamCheck(t, w, token, now, security, honeypot, order);
      scanned.(tokens := scanned.tokens[token := scanned.tokens[token].(securityCheckedAt := now)])
  }

  lemma ScamCheckKeepsTokens(t: Tables, w: World, token: Id, now: int, security: Option<Security>,
                             honeypot: Option<bool>, order: seq<Id>)
    ensures ScamCheck(t, w, token, now, security, honeypot, order).tokens.Keys == t.tokens.Keys
  {
    if token in t.tokens {
      var stored := t.(tokens := t.tokens[token := WithScamAnswer(t.tokens[token], now, security, honeypot)]);
      RunAllKeepsInputs(stored, w, order, now);
    }
  }

  function Rescore(t: Tables, w: World, token: Id, now: int, order: seq<Id>): Tables {
    if token !in t.tokens || (t.tokens[token].goPlus.None? && t.tokens[token].honeypot.None?) then t
    else
      var r := t.tokens[token];
      var flagged := IsScam(r.goPlus, r.honeypot);
      if flagged == r.isScamFlagged then t
      else
        var judged := RunAll(t.(tokens := t.tokens[token := r.(isScamFlagged := flagged)]), w, order, now);
        if flagged then Demote(judged, Some({token}), now) else judged
  }

  const CONFIRMED_RECHECK_S := 30 * 86400
  const MAX_BACKOFF_S := 90 * 86400

  function Max(a: int, b: int): int { if a < b then b else a }

  function Min(a: int, b: int): int { if a < b then a else b }

  /** A month after a confirmation; otherwise the previous gap doubled, between the base and 90 days. */
  function NextIdentityCheckAt(r: TokenRow, confirmed: bool, now: int, baseS: int): int {
    if confirmed then now + CONFIRMED_RECHECK_S
    else
      var prevGap :=
        if !r.identityConfirmed && r.identityCheckedAt > 0 then Max(0, r.identityNextCheckAt - r.identityCheckedAt)
        else 0;
      now + Min(MAX_BACKOFF_S, Max(baseS, prevGap * 2))
  }

  function IdentityCheck(t: Tables, w: World, token: Id, now: int, baseS: int, confirmed: bool, foundId: Option<Str>,
                         order: seq<Id>): Tables {
    if token !in t.tokens then t
    else
      var r := t.tokens[token];
      if HasCgId(Some(r.coingeckoCoinId)) || !w.evmChain(r.chain) then
        t.(tokens := t.tokens[token := r.(identityCheckedAt := now)])
      else
        var stored := t.(tokens := t.tokens[token := r.(
          identityConfirmed := confirmed, identityCheckedAt := now,
          identityNextCheckAt := NextIdentityCheckAt(r, confirmed, now, baseS),
          coingeckoCoinId := if Known(foundId) then foundId.value else r.coingeckoCoinId)]);
        if confirmed then RunAll(stored, w, order, now) else stored
  }

  /** `answer` is the canonical contract once the cache row is written; none when there is no contract or no answer. */
  function CanonicalCheck(t: Tables, w: World, token: Id, now: int, answer: Option<Str>, order: seq<Id>): Tables {
    if || token !in t.tokens
       || !HasCgId(Some(t.tokens[token].coingeckoCoinId)) || !w.coinGeckoChain(t.tokens[token].chain) then t
    else
      var stored := t.(tokens := t.tokens[token := t.tokens[token].(canonicalCheckedAt := now)]);
      if Known(answer) then RunAll(stored, w, order, now) else stored
  }

  function FactoryCheck(t: Tables, w: World, pair: Id, now: int, factory: Option<Str>): Tables {
    if pair !in t.pairs then t
    else
      var stored := t.(pairs := t.pairs[pair := t.pairs[pair].(factoryAddress := factory, factoryCheckedAt := now)]);
      if Known(factory) then RunVerdict(stored, w, pair, now) else stored
  }

  /** A re-validation: the order its pairs come in, and the sweep's own clock. */
  datatype Revalidation = Revalidation(order: seq<Id>, sweptAt: int)

  /** Every pair re-judged, then the sweep over flagged tokens. */
  function Revalidate(t: Tables, w: World, now: int, pass: Revalidation): Tables {
    Demote(RunAll(t, w, pass.order, now), None, pass.sweptAt)
  }

  // ----- ingest --------------------------------------------------------------

  datatype TokenFacts = TokenFacts(contractAddress: Str, coingeckoCoinId: Str, decimals: int, priceUsd: real)

  datatype PoolFacts = PoolFacts(
    chain: Str, dex: Str, poolId: Str, base: TokenFacts, quote: TokenFacts, reserveUsd: real, volume24hUsd: real,
    trades24h: int, basePriceUsd: real, quotePriceUsd: real, createdAt: Option<int>, hooked: bool,
      subgraphPresent: Option<bool>)

  function EarliestDeployment(existing: Option<int>, createdAt: Option<int>): Option<int> {
    if createdAt.None? then existing
    else if existing.None? then createdAt
    else Some(Min(existing.value, createdAt.value))
  }

  /** The row is updated in place when the id is known, else created Unverified. */
  function UpsertToken(t: Tables, id: Id, chain: Str, f: TokenFacts, createdAt: Option<int>, now: int): Tables {
    var row :=
      if id in t.tokens then
        t.tokens[id].(coingeckoCoinId := f.coingeckoCoinId, decimals := f.decimals,
                      deploymentTimestamp := EarliestDeployment(t.tokens[id].deploymentTimestamp, createdAt))
      else
        TokenRow(chain, f.contractAddress, f.coingeckoCoinId, f.decimals, createdAt, false, false, None, None,
                 0, 0, 0, 0, 0, Unverified, now, Import);
    t.(tokens := t.tokens[id := row])
  }

  function UpsertPair(t: Tables, id: Id, token0: Id, token1: Id, f: PoolFacts, now: int): Tables {
    var existing :=
      if id in t.pairs then t.pairs[id]
      else
        PairRow(f.chain, f.dex, f.poolId, token0, token1, 0.0, 0.0, 0, 0.0, 0.0, 0.0, 0.0, None, 0, false, None, 0,
                Unverified, now, Import, None, 0.0, 0, None);
    t.(pairs := t.pairs[id := existing.(
      hooked := f.hooked, subgraphPresent := f.subgraphPresent, reserveUsd := f.reserveUsd, volumeUsd := f.volume24hUsd,
      txCount := f.trades24h, token0PriceDex := f.basePriceUsd, token1PriceDex := f.quotePriceUsd, lastChecked := now,
      token0PriceCg := f.base.priceUsd, token1PriceCg := f.quote.priceUsd)])
  }

  /** One pool: both tokens, the pair, then its verdict. The ids are the rows found or created. */
  function IngestPool(t: Tables, w: World, now: int, f: PoolFacts, base: Id, quote: Id, pair: Id): Tables {
    var withBase := UpsertToken(t, base, f.chain, f.base, f.createdAt, now);
    var withQuote := UpsertToken(withBase, quote, f.chain, f.quote, f.createdAt, now);
    RunVerdict(UpsertPair(withQuote, pair, base, quote, f, now), w, pair, now)
  }
}
