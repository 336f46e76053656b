/** The pair and token tables and, as functions of them, the writes of lib/statusWrite.ts,
    lib/tokenStatus.ts and lib/verdictRunner.ts. `Database` holds the operations themselves. */
module Tables {
  import opened Wrappers
  import opened JsString
  import opened Verdict

  datatype VerificationMethod = Import | Manual | Cascade | Auto

  /** The cached GoPlus answer, taxes as finite numbers when they parse. */
  datatype Security = Security(isHoneypot: bool, cannotSellAll: bool, selfdestruct: bool, buyTax: Option<real>,
    sellTax: Option<real>)

  datatype TokenRow = TokenRow(
    chain: Str, contractAddress: Str, coingeckoCoinId: Str, decimals: int, deploymentTimestamp: Option<int>,
    identityConfirmed: bool, isScamFlagged: bool, goPlus: Option<Security>, honeypot: Option<bool>,
    scamCheckedAt: int, identityCheckedAt: int, identityNextCheckAt: int, canonicalCheckedAt: int,
    securityCheckedAt: int, status: Status, statusChangedAt: int, verificationMethod: VerificationMethod)

  datatype PairRow = PairRow(
    chain: Str, dex: Str, contractAddress: Str, token0: Id, token1: Id, reserveUsd: real, volumeUsd: real, txCount: int,
    token0PriceCg: real, token0PriceDex: real, token1PriceCg: real, token1PriceDex: real,
    factoryAddress: Option<Str>, factoryCheckedAt: int, hooked: bool, subgraphPresent: Option<bool>, lastChecked: int,
    status: Status, statusChangedAt: int, verificationMethod: VerificationMethod,
    canonicalKey: Option<Str>, confidence: real, verdictAt: int, reason: Option<Reason>)

  datatype Tables = Tables(pairs: map<Id, PairRow>, tokens: map<Id, TokenRow>)

  /** What the verdict reads besides the two tables: thresholds, caches, static lists and live lookups. */
  datatype World = World(
    config: (Str, Str) -> VerdictConfig,
    cachedCanonical: (Str, Str) -> Option<Str>,
    liveCanonical: (Str, Str) -> Option<Str>,
    canonicalFactory: (Str, Str) -> Option<Str>,
    firstParty: (Str, Str) -> bool,
    reserveTrusted: Str -> bool,
    evmChain: Str -> bool,
    coinGeckoChain: Str -> bool)

  // ----- status writes -------------------------------------------------------

  type TokenFilter = (Id, TokenRow) -> bool

  /** One row's status write: the change stamp moves only when the status does. */
  function WithStatus(r: TokenRow, status: Status, now: int): TokenRow {
    r.(status := status, statusChangedAt := if r.status == status then r.statusChangedAt else now,
       verificationMethod := Auto)
  }

  /** The row-by-row status write over every matching row. */
  function SetWhere(tokens: map<Id, TokenRow>, where: TokenFilter, status: Status, now: int): map<Id, TokenRow> {
    map id | id in tokens :: if where(id, tokens[id]) then WithStatus(tokens[id], status, now) else tokens[id]
  }

  function Promotable(ids: set<Id>): TokenFilter {
    (id: Id, r: TokenRow) => id in ids && !IsManual(r.status) && !r.isScamFlagged
  }

  function FlaggedVerified(scope: Option<set<Id>>): TokenFilter {
    (id: Id, r: TokenRow) => r.isScamFlagged && r.status == AutoVerified && (scope.Some? ==> id in scope.value)
  }

  function Promote(t: Tables, ids: set<Id>, now: int): Tables {
    t.(tokens := SetWhere(t.tokens, Promotable(ids), AutoVerified, now))
  }

  function Demote(t: Tables, scope: Option<set<Id>>, now: int): Tables {
    t.(tokens := SetWhere(t.tokens, FlaggedVerified(scope), NeedsReview, now))
  }

  // ----- the verdict context -------------------------------------------------

  /** A pair row with both its token rows; the foreign keys make every stored pair loadable. */
  predicate Loadable(t: Tables, id: Id) {
    id in t.pairs && t.pairs[id].token0 in t.tokens && t.pairs[id].token1 in t.tokens
  }

  function AddressOf(t: Tables, token: Id): Str {
    if token in t.tokens then t.tokens[token].contractAddress else []
  }

  function KeyOf(t: Tables, id: Id): Option<Str>
    requires Loadable(t, id)
  {
    var p := t.pairs[id];
    CanonicalKey(t.tokens[p.token0].coingeckoCoinId, t.tokens[p.token1].coingeckoCoinId)
  }

  predicate SameSource(p: PairRow, o: PairRow) {
    p.chain == o.chain && p.dex == o.dex
  }

  /** A verified pair with this key on another source. */
  predicate HasVerifiedSibling(t: Tables, id: Id, key: Option<Str>)
    requires id in t.pairs
  {
    key.Some? &&
    exists o :: (
      && o in t.pairs && o != id && t.pairs[o].canonicalKey == key
      && !SameSource(t.pairs[id], t.pairs[o]) && IsVerified(t.pairs[o].status))
  }

  function TokenSet(x: Str, y: Str): Str {
    JoinSorted(ToLower(x), ToLower(y), 124)
  }

  function TokenSetOf(t: Tables, p: PairRow): Str {
    TokenSet(AddressOf(t, p.token0), AddressOf(t, p.token1))
  }

  /** Another pair with this key on the same source over different contracts. */
  predicate HasIntraConflict(t: Tables, id: Id, key: Option<Str>)
    requires id in t.pairs
  {
    key.Some? &&
    exists o :: (
      && o in t.pairs && o != id && t.pairs[o].canonicalKey == key
      && SameSource(t.pairs[id], t.pairs[o]) && TokenSetOf(t, t.pairs[id]) != TokenSetOf(t, t.pairs[o]))
  }

  /** The cached canonical contract, or on a conflict the live one when the cache has none. */
  function CanonicalAddress(w: World, cgId: Str, chain: Str, conflict: bool): Option<Str> {
    if cgId == [] then None
    else
      var cached := w.cachedCanonical(cgId, chain);
      if conflict && !Known(cached) then w.liveCanonical(cgId, chain) else cached
  }

  predicate AddrEq(a: Str, b: Option<Str>) {
    a != [] && Known(b) && ToLower(a) == ToLower(b.value)
  }

  function TokenInput(r: TokenRow, priceCg: real, priceDex: real, canonical: Option<Str>): VerdictToken {
    VerdictToken(r.contractAddress, Some(r.coingeckoCoinId), r.decimals, r.deploymentTimestamp, priceCg, priceDex,
      canonical, r.identityConfirmed)
  }

  /** What `buildVerdictContext` gathers for a pair. */
  function ContextOf(t: Tables, w: World, id: Id, now: int): (VerdictPair, VerdictContext)
    requires Loadable(t, id)
  {
    var p := t.pairs[id];
    var t0, t1 := t.tokens[p.token0], t.tokens[p.token1];
    var key := KeyOf(t, id);
    var conflict := HasIntraConflict(t, id, key);
    var canonical0 := CanonicalAddress(w, t0.coingeckoCoinId, p.chain, conflict);
    var canonical1 := CanonicalAddress(w, t1.coingeckoCoinId, p.chain, conflict);
    var loser := conflict && Known(canonical0) && Known(canonical1)
      && !(AddrEq(t0.contractAddress, canonical0) && AddrEq(t1.contractAddress, canonical1));
    (VerdictPair(p.reserveUsd, p.volumeUsd, p.txCount,
       TokenInput(t0, p.token0PriceCg, p.token0PriceDex, canonical0),
       TokenInput(t1, p.token1PriceCg, p.token1PriceDex, canonical1)),
     VerdictContext(now, w.config(p.chain, p.dex), key, HasVerifiedSibling(t, id, key), loser,
       t0.isScamFlagged || t1.isScamFlagged, p.hooked, p.subgraphPresent == Some(false),
       p.factoryAddress, w.canonicalFactory(p.chain, p.dex),
       w.firstParty(p.chain, t0.contractAddress) || w.firstParty(p.chain, t1.contractAddress),
       w.reserveTrusted(p.chain), p.lastChecked))
  }

  function Judge(t: Tables, w: World, id: Id, now: int): VerdictResult
    requires Loadable(t, id)
  {
    var (input, context) := ContextOf(t, w, id, now);
    EvaluatePair(input, context)
  }

  // ----- running a verdict ---------------------------------------------------

  function JudgedRow(p: PairRow, r: VerdictResult, now: int): PairRow {
    p.(status := r.verdict, statusChangedAt := if p.status == r.verdict then p.statusChangedAt else now,
       verificationMethod := Auto, canonicalKey := r.canonicalKey, confidence := r.confidence, verdictAt := now,
       reason := Some(r.reason))
  }

  /** Whether the engine may write the pair: it exists and no operator has set it. */
  predicate Judgeable(t: Tables, id: Id) {
    Loadable(t, id) && !IsManual(t.pairs[id].status)
  }

  /** The tables after `runVerdictForPair`. */
  function RunVerdict(t: Tables, w: World, id: Id, now: int): Tables {
    if !Judgeable(t, id) then t
    else
      var p := t.pairs[id];
      var r := Judge(t, w, id, now);
      var judged := t.(pairs := t.pairs[id := JudgedRow(p, r, now)]);
      if IsVerified(r.verdict) then Promote(judged, {p.token0, p.token1}, now) else judged
  }

  /** The tables after running the verdict for each listed pair in turn. */
  function RunAll(t: Tables, w: World, ids: seq<Id>, now: int): Tables {
    if ids == [] then t else RunVerdict(RunAll(t, w, ids[..|ids| - 1], now), w, ids[|ids| - 1], now)
  }

  // ----- what a verdict run leaves alone -------------------------------------

  predicate SamePairInputs(p: PairRow, q: PairRow) {
    q == p.(status := q.status, statusChangedAt := q.statusChangedAt, verificationMethod := q.verificationMethod,
            canonicalKey := q.canonicalKey, confidence := q.confidence, verdictAt := q.verdictAt, reason := q.reason)
  }

  predicate SameTokenInputs(r: TokenRow, s: TokenRow) {
    s == r.(status := s.status, statusChangedAt := s.statusChangedAt, verificationMethod := s.verificationMethod)
  }

  /** The same rows with the same inputs; only verdict and status columns may differ. */
  ghost predicate SameInputs(t: Tables, u: Tables) {
    && t.pairs.Keys == u.pairs.Keys && t.tokens.Keys == u.tokens.Keys
    && (forall id :: id in t.pairs ==> SamePairInputs(t.pairs[id], u.pairs[id]))
    && (forall id :: id in t.tokens ==> SameTokenInputs(t.tokens[id], u.tokens[id]))
  }

  lemma SameInputsTransitive(t: Tables, u: Tables, v: Tables)
    requires SameInputs(t, u) && SameInputs(u, v)
    ensures SameInputs(t, v)
  {
    forall id | id in t.pairs ensures SamePairInputs(t.pairs[id], v.pairs[id]) {
      assert SamePairInputs(t.pairs[id], u.pairs[id]) && SamePairInputs(u.pairs[id], v.pairs[id]);
    }
    forall id | id in t.tokens ensures SameTokenInputs(t.tokens[id], v.tokens[id]) {
      assert SameTokenInputs(t.tokens[id], u.tokens[id]) && SameTokenInputs(u.tokens[id], v.tokens[id]);
    }
  }

  lemma PromoteKeepsInputs(t: Tables, ids: set<Id>, now: int)
    ensures SameInputs(t, Promote(t, ids, now))
  {
    forall id | id in t.tokens ensures SameTokenInputs(t.tokens[id], Promote(t, ids, now).tokens[id]) {
      assert SameTokenInputs(t.tokens[id], WithStatus(t.tokens[id], AutoVerified, now));
    }
  }

  lemma JudgedKeepsInputs(t: Tables, id: Id, r: VerdictResult, now: int)
    requires id in t.pairs
    ensures SameInputs(t, t.(pairs := t.pairs[id := JudgedRow(t.pairs[id], r, now)]))
  {
    assert SamePairInputs(t.pairs[id], JudgedRow(t.pairs[id], r, now));
  }

  lemma RunVerdictKeepsInputs(t: Tables, w: World, id: Id, now: int)
    ensures SameInputs(t, RunVerdict(t, w, id, now))
  {
    if Judgeable(t, id) {
      var p, r := t.pairs[id], Judge(t, w, id, now);
      var judged := t.(pairs := t.pairs[id := JudgedRow(p, r, now)]);
      JudgedKeepsInputs(t, id, r, now);
      PromoteKeepsInputs(judged, {p.token0, p.token1}, now);
      SameInputsTransitive(t, judged, Promote(judged, {p.token0, p.token1}, now));
    }
  }

  lemma {:induction false} RunAllKeepsInputs(t: Tables, w: World, ids: seq<Id>, now: int)
    ensures SameInputs(t, RunAll(t, w, ids, now))
  {
    if ids != [] {
      var before := RunAll(t, w, ids[..|ids| - 1], now);
      RunAllKeepsInputs(t, w, ids[..|ids| - 1], now);
      RunVerdictKeepsInputs(before, w, ids[|ids| - 1], now);
      SameInputsTransitive(t, before, RunAll(t, w, ids, now));
    }
  }

  lemma DemoteKeepsInputs(t: Tables, scope: Option<set<Id>>, now: int)
    ensures SameInputs(t, Demote(t, scope, now))
  {
    forall id | id in t.tokens ensures SameTokenInputs(t.tokens[id], Demote(t, scope, now).tokens[id]) {
      assert SameTokenInputs(t.tokens[id], WithStatus(t.tokens[id], NeedsReview, now));
    }
  }
}
