/** The adjudication of lib/verdict.ts and its fences. */
module Verdict {
  // With lib/phantomLiquidity.ts and lib/unseen.ts. Prices, reserves and thresholds are reals; the prose and evidence
  // of a verdict are left out.

  import opened Wrappers
  import opened JsString

  /** The id of a table row. */
  type Id = nat

  datatype Status =
    | Unverified | AutoVerified | AutoRejected | ManualVerified | ManualRejected
    | NeedsReview | Duplicate | NotCurrentlyUsable

  predicate IsVerified(s: Status) { s == ManualVerified || s == AutoVerified }

  predicate IsManual(s: Status) { s == ManualVerified || s == ManualRejected }

  datatype Reason =
    | UnseenTooLong | IntraChainImpostorLoser | LiquidityBelowHardFloor | PhantomLiquidity | DecimalsBogus
    | NotIdentified | UnidentifiedThinPool | ScamFlagged | HookedPool | SubgraphAbsent | FactoryMismatch
    | CanonicalImpostor | SiblingVouched | PriceDeviation | HighConfidence | CanonicalConfirmed | BelowAutoVerifyBar

  /** A fence's outcome and its weight in the score; a skipped fence passes with weight 0. */
  datatype Fence = Fence(ok: bool, weight: nat)

  const SKIPPED := Fence(true, 0)

  datatype VerdictConfig = VerdictConfig(
    minLiquidityUsd: real, minTxCount: int, minTurnoverRatio: real, minAgeHours: real,
    maxPriceDeviationPercent: real, minDecimals: int, maxDecimals: int,
    hardMinLiquidityUsd: real, autoVerifyConfidence: real, maxUnseenDays: real)

  datatype VerdictToken = VerdictToken(
    contractAddress: Str, coingeckoCoinId: Option<Str>, decimals: int, deploymentTimestamp: Option<int>,
    priceCg: real, priceDex: real, canonicalAddress: Option<Str>, identityConfirmed: bool)

  datatype VerdictPair = VerdictPair(
    reserveUsd: real, volumeUsd: real, txCount: int, token0: VerdictToken, token1: VerdictToken)

  datatype VerdictContext = VerdictContext(
    now: int, config: VerdictConfig, canonicalKey: Option<Str>, hasVerifiedSibling: bool,
    intraChainImpostorLoser: bool, tokenScamFlagged: bool, hookedPool: bool, subgraphAbsent: bool,
    pairFactoryAddress: Option<Str>, canonicalFactoryAddress: Option<Str>,
    firstParty: bool, reserveTrusted: bool, lastSeenAt: int)

  datatype VerdictResult = VerdictResult(verdict: Status, reason: Reason, canonicalKey: Option<Str>, confidence: real)

  // ----- the fences ----------------------------------------------------------

  function Known(a: Option<Str>): bool { a.Some? && a.value != [] }

  function AddressesEqual(a: Str, b: Str): bool {
    a != [] && b != [] && ToLower(a) == ToLower(b)
  }

  function HasCgId(id: Option<Str>): bool { id.Some? && !IsBlank(id.value) }

  function TokenIdentified(t: VerdictToken): bool { HasCgId(t.coingeckoCoinId) || t.identityConfirmed }

  function BothIdentified(pair: VerdictPair): Fence {
    Fence(TokenIdentified(pair.token0) && TokenIdentified(pair.token1), 3)
  }

  function MeetsLiquidity(reserveUsd: real, minLiquidityUsd: real): Fence {
    Fence(reserveUsd >= minLiquidityUsd, 2)
  }

  function MeetsTxCount(txCount: int, minTxCount: int): Fence {
    Fence(txCount >= minTxCount, 1)
  }

  function MeetsTurnover(volumeUsd: real, reserveUsd: real, minTurnoverRatio: real): Fence {
    if reserveUsd <= 0.0 || volumeUsd <= 0.0 then SKIPPED
    else Fence(volumeUsd / reserveUsd >= minTurnoverRatio, 1)
  }

  function MeetsAge(deployed: Option<int>, now: int, minAgeHours: real): Fence {
    if deployed.None? || deployed.value <= 0 then SKIPPED
    else Fence((now - deployed.value) as real / 3600.0 >= minAgeHours, 1)
  }

  function DecimalsLookSane(decimals: int, minDecimals: int, maxDecimals: int): Fence {
    Fence(minDecimals <= decimals <= maxDecimals, 1)
  }

  function Abs(x: real): real { if x < 0.0 then -x else x }

  function CgPriceWithinTolerance(cg: real, dex: real, maxDeviationPercent: real): Fence {
    if cg <= 0.0 || dex <= 0.0 then SKIPPED
    else Fence(Abs(dex - cg) / cg * 100.0 <= maxDeviationPercent, 2)
  }

  function AddressMatchesCanonical(t: VerdictToken): Fence {
    if !Known(t.canonicalAddress) then SKIPPED
    else Fence(AddressesEqual(t.contractAddress, t.canonicalAddress.value), 3)
  }

  function FactoryMatchesCanonical(factory: Option<Str>, canonical: Option<Str>): Fence {
    if !Known(factory) || !Known(canonical) then SKIPPED
    else Fence(AddressesEqual(factory.value, canonical.value), 2)
  }

  const PHANTOM_TURNOVER_FLOOR := 0.0001

  function IsPhantomLiquidity(reserveUsd: real, volumeUsd: real, minLiquidityUsd: real): bool {
    if reserveUsd <= 0.0 || reserveUsd < minLiquidityUsd then false
    else volumeUsd / reserveUsd < PHANTOM_TURNOVER_FLOOR
  }

  function PhantomApplies(reserveUsd: real, volumeUsd: real, minLiquidityUsd: real, firstParty: bool,
                          reserveTrusted: bool): bool {
    if firstParty || reserveTrusted then false else IsPhantomLiquidity(reserveUsd, volumeUsd, minLiquidityUsd)
  }

  function UnseenDays(lastSeenAt: int, now: int): Option<real> {
    if lastSeenAt > 0 then Some((if now < lastSeenAt then 0 else now - lastSeenAt) as real / 86400.0) else None
  }

  function IsUnseenTooLong(lastSeenAt: int, now: int, maxUnseenDays: real): bool {
    var days := UnseenDays(lastSeenAt, now);
    days.Some? && days.value > maxUnseenDays
  }

  datatype Fences = Fences(
    identified: Fence, liquidity: Fence, txCount: Fence, turnover: Fence, age0: Fence, age1: Fence,
    decimals0: Fence, decimals1: Fence, price0: Fence, price1: Fence, canon0: Fence, canon1: Fence, factory: Fence)
  {
    function All(): seq<Fence> {
      [identified, liquidity, txCount, turnover, age0, age1, decimals0, decimals1, price0, price1, canon0, canon1,
        factory]
    }
  }

  function Phantom(pair: VerdictPair, ctx: VerdictContext): bool {
    PhantomApplies(pair.reserveUsd, pair.volumeUsd, ctx.config.minLiquidityUsd, ctx.firstParty, ctx.reserveTrusted)
  }

  function EffectiveReserve(pair: VerdictPair, ctx: VerdictContext): real {
    if Phantom(pair, ctx) then 0.0 else pair.reserveUsd
  }

  function FencesOf(pair: VerdictPair, ctx: VerdictContext): Fences {
    var c := ctx.config;
    var t0, t1 := pair.token0, pair.token1;
    Fences(
      BothIdentified(pair),
      MeetsLiquidity(EffectiveReserve(pair, ctx), c.minLiquidityUsd),
      MeetsTxCount(pair.txCount, c.minTxCount),
      MeetsTurnover(pair.volumeUsd, pair.reserveUsd, c.minTurnoverRatio),
      MeetsAge(t0.deploymentTimestamp, ctx.now, c.minAgeHours),
      MeetsAge(t1.deploymentTimestamp, ctx.now, c.minAgeHours),
      DecimalsLookSane(t0.decimals, c.minDecimals, c.maxDecimals),
      DecimalsLookSane(t1.decimals, c.minDecimals, c.maxDecimals),
      CgPriceWithinTolerance(t0.priceCg, t0.priceDex, c.maxPriceDeviationPercent),
      CgPriceWithinTolerance(t1.priceCg, t1.priceDex, c.maxPriceDeviationPercent),
      AddressMatchesCanonical(t0),
      AddressMatchesCanonical(t1),
      FactoryMatchesCanonical(ctx.pairFactoryAddress, ctx.canonicalFactoryAddress))
  }

  // ----- the score -----------------------------------------------------------

  function TotalWeight(fences: seq<Fence>): nat {
    if fences == [] then 0 else TotalWeight(fences[..|fences| - 1]) + fences[|fences| - 1].weight
  }

  function PassedWeight(fences: seq<Fence>): nat {
    if fences == [] then 0
    else
      var last := fences[|fences| - 1];
      PassedWeight(fences[..|fences| - 1]) + if last.ok then last.weight else 0
  }

  /** The share of non-skipped weight that passed. */
  function Confidence(fences: seq<Fence>): real {
    if TotalWeight(fences) == 0 then 0.0 else PassedWeight(fences) as real / TotalWeight(fences) as real
  }

  method ComputeConfidence(fences: seq<Fence>) returns (confidence: real)
    ensures confidence == Confidence(fences)
  {
    var total, passed := 0, 0;
    for i := 0 to |fences|
      invariant total == TotalWeight(fences[..i]) && passed == PassedWeight(fences[..i])
    {
      assert fences[..i + 1][..i] == fences[..i];
      total := total + fences[i].weight;
      if fences[i].ok {
        passed := passed + fences[i].weight;
      }
    }
    assert fences[..|fences|] == fences;
    confidence := if total == 0 then 0.0 else passed as real / total as real;
  }

  lemma {:induction false} PassedAtMostTotal(fences: seq<Fence>)
    ensures PassedWeight(fences) <= TotalWeight(fences)
    ensures PassedWeight(fences) == TotalWeight(fences) <==>
      forall i :: 0 <= i < |fences| ==> fences[i].ok || fences[i].weight == 0
  {
    if fences != [] {
      var front := fences[..|fences| - 1];
      PassedAtMostTotal(front);
      assert fences == front + [fences[|fences| - 1]];
    }
  }

  lemma ShareRange(part: real, whole: real)
    requires 0.0 <= part <= whole && whole > 0.0
    ensures 0.0 <= part / whole <= 1.0 && (part / whole == 1.0 <==> part == whole)
  {
    assert part / whole * whole == part;
  }

  /** The score lies in [0, 1] and is 1 exactly when something was judged and nothing judged failed. */
  lemma ConfidenceRange(fences: seq<Fence>)
    ensures 0.0 <= Confidence(fences) <= 1.0
    ensures Confidence(fences) == 1.0 <==>
      TotalWeight(fences) > 0 && forall i :: 0 <= i < |fences| ==> fences[i].ok || fences[i].weight == 0
  {
    PassedAtMostTotal(fences);
    if TotalWeight(fences) > 0 {
      ShareRange(PassedWeight(fences) as real, TotalWeight(fences) as real);
    }
  }

  // ----- adjudication --------------------------------------------------------

  function EvaluatePair(pair: VerdictPair, ctx: VerdictContext): VerdictResult {
    var config := ctx.config;
    var f := FencesOf(pair, ctx);
    var confidence := if ctx.tokenScamFlagged then 0.0 else Confidence(f.All());
    var result := (verdict: Status, reason: Reason) => VerdictResult(verdict, reason, ctx.canonicalKey, confidence);
    if IsUnseenTooLong(ctx.lastSeenAt, ctx.now, config.maxUnseenDays) then result(AutoRejected, UnseenTooLong)
    else if ctx.intraChainImpostorLoser then result(NotCurrentlyUsable, IntraChainImpostorLoser)
    else if !ctx.firstParty && pair.reserveUsd < config.hardMinLiquidityUsd then
      result(AutoRejected, LiquidityBelowHardFloor)
    else if !f.decimals0.ok || !f.decimals1.ok then result(AutoRejected, DecimalsBogus)
    else if !f.identified.ok then
      if !ctx.firstParty && EffectiveReserve(pair, ctx) < config.minLiquidityUsd then
        result(AutoRejected, UnidentifiedThinPool)
      else result(NeedsReview, NotIdentified)
    else if ctx.tokenScamFlagged then result(NeedsReview, ScamFlagged)
    else if ctx.hookedPool then result(NeedsReview, HookedPool)
    else if ctx.subgraphAbsent then result(NeedsReview, SubgraphAbsent)
    else if !f.factory.ok then result(NeedsReview, FactoryMismatch)
    else if !f.canon0.ok || !f.canon1.ok then result(NeedsReview, CanonicalImpostor)
    else if ctx.hasVerifiedSibling && f.liquidity.ok then result(AutoVerified, SiblingVouched)
    else if !f.price0.ok || !f.price1.ok then result(NeedsReview, PriceDeviation)
    else if Phantom(pair, ctx) then result(NeedsReview, PhantomLiquidity)
    else if confidence >= config.autoVerifyConfidence && f.liquidity.ok && f.txCount.ok && f.age0.ok && f.age1.ok then
      result(AutoVerified, HighConfidence)
    else if confidence >= config.autoVerifyConfidence && f.canon0.weight > 0 && f.canon1.weight > 0 then
      result(AutoVerified, CanonicalConfirmed)
    else result(NeedsReview, BelowAutoVerifyBar)
  }

  /** A vouching sibling can only move a verdict to AutoVerified; nothing else changes. */
  lemma SiblingOnlyPromotes(pair: VerdictPair, ctx: VerdictContext)
    ensures var with, without := EvaluatePair(pair, ctx.(hasVerifiedSibling := true)),
      EvaluatePair(pair, ctx.(hasVerifiedSibling := false));
      && with.confidence == without.confidence && with.canonicalKey == without.canonicalKey
      && (with == without || with.verdict == AutoVerified)
  {
    var a, b := ctx.(hasVerifiedSibling := true), ctx.(hasVerifiedSibling := false);
    assert FencesOf(pair, a) == FencesOf(pair, b);
  }

  /** Stamped, and longer ago than so many days of 86400 seconds; no number of days is negative. */
  predicate LongUnseen(ctx: VerdictContext) {
    ctx.lastSeenAt > 0 &&
    (ctx.config.maxUnseenDays < 0.0 || (ctx.now - ctx.lastSeenAt) as real > ctx.config.maxUnseenDays * 86400.0)
  }

  lemma UnseenIs(ctx: VerdictContext)
    ensures IsUnseenTooLong(ctx.lastSeenAt, ctx.now, ctx.config.maxUnseenDays) <==> LongUnseen(ctx)
  {
    DaysAreSeconds((ctx.now - ctx.lastSeenAt) as real, ctx.config.maxUnseenDays);
  }

  lemma DaysAreSeconds(seconds: real, days: real)
    ensures seconds / 86400.0 > days <==> seconds > days * 86400.0
  {
  }

  /** Exactly when a pair is auto-verified: no path through the early returns bypasses a trust check. */
  lemma AutoVerifiedIff(pair: VerdictPair, ctx: VerdictContext)
    ensures var f := FencesOf(pair, ctx);
      EvaluatePair(pair, ctx).verdict == AutoVerified <==>
        && !ctx.tokenScamFlagged && !ctx.hookedPool && !ctx.subgraphAbsent && !ctx.intraChainImpostorLoser
        && !LongUnseen(ctx)
        && (ctx.firstParty || ctx.config.hardMinLiquidityUsd <= pair.reserveUsd)
        && f.identified.ok && f.decimals0.ok && f.decimals1.ok && f.factory.ok && f.canon0.ok && f.canon1.ok
        && ((ctx.hasVerifiedSibling && f.liquidity.ok) ||
            (f.price0.ok && f.price1.ok && !Phantom(pair, ctx) && Confidence(f.All()) >= ctx.config.autoVerifyConfidence
             && ((f.liquidity.ok && f.txCount.ok && f.age0.ok && f.age1.ok) ||
               (f.canon0.weight > 0 && f.canon1.weight > 0))))
  {
    UnseenIs(ctx);
  }

  /** Exactly when a pair is rejected without review. A first-party pair is never rejected for its depth, and
      a competing canonical pair makes a loser unusable rather than rejected. */
  lemma RejectedIff(pair: VerdictPair, ctx: VerdictContext)
    ensures var f := FencesOf(pair, ctx);
      EvaluatePair(pair, ctx).verdict == AutoRejected <==>
        || LongUnseen(ctx)
        || (!ctx.intraChainImpostorLoser && (!f.decimals0.ok || !f.decimals1.ok))
        || (!ctx.intraChainImpostorLoser && !ctx.firstParty &&
            (pair.reserveUsd < ctx.config.hardMinLiquidityUsd || (!f.identified.ok && !f.liquidity.ok)))
  {
    UnseenIs(ctx);
  }

  lemma UnusableIff(pair: VerdictPair, ctx: VerdictContext)
    ensures EvaluatePair(pair, ctx).verdict == NotCurrentlyUsable <==>
      ctx.intraChainImpostorLoser && !LongUnseen(ctx)
  {
    UnseenIs(ctx);
  }

  /** The persisted reason tells the verdict, so a pass may select pairs by reason alone. */
  lemma ReasonTellsVerdict(pair: VerdictPair, ctx: VerdictContext)
    ensures var r := EvaluatePair(pair, ctx);
      && (r.verdict == AutoVerified <==> r.reason in {SiblingVouched, HighConfidence, CanonicalConfirmed})
      && (r.verdict == AutoRejected <==>
        r.reason in {UnseenTooLong, LiquidityBelowHardFloor, DecimalsBogus, UnidentifiedThinPool})
      && (r.verdict == NotCurrentlyUsable <==> r.reason == IntraChainImpostorLoser)
      && (r.reason == UnseenTooLong <==> LongUnseen(ctx))
      && (r.reason == SiblingVouched ==> ctx.hasVerifiedSibling) && (r.reason == ScamFlagged ==> ctx.tokenScamFlagged)
  {
    UnseenIs(ctx);
  }

  /** The engine never writes an operator's status, and the score is 0 for a flagged pair, else the share passed. */
  lemma VerdictShape(pair: VerdictPair, ctx: VerdictContext)
    ensures var r := EvaluatePair(pair, ctx);
      && r.verdict in {AutoVerified, AutoRejected, NeedsReview, NotCurrentlyUsable}
      && 0.0 <= r.confidence <= 1.0
      && (ctx.tokenScamFlagged ==> r.confidence == 0.0 && r.verdict != AutoVerified)
      && (!ctx.tokenScamFlagged ==> r.confidence == Confidence(FencesOf(pair, ctx).All()))
      && r.canonicalKey == ctx.canonicalKey
  {
    ConfidenceRange(FencesOf(pair, ctx).All());
  }

  // ----- the order of the two tokens does not matter -------------------------

  function SwapPair(pair: VerdictPair): VerdictPair {
    pair.(token0 := pair.token1, token1 := pair.token0)
  }

  lemma {:induction false} WeightsConcat(a: seq<Fence>, b: seq<Fence>)
    ensures TotalWeight(a + b) == TotalWeight(a) + TotalWeight(b)
    ensures PassedWeight(a + b) == PassedWeight(a) + PassedWeight(b)
  {
    if b == [] {
      assert a + b == a;
    } else {
      WeightsConcat(a, b[..|b| - 1]);
      assert (a + b)[..|a + b| - 1] == a + b[..|b| - 1];
    }
  }

  lemma WeightsSwap(a: seq<Fence>, x: Fence, y: Fence, b: seq<Fence>)
    ensures TotalWeight(a + [x, y] + b) == TotalWeight(a + [y, x] + b)
    ensures PassedWeight(a + [x, y] + b) == PassedWeight(a + [y, x] + b)
  {
    WeightsConcat([x], [y]);
    WeightsConcat([y], [x]);
    assert [x] + [y] == [x, y] && [y] + [x] == [y, x];
    WeightsConcat(a, [x, y]);
    WeightsConcat(a, [y, x]);
    WeightsConcat(a + [x, y], b);
    WeightsConcat(a + [y, x], b);
  }

  /** Two neighbours change places. */
  lemma NeighboursSwap(s: seq<Fence>, i: nat)
    requires i + 1 < |s|
    ensures Confidence(s[i := s[i + 1]][i + 1 := s[i]]) == Confidence(s)
  {
    assert s == s[..i] + [s[i], s[i + 1]] + s[i + 2..];
    assert s[i := s[i + 1]][i + 1 := s[i]] == s[..i] + [s[i + 1], s[i]] + s[i + 2..];
    WeightsSwap(s[..i], s[i], s[i + 1], s[i + 2..]);
  }

  lemma SwapKeepsScore(f: Fences)
    ensures var g := f.(age0 := f.age1, age1 := f.age0, decimals0 := f.decimals1, decimals1 := f.decimals0,
                        price0 := f.price1, price1 := f.price0, canon0 := f.canon1, canon1 := f.canon0);
      Confidence(g.All()) == Confidence(f.All())
  {
    var g1 := f.(age0 := f.age1, age1 := f.age0);
    var g2 := g1.(decimals0 := f.decimals1, decimals1 := f.decimals0);
    var g3 := g2.(price0 := f.price1, price1 := f.price0);
    var g4 := g3.(canon0 := f.canon1, canon1 := f.canon0);
    NeighboursSwap(f.All(), 4);
    assert g1.All() == f.All()[4 := f.age1][5 := f.age0];
    NeighboursSwap(g1.All(), 6);
    assert g2.All() == g1.All()[6 := f.decimals1][7 := f.decimals0];
    NeighboursSwap(g2.All(), 8);
    assert g3.All() == g2.All()[8 := f.price1][9 := f.price0];
    NeighboursSwap(g3.All(), 10);
    assert g4.All() == g3.All()[10 := f.canon1][11 := f.canon0];
  }

  /** Listing the tokens the other way round changes neither the verdict, its reason nor its score. */
  lemma TokenOrderIrrelevant(pair: VerdictPair, ctx: VerdictContext)
    ensures EvaluatePair(SwapPair(pair), ctx) == EvaluatePair(pair, ctx)
  {
    var f, g := FencesOf(pair, ctx), FencesOf(SwapPair(pair), ctx);
    SwapKeepsScore(f);
    assert g == f.(age0 := f.age1, age1 := f.age0, decimals0 := f.decimals1, decimals1 := f.decimals0,
                   price0 := f.price1, price1 := f.price0, canon0 := f.canon1, canon1 := f.canon0);
  }

  // ----- canonical keys ------------------------------------------------------

  const KEY_SEPARATOR: CodeUnit := 58

  function NormaliseCgId(id: Str): Str { ToLower(Trim(id)) }

  /** The smaller coin id, a colon, the larger; none when either is missing. */
  function CanonicalKey(id0: Str, id1: Str): Option<Str> {
    var a, b := NormaliseCgId(id0), NormaliseCgId(id1);
    if a == [] || b == [] then None
    else Some(JoinSorted(a, b, KEY_SEPARATOR))
  }

  /** A pair has a key exactly when each token has a coin id, in the sense of the identity fence. */
  lemma KeyExistsIff(id0: Str, id1: Str)
    ensures CanonicalKey(id0, id1).Some? <==> HasCgId(Some(id0)) && HasCgId(Some(id1))
  {
    TrimEmpty(id0);
    TrimEmpty(id1);
  }

  /** The key ignores the order of the tokens. */
  lemma CanonicalKeyUnordered(id0: Str, id1: Str)
    ensures CanonicalKey(id0, id1) == CanonicalKey(id1, id0)
  {
    JoinSortedUnordered(NormaliseCgId(id0), NormaliseCgId(id1), KEY_SEPARATOR);
  }

  /** Two pairs of coin ids without a colon share a key exactly when they are the same unordered pair. */
  lemma CanonicalKeyDecides(id0: Str, id1: Str, id2: Str, id3: Str)
    requires forall id :: id in {id0, id1, id2, id3} ==> KEY_SEPARATOR !in NormaliseCgId(id)
    requires CanonicalKey(id0, id1).Some?
    ensures CanonicalKey(id0, id1) == CanonicalKey(id2, id3) <==>
      (NormaliseCgId(id0) == NormaliseCgId(id2) && NormaliseCgId(id1) == NormaliseCgId(id3)) ||
      (NormaliseCgId(id0) == NormaliseCgId(id3) && NormaliseCgId(id1) == NormaliseCgId(id2))
  {
    JoinSortedDecides(NormaliseCgId(id0), NormaliseCgId(id1), NormaliseCgId(id2), NormaliseCgId(id3), KEY_SEPARATOR);
  }
}
