/** The checklist's own score in lib/fences.ts. */
module Fences {
  // The second implementation of the score, which explains a verdict on the review page, and where it agrees with
  // the engine's.

  import opened Wrappers
  import opened JsString
  import opened Verdict

  datatype Key =
    | IdentifiedKey | Canonical0Key | Canonical1Key | FactoryKey | SeenKey | LiquidityKey | TxCountKey | TurnoverKey
    | Age0Key | Age1Key | Decimals0Key | Decimals1Key | Price0Key | Price1Key

  /** One row of the checklist; an `ok` of None is shown as skipped. */
  datatype UiFence = UiFence(key: Key, ok: Option<bool>, weight: nat, hard: bool, hardFail: bool)

  datatype UiToken = UiToken(
    contractAddress: Str, coingeckoCoinId: Option<Str>, identityConfirmed: bool, canonicalAddress: Option<Str>,
    decimals: int, deploymentTimestamp: Option<int>, priceCg: Option<real>, priceDex: Option<real>)

  datatype UiArgs = UiArgs(
    reserveUsd: real, volumeUsd: real, txCount: int, token0: UiToken, token1: UiToken,
    pairFactoryAddress: Option<Str>, canonicalFactoryAddress: Option<Str>, config: VerdictConfig,
    firstParty: bool, reserveTrusted: bool, lastSeenAt: int, now: int)

  // ----- operations ----------------------------------------------------------

  function UiKnowsId(t: UiToken): bool { Known(t.coingeckoCoinId) || t.identityConfirmed }

  function CanonicalOk(t: UiToken): Option<bool> {
    if !Known(t.canonicalAddress) then None else Some(AddressesEqual(t.contractAddress, t.canonicalAddress.value))
  }

  function AgeRow(key: Key, t: UiToken, now: int, minAgeHours: real): UiFence {
    if t.deploymentTimestamp.Some? && t.deploymentTimestamp.value > 0 then
      UiFence(key, Some((now - t.deploymentTimestamp.value) as real / 3600.0 >= minAgeHours), 1, false, false)
    else UiFence(key, None, 0, false, false)
  }

  function DecimalsRow(key: Key, t: UiToken, c: VerdictConfig): UiFence {
    UiFence(key, Some(t.decimals >= c.minDecimals && t.decimals <= c.maxDecimals), 1, true, false)
  }

  function PriceRow(key: Key, t: UiToken, maxDeviationPercent: real): UiFence {
    if t.priceCg.Some? && t.priceDex.Some? && t.priceCg.value > 0.0 && t.priceDex.value > 0.0 then
      UiFence(key, Some(Abs(t.priceDex.value - t.priceCg.value) / t.priceCg.value * 100.0 <= maxDeviationPercent), 2,
        false, false)
    else UiFence(key, None, 0, false, false)
  }

  function FactoryRow(pf: Option<Str>, cf: Option<Str>): UiFence {
    UiFence(
      FactoryKey, if !Known(pf) || !Known(cf) then None else Some(AddressesEqual(pf.value, cf.value)), 2, false, false)
  }

  function SeenRow(lastSeenAt: int, now: int, maxUnseenDays: real): UiFence {
    var days := UnseenDays(lastSeenAt, now);
    UiFence(SeenKey, if days.None? then None else Some(days.value <= maxUnseenDays), 0, true, false)
  }

  function TurnoverRow(volumeUsd: real, reserveUsd: real, minTurnoverRatio: real): UiFence {
    if reserveUsd > 0.0 && volumeUsd > 0.0 then
      UiFence(TurnoverKey, Some(volumeUsd / reserveUsd >= minTurnoverRatio), 1, false, false)
    else UiFence(TurnoverKey, None, 0, false, false)
  }

  function IdentityRow(t0: UiToken, t1: UiToken): UiFence {
    var idCount := (if UiKnowsId(t0) then 1 else 0) + (if UiKnowsId(t1) then 1 else 0);
    UiFence(IdentifiedKey, Some(idCount == 2), 3, false, false)
  }

  function CanonicalRow(key: Key, t: UiToken): UiFence {
    UiFence(key, CanonicalOk(t), 3, false, false)
  }

  function LiquidityRow(args: UiArgs): UiFence {
    var c := args.config;
    var phantom :=
      PhantomApplies(args.reserveUsd, args.volumeUsd, c.minLiquidityUsd, args.firstParty, args.reserveTrusted);
    var effectiveReserve := if phantom then 0.0 else args.reserveUsd;
    UiFence(LiquidityKey, Some(effectiveReserve >= c.minLiquidityUsd), 2, false,
      !args.firstParty && args.reserveUsd < c.hardMinLiquidityUsd)
  }

  function TxCountRow(args: UiArgs): UiFence {
    UiFence(TxCountKey, Some(args.txCount >= args.config.minTxCount), 1, false, false)
  }

  method DeriveFences(args: UiArgs) returns (rows: seq<UiFence>)
    ensures |rows| == 14 && Scored(rows) == MirroredFences(args)
    ensures forall i :: 0 <= i < 14 && i != 4 ==> (rows[i].ok == None <==> MirroredFences(args)[i].weight == 0)
    ensures KeysOf(rows) == ROW_ORDER
    ensures rows[4].weight == 0 && (rows[4].ok == None <==> args.lastSeenAt <= 0)
    ensures rows[4].ok == Some(false) <==> SeenTooLongAgo(args)
    ensures forall i :: 0 <= i < 14 ==> (rows[i].hard <==> i in {4, 10, 11})
    ensures forall i :: 0 <= i < 14 ==> (rows[i].hardFail <==> i == 5 && TooThin(args))
  {
    rows := [IdentityRow(args.token0, args.token1)];
    rows := rows + [CanonicalRow(Canonical0Key, args.token0), CanonicalRow(Canonical1Key, args.token1)];
    rows := rows + [FactoryRow(args.pairFactoryAddress, args.canonicalFactoryAddress)];
    rows := PushActivity(rows, args);
    rows := rows + [PriceRow(Price0Key, args.token0, args.config.maxPriceDeviationPercent)];
    rows := rows + [PriceRow(Price1Key, args.token1, args.config.maxPriceDeviationPercent)];
    RowsMirror(args, rows);
    SeenIs(args);
    RowsInOrder(args, rows);
    HardRows(args, rows);
    HardFailure(args, rows);
  }

  const ROW_ORDER: seq<Key> :=
    [IdentifiedKey, Canonical0Key, Canonical1Key, FactoryKey, SeenKey, LiquidityKey, TxCountKey, TurnoverKey,
     Age0Key, Age1Key, Decimals0Key, Decimals1Key, Price0Key, Price1Key]

  predicate TooThin(args: UiArgs) {
    !args.firstParty && args.reserveUsd < args.config.hardMinLiquidityUsd
  }

  function KeysOf(rows: seq<UiFence>): seq<Key> {
    seq(|rows|, i requires 0 <= i < |rows| => rows[i].key)
  }

  /** A stamp that is older than so many days of 86400 seconds. */
  predicate SeenTooLongAgo(args: UiArgs) {
    args.lastSeenAt > 0 &&
    (args.config.maxUnseenDays < 0.0 || (args.now - args.lastSeenAt) as real > args.config.maxUnseenDays * 86400.0)
  }

  lemma SeenIs(args: UiArgs)
    ensures var row := SeenRow(args.lastSeenAt, args.now, args.config.maxUnseenDays);
      (row.ok == None <==> args.lastSeenAt <= 0) && (row.ok == Some(false) <==> SeenTooLongAgo(args))
  {
    DaysAreSeconds((args.now - args.lastSeenAt) as real, args.config.maxUnseenDays);
  }

  method PushActivity(before: seq<UiFence>, args: UiArgs) returns (rows: seq<UiFence>)
    requires |before| == 4
    ensures |rows| == 12 && rows[..4] == before
    ensures rows[4] == SeenRow(args.lastSeenAt, args.now, args.config.maxUnseenDays)
    ensures rows[5] == LiquidityRow(args) && rows[6] == TxCountRow(args)
    ensures rows[7] == TurnoverRow(args.volumeUsd, args.reserveUsd, args.config.minTurnoverRatio)
    ensures rows[8] == AgeRow(Age0Key, args.token0, args.now, args.config.minAgeHours)
    ensures rows[9] == AgeRow(Age1Key, args.token1, args.now, args.config.minAgeHours)
    ensures rows[10] == DecimalsRow(Decimals0Key, args.token0, args.config)
    ensures rows[11] == DecimalsRow(Decimals1Key, args.token1, args.config)
  {
    var c := args.config;
    rows := before + [SeenRow(args.lastSeenAt, args.now, c.maxUnseenDays)];
    rows := rows + [LiquidityRow(args)];
    rows := rows + [TxCountRow(args)];
    rows := rows + [TurnoverRow(args.volumeUsd, args.reserveUsd, c.minTurnoverRatio)];
    rows := rows +
      [AgeRow(Age0Key, args.token0, args.now, c.minAgeHours), AgeRow(Age1Key, args.token1, args.now, c.minAgeHours)];
    rows := rows + [DecimalsRow(Decimals0Key, args.token0, c), DecimalsRow(Decimals1Key, args.token1, c)];
  }

  lemma RowsInOrder(args: UiArgs, rows: seq<UiFence>)
    requires RowsOf(args, rows) && rows[4] == SeenRow(args.lastSeenAt, args.now, args.config.maxUnseenDays)
    ensures KeysOf(rows) == ROW_ORDER
  {
  }

  lemma HardRows(args: UiArgs, rows: seq<UiFence>)
    requires RowsOf(args, rows) && rows[4] == SeenRow(args.lastSeenAt, args.now, args.config.maxUnseenDays)
    ensures forall i :: 0 <= i < 14 ==> (rows[i].hard <==> i in {4, 10, 11})
  {
  }

  lemma HardFailure(args: UiArgs, rows: seq<UiFence>)
    requires RowsOf(args, rows) && rows[4] == SeenRow(args.lastSeenAt, args.now, args.config.maxUnseenDays)
    ensures forall i :: 0 <= i < 14 ==> (rows[i].hardFail <==> i == 5 && TooThin(args))
  {
  }

  predicate RowsOf(args: UiArgs, rows: seq<UiFence>) {
    var t0, t1, c := args.token0, args.token1, args.config;
    && |rows| == 14
    && rows[0] == IdentityRow(t0, t1)
    && rows[1] == CanonicalRow(Canonical0Key, t0) && rows[2] == CanonicalRow(Canonical1Key, t1)
    && rows[3] == FactoryRow(args.pairFactoryAddress, args.canonicalFactoryAddress)
    && rows[4].weight == 0
    && rows[5] == LiquidityRow(args) && rows[6] == TxCountRow(args)
    && rows[7] == TurnoverRow(args.volumeUsd, args.reserveUsd, c.minTurnoverRatio)
    && rows[8] == AgeRow(Age0Key, t0, args.now, c.minAgeHours)
    && rows[9] == AgeRow(Age1Key, t1, args.now, c.minAgeHours)
    && rows[10] == DecimalsRow(Decimals0Key, t0, c) && rows[11] == DecimalsRow(Decimals1Key, t1, c)
    && rows[12] == PriceRow(Price0Key, t0, c.maxPriceDeviationPercent)
    && rows[13] == PriceRow(Price1Key, t1, c.maxPriceDeviationPercent)
  }

  /** Row by row the checklist shows the engine's fences. */
  lemma RowsMirror(args: UiArgs, rows: seq<UiFence>)
    requires RowsOf(args, rows)
    ensures Scored(rows) == MirroredFences(args)
    ensures forall i :: 0 <= i < 14 && i != 4 ==> (rows[i].ok == None <==> MirroredFences(args)[i].weight == 0)
  {
    var c, m := args.config, MirroredFences(args);
    SharedRows(args);
    TokenRows(args.token0, args.now, c, Canonical0Key, Age0Key, Decimals0Key, Price0Key);
    TokenRows(args.token1, args.now, c, Canonical1Key, Age1Key, Decimals1Key, Price1Key);
    assert Mirrors(rows[0], m[0]) && Mirrors(rows[1], m[1]) && Mirrors(rows[2], m[2]) && Mirrors(rows[3], m[3]);
    assert Mirrors(rows[5], m[5]) && Mirrors(rows[6], m[6]) && Mirrors(rows[7], m[7]) && Mirrors(rows[8], m[8]) &&
      Mirrors(rows[9], m[9]);
    assert Mirrors(rows[10], m[10]) && Mirrors(rows[11], m[11]) && Mirrors(rows[12], m[12]) && Mirrors(rows[13], m[13]);
    RowByRow(rows, m);
  }

  lemma RowByRow(rows: seq<UiFence>, m: seq<Fence>)
    requires |rows| == |m| == 14 && rows[4].weight == 0 && m[4] == SKIPPED
    requires Mirrors(rows[0], m[0]) && Mirrors(rows[1], m[1]) && Mirrors(rows[2], m[2]) && Mirrors(rows[3], m[3])
    requires Mirrors(rows[5], m[5]) && Mirrors(rows[6], m[6]) && Mirrors(rows[7], m[7]) && Mirrors(rows[8], m[8]) &&
      Mirrors(rows[9], m[9])
    requires Mirrors(rows[10], m[10]) && Mirrors(rows[11], m[11]) && Mirrors(rows[12], m[12]) &&
      Mirrors(rows[13], m[13])
    ensures Scored(rows) == m && forall i :: 0 <= i < 14 && i != 4 ==> (rows[i].ok == None <==> m[i].weight == 0)
  {
    assert forall i :: 0 <= i < 14 && i != 4 ==> Mirrors(rows[i], m[i]);
    assert AsFence(rows[4]) == m[4];
  }

  lemma SharedRows(args: UiArgs)
    ensures var f := FencesOf(EnginePair(args), SomeContext(args));
      && Mirrors(FactoryRow(args.pairFactoryAddress, args.canonicalFactoryAddress), f.factory)
      && Mirrors(LiquidityRow(args), f.liquidity) && Mirrors(TxCountRow(args), f.txCount)
      && Mirrors(TurnoverRow(args.volumeUsd, args.reserveUsd, args.config.minTurnoverRatio), f.turnover)
  {
  }

  lemma TokenRows(t: UiToken, now: int, c: VerdictConfig, canonical: Key, age: Key, decimals: Key, price: Key)
    ensures Mirrors(CanonicalRow(canonical, t), AddressMatchesCanonical(EngineToken(t)))
    ensures Mirrors(AgeRow(age, t, now, c.minAgeHours), MeetsAge(t.deploymentTimestamp, now, c.minAgeHours))
    ensures Mirrors(DecimalsRow(decimals, t, c), DecimalsLookSane(t.decimals, c.minDecimals, c.maxDecimals))
    ensures Mirrors(PriceRow(price, t, c.maxPriceDeviationPercent),
      CgPriceWithinTolerance(EngineToken(t).priceCg, EngineToken(t).priceDex, c.maxPriceDeviationPercent))
  {
  }

  function UiTotal(rows: seq<UiFence>): nat {
    if rows == [] then 0
    else UiTotal(rows[..|rows| - 1]) + if rows[|rows| - 1].ok.Some? then rows[|rows| - 1].weight else 0
  }

  function UiPassed(rows: seq<UiFence>): nat {
    if rows == [] then 0
    else UiPassed(rows[..|rows| - 1]) + if rows[|rows| - 1].ok == Some(true) then rows[|rows| - 1].weight else 0
  }

  /** The share of non-skipped weight that passed, over checklist rows. */
  function UiConfidence(rows: seq<UiFence>): real {
    if UiTotal(rows) == 0 then 0.0 else UiPassed(rows) as real / UiTotal(rows) as real
  }

  method FenceConfidence(rows: seq<UiFence>) returns (confidence: real)
    ensures confidence == UiConfidence(rows)
  {
    var total, passed := 0, 0;
    for i := 0 to |rows|
      invariant total == UiTotal(rows[..i]) && passed == UiPassed(rows[..i])
    {
      assert rows[..i + 1][..i] == rows[..i];
      if rows[i].ok.Some? {
        total := total + rows[i].weight;
        if rows[i].ok.value {
          passed := passed + rows[i].weight;
        }
      }
    }
    assert rows[..|rows|] == rows;
    confidence := if total == 0 then 0.0 else passed as real / total as real;
  }

  // ----- the mirror ----------------------------------------------------------

  /** A row in the engine's terms. */
  function AsFence(row: UiFence): Fence {
    if row.ok.None? || row.weight == 0 then SKIPPED else Fence(row.ok.value, row.weight)
  }

  /** The row shows the fence: skipped exactly when the engine gives it no weight. */
  predicate Mirrors(row: UiFence, fence: Fence) {
    AsFence(row) == fence && (row.ok.None? <==> fence.weight == 0)
  }

  function Scored(rows: seq<UiFence>): seq<Fence> {
    seq(|rows|, i requires 0 <= i < |rows| => AsFence(rows[i]))
  }

  function EngineToken(t: UiToken): VerdictToken {
    VerdictToken(t.contractAddress, t.coingeckoCoinId, t.decimals, t.deploymentTimestamp,
      if t.priceCg.Some? then t.priceCg.value else 0.0, if t.priceDex.Some? then t.priceDex.value else 0.0,
      t.canonicalAddress, t.identityConfirmed)
  }

  /** The engine's input for the same row of data. */
  function EnginePair(args: UiArgs): VerdictPair {
    VerdictPair(args.reserveUsd, args.volumeUsd, args.txCount, EngineToken(args.token0), EngineToken(args.token1))
  }

  /** The engine contexts that describe the same pair at the same moment. */
  predicate SameContext(args: UiArgs, ctx: VerdictContext) {
    && ctx.now == args.now && ctx.config == args.config && ctx.lastSeenAt == args.lastSeenAt
    && ctx.pairFactoryAddress == args.pairFactoryAddress && ctx.canonicalFactoryAddress == args.canonicalFactoryAddress
    && ctx.firstParty == args.firstParty && ctx.reserveTrusted == args.reserveTrusted
  }

  function SomeContext(args: UiArgs): (ctx: VerdictContext)
    ensures SameContext(args, ctx)
  {
    VerdictContext(args.now, args.config, None, false, false, false, false, false,
      args.pairFactoryAddress, args.canonicalFactoryAddress, args.firstParty, args.reserveTrusted, args.lastSeenAt)
  }

  /** The engine's fences in checklist order; only the identity row has its own rule. */
  function MirroredFences(args: UiArgs): seq<Fence> {
    var f := FencesOf(EnginePair(args), SomeContext(args));
    [Fence(UiKnowsId(args.token0) && UiKnowsId(args.token1), 3), f.canon0, f.canon1, f.factory, SKIPPED,
     f.liquidity, f.txCount, f.turnover, f.age0, f.age1, f.decimals0, f.decimals1, f.price0, f.price1]
  }

  /** A token whose only identity is a coin id of white space, which the two implementations judge differently. */
  predicate BlankIdOnly(t: UiToken) {
    Known(t.coingeckoCoinId) && IsBlank(t.coingeckoCoinId.value) && !t.identityConfirmed
  }

  /** A skipped or weightless row counts for nothing, so the rows score as the fences they show. */
  lemma {:induction false} RowsScoreAsFences(rows: seq<UiFence>)
    ensures UiTotal(rows) == TotalWeight(Scored(rows)) && UiPassed(rows) == PassedWeight(Scored(rows))
  {
    if rows != [] {
      var front := rows[..|rows| - 1];
      RowsScoreAsFences(front);
      assert Scored(rows)[..|rows| - 1] == Scored(front);
    }
  }

  /** The engine's score with its identity fence replaced by the checklist's. */
  lemma MirroredScore(args: UiArgs, ctx: VerdictContext)
    requires SameContext(args, ctx)
    ensures var f := FencesOf(EnginePair(args), ctx);
      var g := f.(identified := MirroredFences(args)[0]);
      && TotalWeight(MirroredFences(args)) == TotalWeight(g.All())
      && PassedWeight(MirroredFences(args)) == PassedWeight(g.All())
  {
    var f := FencesOf(EnginePair(args), ctx);
    assert f == FencesOf(EnginePair(args), SomeContext(args));
    RearrangedWeights(f.(identified := MirroredFences(args)[0]), MirroredFences(args));
  }

  /** The checklist's order and its weightless row do not change the sums. */
  lemma RearrangedWeights(g: Fences, m: seq<Fence>)
    requires m == [g.identified, g.canon0, g.canon1, g.factory, SKIPPED, g.liquidity, g.txCount, g.turnover,
                   g.age0, g.age1, g.decimals0, g.decimals1, g.price0, g.price1]
    ensures TotalWeight(m) == TotalWeight(g.All()) && PassedWeight(m) == PassedWeight(g.All())
  {
    var identity, provenance := [g.identified], [g.canon0, g.canon1, g.factory];
    var activity := [g.liquidity, g.txCount, g.turnover, g.age0, g.age1, g.decimals0, g.decimals1, g.price0, g.price1];
    assert g.All() == identity + activity + provenance;
    assert m == identity + provenance + [SKIPPED] + activity;
    BlocksWeights(identity, activity, provenance);
    WeightsConcat(identity + provenance, [SKIPPED]);
    WeightsConcat(identity + provenance + [SKIPPED], activity);
    OneFence(SKIPPED);
  }

  lemma BlocksWeights(a: seq<Fence>, b: seq<Fence>, c: seq<Fence>)
    ensures TotalWeight(a + b + c) == TotalWeight(a + c) + TotalWeight(b)
    ensures PassedWeight(a + b + c) == PassedWeight(a + c) + PassedWeight(b)
  {
    WeightsConcat(a, b);
    WeightsConcat(a + b, c);
    WeightsConcat(a, c);
  }

  /** For every pair, context and configuration the page's score is the engine's, except exactly when both
      tokens look identified to the page and one of them is known only by a blank coin id. */
  lemma ScoresAgreeIff(args: UiArgs, ctx: VerdictContext, rows: seq<UiFence>)
    requires SameContext(args, ctx) && Scored(rows) == MirroredFences(args)
    ensures UiConfidence(rows) == Confidence(FencesOf(EnginePair(args), ctx).All()) <==>
      !(UiKnowsId(args.token0) && UiKnowsId(args.token1) && (BlankIdOnly(args.token0) || BlankIdOnly(args.token1)))
  {
    RowsScoreAsFences(rows);
    MirroredScore(args, ctx);
    var f := FencesOf(EnginePair(args), ctx);
    IdentityDecides(f, f.(identified := MirroredFences(args)[0]));
  }

  /** Two scores that may differ in the identity fence alone are equal only if it does not differ. */
  lemma IdentityDecides(f: Fences, g: Fences)
    requires f.identified.weight == g.identified.weight > 0 && g == f.(identified := g.identified)
    ensures Confidence(f.All()) == Confidence(g.All()) <==> f.identified.ok == g.identified.ok
  {
    var rest := f.All()[1..];
    assert f.All() == [f.identified] + rest && g.All() == [g.identified] + rest;
    WeightsConcat([f.identified], rest);
    WeightsConcat([g.identified], rest);
    OneFence(f.identified);
    OneFence(g.identified);
    SharesDiffer(PassedWeight(f.All()), PassedWeight(g.All()), TotalWeight(f.All()));
  }

  lemma SharesDiffer(p: nat, q: nat, t: nat)
    requires t > 0
    ensures p as real / t as real == q as real / t as real <==> p == q
  {
    assert p as real / t as real * t as real == p as real;
    assert q as real / t as real * t as real == q as real;
  }

  lemma OneFence(f: Fence)
    ensures TotalWeight([f]) == f.weight && PassedWeight([f]) == if f.ok then f.weight else 0
  {
    assert [f][..0] == [];
  }
}
