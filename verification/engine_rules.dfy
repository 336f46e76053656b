/** What the engine of lib/verdict.ts decides, in the columns it is given. */
module EngineRules {
  // An account of the verdict that uses none of the engine's fences: every condition is one on reserves, counts,
  // prices, times and addresses themselves, without a quotient, and the first rule that applies decides. The score is
  // the quotient of two sums of whole numbers.

  import opened Wrappers
  import opened JsString
  import opened Verdict

  /** One token's columns. */
  datatype Side = Side(
    address: Str, coinId: Option<Str>, confirmed: bool, canonical: Option<Str>, decimals: int, deployed: Option<int>,
    priceCg: real, priceDex: real)

  datatype Columns = Columns(
    now: int, config: VerdictConfig, lastSeenAt: int, lostConflict: bool, sibling: bool, flagged: bool, hooked: bool,
    absent: bool, firstParty: bool, trusted: bool, reserve: real, volume: real, txCount: int,
    factory: Option<Str>, canonicalFactory: Option<Str>, a: Side, b: Side)

  // ----- the conditions ------------------------------------------------------

  /** Stamped, and longer ago than that many days of 86400 seconds; no number of days is negative. */
  predicate LongUnseen(x: Columns) {
    x.lastSeenAt > 0 &&
    (x.config.maxUnseenDays < 0.0 || (x.now - x.lastSeenAt) as real > x.config.maxUnseenDays * 86400.0)
  }

  predicate BadDecimals(x: Columns, s: Side) {
    s.decimals < x.config.minDecimals || s.decimals > x.config.maxDecimals
  }

  predicate Identified(s: Side) {
    s.confirmed || (s.coinId.Some? && !IsBlank(s.coinId.value))
  }

  /** A reserve at the floor or above of which less than one part in ten thousand was traded. */
  predicate LooksDead(x: Columns) {
    !x.firstParty && !x.trusted && x.reserve > 0.0 && x.reserve >= x.config.minLiquidityUsd
    && x.volume * 10000.0 < x.reserve
  }

  predicate Deep(x: Columns) {
    (if LooksDead(x) then 0.0 else x.reserve) >= x.config.minLiquidityUsd
  }

  predicate Present(a: Option<Str>) {
    a.Some? && |a.value| > 0
  }

  /** Both addresses are known and they differ, capitals apart. */
  predicate Differ(a: Option<Str>, b: Option<Str>) {
    Present(a) && Present(b) && ToLower(a.value) != ToLower(b.value)
  }

  predicate Impostor(s: Side) {
    Present(s.canonical) && ToLower(s.address) != ToLower(s.canonical.value)
  }

  predicate Priced(s: Side) {
    s.priceCg > 0.0 && s.priceDex > 0.0
  }

  /** Both prices are known, and the exchange's is further from the reference than so many hundredths of the
      reference. */
  predicate Deviates(x: Columns, s: Side) {
    Priced(s) && (
      || (s.priceDex - s.priceCg) * 100.0 > x.config.maxPriceDeviationPercent * s.priceCg
      || (s.priceCg - s.priceDex) * 100.0 > x.config.maxPriceDeviationPercent * s.priceCg)
  }

  predicate AgeKnown(s: Side) {
    s.deployed.Some? && s.deployed.value > 0
  }

  predicate TooYoung(x: Columns, s: Side) {
    AgeKnown(s) && ((x.now - s.deployed.value) as real) < x.config.minAgeHours * 3600.0
  }

  predicate Traded(x: Columns) {
    x.reserve > 0.0 && x.volume > 0.0
  }

  // ----- the score -----------------------------------------------------------

  /** One aspect of a pair: whether it is known at all, whether it speaks for the pair, and what it weighs. */
  datatype Mark = Mark(known: bool, good: bool, weight: nat)

  function Marks(x: Columns): seq<Mark> {
    [Mark(true, Identified(x.a) && Identified(x.b), 3), Mark(true, Deep(x), 2),
     Mark(true, x.txCount >= x.config.minTxCount, 1),
     Mark(Traded(x), x.volume >= x.config.minTurnoverRatio * x.reserve, 1),
     Mark(AgeKnown(x.a), !TooYoung(x, x.a), 1), Mark(AgeKnown(x.b), !TooYoung(x, x.b), 1),
     Mark(true, !BadDecimals(x, x.a), 1), Mark(true, !BadDecimals(x, x.b), 1),
     Mark(Priced(x.a), !Deviates(x, x.a), 2), Mark(Priced(x.b), !Deviates(x, x.b), 2),
     Mark(Present(x.a.canonical), !Impostor(x.a), 3), Mark(Present(x.b.canonical), !Impostor(x.b), 3),
     Mark(Present(x.factory) && Present(x.canonicalFactory), !Differ(x.factory, x.canonicalFactory), 2)]
  }

  /** The weight of what is known. */
  function WeightOf(marks: seq<Mark>): nat {
    if marks == [] then 0
    else WeightOf(marks[..|marks| - 1]) + if marks[|marks| - 1].known then marks[|marks| - 1].weight else 0
  }

  /** The weight of what is known and good. */
  function GoodOf(marks: seq<Mark>): nat {
    if marks == [] then 0
    else
      var last := marks[|marks| - 1];
      GoodOf(marks[..|marks| - 1]) + if last.known && last.good then last.weight else 0
  }

  function Weight(x: Columns): nat {
    WeightOf(Marks(x))
  }

  function Passed(x: Columns): nat {
    GoodOf(Marks(x))
  }

  predicate ScoresEnough(x: Columns) {
    Passed(x) as real >= x.config.autoVerifyConfidence * Weight(x) as real
  }

  // ----- the rules -----------------------------------------------------------

  /** The first rule that applies. */
  function Decided(x: Columns): (Status, Reason) {
    var identified := Identified(x.a) && Identified(x.b);
    var mature := x.txCount >= x.config.minTxCount && !TooYoung(x, x.a) && !TooYoung(x, x.b);
    if LongUnseen(x) then (AutoRejected, UnseenTooLong)
    else if x.lostConflict then (NotCurrentlyUsable, IntraChainImpostorLoser)
    else if !x.firstParty && x.reserve < x.config.hardMinLiquidityUsd then (AutoRejected, LiquidityBelowHardFloor)
    else if BadDecimals(x, x.a) || BadDecimals(x, x.b) then (AutoRejected, DecimalsBogus)
    else if !identified && !x.firstParty && !Deep(x) then (AutoRejected, UnidentifiedThinPool)
    else if !identified then (NeedsReview, NotIdentified)
    else if x.flagged then (NeedsReview, ScamFlagged)
    else if x.hooked then (NeedsReview, HookedPool)
    else if x.absent then (NeedsReview, SubgraphAbsent)
    else if Differ(x.factory, x.canonicalFactory) then (NeedsReview, FactoryMismatch)
    else if Impostor(x.a) || Impostor(x.b) then (NeedsReview, CanonicalImpostor)
    else if x.sibling && Deep(x) then (AutoVerified, SiblingVouched)
    else if Deviates(x, x.a) || Deviates(x, x.b) then (NeedsReview, PriceDeviation)
    else if LooksDead(x) then (NeedsReview, PhantomLiquidity)
    else if ScoresEnough(x) && Deep(x) && mature then (AutoVerified, HighConfidence)
    else if ScoresEnough(x) && Present(x.a.canonical) && Present(x.b.canonical) then (AutoVerified, CanonicalConfirmed)
    else (NeedsReview, BelowAutoVerifyBar)
  }

  // ----- the engine follows them ---------------------------------------------

  function SideOf(t: VerdictToken): Side {
    Side(t.contractAddress, t.coingeckoCoinId, t.identityConfirmed, t.canonicalAddress, t.decimals,
      t.deploymentTimestamp, t.priceCg, t.priceDex)
  }

  function ColumnsOf(pair: VerdictPair, ctx: VerdictContext): Columns {
    Columns(ctx.now, ctx.config, ctx.lastSeenAt, ctx.intraChainImpostorLoser, ctx.hasVerifiedSibling,
      ctx.tokenScamFlagged, ctx.hookedPool, ctx.subgraphAbsent, ctx.firstParty, ctx.reserveTrusted,
      pair.reserveUsd, pair.volumeUsd, pair.txCount, ctx.pairFactoryAddress, ctx.canonicalFactoryAddress,
      SideOf(pair.token0), SideOf(pair.token1))
  }

  lemma Quotient(part: real, whole: real, bound: real)
    requires whole > 0.0
    ensures part / whole > bound <==> part > bound * whole
    ensures part / whole >= bound <==> part >= bound * whole
  {
    assert part / whole * whole == part;
  }

  lemma UnseenIs(pair: VerdictPair, ctx: VerdictContext)
    ensures IsUnseenTooLong(ctx.lastSeenAt, ctx.now, ctx.config.maxUnseenDays) <==> LongUnseen(ColumnsOf(pair, ctx))
  {
    Verdict.UnseenIs(ctx);
  }

  lemma DeadIs(pair: VerdictPair, ctx: VerdictContext)
    ensures Phantom(pair, ctx) <==> LooksDead(ColumnsOf(pair, ctx))
    ensures MeetsLiquidity(EffectiveReserve(pair, ctx), ctx.config.minLiquidityUsd) ==
      Fence(Deep(ColumnsOf(pair, ctx)), 2)
    ensures EffectiveReserve(pair, ctx) < ctx.config.minLiquidityUsd <==> !Deep(ColumnsOf(pair, ctx))
  {
    if pair.reserveUsd > 0.0 { Quotient(pair.volumeUsd, pair.reserveUsd, 0.0001); }
  }

  lemma AgeIs(x: Columns, t: VerdictToken)
    ensures MeetsAge(t.deploymentTimestamp, x.now, x.config.minAgeHours) ==
      if AgeKnown(SideOf(t)) then Fence(!TooYoung(x, SideOf(t)), 1) else Fence(true, 0)
  {
    if AgeKnown(SideOf(t)) {
      Quotient((x.now - t.deploymentTimestamp.value) as real, 3600.0, x.config.minAgeHours);
    }
  }

  lemma Percent(difference: real, reference: real, percent: real)
    requires reference > 0.0
    ensures difference / reference * 100.0 <= percent <==> difference * 100.0 <= percent * reference
  {
    Quotient(difference * 100.0, reference, percent);
    assert difference / reference * 100.0 == difference * 100.0 / reference;
  }

  lemma PriceIs(x: Columns, t: VerdictToken)
    ensures CgPriceWithinTolerance(t.priceCg, t.priceDex, x.config.maxPriceDeviationPercent) ==
      if Priced(SideOf(t)) then Fence(!Deviates(x, SideOf(t)), 2) else Fence(true, 0)
  {
    if Priced(SideOf(t)) {
      Percent(Abs(t.priceDex - t.priceCg), t.priceCg, x.config.maxPriceDeviationPercent);
    }
  }

  lemma CanonicalIs(t: VerdictToken)
    ensures AddressMatchesCanonical(t) ==
      if Present(t.canonicalAddress) then Fence(!Impostor(SideOf(t)), 3) else Fence(true, 0)
  {
  }

  lemma FactoryIs(factory: Option<Str>, canonical: Option<Str>)
    ensures FactoryMatchesCanonical(factory, canonical) ==
      if Present(factory) && Present(canonical) then Fence(!Differ(factory, canonical), 2) else Fence(true, 0)
  {
  }

  lemma TurnoverIs(x: Columns)
    ensures MeetsTurnover(x.volume, x.reserve, x.config.minTurnoverRatio) ==
      if Traded(x) then Fence(x.volume >= x.config.minTurnoverRatio * x.reserve, 1) else Fence(true, 0)
  {
    if Traded(x) { Quotient(x.volume, x.reserve, x.config.minTurnoverRatio); }
  }

  function AsFence(m: Mark): Fence {
    if m.known then Fence(m.good, m.weight) else Fence(true, 0)
  }

  function AsFences(marks: seq<Mark>): seq<Fence> {
    seq(|marks|, i requires 0 <= i < |marks| => AsFence(marks[i]))
  }

  lemma EarlyMarks(pair: VerdictPair, ctx: VerdictContext)
    ensures var f, m := FencesOf(pair, ctx), Marks(ColumnsOf(pair, ctx));
      && f.identified == AsFence(m[0]) && f.liquidity == AsFence(m[1]) && f.txCount == AsFence(m[2])
      && f.turnover == AsFence(m[3]) && f.age0 == AsFence(m[4]) && f.age1 == AsFence(m[5])
  {
    var x := ColumnsOf(pair, ctx);
    DeadIs(pair, ctx);
    TurnoverIs(x);
    AgeIs(x, pair.token0);
    AgeIs(x, pair.token1);
  }

  lemma LateMarks(pair: VerdictPair, ctx: VerdictContext)
    ensures var f, m := FencesOf(pair, ctx), Marks(ColumnsOf(pair, ctx));
      && f.decimals0 == AsFence(m[6]) && f.decimals1 == AsFence(m[7]) && f.price0 == AsFence(m[8])
      && f.price1 == AsFence(m[9]) && f.canon0 == AsFence(m[10]) && f.canon1 == AsFence(m[11])
      && f.factory == AsFence(m[12])
  {
    var x := ColumnsOf(pair, ctx);
    PriceIs(x, pair.token0);
    PriceIs(x, pair.token1);
    CanonicalIs(pair.token0);
    CanonicalIs(pair.token1);
    FactoryIs(ctx.pairFactoryAddress, ctx.canonicalFactoryAddress);
  }

  lemma AllAreMarks(f: Fences, m: seq<Mark>)
    requires |m| == 13
    requires f.identified == AsFence(m[0]) && f.liquidity == AsFence(m[1]) && f.txCount == AsFence(m[2])
    requires f.turnover == AsFence(m[3]) && f.age0 == AsFence(m[4]) && f.age1 == AsFence(m[5])
    requires f.decimals0 == AsFence(m[6]) && f.decimals1 == AsFence(m[7]) && f.price0 == AsFence(m[8])
    requires f.price1 == AsFence(m[9]) && f.canon0 == AsFence(m[10]) && f.canon1 == AsFence(m[11])
    requires f.factory == AsFence(m[12])
    ensures f.All() == AsFences(m)
  {
  }

  lemma FencesAre(pair: VerdictPair, ctx: VerdictContext)
    ensures FencesOf(pair, ctx).All() == AsFences(Marks(ColumnsOf(pair, ctx)))
  {
    EarlyMarks(pair, ctx);
    LateMarks(pair, ctx);
    AllAreMarks(FencesOf(pair, ctx), Marks(ColumnsOf(pair, ctx)));
  }

  // ----- the sums ------------------------------------------------------------

  lemma {:induction false} SumsOfMarks(marks: seq<Mark>)
    ensures TotalWeight(AsFences(marks)) == WeightOf(marks) && PassedWeight(AsFences(marks)) == GoodOf(marks)
  {
    if marks != [] {
      var front := marks[..|marks| - 1];
      SumsOfMarks(front);
      assert AsFences(marks)[..|marks| - 1] == AsFences(front);
    }
  }

  lemma {:induction false} WeightAtLeast(marks: seq<Mark>, i: nat)
    requires i < |marks| && marks[i].known
    ensures WeightOf(marks) >= marks[i].weight
  {
    if i < |marks| - 1 { WeightAtLeast(marks[..|marks| - 1], i); }
  }

  /** The score of any pair is the share of these two sums. */
  lemma ScoreIs(pair: VerdictPair, ctx: VerdictContext)
    ensures var x := ColumnsOf(pair, ctx);
      Weight(x) > 0 && Confidence(FencesOf(pair, ctx).All()) == Passed(x) as real / Weight(x) as real
  {
    WeightAtLeast(Marks(ColumnsOf(pair, ctx)), 0);
    FencesAre(pair, ctx);
    SumsOfMarks(Marks(ColumnsOf(pair, ctx)));
  }

  lemma EnoughIs(pair: VerdictPair, ctx: VerdictContext)
    ensures Confidence(FencesOf(pair, ctx).All()) >= ctx.config.autoVerifyConfidence <==>
      ScoresEnough(ColumnsOf(pair, ctx))
  {
    var x := ColumnsOf(pair, ctx);
    ScoreIs(pair, ctx);
    Share(Passed(x), Weight(x), Confidence(FencesOf(pair, ctx).All()), ctx.config.autoVerifyConfidence);
  }

  lemma Share(part: nat, whole: nat, score: real, bound: real)
    requires whole > 0 && score == part as real / whole as real
    ensures score >= bound <==> part as real >= bound * whole as real
  {
    Quotient(part as real, whole as real, bound);
  }

  lemma FenceByFence(pair: VerdictPair, ctx: VerdictContext)
    ensures var f, x := FencesOf(pair, ctx), ColumnsOf(pair, ctx);
      && (f.identified.ok <==> Identified(x.a) && Identified(x.b)) && (f.liquidity.ok <==> Deep(x))
      && (f.txCount.ok <==> x.txCount >= x.config.minTxCount)
      && (f.age0.ok <==> !TooYoung(x, x.a)) && (f.age1.ok <==> !TooYoung(x, x.b))
      && (f.decimals0.ok <==> !BadDecimals(x, x.a)) && (f.decimals1.ok <==> !BadDecimals(x, x.b))
      && (f.price0.ok <==> !Deviates(x, x.a)) && (f.price1.ok <==> !Deviates(x, x.b))
      && (f.canon0.ok <==> !Impostor(x.a)) && (f.canon1.ok <==> !Impostor(x.b))
      && (f.canon0.weight > 0 <==> Present(x.a.canonical)) && (f.canon1.weight > 0 <==> Present(x.b.canonical))
      && (f.factory.ok <==> !Differ(x.factory, x.canonicalFactory))
  {
    EarlyMarks(pair, ctx);
    LateMarks(pair, ctx);
  }

  /** Every verdict with its reason: the first rule that applies to the columns; and the score, 0 for a flagged pair. */
  lemma FirstRuleDecides(pair: VerdictPair, ctx: VerdictContext)
    ensures var x, r := ColumnsOf(pair, ctx), EvaluatePair(pair, ctx);
      && (r.verdict, r.reason) == Decided(x) && r.canonicalKey == ctx.canonicalKey
      && Weight(x) > 0 && r.confidence == if x.flagged then 0.0 else Passed(x) as real / Weight(x) as real
  {
    FenceByFence(pair, ctx);
    UnseenIs(pair, ctx);
    DeadIs(pair, ctx);
    EnoughIs(pair, ctx);
    ScoreIs(pair, ctx);
  }

  /** Exactly when a pair is out for going unseen: it has a stamp, and the stamp is more than so many days of 86400
      seconds old. */
  lemma UnseenReasonIff(pair: VerdictPair, ctx: VerdictContext)
    ensures EvaluatePair(pair, ctx).reason == UnseenTooLong <==>
      ctx.lastSeenAt > 0 &&
      (ctx.config.maxUnseenDays < 0.0 || (ctx.now - ctx.lastSeenAt) as real > ctx.config.maxUnseenDays * 86400.0)
  {
    FirstRuleDecides(pair, ctx);
  }
}
