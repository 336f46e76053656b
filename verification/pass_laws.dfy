/** What each pass of lib/pipeline.ts stores and decides. */
module PassLaws {
  // In the columns of the tables: the rows after a check, and the verdicts of the pairs that it judges.

  import opened Wrappers
  import opened JsString
  import opened Verdict
  import opened Tables
  import opened Passes
  import opened Drain
  import opened EngineRules
  import opened RowRules

  // ----- judging many pairs --------------------------------------------------

  lemma OtherRowKept(t: Tables, w: World, id: Id, now: int, p: Id)
    requires p in t.pairs && p != id
    ensures p in RunVerdict(t, w, id, now).pairs && RunVerdict(t, w, id, now).pairs[p] == t.pairs[p]
  {
  }

  lemma NoOperatorStatus(x: Columns)
    ensures !IsManual(Decided(x).0)
  {
  }

  lemma JudgeableAfterOne(t: Tables, w: World, id: Id, now: int, p: Id)
    requires Judgeable(t, p)
    ensures Judgeable(RunVerdict(t, w, id, now), p)
  {
    var u := RunVerdict(t, w, id, now);
    RunVerdictKeepsInputs(t, w, id, now);
    assert SamePairInputs(t.pairs[p], u.pairs[p]);
    if id == p {
      RunWrites(t, w, p, now);
      NoOperatorStatus(RowColumns(t, w, p, now));
    } else {
      OtherRowKept(t, w, id, now, p);
    }
  }

  lemma {:induction false} StillJudgeable(t: Tables, w: World, ids: seq<Id>, now: int, p: Id)
    requires Judgeable(t, p)
    ensures Judgeable(RunAll(t, w, ids, now), p)
  {
    if ids != [] {
      StillJudgeable(t, w, ids[..|ids| - 1], now, p);
      JudgeableAfterOne(RunAll(t, w, ids[..|ids| - 1], now), w, ids[|ids| - 1], now, p);
    }
  }

  /** The columns of a row that only inputs decide; a canonical contract that is cached is one of them. */
  predicate SameFixed(x: Columns, y: Columns) {
    y == x.(lostConflict := y.lostConflict, sibling := y.sibling, a := x.a.(canonical := y.a.canonical),
            b := x.b.(canonical := y.b.canonical))
  }

  predicate CachedStays(w: World, coinId: Str, chain: Str, y: Side) {
    |coinId| > 0 && Present(w.cachedCanonical(coinId, chain)) ==> y.canonical == w.cachedCanonical(coinId, chain)
  }

  /** What judging the pair in tables with the inputs of t can find. */
  ghost predicate FoundFrom(t: Tables, w: World, p: Id, now: int, y: Columns)
    requires Loadable(t, p)
  {
    && SameFixed(RowColumns(t, w, p, now), y)
    && CachedStays(w, t.tokens[t.pairs[p].token0].coingeckoCoinId, t.pairs[p].chain, y.a)
    && CachedStays(w, t.tokens[t.pairs[p].token1].coingeckoCoinId, t.pairs[p].chain, y.b)
  }

  lemma InputsFix(t: Tables, s: Tables, w: World, p: Id, now: int)
    requires SameInputs(t, s) && Loadable(t, p)
    ensures Loadable(s, p) && FoundFrom(t, w, p, now, RowColumns(s, w, p, now))
  {
    assert SamePairInputs(t.pairs[p], s.pairs[p]);
    assert SameTokenInputs(t.tokens[t.pairs[p].token0], s.tokens[t.pairs[p].token0]);
    assert SameTokenInputs(t.tokens[t.pairs[p].token1], s.tokens[t.pairs[p].token1]);
  }

  /** The row of a pair holds the verdict of columns found from the stored inputs. */
  ghost predicate JudgedFrom(t: Tables, w: World, p: Id, now: int, r: PairRow)
    requires Loadable(t, p)
  {
    exists y :: FoundFrom(t, w, p, now, y) && r.status == Decided(y).0 && r.reason == Some(Decided(y).1)
  }

  /** A listed pair that no operator has set ends with a verdict of its stored inputs. */
  lemma {:induction false} ListedAreJudged(t: Tables, w: World, ids: seq<Id>, now: int, p: Id)
    requires p in ids && Judgeable(t, p)
    ensures p in RunAll(t, w, ids, now).pairs && JudgedFrom(t, w, p, now, RunAll(t, w, ids, now).pairs[p])
  {
    var front, last := ids[..|ids| - 1], ids[|ids| - 1];
    var before := RunAll(t, w, front, now);
    assert ids == front + [last];
    if last == p {
      RunAllKeepsInputs(t, w, front, now);
      StillJudgeable(t, w, front, now, p);
      RunWrites(before, w, p, now);
      InputsFix(t, before, w, p, now);
    } else {
      ListedAreJudged(t, w, front, now, p);
      OtherRowKept(before, w, last, now, p);
    }
  }

  /** A token's row is stored, then pairs are judged: its own columns stay, and a listed pair has its verdict. */
  lemma StoredAndJudged(t: Tables, w: World, token: Id, r: TokenRow, ids: seq<Id>, now: int, p: Id)
    requires token in t.tokens && p in ids && Judgeable(t, p)
    ensures var stored := t.(tokens := t.tokens[token := r]); var u := RunAll(stored, w, ids, now);
      && token in u.tokens && SameTokenInputs(r, u.tokens[token])
      && p in u.pairs && Loadable(stored, p) && JudgedFrom(stored, w, p, now, u.pairs[p])
  {
    var stored := t.(tokens := t.tokens[token := r]);
    ListedAreJudged(stored, w, ids, now, p);
    RunAllKeepsInputs(stored, w, ids, now);
    assert SameTokenInputs(stored.tokens[token], RunAll(stored, w, ids, now).tokens[token]);
  }

  lemma FoundSides(t: Tables, w: World, p: Id, now: int, y: Columns)
    requires Loadable(t, p) && FoundFrom(t, w, p, now, y)
    ensures var a, b := t.tokens[t.pairs[p].token0], t.tokens[t.pairs[p].token1];
      && y.a.address == a.contractAddress && y.b.address == b.contractAddress
      && y.a.coinId == Some(a.coingeckoCoinId) && y.b.coinId == Some(b.coingeckoCoinId)
      && y.a.confirmed == a.identityConfirmed && y.b.confirmed == b.identityConfirmed
      && y.flagged == (a.isScamFlagged || b.isScamFlagged)
  {
  }

  lemma HoldingRules(y: Columns)
    ensures y.flagged || Impostor(y.a) || Impostor(y.b) ==> Decided(y).0 != AutoVerified
    ensures Identified(y.a) && Identified(y.b) ==> Decided(y).1 != NotIdentified && Decided(y).1 != UnidentifiedThinPool
  {
  }

  // ----- the scam check ------------------------------------------------------

  /** One of the two services says that a holder cannot safely sell: a trap, or more than a tenth taken. */
  predicate Evidence(security: Option<Security>, honeypot: Option<bool>) {
    (honeypot.Some? && honeypot.value)
    || match security
       case None => false
       case Some(s) =>
         s.isHoneypot || s.cannotSellAll || s.selfdestruct || TakesOverATenth(s.buyTax) || TakesOverATenth(s.sellTax)
  }

  predicate TakesOverATenth(tax: Option<real>) {
    tax.Some? && tax.value * 10.0 > 1.0
  }

  lemma EvidenceIs(security: Option<Security>, honeypot: Option<bool>)
    ensures IsScam(security, honeypot) <==> Evidence(security, honeypot)
  {
  }

  /** The row of a checked token: with an answer from either service its flag is the evidence of the answers, and a
      service without an answer leaves what is cached from it; without any answer only the attempt is stamped. */
  lemma ScamCheckWrites(t: Tables, w: World, token: Id, now: int, security: Option<Security>, honeypot: Option<bool>,
                        order: seq<Id>)
    requires token in t.tokens && w.evmChain(t.tokens[token].chain)
    ensures var u, r := ScamCheck(t, w, token, now, security, honeypot, order), t.tokens[token];
      token in u.tokens && SameTokenInputs(u.tokens[token], r.(
        goPlus := if security.None? then r.goPlus else security,
        honeypot := if honeypot.None? then r.honeypot else honeypot,
        isScamFlagged := if security.None? && honeypot.None? then r.isScamFlagged else Evidence(security, honeypot),
        scamCheckedAt := now))
      && (!Evidence(security, honeypot) ==> u.pairs == t.pairs)
  {
    EvidenceIs(security, honeypot);
    var stored := t.(tokens := t.tokens[token := WithScamAnswer(t.tokens[token], now, security, honeypot)]);
    FlaggedKeepsInputs(stored, w, order, token, now);
    RunAllKeepsInputs(stored, w, [], now);
    assert SameTokenInputs(stored.tokens[token], ScamCheck(t, w, token, now, security, honeypot, order).tokens[token]);
  }

  /** Evidence takes the token, and its pairs unless an operator has set them, out of the verified. */
  lemma EvidenceHolds(t: Tables, w: World, token: Id, now: int, security: Option<Security>, honeypot: Option<bool>,
                      order: seq<Id>, p: Id)
    requires token in t.tokens && w.evmChain(t.tokens[token].chain) && Evidence(security, honeypot)
    requires p in order && Judgeable(t, p) && (t.pairs[p].token0 == token || t.pairs[p].token1 == token)
    ensures var u := ScamCheck(t, w, token, now, security, honeypot, order);
      token in u.tokens && u.tokens[token].status != AutoVerified && p in u.pairs && u.pairs[p].status != AutoVerified
  {
    var r := WithScamAnswer(t.tokens[token], now, security, honeypot);
    var stored := t.(tokens := t.tokens[token := r]);
    EvidenceIs(security, honeypot);
    StoredAndJudged(t, w, token, r, order, now, p);
    var judged := RunAll(stored, w, order, now);
    SweepWrites(judged, Some({token}), now, token);
    FlaggedIsHeld(stored, w, p, now, judged.pairs[p]);
  }

  lemma FlaggedIsHeld(t: Tables, w: World, p: Id, now: int, r: PairRow)
    requires Loadable(t, p) && JudgedFrom(t, w, p, now, r)
    requires t.tokens[t.pairs[p].token0].isScamFlagged || t.tokens[t.pairs[p].token1].isScamFlagged
    ensures r.status != AutoVerified
  {
    var y :| FoundFrom(t, w, p, now, y) && r.status == Decided(y).0 && r.reason == Some(Decided(y).1);
    FoundSides(t, w, p, now, y);
    HoldingRules(y);
  }

  /** A rescore takes the flag from what is cached from both services, and stamps nothing. */
  lemma RescoreWrites(t: Tables, w: World, token: Id, now: int, order: seq<Id>)
    requires token in t.tokens && (t.tokens[token].goPlus.Some? || t.tokens[token].honeypot.Some?)
    ensures var u, r := Rescore(t, w, token, now, order), t.tokens[token];
      token in u.tokens && SameTokenInputs(u.tokens[token], r.(isScamFlagged := Evidence(r.goPlus, r.honeypot)))
  {
    var r := t.tokens[token];
    EvidenceIs(r.goPlus, r.honeypot);
    var stored := t.(tokens := t.tokens[token := r.(isScamFlagged := Evidence(r.goPlus, r.honeypot))]);
    FlaggedKeepsInputs(stored, w, order, token, now);
    RunAllKeepsInputs(stored, w, order, now);
    if Evidence(r.goPlus, r.honeypot) != r.isScamFlagged {
      assert SameTokenInputs(stored.tokens[token], Rescore(t, w, token, now, order).tokens[token]);
    }
  }

  /** Where that changes the flag, either way, the listed pairs are judged with the new one. */
  lemma RescoreJudges(t: Tables, w: World, token: Id, now: int, order: seq<Id>, p: Id)
    requires token in t.tokens && (t.tokens[token].goPlus.Some? || t.tokens[token].honeypot.Some?)
    requires t.tokens[token].isScamFlagged != Evidence(t.tokens[token].goPlus, t.tokens[token].honeypot)
    requires p in order && Judgeable(t, p)
    ensures var r := t.tokens[token];
      var changed := t.(tokens := t.tokens[token := r.(isScamFlagged := !r.isScamFlagged)]);
      var u := Rescore(t, w, token, now, order);
      p in u.pairs && Loadable(changed, p) && JudgedFrom(changed, w, p, now, u.pairs[p])
  {
    var r := t.tokens[token].(isScamFlagged := !t.tokens[token].isScamFlagged);
    EvidenceIs(t.tokens[token].goPlus, t.tokens[token].honeypot);
    StoredAndJudged(t, w, token, r, order, now, p);
  }

  // ----- the other checks ----------------------------------------------------

  /** A pool that another factory made is not left verified, unless an operator has set it. */
  lemma ForeignFactoryHolds(t: Tables, w: World, pair: Id, now: int, factory: Option<Str>)
    requires Judgeable(t, pair) && Differ(factory, w.canonicalFactory(t.pairs[pair].chain, t.pairs[pair].dex))
    ensures var u := FactoryCheck(t, w, pair, now, factory);
      pair in u.pairs && u.pairs[pair].factoryAddress == factory && u.pairs[pair].factoryCheckedAt == now
      && u.pairs[pair].status != AutoVerified
  {
    var stored := t.(pairs := t.pairs[pair := t.pairs[pair].(factoryAddress := factory, factoryCheckedAt := now)]);
    ColumnsHold(stored, w, pair, now);
    RunWrites(stored, w, pair, now);
    RowDecides(stored, w, pair, now);
  }

  /** The token's contract is not the one that the cached canonical row of its coin names. */
  predicate IsImpostor(t: Tables, w: World, token: Id, chain: Str)
    requires token in t.tokens
  {
    var canonical := w.cachedCanonical(t.tokens[token].coingeckoCoinId, chain);
    |t.tokens[token].coingeckoCoinId| > 0 && Present(canonical) &&
    ToLower(t.tokens[token].contractAddress) != ToLower(canonical.value)
  }

  lemma ImpostorIsHeld(t: Tables, w: World, p: Id, now: int, r: PairRow)
    requires Loadable(t, p) && JudgedFrom(t, w, p, now, r)
    requires IsImpostor(t, w, t.pairs[p].token0, t.pairs[p].chain) ||
      IsImpostor(t, w, t.pairs[p].token1, t.pairs[p].chain)
    ensures r.status != AutoVerified
  {
    var y :| FoundFrom(t, w, p, now, y) && r.status == Decided(y).0 && r.reason == Some(Decided(y).1);
    FoundSides(t, w, p, now, y);
    HoldingRules(y);
  }

  /** A checked token that is not what its coin's canonical row names keeps its pairs from being verified. */
  lemma ImpostorHolds(t: Tables, w: World, token: Id, now: int, answer: Option<Str>, order: seq<Id>, p: Id)
    requires token in t.tokens && !IsBlank(t.tokens[token].coingeckoCoinId) && w.coinGeckoChain(t.tokens[token].chain)
    requires Present(answer) && p in order && Judgeable(t, p)
    requires t.pairs[p].token0 == token || t.pairs[p].token1 == token
    requires IsImpostor(t, w, token, t.pairs[p].chain)
    ensures var u := CanonicalCheck(t, w, token, now, answer, order);
      && p in u.pairs && u.pairs[p].status != AutoVerified
      && token in u.tokens && u.tokens[token].canonicalCheckedAt == now
  {
    var r := t.tokens[token].(canonicalCheckedAt := now);
    var stored := t.(tokens := t.tokens[token := r]);
    StoredAndJudged(t, w, token, r, order, now, p);
    assert IsImpostor(stored, w, token, t.pairs[p].chain);
    ImpostorIsHeld(stored, w, p, now, RunAll(stored, w, order, now).pairs[p]);
  }

  predicate IsIdentified(r: TokenRow) {
    r.identityConfirmed || !IsBlank(r.coingeckoCoinId)
  }

  lemma IdentifiedIsNoReason(t: Tables, w: World, p: Id, now: int, r: PairRow)
    requires Loadable(t, p) && JudgedFrom(t, w, p, now, r)
    requires IsIdentified(t.tokens[t.pairs[p].token0]) && IsIdentified(t.tokens[t.pairs[p].token1])
    ensures r.reason != Some(NotIdentified) && r.reason != Some(UnidentifiedThinPool)
  {
    var y :| FoundFrom(t, w, p, now, y) && r.status == Decided(y).0 && r.reason == Some(Decided(y).1);
    FoundSides(t, w, p, now, y);
    HoldingRules(y);
  }

  lemma ConfirmedIs(t: Tables, w: World, token: Id, now: int, baseS: int, foundId: Option<Str>, order: seq<Id>)
    requires token in t.tokens && IsBlank(t.tokens[token].coingeckoCoinId) && w.evmChain(t.tokens[token].chain)
    ensures var r := t.tokens[token];
      IdentityCheck(t, w, token, now, baseS, true, foundId, order) == RunAll(t.(tokens := t.tokens[token := r.(
        identityConfirmed := true, identityCheckedAt := now, identityNextCheckAt := now + 2_592_000,
        coingeckoCoinId := if Present(foundId) then foundId.value else r.coingeckoCoinId)]), w, order, now)
  {
  }

  /** A confirmed token is looked at again after thirty days of 86400 seconds, and does not leave a pair unidentified
      whose other token is identified. */
  lemma ConfirmationCounts(t: Tables, w: World, token: Id, now: int, baseS: int, foundId: Option<Str>, order: seq<Id>,
                           p: Id)
    requires token in t.tokens && IsBlank(t.tokens[token].coingeckoCoinId) && w.evmChain(t.tokens[token].chain)
    requires p in order && Judgeable(t, p)
    requires t.pairs[p].token0 == token || IsIdentified(t.tokens[t.pairs[p].token0])
    requires t.pairs[p].token1 == token || IsIdentified(t.tokens[t.pairs[p].token1])
    ensures var u := IdentityCheck(t, w, token, now, baseS, true, foundId, order);
      && p in u.pairs && u.pairs[p].reason != Some(NotIdentified) && u.pairs[p].reason != Some(UnidentifiedThinPool)
      && token in u.tokens && u.tokens[token].identityConfirmed
      && u.tokens[token].identityNextCheckAt == now + 30 * 86400
  {
    var r := t.tokens[token].(
      identityConfirmed := true, identityCheckedAt := now, identityNextCheckAt := now + 2_592_000,
      coingeckoCoinId := if Present(foundId) then foundId.value else t.tokens[token].coingeckoCoinId);
    var stored := t.(tokens := t.tokens[token := r]);
    ConfirmedIs(t, w, token, now, baseS, foundId, order);
    StoredAndJudged(t, w, token, r, order, now, p);
    IdentifiedIsNoReason(stored, w, p, now, RunAll(stored, w, order, now).pairs[p]);
  }

  // ----- the back-off --------------------------------------------------------

  /** The token table after unsuccessful identity checks at these times. */
  function Misses(t: Tables, w: World, token: Id, baseS: int, times: seq<int>): Tables {
    if times == [] then t
    else
      var before := Misses(t, w, token, baseS, times[..|times| - 1]);
      IdentityCheck(before, w, token, times[|times| - 1], baseS, false, None, [])
  }

  function Doubled(baseS: int, n: nat): int {
    if n == 0 then baseS else 2 * Doubled(baseS, n - 1)
  }

  /** Unsuccessful checks in a row wait for the base, then for twice as long each time, up to ninety days of 86400
      seconds; whether a token starts unchecked or from a confirmation. */
  lemma {:induction false} WaitDoubles(t: Tables, w: World, token: Id, baseS: int, times: seq<int>)
    requires token in t.tokens && IsBlank(t.tokens[token].coingeckoCoinId) && w.evmChain(t.tokens[token].chain)
    requires t.tokens[token].identityConfirmed || t.tokens[token].identityCheckedAt <= 0
    requires baseS >= 0 && |times| > 0 && forall i :: 0 <= i < |times| ==> times[i] > 0
    ensures var u, now, wait := Misses(t, w, token, baseS, times), times[|times| - 1], Doubled(baseS, |times| - 1);
      token in u.tokens && u.tokens[token] == t.tokens[token].(
        identityConfirmed := false, identityCheckedAt := now,
        identityNextCheckAt := now + if wait <= 90 * 86400 then wait else 90 * 86400)
  {
    var front := times[..|times| - 1];
    if front != [] {
      WaitDoubles(t, w, token, baseS, front);
    }
  }
}
