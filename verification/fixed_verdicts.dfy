/** Verdicts that do not depend on which other pairs are verified, and so not on the order of judgements. */
module FixedVerdicts {
  import opened Wrappers
  import opened JsString
  import opened Verdict
  import opened Tables
  import opened Passes
  import opened SettlingTables
  import Trust

  // ----- what a verdict reads of the tables ----------------------------------

  /** The columns of a token, the flag and the confirmation apart, that verdicts read. */
  predicate SameFacts(r: TokenRow, s: TokenRow) {
    && r.chain == s.chain && r.contractAddress == s.contractAddress && r.coingeckoCoinId == s.coingeckoCoinId
    && r.decimals == s.decimals && r.deploymentTimestamp == s.deploymentTimestamp
  }

  predicate SamePairFacts(p: PairRow, q: PairRow) {
    SamePairInputs(p, q) && p.canonicalKey == q.canonicalKey && (IsManual(p.status) <==> IsManual(q.status))
  }

  /** The same rows with the same facts and stored keys, and the same pairs set by operators. */
  ghost predicate SameView(t: Tables, u: Tables) {
    && t.pairs.Keys == u.pairs.Keys && t.tokens.Keys == u.tokens.Keys
    && (forall p :: p in t.pairs ==> SamePairFacts(t.pairs[p], u.pairs[p]))
    && (forall k :: k in t.tokens ==> SameFacts(t.tokens[k], u.tokens[k]))
  }

  lemma ViewChain(t: Tables, u: Tables, v: Tables)
    requires SameView(t, u) && SameView(u, v)
    ensures SameView(t, v)
  {
    forall p | p in t.pairs ensures SamePairFacts(t.pairs[p], v.pairs[p]) {
      assert SamePairFacts(t.pairs[p], u.pairs[p]) && SamePairFacts(u.pairs[p], v.pairs[p]);
    }
    forall k | k in t.tokens ensures SameFacts(t.tokens[k], v.tokens[k]) {
      assert SameFacts(t.tokens[k], u.tokens[k]) && SameFacts(u.tokens[k], v.tokens[k]);
    }
  }

  lemma ViewSelf(t: Tables)
    ensures SameView(t, t)
  {
    forall p | p in t.pairs ensures SamePairFacts(t.pairs[p], t.pairs[p]) {
    }
    forall k | k in t.tokens ensures SameFacts(t.tokens[k], t.tokens[k]) {
    }
  }

  lemma ViewLoadable(t: Tables, u: Tables, p: Id)
    requires SameView(t, u)
    ensures Loadable(t, p) <==> Loadable(u, p)
    ensures Loadable(t, p) ==> KeyOf(t, p) == KeyOf(u, p) && (Judgeable(t, p) <==> Judgeable(u, p))
  {
    if p in t.pairs { assert SamePairFacts(t.pairs[p], u.pairs[p]); }
    if Loadable(t, p) {
      assert SameFacts(t.tokens[t.pairs[p].token0], u.tokens[t.pairs[p].token0]);
      assert SameFacts(t.tokens[t.pairs[p].token1], u.tokens[t.pairs[p].token1]);
    }
  }

  lemma ViewStale(t: Tables, u: Tables, p: Id)
    requires SameView(t, u)
    ensures IsStale(t, p) <==> IsStale(u, p)
  {
    ViewLoadable(t, u, p);
    if p in t.pairs { assert SamePairFacts(t.pairs[p], u.pairs[p]); }
  }

  lemma ViewLinked(t: Tables, u: Tables)
    requires SameView(t, u) && Trust.Linked(t)
    ensures Trust.Linked(u)
  {
    forall p | p in u.pairs ensures Loadable(u, p) {
      ViewLoadable(t, u, p);
    }
  }

  lemma ViewPairsOf(t: Tables, u: Tables, k: Id)
    requires SameView(t, u)
    ensures PairsOf(u, k) == PairsOf(t, k)
  {
    forall p | p in t.pairs ensures u.pairs[p].token0 == t.pairs[p].token0 && u.pairs[p].token1 == t.pairs[p].token1 {
      assert SamePairFacts(t.pairs[p], u.pairs[p]);
    }
  }

  lemma ViewTokenSet(t: Tables, u: Tables, p: Id)
    requires SameView(t, u) && p in t.pairs
    ensures TokenSetOf(t, t.pairs[p]) == TokenSetOf(u, u.pairs[p])
    ensures t.pairs[p].chain == u.pairs[p].chain && t.pairs[p].dex == u.pairs[p].dex
  {
    assert SamePairFacts(t.pairs[p], u.pairs[p]);
    var a, b := t.pairs[p].token0, t.pairs[p].token1;
    if a in t.tokens { assert SameFacts(t.tokens[a], u.tokens[a]); }
    if b in t.tokens { assert SameFacts(t.tokens[b], u.tokens[b]); }
  }

  lemma ViewConflict(t: Tables, u: Tables, p: Id, key: Option<Str>)
    requires SameView(t, u) && p in t.pairs
    ensures HasIntraConflict(t, p, key) <==> HasIntraConflict(u, p, key)
  {
    forall o | o in t.pairs
      ensures TokenSetOf(t, t.pairs[o]) == TokenSetOf(u, u.pairs[o]) &&
        t.pairs[o].canonicalKey == u.pairs[o].canonicalKey
      ensures SameSource(t.pairs[p], t.pairs[o]) <==> SameSource(u.pairs[p], u.pairs[o])
    {
      ViewTokenSet(t, u, o);
      ViewTokenSet(t, u, p);
      assert SamePairFacts(t.pairs[o], u.pairs[o]);
    }
  }

  // ----- the verdict with what may differ given ------------------------------

  /** The verdict without a vouching sibling, given whether a token is flagged and which of the two are confirmed. */
  function VerdictGiven(t: Tables, w: World, p: Id, now: int, flagged: bool, confirmed0: bool, confirmed1: bool): Status
    requires Loadable(t, p)
  {
    var (input, context) := ContextOf(t, w, p, now);
    EvaluatePair(
      input.(token0 := input.token0.(identityConfirmed := confirmed0),
        token1 := input.token1.(identityConfirmed := confirmed1)),
      context.(hasVerifiedSibling := false, tokenScamFlagged := flagged)).verdict
  }

  lemma GivenSame(t: Tables, u: Tables, w: World, p: Id, now: int, flagged: bool, confirmed0: bool, confirmed1: bool)
    requires SameView(t, u) && Loadable(t, p)
    ensures Loadable(u, p)
    ensures VerdictGiven(t, w, p, now, flagged, confirmed0, confirmed1) ==
      VerdictGiven(u, w, p, now, flagged, confirmed0, confirmed1)
  {
    ViewLoadable(t, u, p);
    ViewConflict(t, u, p, KeyOf(t, p));
    assert SamePairFacts(t.pairs[p], u.pairs[p]);
    assert SameFacts(t.tokens[t.pairs[p].token0], u.tokens[t.pairs[p].token0]);
    assert SameFacts(t.tokens[t.pairs[p].token1], u.tokens[t.pairs[p].token1]);
  }

  lemma WithIsGiven(t: Tables, w: World, p: Id, now: int)
    requires Loadable(t, p)
    ensures var a, b := t.tokens[t.pairs[p].token0], t.tokens[t.pairs[p].token1];
      VerdictWith(t, w, p, now, false).verdict
        == VerdictGiven(t, w, p, now, a.isScamFlagged || b.isScamFlagged, a.identityConfirmed, b.identityConfirmed)
  {
    var (input, context) := ContextOf(t, w, p, now);
    assert input == input.(
      token0 := input.token0.(identityConfirmed := t.tokens[t.pairs[p].token0].identityConfirmed),
      token1 := input.token1.(identityConfirmed := t.tokens[t.pairs[p].token1].identityConfirmed));
  }

  // ----- when the vote does not matter ---------------------------------------

  predicate VoteIrrelevant(t: Tables, w: World, p: Id, now: int) {
    Loadable(t, p) && VerdictWith(t, w, p, now, true).verdict == VerdictWith(t, w, p, now, false).verdict
  }

  /** The scam branch comes before the sibling's. */
  lemma FlaggedVote(t: Tables, w: World, p: Id, now: int)
    requires Loadable(t, p) && (t.tokens[t.pairs[p].token0].isScamFlagged || t.tokens[t.pairs[p].token1].isScamFlagged)
    ensures VoteIrrelevant(t, w, p, now)
  {
    var (input, context) := ContextOf(t, w, p, now);
    SiblingOnlyPromotes(input, context);
    VerdictShape(input, context.(hasVerifiedSibling := true));
  }

  /** Below its source's floor a pair fails the liquidity fence, which a vouched pair has to pass too. */
  lemma ShallowVote(t: Tables, w: World, p: Id, now: int)
    requires Loadable(t, p) && t.pairs[p].reserveUsd < w.config(t.pairs[p].chain, t.pairs[p].dex).minLiquidityUsd
    ensures VoteIrrelevant(t, w, p, now)
  {
    var (input, context) := ContextOf(t, w, p, now);
    var with, without := context.(hasVerifiedSibling := true), context.(hasVerifiedSibling := false);
    assert FencesOf(input, with) == FencesOf(input, without);
    assert !FencesOf(input, with).liquidity.ok;
  }

  // ----- judging many pairs --------------------------------------------------

  lemma RunAllView(t: Tables, w: World, ids: seq<Id>, now: int)
    requires forall q :: q in ids ==> !IsStale(t, q)
    ensures SameWorldView(t, RunAll(t, w, ids, now)) && SameView(t, RunAll(t, w, ids, now))
    ensures forall k :: k in t.tokens ==> SameTokenInputs(t.tokens[k], RunAll(t, w, ids, now).tokens[k])
  {
    var u := RunAll(t, w, ids, now);
    RunAllIsRun(t, w, ids, now);
    RunAllManualSame(t, w, ids, now);
    forall p | p in t.pairs ensures SamePairFacts(t.pairs[p], u.pairs[p]) {
      assert SamePairInputs(t.pairs[p], u.pairs[p]);
    }
    forall k | k in t.tokens ensures SameFacts(t.tokens[k], u.tokens[k]) {
      assert SameTokenInputs(t.tokens[k], u.tokens[k]);
    }
  }

  lemma {:induction false} RunAllManualSame(t: Tables, w: World, ids: seq<Id>, now: int)
    ensures var u := RunAll(t, w, ids, now);
      u.pairs.Keys == t.pairs.Keys && forall p :: p in t.pairs ==>
        (IsManual(t.pairs[p].status) <==> IsManual(u.pairs[p].status))
  {
    if ids != [] {
      RunAllManualSame(t, w, ids[..|ids| - 1], now);
      RunVerdictView(RunAll(t, w, ids[..|ids| - 1], now), w, ids[|ids| - 1], now);
    }
  }

  lemma JudgedFixed(t: Tables, u: Tables, w: World, p: Id, now: int)
    requires SameWorldView(t, u) && Judgeable(u, p) && VoteIrrelevant(t, w, p, now)
    ensures p in RunVerdict(u, w, p, now).pairs
    ensures RunVerdict(u, w, p, now).pairs[p].status == VerdictWith(t, w, p, now, false).verdict
  {
    JudgeIsVerdictWith(u, w, p, now);
    VerdictSame(t, u, w, p, now, HasVerifiedSibling(u, p, KeyOf(u, p)));
  }

  /** Where the judged pairs store current keys, one whose vote does not matter gets its verdict, whatever is judged
      besides. */
  lemma {:induction false} FixedVerdict(t: Tables, w: World, ids: seq<Id>, now: int, p: Id)
    requires p in ids && Judgeable(t, p) && VoteIrrelevant(t, w, p, now) && forall q :: q in ids ==> !IsStale(t, q)
    ensures p in RunAll(t, w, ids, now).pairs
    ensures RunAll(t, w, ids, now).pairs[p].status == VerdictWith(t, w, p, now, false).verdict
  {
    var front, last := ids[..|ids| - 1], ids[|ids| - 1];
    var before := RunAll(t, w, front, now);
    assert ids == front + [last];
    RunAllView(t, w, front, now);
    if last == p {
      ViewLoadable(t, before, p);
      JudgedFixed(t, before, w, p, now);
    } else {
      FixedVerdict(t, w, front, now, p);
      RunVerdictView(before, w, last, now);
    }
  }
}
