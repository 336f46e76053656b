/** The status and verdict operations over the two tables. */
module VerdictRunner {
  // Those of lib/statusWrite.ts, lib/tokenStatus.ts, lib/verdictRunner.ts and lib/scamCheck.ts.
  // The tables are updated in place, and each operation is proved to have the effect that `Tables` and `Passes`
  // specify. Batch updates are atomic, and a query returns its rows in any order.

  import opened Wrappers
  import opened JsString
  import opened Verdict
  import opened Tables
  import opened Passes
  import opened EngineRules
  import opened RowRules

  datatype RunOutcome = RunOutcome(found: bool, persisted: bool, skippedManual: bool, result: Option<VerdictResult>)

  datatype ScamOutcome = ScamOutcome(checked: bool, flagged: bool, demotedPairs: nat)

  datatype RescoreOutcome = RescoreOutcome(changed: bool, flagged: bool, affectedPairs: nat)

  function Matching(tokens: map<Id, TokenRow>, where: TokenFilter): set<Id> {
    set id | id in tokens && where(id, tokens[id])
  }

  function Updated(tokens: map<Id, TokenRow>, where: TokenFilter, change: TokenRow -> TokenRow): map<Id, TokenRow> {
    map id | id in tokens :: if where(id, tokens[id]) then change(tokens[id]) else tokens[id]
  }

  function AtStatus(where: TokenFilter, status: Status): TokenFilter {
    (id: Id, r: TokenRow) => where(id, r) && r.status == status
  }

  function NotAtStatus(where: TokenFilter, status: Status): TokenFilter {
    (id: Id, r: TokenRow) => where(id, r) && r.status != status
  }

  function Restamp(status: Status): TokenRow -> TokenRow {
    (r: TokenRow) => r.(status := status, verificationMethod := Auto)
  }

  function Move(status: Status, now: int): TokenRow -> TokenRow {
    (r: TokenRow) => r.(status := status, statusChangedAt := now, verificationMethod := Auto)
  }

  /** Rows at the status first, the rest second: whatever the filter, the second write meets exactly
      the rows it would have met at the start, so the two are the row-by-row write and the counts add up. */
  lemma TwoWritesAreOne(tokens: map<Id, TokenRow>, where: TokenFilter, status: Status, now: int)
    ensures var between := Updated(tokens, AtStatus(where, status), Restamp(status));
      && Updated(between, NotAtStatus(where, status), Move(status, now)) == SetWhere(tokens, where, status, now)
      && |Matching(tokens, AtStatus(where, status))| + |Matching(between, NotAtStatus(where, status))| ==
        |Matching(tokens, where)|
  {
    var between := Updated(tokens, AtStatus(where, status), Restamp(status));
    forall id | id in tokens
      ensures Updated(between, NotAtStatus(where, status), Move(status, now))[id] ==
        SetWhere(tokens, where, status, now)[id]
    {
      RowWrittenOnce(where, id, tokens[id], status, now);
    }
    MatchingSplits(tokens, where, status);
    SecondWriteMeets(tokens, where, status, now);
  }

  lemma SecondWriteMeets(tokens: map<Id, TokenRow>, where: TokenFilter, status: Status, now: int)
    ensures Matching(Updated(tokens, AtStatus(where, status), Restamp(status)), NotAtStatus(where, status))
         == Matching(tokens, NotAtStatus(where, status))
  {
    forall id | id in tokens
      ensures NotAtStatus(where, status)(id, Updated(tokens, AtStatus(where, status), Restamp(status))[id]) <==>
        NotAtStatus(where, status)(id, tokens[id])
    {
      RowWrittenOnce(where, id, tokens[id], status, now);
    }
  }

  lemma RowWrittenOnce(where: TokenFilter, id: Id, r: TokenRow, status: Status, now: int)
    ensures var r' := if AtStatus(where, status)(id, r) then Restamp(status)(r) else r;
      && (NotAtStatus(where, status)(id, r') <==> NotAtStatus(where, status)(id, r))
      && (if NotAtStatus(where, status)(id, r') then Move(status, now)(r') else r') ==
         (if where(id, r) then WithStatus(r, status, now) else r)
  {
  }

  lemma MatchingSplits(tokens: map<Id, TokenRow>, where: TokenFilter, status: Status)
    ensures |Matching(tokens, where)| ==
      |Matching(tokens, AtStatus(where, status))| + |Matching(tokens, NotAtStatus(where, status))|
  {
    var a, b := Matching(tokens, AtStatus(where, status)), Matching(tokens, NotAtStatus(where, status));
    assert Matching(tokens, where) == a + b && a !! b;
  }

  /** The order of the two writes matters: the other way round, a row that is moved is counted twice. */
  lemma OtherOrderCountsTwice(id: Id, r: TokenRow, status: Status, now: int)
    requires r.status != status
    ensures var all: TokenFilter := (_, _) => true; var tokens := map[id := r];
      var between := Updated(tokens, NotAtStatus(all, status), Move(status, now));
      |Matching(tokens, NotAtStatus(all, status))| + |Matching(between, AtStatus(all, status))| == 2 &&
        |Matching(tokens, all)| == 1
  {
    var all: TokenFilter := (_, _) => true;
    var tokens := map[id := r];
    var between := Updated(tokens, NotAtStatus(all, status), Move(status, now));
    assert Matching(tokens, NotAtStatus(all, status)) == {id};
    assert Matching(between, AtStatus(all, status)) == {id};
    assert Matching(tokens, all) == {id};
  }

  // ----- what the outcomes count ---------------------------------------------

  /** A token that at least one service has answered for. */
  predicate HasCachedAnswer(r: TokenRow) {
    r.goPlus.Some? || r.honeypot.Some?
  }

  /** The pairs that went from AutoVerified to NeedsReview. */
  function Demoted(before: map<Id, PairRow>, after: map<Id, PairRow>): set<Id> {
    set p | p in before && p in after && before[p].status == AutoVerified && after[p].status == NeedsReview
  }

  ghost predicate SameStatusOutside(before: map<Id, PairRow>, after: map<Id, PairRow>, visited: set<Id>) {
    before.Keys == after.Keys && forall p :: p in before && p !in visited ==> after[p].status == before[p].status
  }

  lemma Unvisited(order: seq<Id>, i: nat)
    requires Distinct(order) && i < |order|
    ensures order[i] !in Members(order[..i]) && Members(order[..i + 1]) == Members(order[..i]) + {order[i]}
  {
    assert order[..i + 1] == order[..i] + [order[i]];
  }

  /** Only this pair's status may differ. */
  ghost predicate SameStatusBut(before: map<Id, PairRow>, after: map<Id, PairRow>, p: Id) {
    before.Keys == after.Keys && forall q :: q in before && q != p ==> after[q].status == before[q].status
  }

  lemma OneStatus(t: Tables, w: World, id: Id, now: int)
    ensures var u := RunVerdict(t, w, id, now);
      && SameStatusBut(t.pairs, u.pairs, id)
      && (id in t.pairs ==>
        u.pairs[id].status == if Judgeable(t, id) then Judge(t, w, id, now).verdict else t.pairs[id].status)
  {
  }

  lemma OutsideStep(start: map<Id, PairRow>, before: map<Id, PairRow>, after: map<Id, PairRow>, visited: set<Id>, p: Id)
    requires SameStatusOutside(start, before, visited) && SameStatusBut(before, after, p)
    ensures SameStatusOutside(start, after, visited + {p})
  {
  }

  /** One more pair judged, for the first time. */
  lemma DemotedStep(start: map<Id, PairRow>, before: map<Id, PairRow>, after: map<Id, PairRow>, p: Id)
    requires start.Keys == before.Keys && SameStatusBut(before, after, p) && p in start &&
      before[p].status == start[p].status
    ensures |Demoted(start, after)| == |Demoted(start, before)| +
      if start[p].status == AutoVerified && after[p].status == NeedsReview then 1 else 0
  {
    if start[p].status == AutoVerified && after[p].status == NeedsReview {
      assert Demoted(start, after) == Demoted(start, before) + {p} && p !in Demoted(start, before);
    } else {
      assert Demoted(start, after) == Demoted(start, before);
    }
  }

  /** The first i pairs of the listing have been judged, and so many of them demoted. */
  ghost predicate JudgedSoFar(start: Tables, t: Tables, w: World, order: seq<Id>, i: nat, now: int, demoted: nat)
    requires i <= |order|
  {
    && t == RunAll(start, w, order[..i], now) && SameStatusOutside(start.pairs, t.pairs, Members(order[..i]))
    && demoted == |Demoted(start.pairs, t.pairs)|
  }

  predicate LeavesForReview(start: Tables, t: Tables, w: World, p: Id, now: int) {
    p in start.pairs && start.pairs[p].status == AutoVerified && Judgeable(t, p) &&
      Judge(t, w, p, now).verdict == NeedsReview
  }

  lemma JudgedOneMore(start: Tables, t: Tables, w: World, order: seq<Id>, i: nat, now: int, demoted: nat)
    requires Distinct(order) && i < |order| && order[i] in start.pairs &&
      JudgedSoFar(start, t, w, order, i, now, demoted)
    ensures JudgedSoFar(start, RunVerdict(t, w, order[i], now), w, order, i + 1, now,
              demoted + if LeavesForReview(start, t, w, order[i], now) then 1 else 0)
  {
    var u, p := RunVerdict(t, w, order[i], now), order[i];
    OneStatus(t, w, p, now);
    Unvisited(order, i);
    OutsideStep(start.pairs, t.pairs, u.pairs, Members(order[..i]), p);
    DemotedStep(start.pairs, t.pairs, u.pairs, p);
    assert order[..i + 1][..i] == order[..i];
  }

  /** How a pair came out of a pass: `Failed` when it could not be loaded. */
  datatype Tally = SkippedManual | Verdict(status: Status) | Failed

  function CountOf(tallies: map<Tally, nat>, key: Tally): nat {
    if key in tallies then tallies[key] else 0
  }

  function TallyOf(before: Tables, after: Tables, p: Id): Tally
    requires p in after.pairs
  {
    if !Loadable(before, p) then Failed
    else if IsManual(before.pairs[p].status) then SkippedManual
    else Verdict(after.pairs[p].status)
  }

  function Tallied(before: Tables, after: Tables, ids: set<Id>, key: Tally): set<Id> {
    set p | p in ids && p in after.pairs && TallyOf(before, after, p) == key
  }

  lemma TalliedStep(start: Tables, before: Tables, after: Tables, visited: set<Id>, p: Id, key: Tally)
    requires SameStatusBut(before.pairs, after.pairs, p) && p in after.pairs && p !in visited
    ensures |Tallied(start, after, visited + {p}, key)| ==
      |Tallied(start, before, visited, key)| + if TallyOf(start, after, p) == key then 1 else 0
  {
    var a, b := Tallied(start, before, visited, key), Tallied(start, after, visited + {p}, key);
    forall q | q != p ensures q in a <==> q in b {
      SameTally(start, before, after, p, q);
    }
    assert p !in a;
    if TallyOf(start, after, p) == key {
      assert b == a + {p};
    } else {
      assert b == a;
    }
  }

  lemma SameTally(start: Tables, before: Tables, after: Tables, p: Id, q: Id)
    requires SameStatusBut(before.pairs, after.pairs, p) && q != p
    ensures q in before.pairs <==> q in after.pairs
    ensures q in before.pairs ==> TallyOf(start, before, q) == TallyOf(start, after, q)
  {
  }

  /** Every key counts the pairs that came out so. */
  ghost predicate TalliesAre(tallies: map<Tally, nat>, before: Tables, after: Tables, ids: set<Id>) {
    forall k: Tally :: CountOf(tallies, k) == |Tallied(before, after, ids, k)|
  }

  lemma TalliesIgnoreTokens(tallies: map<Tally, nat>, before: Tables, after: Tables, later: Tables, ids: set<Id>)
    requires TalliesAre(tallies, before, after, ids) && later.pairs == after.pairs
    ensures TalliesAre(tallies, before, later, ids)
  {
    forall k: Tally ensures CountOf(tallies, k) == |Tallied(before, later, ids, k)| {
      assert Tallied(before, later, ids, k) == Tallied(before, after, ids, k);
    }
  }

  /** The tallies after one more pair are the tallies of one more pair. */
  lemma CountedStep(start: Tables, before: Tables, after: Tables, visited: set<Id>, p: Id, counted: map<Tally, nat>,
                    key: Tally)
    requires SameStatusBut(before.pairs, after.pairs, p) && p in after.pairs && p !in visited &&
      key == TallyOf(start, after, p)
    requires TalliesAre(counted, start, before, visited)
    ensures TalliesAre(counted[key := CountOf(counted, key) + 1], start, after, visited + {p})
  {
    forall k: Tally
      ensures CountOf(counted[key := CountOf(counted, key) + 1], k) == |Tallied(start, after, visited + {p}, k)|
    {
      TalliedStep(start, before, after, visited, p, k);
    }
  }

  /** How the outcome of one run tells the tally. */
  lemma OutcomeTells(start: Tables, before: Tables, w: World, p: Id, now: int)
    requires SameInputs(start, before) && p in start.pairs && before.pairs[p].status == start.pairs[p].status
    ensures p in RunVerdict(before, w, p, now).pairs
    ensures TallyOf(start, RunVerdict(before, w, p, now), p) ==
      if !Loadable(before, p) then Failed else if !Judgeable(before, p) then SkippedManual
        else Verdict(Judge(before, w, p, now).verdict)
  {
    LoadableThroughout(start, before, p);
    OneStatus(before, w, p, now);
  }

  lemma LoadableThroughout(t: Tables, u: Tables, p: Id)
    requires SameInputs(t, u)
    ensures Loadable(t, p) <==> Loadable(u, p)
  {
    if p in t.pairs { assert SamePairInputs(t.pairs[p], u.pairs[p]); }
  }

  /** The flagged tokens that stand at AutoVerified, of those in scope. */
  function FlaggedAndVerified(tokens: map<Id, TokenRow>, scope: Option<set<Id>>): set<Id> {
    set id | id in tokens && tokens[id].isScamFlagged && tokens[id].status == AutoVerified &&
      (scope.Some? ==> id in scope.value)
  }

  lemma {:induction false} FlaggedKeepStatus(t: Tables, w: World, ids: seq<Id>, now: int)
    ensures FlaggedAndVerified(RunAll(t, w, ids, now).tokens, None) == FlaggedAndVerified(t.tokens, None)
  {
    if ids != [] {
      var before, u := RunAll(t, w, ids[..|ids| - 1], now), RunAll(t, w, ids, now);
      FlaggedKeepStatus(t, w, ids[..|ids| - 1], now);
      FlaggedKeepStatusOnce(before, w, ids[|ids| - 1], now);
    }
  }

  lemma FlaggedKeepStatusOnce(t: Tables, w: World, id: Id, now: int)
    ensures FlaggedAndVerified(RunVerdict(t, w, id, now).tokens, None) == FlaggedAndVerified(t.tokens, None)
  {
    if Judgeable(t, id) {
      PromoteKeepsFlagged(t, {t.pairs[id].token0, t.pairs[id].token1}, now);
    }
  }

  lemma PromoteKeepsFlagged(t: Tables, ids: set<Id>, now: int)
    ensures FlaggedAndVerified(Promote(t, ids, now).tokens, None) == FlaggedAndVerified(t.tokens, None)
  {
  }

  lemma RunAllKeepsFlags(t: Tables, w: World, ids: seq<Id>, now: int)
    ensures var u := RunAll(t, w, ids, now);
      u.tokens.Keys == t.tokens.Keys && forall k :: k in t.tokens ==>
        u.tokens[k].isScamFlagged == t.tokens[k].isScamFlagged
  {
    var u := RunAll(t, w, ids, now);
    RunAllKeepsInputs(t, w, ids, now);
    forall k | k in t.tokens ensures u.tokens[k].isScamFlagged == t.tokens[k].isScamFlagged {
      assert SameTokenInputs(t.tokens[k], u.tokens[k]);
    }
  }

  lemma GatheredIsRow(t: Tables, w: World, id: Id, now: int, input: VerdictPair, context: VerdictContext)
    requires Loadable(t, id) && (input, context) == ContextOf(t, w, id, now)
    ensures ColumnsOf(input, context) == RowColumns(t, w, id, now)
  {
    ContextIsRow(t, w, id, now);
  }

  class Database {
    var pairs: map<Id, PairRow>
    var tokens: map<Id, TokenRow>

    function Value(): Tables
      reads this
    {
      Tables(pairs, tokens)
    }

    /** `updateMany`: changes every matching row and counts them. */
    method UpdateTokens(where: TokenFilter, change: TokenRow -> TokenRow) returns (count: nat)
      modifies this`tokens
      ensures tokens == Updated(old(tokens), where, change)
      ensures count == |Matching(old(tokens), where)|
    {
      count := |Matching(tokens, where)|;
      tokens := Updated(tokens, where, change);
    }

    /** Two batch writes, rows already at the status first: together the row-by-row write, each row counted once. */
    method SetStatusWhere(where: TokenFilter, status: Status, now: int) returns (count: nat)
      modifies this`tokens
      ensures tokens == SetWhere(old(tokens), where, status, now)
      ensures count == |Matching(old(tokens), where)|
    {
      TwoWritesAreOne(tokens, where, status, now);
      var same := UpdateTokens(AtStatus(where, status), Restamp(status));
      var changed := UpdateTokens(NotAtStatus(where, status), Move(status, now));
      count := same + changed;
    }

    method PromoteTokensToVerified(ids: seq<Id>, now: int)
      modifies this`tokens
      ensures Value() == Promote(old(Value()), Members(ids), now)
    {
      if |ids| == 0 {
        assert SetWhere(tokens, Promotable(Members(ids)), AutoVerified, now) == tokens;
        return;
      }
      var _ := SetStatusWhere(Promotable(Members(ids)), AutoVerified, now);
    }

    method DemoteScamFlaggedTokens(scope: Option<set<Id>>, now: int) returns (count: nat)
      modifies this`tokens
      ensures Value() == Demote(old(Value()), scope, now)
      ensures count == |FlaggedAndVerified(old(tokens), scope)|
    {
      assert Matching(tokens, FlaggedVerified(scope)) == FlaggedAndVerified(tokens, scope);
      count := SetStatusWhere(FlaggedVerified(scope), NeedsReview, now);
    }

    /** The two pairs list different contracts on one source. */
    predicate ConflictsWith(id: Id, o: Id)
      requires id in pairs && o in pairs
      reads this
    {
      SameSource(pairs[id], pairs[o]) && TokenSetOf(Value(), pairs[id]) != TokenSetOf(Value(), pairs[o])
    }

    /** Whether a verified pair with this key stands on another source, and whether one on the same
        source lists other contracts. */
    method FindOthers(id: Id, key: Option<Str>) returns (hasVerifiedSibling: bool, hasIntraConflict: bool)
      requires id in pairs
      ensures hasVerifiedSibling == HasVerifiedSibling(Value(), id, key)
      ensures hasIntraConflict == HasIntraConflict(Value(), id, key)
    {
      if key.None? {
        return false, false;
      }
      var others := set o | o in pairs && o != id && pairs[o].canonicalKey == key;
      hasVerifiedSibling := exists o :: o in others && !SameSource(pairs[id], pairs[o]) && IsVerified(pairs[o].status);
      hasIntraConflict := exists o :: o in others && ConflictsWith(id, o);
      if HasIntraConflict(Value(), id, key) {
        ghost var o :| o in pairs && o != id && pairs[o].canonicalKey == key
          && SameSource(pairs[id], pairs[o]) && TokenSetOf(Value(), pairs[id]) != TokenSetOf(Value(), pairs[o]);
        assert o in others && ConflictsWith(id, o);
      }
    }

    /** Both tokens' canonical contracts from the cache, and on a conflict live where the cache has none. */
    method FindCanonical(w: World, chain: Str, id0: Str, id1: Str, conflict: bool)
      returns (canonical0: Option<Str>, canonical1: Option<Str>)
      ensures canonical0 == CanonicalAddress(w, id0, chain, conflict)
      ensures canonical1 == CanonicalAddress(w, id1, chain, conflict)
    {
      canonical0, canonical1 := None, None;
      if id0 != [] { canonical0 := w.cachedCanonical(id0, chain); }
      if id1 != [] { canonical1 := w.cachedCanonical(id1, chain); }
      if conflict {
        if !Known(canonical0) && id0 != [] { canonical0 := w.liveCanonical(id0, chain); }
        if !Known(canonical1) && id1 != [] { canonical1 := w.liveCanonical(id1, chain); }
      }
    }

    method BuildVerdictContext(w: World, id: Id, now: int) returns (input: VerdictPair, context: VerdictContext)
      requires Loadable(Value(), id)
      ensures (input, context) == ContextOf(Value(), w, id, now)
      ensures ColumnsOf(input, context) == RowColumns(Value(), w, id, now)
    {
      var p := pairs[id];
      var t0, t1 := tokens[p.token0], tokens[p.token1];
      var key := CanonicalKey(t0.coingeckoCoinId, t1.coingeckoCoinId);
      var hasVerifiedSibling, hasIntraConflict := FindOthers(id, key);
      var canonical0, canonical1 := FindCanonical(w, p.chain, t0.coingeckoCoinId, t1.coingeckoCoinId, hasIntraConflict);
      var intraChainImpostorLoser := false;
      if hasIntraConflict {
        var canonicalKnown := Known(canonical0) && Known(canonical1);
        var matches := AddrEq(t0.contractAddress, canonical0) && AddrEq(t1.contractAddress, canonical1);
        intraChainImpostorLoser := canonicalKnown && !matches;
      }
      context := VerdictContext(now, w.config(p.chain, p.dex), key, hasVerifiedSibling, intraChainImpostorLoser,
        t0.isScamFlagged || t1.isScamFlagged, p.hooked, p.subgraphPresent == Some(false),
        p.factoryAddress, w.canonicalFactory(p.chain, p.dex),
        w.firstParty(p.chain, t0.contractAddress) || w.firstParty(p.chain, t1.contractAddress),
        w.reserveTrusted(p.chain), p.lastChecked);
      input := VerdictPair(p.reserveUsd, p.volumeUsd, p.txCount,
        TokenInput(t0, p.token0PriceCg, p.token0PriceDex, canonical0),
        TokenInput(t1, p.token1PriceCg, p.token1PriceDex, canonical1));
      assert (input, context) == ContextOf(Value(), w, id, now);
      GatheredIsRow(Value(), w, id, now, input, context);
    }

    /** Without `persist` the pair is judged all the same and nothing is written. */
    method RunVerdictForPair(w: World, id: Id, now: int, persist: bool) returns (outcome: RunOutcome)
      modifies this
      ensures Value() == if persist then RunVerdict(old(Value()), w, id, now) else old(Value())
      ensures outcome.found == Loadable(old(Value()), id)
      ensures outcome.persisted == (persist && Judgeable(old(Value()), id))
      ensures outcome.skippedManual == (Loadable(old(Value()), id) && !Judgeable(old(Value()), id))
      ensures outcome.result == if Judgeable(old(Value()), id) then Some(Judge(old(Value()), w, id, now)) else None
    {
      if !Loadable(Value(), id) {
        return RunOutcome(false, false, false, None);
      }
      var pair := pairs[id];
      if pair.status == ManualVerified || pair.status == ManualRejected {
        return RunOutcome(true, false, true, None);
      }
      var input, context := BuildVerdictContext(w, id, now);
      var result := EvaluatePair(input, context);
      if persist {
        pairs := pairs[id := JudgedRow(pair, result, now)];
        if IsVerified(result.verdict) {
          assert Members([pair.token0, pair.token1]) == {pair.token0, pair.token1};
          PromoteTokensToVerified([pair.token0, pair.token1], now);
        }
      }
      outcome := RunOutcome(true, persist, false, Some(result));
    }

    /** The pairs of a token, in whatever order the query returns them. */
    method FindPairsOf(token: Id) returns (ids: seq<Id>)
      ensures Lists(ids, PairsOf(Value(), token)) && |ids| == |PairsOf(Value(), token)| && Distinct(ids)
    {
      ids := ListOf(PairsOf(Value(), token));
    }

    /** The loop of a scam check: the pairs judged again, and how many left AutoVerified for review. */
    method JudgeAgain(w: World, order: seq<Id>, now: int) returns (demotedPairs: nat)
      requires Distinct(order) && forall id :: id in order ==> id in pairs
      modifies this
      ensures Value() == RunAll(old(Value()), w, order, now)
      ensures demotedPairs == |Demoted(old(pairs), pairs)|
    {
      ghost var stored := Value();
      demotedPairs := 0;
      var wasVerified := set p | p in pairs && pairs[p].status == AutoVerified;
      assert Demoted(pairs, pairs) == {};
      for i := 0 to |order|
        invariant JudgedSoFar(stored, Value(), w, order, i, now, demotedPairs)
      {
        assert order[i] in order;
        JudgedOneMore(stored, Value(), w, order, i, now, demotedPairs);
        var out := RunVerdictForPair(w, order[i], now, true);
        if order[i] in wasVerified && out.result.Some? && out.result.value.verdict == NeedsReview {
          demotedPairs := demotedPairs + 1;
        }
      }
      assert order[..|order|] == order;
    }

    method RunScamCheckForToken(w: World, token: Id, now: int, security: Option<Security>, honeypot: Option<bool>)
      returns (outcome: ScamOutcome, order: seq<Id>)
      modifies this
      ensures Lists(order, PairsOf(old(Value()), token))
      ensures Value() == ScamCheck(old(Value()), w, token, now, security, honeypot, order)
      ensures outcome.checked <==>
        token in old(tokens) && w.evmChain(old(tokens)[token].chain) && (security.Some? || honeypot.Some?)
      ensures outcome.flagged == (outcome.checked && IsScam(security, honeypot))
      ensures outcome.demotedPairs == |Demoted(old(pairs), pairs)|
    {
      order := FindPairsOf(token);
      if token !in tokens {
        assert Demoted(pairs, pairs) == {};
        return ScamOutcome(false, false, 0), order;
      }
      var row := tokens[token];
      assert Demoted(pairs, pairs) == {};
      if !w.evmChain(row.chain) {
        return ScamOutcome(false, false, 0), order;
      }
      if security.None? && honeypot.None? {
        tokens := tokens[token := row.(scamCheckedAt := now)];
        return ScamOutcome(false, false, 0), order;
      }
      var flagged := IsScam(security, honeypot);
      tokens := tokens[token := row.(
        goPlus := if security.Some? then security else row.goPlus,
        honeypot := if honeypot.Some? then honeypot else row.honeypot,
        isScamFlagged := flagged, scamCheckedAt := now)];
      var demotedPairs := 0;
      if flagged {
        demotedPairs := JudgeAgain(w, order, now);
        var _ := DemoteScamFlaggedTokens(Some({token}), now);
      }
      outcome := ScamOutcome(true, flagged, demotedPairs);
    }

    /** The loop of a rescore: the pairs judged again. */
    method JudgeListed(w: World, order: seq<Id>, now: int)
      modifies this
      ensures Value() == RunAll(old(Value()), w, order, now)
      ensures tokens.Keys == old(tokens).Keys && forall k :: k in tokens ==>
        tokens[k].isScamFlagged == old(tokens)[k].isScamFlagged
    {
      ghost var stored := Value();
      for i := 0 to |order|
        invariant Value() == RunAll(stored, w, order[..i], now)
      {
        var _ := RunVerdictForPair(w, order[i], now, true);
        assert order[..i + 1][..i] == order[..i];
      }
      assert order[..|order|] == order;
      RunAllKeepsFlags(stored, w, order, now);
    }

    method RescoreScamForToken(w: World, token: Id, now: int) returns (outcome: RescoreOutcome, order: seq<Id>)
      modifies this
      ensures Lists(order, PairsOf(old(Value()), token))
      ensures Value() == Rescore(old(Value()), w, token, now, order)
      ensures outcome.affectedPairs == if outcome.changed then |order| else 0
      ensures outcome.flagged ==
        (token in old(tokens) && HasCachedAnswer(old(tokens)[token]) && token in tokens && tokens[token].isScamFlagged)
      ensures outcome.changed <==>
        token in old(tokens) && token in tokens && tokens[token].isScamFlagged != old(tokens)[token].isScamFlagged
    {
      order := FindPairsOf(token);
      if token !in tokens {
        return RescoreOutcome(false, false, 0), order;
      }
      var row := tokens[token];
      if row.goPlus.None? && row.honeypot.None? {
        return RescoreOutcome(false, false, 0), order;
      }
      var flagged := IsScam(row.goPlus, row.honeypot);
      if flagged == row.isScamFlagged {
        return RescoreOutcome(false, flagged, 0), order;
      }
      tokens := tokens[token := row.(isScamFlagged := flagged)];
      JudgeListed(w, order, now);
      if flagged {
        var _ := DemoteScamFlaggedTokens(Some({token}), now);
      }
      outcome := RescoreOutcome(true, flagged, |order|);
    }

    /** The loop of a re-validation: every listed pair judged, and how each came out counted. */
    method JudgeEach(w: World, order: seq<Id>, now: int) returns (tallies: map<Tally, nat>)
      requires Distinct(order) && forall id :: id in order ==> id in pairs
      modifies this
      ensures Value() == RunAll(old(Value()), w, order, now)
      ensures TalliesAre(tallies, old(Value()), Value(), Members(order))
    {
      tallies := map[];
      ghost var before := Value();
      for i := 0 to |order|
        invariant Value() == RunAll(before, w, order[..i], now)
        invariant SameStatusOutside(before.pairs, pairs, Members(order[..i]))
        invariant TalliesAre(tallies, before, Value(), Members(order[..i]))
      {
        ghost var middle, visited := Value(), Members(order[..i]);
        assert order[i] in order;
        Unvisited(order, i);
        RunAllKeepsInputs(before, w, order[..i], now);
        OutcomeTells(before, middle, w, order[i], now);
        OneStatus(middle, w, order[i], now);
        var out := RunVerdictForPair(w, order[i], now, true);
        var key := if out.skippedManual then SkippedManual
          else if out.result.Some? then Verdict(out.result.value.verdict) else Failed;
        assert order[..i + 1][..i] == order[..i];
        OutsideStep(before.pairs, middle.pairs, pairs, visited, order[i]);
        CountedStep(before, middle, Value(), visited, order[i], tallies, key);
        tallies := tallies[key := CountOf(tallies, key) + 1];
      }
      assert order[..|order|] == order;
    }

    /** Counts how each pair came out, and the flagged tokens swept out of AutoVerified: no verdict
        promotes a flagged token, so these are the ones that stood there at the start. */
    method RevalidatePass(w: World, now: int, sweptAt: int)
      returns (count: nat, tallies: map<Tally, nat>, scamTokensDemoted: nat, order: seq<Id>)
      modifies this
      ensures Lists(order, old(pairs).Keys) && count == |old(pairs).Keys|
      ensures Value() == Revalidate(old(Value()), w, now, Revalidation(order, sweptAt))
      ensures TalliesAre(tallies, old(Value()), Value(), old(pairs).Keys)
      ensures scamTokensDemoted == |FlaggedAndVerified(old(tokens), None)|
    {
      order := ListOf(pairs.Keys);
      assert Members(order) == pairs.Keys;
      tallies := JudgeEach(w, order, now);
      FlaggedKeepStatus(old(Value()), w, order, now);
      ghost var judged := Value();
      scamTokensDemoted := DemoteScamFlaggedTokens(None, sweptAt);
      TalliesIgnoreTokens(tallies, old(Value()), judged, Value(), Members(order));
      count := |order|;
    }
  }

  /** Some listing of a set, each element once. */
  method ListOf(ids: set<Id>) returns (order: seq<Id>)
    ensures Lists(order, ids) && |order| == |ids| && Distinct(order)
  {
    order := [];
    var rest := ids;
    while rest != {}
      invariant rest <= ids && |order| + |rest| == |ids| && Distinct(order)
      invariant forall id :: id in order <==> id in ids && id !in rest
    {
      var id :| id in rest;
      rest := rest - {id};
      order := order + [id];
    }
  }
}
