/** What every pass step keeps. */
module Trust {
  // Operator statuses never change, and automatic verification never stands on a scam-flagged or unverified token.

  import opened Wrappers
  import opened JsString
  import opened Verdict
  import opened Tables
  import opened Passes

  // ----- the invariant -------------------------------------------------------

  /** Every pair has its token rows. */
  ghost predicate Linked(t: Tables) {
    forall p :: p in t.pairs ==> Loadable(t, p)
  }

  predicate Trusted(s: Status) { s == AutoVerified || IsManual(s) }

  /** An auto-verified pair stands on two unflagged tokens that are auto-verified or operator-set. */
  predicate PairSound(t: Tables, p: Id)
    requires Loadable(t, p)
  {
    t.pairs[p].status == AutoVerified ==>
      var t0, t1 := t.tokens[t.pairs[p].token0], t.tokens[t.pairs[p].token1];
      !t0.isScamFlagged && !t1.isScamFlagged && Trusted(t0.status) && Trusted(t1.status)
  }

  /** No token is both flagged and auto-verified. */
  predicate TokenSound(r: TokenRow) {
    !(r.isScamFlagged && r.status == AutoVerified)
  }

  ghost predicate Sound(t: Tables) {
    && Linked(t)
    && (forall p :: p in t.pairs ==> PairSound(t, p))
    && (forall k :: k in t.tokens ==> TokenSound(t.tokens[k]))
  }

  /** No operator status has changed. */
  ghost predicate ManualKept(t: Tables, u: Tables) {
    && (forall p :: p in t.pairs && IsManual(t.pairs[p].status) ==>
      p in u.pairs && u.pairs[p].status == t.pairs[p].status)
    && (forall k :: k in t.tokens && IsManual(t.tokens[k].status) ==>
      k in u.tokens && u.tokens[k].status == t.tokens[k].status)
  }

  lemma ManualKeptTransitive(t: Tables, u: Tables, v: Tables)
    requires ManualKept(t, u) && ManualKept(u, v)
    ensures ManualKept(t, v)
  {
  }

  // ----- one verdict ---------------------------------------------------------

  /** The tables once the result is written: the pair's row, and its tokens' promotion when it is verified. */
  function WriteVerdict(t: Tables, id: Id, r: VerdictResult, now: int): Tables
    requires id in t.pairs
  {
    var judged := t.(pairs := t.pairs[id := JudgedRow(t.pairs[id], r, now)]);
    if IsVerified(r.verdict) then Promote(judged, {t.pairs[id].token0, t.pairs[id].token1}, now) else judged
  }

  /** A result the engine may return for the pair: no operator's status, and verified only without a flag. */
  predicate SafeResult(t: Tables, id: Id, r: VerdictResult)
    requires Loadable(t, id)
  {
    && !IsManual(r.verdict)
    && (r.verdict == AutoVerified ==>
      !t.tokens[t.pairs[id].token0].isScamFlagged && !t.tokens[t.pairs[id].token1].isScamFlagged)
  }

  lemma JudgeIsSafe(t: Tables, w: World, id: Id, now: int)
    requires Loadable(t, id)
    ensures SafeResult(t, id, Judge(t, w, id, now))
  {
    var (input, context) := ContextOf(t, w, id, now);
    VerdictShape(input, context);
  }

  lemma RunVerdictWrites(t: Tables, w: World, id: Id, now: int) returns (r: VerdictResult)
    requires Judgeable(t, id)
    ensures SafeResult(t, id, r) && RunVerdict(t, w, id, now) == WriteVerdict(t, id, r, now)
  {
    r := Judge(t, w, id, now);
    JudgeIsSafe(t, w, id, now);
  }

  /** Judging a pair makes it sound and unsettles nothing else. */
  lemma RunVerdictSound(t: Tables, w: World, id: Id, now: int)
    requires Linked(t)
    ensures var u := RunVerdict(t, w, id, now);
      && SameInputs(t, u) && Linked(u) && ManualKept(t, u)
      && (forall p :: p in t.pairs && (p == id || PairSound(t, p)) ==> PairSound(u, p))
      && (forall k :: k in t.tokens && TokenSound(t.tokens[k]) ==> TokenSound(u.tokens[k]))
  {
    RunVerdictKeepsInputs(t, w, id, now);
    if Judgeable(t, id) {
      var r := RunVerdictWrites(t, w, id, now);
      WriteVerdictSound(t, id, r, now);
    }
  }

  lemma WriteVerdictSound(t: Tables, id: Id, r: VerdictResult, now: int)
    requires Linked(t) && Judgeable(t, id) && SafeResult(t, id, r)
    ensures var u := WriteVerdict(t, id, r, now);
      && Linked(u) && ManualKept(t, u)
      && (forall p :: p in t.pairs && (p == id || PairSound(t, p)) ==> PairSound(u, p))
      && (forall k :: k in t.tokens && TokenSound(t.tokens[k]) ==> TokenSound(u.tokens[k]))
  {
    var p := t.pairs[id];
    var judged := t.(pairs := t.pairs[id := JudgedRow(p, r, now)]);
    JudgedElsewhere(t, id, r, now);
    if IsVerified(r.verdict) {
      PromoteSound(judged, {p.token0, p.token1}, now);
      ManualKeptTransitive(t, judged, WriteVerdict(t, id, r, now));
    }
  }

  /** Writing one pair's verdict leaves every other pair as sound as it was. */
  lemma JudgedElsewhere(t: Tables, id: Id, r: VerdictResult, now: int)
    requires Linked(t) && id in t.pairs && !IsManual(t.pairs[id].status)
    ensures var u := t.(pairs := t.pairs[id := JudgedRow(t.pairs[id], r, now)]);
      && Linked(u) && ManualKept(t, u)
      && forall p :: p in t.pairs && p != id && PairSound(t, p) ==> PairSound(u, p)
  {
    var u := t.(pairs := t.pairs[id := JudgedRow(t.pairs[id], r, now)]);
    forall p | p in t.pairs ensures Loadable(u, p) {
      assert Loadable(t, p) && Loadable(t, id);
    }
  }

  /** Promotion only raises unflagged tokens, so it breaks nothing. */
  lemma PromoteSound(t: Tables, ids: set<Id>, now: int)
    requires Linked(t)
    ensures var u := Promote(t, ids, now);
      && Linked(u) && ManualKept(t, u) && u.pairs == t.pairs && u.tokens.Keys == t.tokens.Keys
      && (forall p :: p in t.pairs && PairSound(t, p) ==> PairSound(u, p))
      && (forall k :: k in t.tokens && TokenSound(t.tokens[k]) ==> TokenSound(u.tokens[k]))
      && (forall k :: k in t.tokens && k in ids && !t.tokens[k].isScamFlagged ==>
            !u.tokens[k].isScamFlagged && Trusted(u.tokens[k].status))
  {
    var u := Promote(t, ids, now);
    forall p | p in t.pairs ensures Loadable(u, p) {
      assert Loadable(t, p);
    }
  }

  lemma {:induction false} RunAllSound(t: Tables, w: World, ids: seq<Id>, now: int)
    requires Linked(t)
    ensures var u := RunAll(t, w, ids, now);
      && SameInputs(t, u) && Linked(u) && ManualKept(t, u)
      && (forall p :: p in t.pairs && (p in ids || PairSound(t, p)) ==> PairSound(u, p))
      && (forall k :: k in t.tokens && TokenSound(t.tokens[k]) ==> TokenSound(u.tokens[k]))
  {
    RunAllKeepsInputs(t, w, ids, now);
    if ids != [] {
      var front, last := ids[..|ids| - 1], ids[|ids| - 1];
      var before := RunAll(t, w, front, now);
      RunAllSound(t, w, front, now);
      RunVerdictSound(before, w, last, now);
      ManualKeptTransitive(t, before, RunAll(t, w, ids, now));
      assert ids == front + [last];
    }
  }

  /** The sweep repairs the tokens in its scope and touches no sound pair and no operator status. */
  lemma DemoteSound(t: Tables, scope: Option<set<Id>>, now: int)
    requires Linked(t)
    ensures var u := Demote(t, scope, now);
      && Linked(u) && ManualKept(t, u) && u.pairs == t.pairs && u.tokens.Keys == t.tokens.Keys
      && (forall p :: p in t.pairs && PairSound(t, p) ==> PairSound(u, p))
      && (forall k :: k in t.tokens && (TokenSound(t.tokens[k]) || (scope.Some? ==> k in scope.value)) ==>
        TokenSound(u.tokens[k]))
  {
  }

  // ----- each pass step ------------------------------------------------------

  /** A token row is replaced by one with the same status and with a flag only where stated. */
  lemma TokenUpdateSound(t: Tables, token: Id, r: TokenRow)
    requires Sound(t) && token in t.tokens && r.status == t.tokens[token].status
    ensures var u := t.(tokens := t.tokens[token := r]);
      && Linked(u) && ManualKept(t, u)
      && (!r.isScamFlagged || t.tokens[token].isScamFlagged ==> Sound(u))
      && (forall p :: p in t.pairs && p !in PairsOf(t, token) ==> PairSound(u, p))
      && (forall k :: k in t.tokens && k != token ==> TokenSound(u.tokens[k]))
      && PairsOf(u, token) == PairsOf(t, token)
  {
    var u := t.(tokens := t.tokens[token := r]);
    forall p | p in t.pairs ensures Loadable(u, p) {
      assert Loadable(t, p);
    }
    forall p | p in t.pairs && p !in PairsOf(t, token) ensures PairSound(u, p) {
      assert PairSound(t, p);
    }
    if !r.isScamFlagged || t.tokens[token].isScamFlagged {
      forall p | p in t.pairs ensures PairSound(u, p) { assert PairSound(t, p); }
      assert TokenSound(t.tokens[token]);
    }
  }

  /** After a token is flagged, re-judging its pairs and demoting it restores the invariant. */
  lemma FlagThenRepair(t: Tables, w: World, token: Id, r: TokenRow, now: int, order: seq<Id>)
    requires Sound(t) && token in t.tokens && r.status == t.tokens[token].status && Lists(order, PairsOf(t, token))
    ensures var u := Demote(RunAll(t.(tokens := t.tokens[token := r]), w, order, now), Some({token}), now);
      Sound(u) && ManualKept(t, u)
  {
    var stored := t.(tokens := t.tokens[token := r]);
    TokenUpdateSound(t, token, r);
    var judged := RunAll(stored, w, order, now);
    RunAllSound(stored, w, order, now);
    DemoteSound(judged, Some({token}), now);
    ManualKeptTransitive(t, stored, judged);
    ManualKeptTransitive(t, judged, Demote(judged, Some({token}), now));
  }

  /** Re-judging any pairs of sound tables keeps them sound. */
  lemma RejudgeSound(t: Tables, w: World, order: seq<Id>, now: int)
    requires Sound(t)
    ensures Sound(RunAll(t, w, order, now)) && ManualKept(t, RunAll(t, w, order, now))
  {
    RunAllSound(t, w, order, now);
  }

  lemma ScamCheckSound(t: Tables, w: World, token: Id, now: int, security: Option<Security>, honeypot: Option<bool>,
                       order: seq<Id>)
    requires Sound(t) && Lists(order, PairsOf(t, token))
    ensures var u := ScamCheck(t, w, token, now, security, honeypot, order); Sound(u) && ManualKept(t, u)
  {
    if token in t.tokens && w.evmChain(t.tokens[token].chain) {
      var r := WithScamAnswer(t.tokens[token], now, security, honeypot);
      TokenUpdateSound(t, token, r);
      FlagThenRepair(t, w, token, r, now, order);
    }
  }

  lemma ReviewScanSound(t: Tables, w: World, token: Id, now: int, security: Option<Security>, honeypot: Option<bool>,
                        order: seq<Id>)
    requires Sound(t) && Lists(order, PairsOf(t, token))
    ensures var u := ReviewScan(t, w, token, now, security, honeypot, order); Sound(u) && ManualKept(t, u)
  {
    if token in t.tokens {
      var scanned := ScamCheck(t, w, token, now, security, honeypot, order);
      ScamCheckSound(t, w, token, now, security, honeypot, order);
      ScamCheckKeepsTokens(t, w, token, now, security, honeypot, order);
      TokenUpdateSound(scanned, token, scanned.tokens[token].(securityCheckedAt := now));
      ManualKeptTransitive(t, scanned, ReviewScan(t, w, token, now, security, honeypot, order));
    }
  }

  lemma RescoreSound(t: Tables, w: World, token: Id, now: int, order: seq<Id>)
    requires Sound(t) && Lists(order, PairsOf(t, token))
    ensures var u := Rescore(t, w, token, now, order); Sound(u) && ManualKept(t, u)
  {
    if token in t.tokens {
      var r := t.tokens[token];
      var r' := r.(isScamFlagged := IsScam(r.goPlus, r.honeypot));
      var stored := t.(tokens := t.tokens[token := r']);
      TokenUpdateSound(t, token, r');
      FlagThenRepair(t, w, token, r', now, order);
      if !r'.isScamFlagged {
        RejudgeSound(stored, w, order, now);
        ManualKeptTransitive(t, stored, RunAll(stored, w, order, now));
      }
    }
  }

  lemma IdentityCheckSound(t: Tables, w: World, token: Id, now: int, baseS: int, confirmed: bool,
                           foundId: Option<Str>, order: seq<Id>)
    requires Sound(t)
    ensures var u := IdentityCheck(t, w, token, now, baseS, confirmed, foundId, order); Sound(u) && ManualKept(t, u)
  {
    if token in t.tokens {
      var r := t.tokens[token];
      TokenUpdateSound(t, token, r.(identityCheckedAt := now));
      var r' := r.(
        identityConfirmed := confirmed, identityCheckedAt := now,
        identityNextCheckAt := NextIdentityCheckAt(r, confirmed, now, baseS),
        coingeckoCoinId := if Known(foundId) then foundId.value else r.coingeckoCoinId);
      TokenUpdateSound(t, token, r');
      var stored := t.(tokens := t.tokens[token := r']);
      RejudgeSound(stored, w, order, now);
      ManualKeptTransitive(t, stored, RunAll(stored, w, order, now));
    }
  }

  lemma CanonicalCheckSound(t: Tables, w: World, token: Id, now: int, answer: Option<Str>, order: seq<Id>)
    requires Sound(t)
    ensures var u := CanonicalCheck(t, w, token, now, answer, order); Sound(u) && ManualKept(t, u)
  {
    if token in t.tokens {
      var r' := t.tokens[token].(canonicalCheckedAt := now);
      TokenUpdateSound(t, token, r');
      var stored := t.(tokens := t.tokens[token := r']);
      RejudgeSound(stored, w, order, now);
      ManualKeptTransitive(t, stored, RunAll(stored, w, order, now));
    }
  }

  lemma PairUpdateSound(t: Tables, pair: Id, row: PairRow)
    requires Sound(t) && row.token0 in t.tokens && row.token1 in t.tokens
    requires if pair in t.pairs then
        row.status == t.pairs[pair].status && row.token0 == t.pairs[pair].token0 && row.token1 == t.pairs[pair].token1
      else row.status == Unverified
    ensures var u := t.(pairs := t.pairs[pair := row]); Sound(u) && ManualKept(t, u)
  {
    var u := t.(pairs := t.pairs[pair := row]);
    forall p | p in u.pairs ensures Loadable(u, p) {
      if p != pair { assert Loadable(t, p); }
    }
    forall p | p in u.pairs ensures PairSound(u, p) {
      if p in t.pairs { assert Loadable(t, p) && PairSound(t, p); }
    }
  }

  lemma SameRowsSound(t: Tables, pair: Id, row: PairRow)
    requires Sound(t) && pair in t.pairs
    requires row.status == t.pairs[pair].status && row.token0 == t.pairs[pair].token0 &&
      row.token1 == t.pairs[pair].token1
    ensures var u := t.(pairs := t.pairs[pair := row]); Sound(u) && ManualKept(t, u)
  {
    assert Loadable(t, pair);
    PairUpdateSound(t, pair, row);
  }

  lemma RejudgeOneSound(t: Tables, w: World, pair: Id, now: int)
    requires Sound(t)
    ensures Sound(RunVerdict(t, w, pair, now)) && ManualKept(t, RunVerdict(t, w, pair, now))
  {
    RunVerdictSound(t, w, pair, now);
  }

  lemma FactoryCheckSound(t: Tables, w: World, pair: Id, now: int, factory: Option<Str>)
    requires Sound(t)
    ensures var u := FactoryCheck(t, w, pair, now, factory); Sound(u) && ManualKept(t, u)
  {
    if pair in t.pairs {
      var row := t.pairs[pair].(factoryAddress := factory, factoryCheckedAt := now);
      var stored := t.(pairs := t.pairs[pair := row]);
      SameRowsSound(t, pair, row);
      RejudgeOneSound(stored, w, pair, now);
      ManualKeptTransitive(t, stored, RunVerdict(stored, w, pair, now));
    }
  }

  lemma UpsertTokenSound(t: Tables, id: Id, chain: Str, f: TokenFacts, createdAt: Option<int>, now: int)
    requires Sound(t)
    ensures var u := UpsertToken(t, id, chain, f, createdAt, now);
      Sound(u) && ManualKept(t, u) && u.tokens.Keys == t.tokens.Keys + {id}
  {
    var u := UpsertToken(t, id, chain, f, createdAt, now);
    if id in t.tokens {
      TokenUpdateSound(t, id, u.tokens[id]);
    } else {
      forall p | p in u.pairs ensures Loadable(u, p) && PairSound(u, p) {
        assert Loadable(t, p) && PairSound(t, p);
      }
    }
  }

  lemma IngestPoolSound(t: Tables, w: World, now: int, f: PoolFacts, base: Id, quote: Id, pair: Id)
    requires Sound(t)
    ensures var u := IngestPool(t, w, now, f, base, quote, pair); Sound(u) && ManualKept(t, u)
  {
    var t1 := UpsertToken(t, base, f.chain, f.base, f.createdAt, now);
    UpsertTokenSound(t, base, f.chain, f.base, f.createdAt, now);
    var t2 := UpsertToken(t1, quote, f.chain, f.quote, f.createdAt, now);
    UpsertTokenSound(t1, quote, f.chain, f.quote, f.createdAt, now);
    var t3 := UpsertPair(t2, pair, base, quote, f, now);
    if pair in t2.pairs { assert Loadable(t2, pair); }
    PairUpdateSound(t2, pair, t3.pairs[pair]);
    RejudgeOneSound(t3, w, pair, now);
    ManualKeptTransitive(t, t1, t2);
    ManualKeptTransitive(t, t2, t3);
    ManualKeptTransitive(t, t3, RunVerdict(t3, w, pair, now));
  }

  /** A full re-validation makes any linked tables sound, whatever state they were in. */
  lemma RevalidateRepairs(t: Tables, w: World, now: int, pass: Revalidation)
    requires Linked(t) && Lists(pass.order, t.pairs.Keys)
    ensures var u := Revalidate(t, w, now, pass); Sound(u) && ManualKept(t, u)
  {
    var judged := RunAll(t, w, pass.order, now);
    RunAllSound(t, w, pass.order, now);
    DemoteSound(judged, None, pass.sweptAt);
    ManualKeptTransitive(t, judged, Demote(judged, None, pass.sweptAt));
  }

  // ----- whole runs ----------------------------------------------------------

  /** A pass step with everything the outside world contributed to it. */
  datatype Event =
    | Ingested(w: World, now: int, pool: PoolFacts, base: Id, quote: Id, pair: Id)
    | IdentityChecked(w: World, now: int, token: Id, baseS: int, confirmed: bool, foundId: Option<Str>, order: seq<Id>)
    | CanonicalChecked(w: World, now: int, token: Id, answer: Option<Str>, order: seq<Id>)
    | FactoryChecked(w: World, now: int, pair: Id, factory: Option<Str>)
    | ScamChecked(w: World, now: int, token: Id, security: Option<Security>, honeypot: Option<bool>, order: seq<Id>)
    | ReviewScanned(w: World, now: int, token: Id, security: Option<Security>, honeypot: Option<bool>, order: seq<Id>)
    | Rescored(w: World, now: int, token: Id, order: seq<Id>)
    | Revalidated(w: World, now: int, pass: Revalidation)

  function Apply(t: Tables, e: Event): Tables {
    match e
    case Ingested(w, now, f, base, quote, pair) => IngestPool(t, w, now, f, base, quote, pair)
    case IdentityChecked(w, now, token, baseS, confirmed, foundId, order) =>
      IdentityCheck(t, w, token, now, baseS, confirmed, foundId, order)
    case CanonicalChecked(w, now, token, answer, order) => CanonicalCheck(t, w, token, now, answer, order)
    case FactoryChecked(w, now, pair, factory) => FactoryCheck(t, w, pair, now, factory)
    case ScamChecked(w, now, token, security, honeypot, order) => ScamCheck(t, w, token, now, security, honeypot, order)
    case ReviewScanned(w, now, token, security, honeypot, order) =>
      ReviewScan(t, w, token, now, security, honeypot, order)
    case Rescored(w, now, token, order) => Rescore(t, w, token, now, order)
    case Revalidated(w, now, pass) => Revalidate(t, w, now, pass)
  }

  /** The step's queries returned the rows they select. */
  ghost predicate Possible(t: Tables, e: Event) {
    match e
    case Ingested(_, _, _, _, _, _) => true
    case FactoryChecked(_, _, _, _) => true
    case Revalidated(_, _, pass) => Lists(pass.order, t.pairs.Keys)
    case _ => Lists(e.order, PairsOf(t, e.token))
  }

  function ApplyAll(t: Tables, events: seq<Event>): Tables {
    if events == [] then t else Apply(ApplyAll(t, events[..|events| - 1]), events[|events| - 1])
  }

  ghost predicate PossibleRun(t: Tables, events: seq<Event>) {
    events == [] ||
    (PossibleRun(t, events[..|events| - 1]) && Possible(ApplyAll(t, events[..|events| - 1]), events[|events| - 1]))
  }

  lemma EventSound(t: Tables, e: Event)
    requires Sound(t) && Possible(t, e)
    ensures Sound(Apply(t, e)) && ManualKept(t, Apply(t, e))
  {
    match e
    case Ingested(w, now, f, base, quote, pair) => IngestPoolSound(t, w, now, f, base, quote, pair);
    case IdentityChecked(w, now, token, baseS, confirmed, foundId, order) =>
      IdentityCheckSound(t, w, token, now, baseS, confirmed, foundId, order);
    case CanonicalChecked(w, now, token, answer, order) => CanonicalCheckSound(t, w, token, now, answer, order);
    case FactoryChecked(w, now, pair, factory) => FactoryCheckSound(t, w, pair, now, factory);
    case ScamChecked(w, now, token, security, honeypot, order) =>
      ScamCheckSound(t, w, token, now, security, honeypot, order);
    case ReviewScanned(w, now, token, security, honeypot, order) =>
      ReviewScanSound(t, w, token, now, security, honeypot, order);
    case Rescored(w, now, token, order) => RescoreSound(t, w, token, now, order);
    case Revalidated(w, now, pass) => RevalidateRepairs(t, w, now, pass);
  }

  /** Over every run of pass steps, with thresholds, caches and the clock changing freely between them,
      the invariant holds after each step and no operator status ever changes. */
  lemma {:induction false} EveryRunIsSound(t: Tables, events: seq<Event>)
    requires Sound(t) && PossibleRun(t, events)
    ensures Sound(ApplyAll(t, events)) && ManualKept(t, ApplyAll(t, events))
  {
    if events != [] {
      var before := ApplyAll(t, events[..|events| - 1]);
      EveryRunIsSound(t, events[..|events| - 1]);
      EventSound(before, events[|events| - 1]);
      ManualKeptTransitive(t, before, ApplyAll(t, events));
    }
  }

  /** In particular from empty tables, where every row starts Unverified. */
  lemma FreshRunIsSound(events: seq<Event>)
    requires PossibleRun(Tables(map[], map[]), events)
    ensures Sound(ApplyAll(Tables(map[], map[]), events))
  {
    EveryRunIsSound(Tables(map[], map[]), events);
  }
}
