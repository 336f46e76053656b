/** Repeated re-validation of the tables reaches a pass that changes nothing. The clock, thresholds,
    caches and every input column are fixed; the order of each pass is not. */
module SettlingTables {
  import opened Wrappers
  import opened JsString
  import opened Verdict
  import opened Tables
  import opened Passes
  import opened Settling

  // ----- the network behind the tables ---------------------------------------

  /** Every pair the engine may write stores the key its tokens have now. */
  ghost predicate KeysSettled(t: Tables) {
    forall p :: Judgeable(t, p) ==> t.pairs[p].canonicalKey == KeyOf(t, p)
  }

  /** The verdict with the sibling vote fixed. */
  function VerdictWith(t: Tables, w: World, p: Id, now: int, vouched: bool): VerdictResult
    requires Loadable(t, p)
  {
    var (input, context) := ContextOf(t, w, p, now);
    EvaluatePair(input, context.(hasVerifiedSibling := vouched))
  }

  function MovablePairs(t: Tables): set<Id> {
    set p | p in t.pairs && Judgeable(t, p)
  }

  function StoredKeys(t: Tables): map<Id, Option<Str>> {
    map p | p in t.pairs :: t.pairs[p].canonicalKey
  }

  function Sources(t: Tables): map<Id, (Str, Str)> {
    map p | p in t.pairs :: (t.pairs[p].chain, t.pairs[p].dex)
  }

  function Verdicts(t: Tables, w: World, now: int, vouched: bool): map<Id, Status> {
    map p | p in MovablePairs(t) :: VerdictWith(t, w, p, now, vouched).verdict
  }

  function NetOf(t: Tables, w: World, now: int): Net {
    Net(StoredKeys(t), Sources(t), MovablePairs(t), Verdicts(t, w, now, false), Verdicts(t, w, now, true))
  }

  function StatusesOf(t: Tables): State {
    map p | p in t.pairs :: t.pairs[p].status
  }

  lemma NetIsValid(t: Tables, w: World, now: int)
    ensures Valid(NetOf(t, w, now))
  {
    var net := NetOf(t, w, now);
    forall p | p in net.movable
      ensures net.boosted[p] == net.base[p] || net.boosted[p] == AutoVerified
      ensures IsVerified(net.base[p]) ==> net.base[p] == AutoVerified
    {
      var (input, context) := ContextOf(t, w, p, now);
      SiblingOnlyPromotes(input, context);
      VerdictShape(input, context.(hasVerifiedSibling := false));
    }
  }

  /** The same inputs and the same stored keys. */
  ghost predicate SameWorldView(t: Tables, u: Tables) {
    SameInputs(t, u) && forall p :: p in t.pairs ==> t.pairs[p].canonicalKey == u.pairs[p].canonicalKey
  }

  lemma LoadableSame(t: Tables, u: Tables, p: Id)
    requires SameInputs(t, u)
    ensures Loadable(t, p) <==> Loadable(u, p)
    ensures Loadable(t, p) ==> KeyOf(t, p) == KeyOf(u, p)
  {
    if p in t.pairs { assert SamePairInputs(t.pairs[p], u.pairs[p]); }
    if Loadable(t, p) {
      assert SameTokenInputs(t.tokens[t.pairs[p].token0], u.tokens[t.pairs[p].token0]);
      assert SameTokenInputs(t.tokens[t.pairs[p].token1], u.tokens[t.pairs[p].token1]);
    }
  }

  lemma TokenSetSame(t: Tables, u: Tables, p: Id)
    requires SameInputs(t, u) && p in t.pairs
    ensures TokenSetOf(t, t.pairs[p]) == TokenSetOf(u, u.pairs[p])
    ensures t.pairs[p].chain == u.pairs[p].chain && t.pairs[p].dex == u.pairs[p].dex
  {
    assert SamePairInputs(t.pairs[p], u.pairs[p]);
    var a, b := t.pairs[p].token0, t.pairs[p].token1;
    if a in t.tokens { assert SameTokenInputs(t.tokens[a], u.tokens[a]); }
    if b in t.tokens { assert SameTokenInputs(t.tokens[b], u.tokens[b]); }
  }

  lemma ConflictSame(t: Tables, u: Tables, p: Id, key: Option<Str>)
    requires SameWorldView(t, u) && p in t.pairs
    ensures HasIntraConflict(t, p, key) <==> HasIntraConflict(u, p, key)
  {
    forall o | o in t.pairs
      ensures TokenSetOf(t, t.pairs[o]) == TokenSetOf(u, u.pairs[o])
      ensures SameSource(t.pairs[p], t.pairs[o]) <==> SameSource(u.pairs[p], u.pairs[o])
    {
      TokenSetSame(t, u, o);
      TokenSetSame(t, u, p);
    }
  }

  lemma VerdictSame(t: Tables, u: Tables, w: World, p: Id, now: int, vouched: bool)
    requires SameWorldView(t, u) && Loadable(t, p)
    ensures Loadable(u, p) && VerdictWith(t, w, p, now, vouched) == VerdictWith(u, w, p, now, vouched)
  {
    LoadableSame(t, u, p);
    ConflictSame(t, u, p, KeyOf(t, p));
    assert SamePairInputs(t.pairs[p], u.pairs[p]);
    assert SameTokenInputs(t.tokens[t.pairs[p].token0], u.tokens[t.pairs[p].token0]);
    assert SameTokenInputs(t.tokens[t.pairs[p].token1], u.tokens[t.pairs[p].token1]);
  }

  lemma MovableSame(t: Tables, u: Tables)
    requires forall p :: Judgeable(t, p) <==> Judgeable(u, p)
    ensures MovablePairs(t) == MovablePairs(u)
  {
  }

  lemma SourcesSame(t: Tables, u: Tables)
    requires SameWorldView(t, u)
    ensures Sources(t) == Sources(u) && StoredKeys(t) == StoredKeys(u)
  {
    forall p | p in t.pairs ensures t.pairs[p].chain == u.pairs[p].chain && t.pairs[p].dex == u.pairs[p].dex {
      TokenSetSame(t, u, p);
    }
  }

  lemma VerdictsSame(t: Tables, u: Tables, w: World, now: int, vouched: bool)
    requires SameWorldView(t, u) && MovablePairs(t) == MovablePairs(u)
    ensures Verdicts(t, w, now, vouched) == Verdicts(u, w, now, vouched)
  {
    forall p | p in MovablePairs(t) ensures VerdictWith(t, w, p, now, vouched) == VerdictWith(u, w, p, now, vouched) {
      VerdictSame(t, u, w, p, now, vouched);
    }
  }

  lemma NetSame(t: Tables, u: Tables, w: World, now: int)
    requires SameWorldView(t, u) && forall p :: p in t.pairs ==>
      (IsManual(t.pairs[p].status) <==> IsManual(u.pairs[p].status))
    ensures NetOf(t, w, now) == NetOf(u, w, now)
  {
    forall p ensures Judgeable(t, p) <==> Judgeable(u, p) {
      LoadableSame(t, u, p);
    }
    MovableSame(t, u);
    SourcesSame(t, u);
    VerdictsSame(t, u, w, now, false);
    VerdictsSame(t, u, w, now, true);
  }

  // ----- a verdict run is a step of the network ------------------------------

  lemma VoteIsVouched(t: Tables, w: World, p: Id, now: int)
    requires Judgeable(t, p) && t.pairs[p].canonicalKey == KeyOf(t, p)
    ensures Valid(NetOf(t, w, now))
    ensures HasVerifiedSibling(t, p, KeyOf(t, p)) <==> Vouched(NetOf(t, w, now), StatusesOf(t), p)
  {
    NetIsValid(t, w, now);
    var net, st := NetOf(t, w, now), StatusesOf(t);
    if HasVerifiedSibling(t, p, KeyOf(t, p)) {
      var o :| o in t.pairs && o != p && t.pairs[o].canonicalKey == KeyOf(t, p)
        && !SameSource(t.pairs[p], t.pairs[o]) && IsVerified(t.pairs[o].status);
      assert o in net.key && Siblings(net, p, o) && On(st, o);
    }
    if Vouched(net, st, p) {
      var o :| o in net.key && Siblings(net, p, o) && On(st, o);
      assert o in t.pairs && !SameSource(t.pairs[p], t.pairs[o]) && IsVerified(t.pairs[o].status);
    }
  }

  lemma JudgeIsVerdictWith(t: Tables, w: World, p: Id, now: int)
    requires Loadable(t, p)
    ensures Judge(t, w, p, now) == VerdictWith(t, w, p, now, HasVerifiedSibling(t, p, KeyOf(t, p)))
    ensures Judge(t, w, p, now).canonicalKey == KeyOf(t, p) && !IsManual(Judge(t, w, p, now).verdict)
  {
    var (input, context) := ContextOf(t, w, p, now);
    assert context.(hasVerifiedSibling := context.hasVerifiedSibling) == context;
    VerdictShape(input, context);
  }

  lemma RunVerdictView(t: Tables, w: World, p: Id, now: int)
    ensures var u := RunVerdict(t, w, p, now);
      && SameInputs(t, u) && (Judgeable(t, p) ==> u.pairs[p].canonicalKey == KeyOf(t, p))
      && (forall q :: q in t.pairs && q != p ==> u.pairs[q] == t.pairs[q])
      && (forall q :: q in t.pairs ==> (IsManual(t.pairs[q].status) <==> IsManual(u.pairs[q].status)))
      && (Judgeable(t, p) && t.pairs[p].canonicalKey == KeyOf(t, p) ==> SameWorldView(t, u))
  {
    RunVerdictKeepsInputs(t, w, p, now);
    if Judgeable(t, p) { JudgeIsVerdictWith(t, w, p, now); }
  }

  lemma StatusWritten(t: Tables, w: World, p: Id, now: int)
    ensures StatusesOf(RunVerdict(t, w, p, now)) ==
      if Judgeable(t, p) then StatusesOf(t)[p := Judge(t, w, p, now).verdict] else StatusesOf(t)
  {
    if Judgeable(t, p) {
      var row := JudgedRow(t.pairs[p], Judge(t, w, p, now), now);
      assert RunVerdict(t, w, p, now).pairs == t.pairs[p := row];
      assert row.status == Judge(t, w, p, now).verdict;
    }
  }

  lemma JudgedVerdict(t: Tables, w: World, p: Id, now: int)
    requires Valid(NetOf(t, w, now)) && Judgeable(t, p) && t.pairs[p].canonicalKey == KeyOf(t, p)
    ensures var net := NetOf(t, w, now);
      p in net.movable &&
      Judge(t, w, p, now).verdict == if Vouched(net, StatusesOf(t), p) then net.boosted[p] else net.base[p]
  {
    VoteIsVouched(t, w, p, now);
    JudgeIsVerdictWith(t, w, p, now);
  }

  lemma StatusStep(t: Tables, w: World, p: Id, now: int)
    requires Valid(NetOf(t, w, now)) && (Judgeable(t, p) ==> t.pairs[p].canonicalKey == KeyOf(t, p))
    ensures StatusesOf(RunVerdict(t, w, p, now)) == Step(NetOf(t, w, now), StatusesOf(t), p)
  {
    StatusWritten(t, w, p, now);
    if Judgeable(t, p) {
      JudgedVerdict(t, w, p, now);
    } else {
      assert p !in MovablePairs(t);
    }
  }

  /** The key stored for a pair the engine may write is not the one its tokens have now. */
  predicate IsStale(t: Tables, p: Id) {
    Judgeable(t, p) && t.pairs[p].canonicalKey != KeyOf(t, p)
  }

  /** Judging any pair whose stored key is current. */
  lemma RunVerdictIsStep(t: Tables, w: World, p: Id, now: int)
    requires !IsStale(t, p)
    ensures var u := RunVerdict(t, w, p, now);
      && Valid(NetOf(t, w, now)) && NetOf(u, w, now) == NetOf(t, w, now) && SameWorldView(t, u)
      && StatusesOf(u) == Step(NetOf(t, w, now), StatusesOf(t), p)
      && (KeysSettled(t) ==> KeysSettled(u))
  {
    var u := RunVerdict(t, w, p, now);
    NetIsValid(t, w, now);
    StatusStep(t, w, p, now);
    RunVerdictView(t, w, p, now);
    if !Judgeable(t, p) { SelfView(t); }
    NetSame(t, u, w, now);
    if KeysSettled(t) { KeysStaySettled(t, u); }
  }

  lemma StaleSame(t: Tables, u: Tables, p: Id)
    requires SameWorldView(t, u) && MovablePairs(t) == MovablePairs(u)
    ensures IsStale(t, p) <==> IsStale(u, p)
  {
    LoadableSame(t, u, p);
    assert Judgeable(t, p) <==> p in MovablePairs(t);
    assert Judgeable(u, p) <==> p in MovablePairs(u);
  }

  lemma KeysStaySettled(t: Tables, u: Tables)
    requires KeysSettled(t) && SameWorldView(t, u)
    requires forall p :: p in t.pairs ==> (IsManual(t.pairs[p].status) <==> IsManual(u.pairs[p].status))
    ensures KeysSettled(u)
  {
    forall p | Judgeable(u, p) ensures u.pairs[p].canonicalKey == KeyOf(u, p) {
      LoadableSame(t, u, p);
      assert Judgeable(t, p);
    }
  }

  lemma SameViewTransitive(t: Tables, u: Tables, v: Tables)
    requires SameWorldView(t, u) && SameWorldView(u, v)
    ensures SameWorldView(t, v)
  {
    SameInputsTransitive(t, u, v);
  }

  lemma {:induction false} RunAllIsRun(t: Tables, w: World, ids: seq<Id>, now: int)
    requires forall p :: p in ids ==> !IsStale(t, p)
    ensures var u := RunAll(t, w, ids, now);
      && Valid(NetOf(t, w, now)) && NetOf(u, w, now) == NetOf(t, w, now) && SameWorldView(t, u)
      && StatusesOf(u) == Run(NetOf(t, w, now), StatusesOf(t), ids)
      && (KeysSettled(t) ==> KeysSettled(u))
  {
    NetIsValid(t, w, now);
    if ids != [] {
      var front, last := ids[..|ids| - 1], ids[|ids| - 1];
      var before := RunAll(t, w, front, now);
      assert ids == front + [last];
      RunAllIsRun(t, w, front, now);
      SameMovable(t, before, w, now);
      StaleSame(t, before, last);
      RunVerdictIsStep(before, w, last, now);
      SameViewTransitive(t, before, RunAll(t, w, ids, now));
    } else {
      SelfView(t);
    }
  }

  lemma SameMovable(t: Tables, u: Tables, w: World, now: int)
    requires NetOf(t, w, now) == NetOf(u, w, now)
    ensures MovablePairs(t) == MovablePairs(u)
  {
  }

  lemma SelfView(t: Tables)
    ensures SameWorldView(t, t)
  {
    forall p | p in t.pairs ensures SamePairInputs(t.pairs[p], t.pairs[p]) {
    }
    forall k | k in t.tokens ensures SameTokenInputs(t.tokens[k], t.tokens[k]) {
    }
  }

  // ----- finitely many status changes ----------------------------------------

  /** How many of the verdict runs change the status of p. */
  function StatusChanges(t: Tables, w: World, ids: seq<Id>, now: int, p: Id): nat
    requires p in t.pairs
  {
    if ids == [] then 0
    else
      var before := RunAll(t, w, ids[..|ids| - 1], now);
      var after := RunAll(t, w, ids, now);
      StatusChanges(t, w, ids[..|ids| - 1], now, p) +
        if p in before.pairs && p in after.pairs && before.pairs[p].status == after.pairs[p].status then 0 else 1
  }

  lemma {:induction false} ChangesCounted(t: Tables, w: World, ids: seq<Id>, now: int, p: Id)
    requires p in t.pairs && forall q :: q in ids ==> !IsStale(t, q)
    ensures Valid(NetOf(t, w, now)) &&
      StatusChanges(t, w, ids, now, p) == ChangesOf(NetOf(t, w, now), StatusesOf(t), ids, p)
  {
    NetIsValid(t, w, now);
    if ids != [] {
      var front := ids[..|ids| - 1];
      assert forall q :: q in front ==> q in ids;
      ChangesCounted(t, w, front, now, p);
      StatusAfter(t, w, front, now, p);
      StatusAfter(t, w, ids, now, p);
    }
  }

  lemma StatusAfter(t: Tables, w: World, ids: seq<Id>, now: int, p: Id)
    requires p in t.pairs && Valid(NetOf(t, w, now)) && forall q :: q in ids ==> !IsStale(t, q)
    ensures var u, st := RunAll(t, w, ids, now), Run(NetOf(t, w, now), StatusesOf(t), ids);
      p in u.pairs && p in st && st[p] == u.pairs[p].status
  {
    RunAllIsRun(t, w, ids, now);
    assert p in StatusesOf(RunAll(t, w, ids, now));
  }

  lemma CurrentRunChanges(t: Tables, w: World, ids: seq<Id>, now: int, p: Id)
    requires Judgeable(t, p) && forall q :: q in ids ==> !IsStale(t, q)
    ensures StatusChanges(t, w, ids, now, p) <= 2 * |MovablePairs(t)| + 1
  {
    ChangesCounted(t, w, ids, now, p);
    FinitelyManyChanges(NetOf(t, w, now), StatusesOf(t), ids, p);
  }

  lemma {:induction false} RunAllConcat(t: Tables, w: World, a: seq<Id>, b: seq<Id>, now: int)
    ensures RunAll(t, w, a + b, now) == RunAll(RunAll(t, w, a, now), w, b, now)
  {
    if b == [] {
      assert a + b == a;
    } else {
      RunAllConcat(t, w, a, b[..|b| - 1], now);
      assert (a + b)[..|a + b| - 1] == a + b[..|b| - 1];
    }
  }

  lemma {:induction false} ChangesConcat(t: Tables, w: World, a: seq<Id>, b: seq<Id>, now: int, p: Id)
    requires p in t.pairs && p in RunAll(t, w, a, now).pairs
    ensures StatusChanges(t, w, a + b, now, p) ==
      StatusChanges(t, w, a, now, p) + StatusChanges(RunAll(t, w, a, now), w, b, now, p)
  {
    if b == [] {
      assert a + b == a;
    } else {
      var front := b[..|b| - 1];
      assert (a + b)[..|a + b| - 1] == a + front;
      ChangesConcat(t, w, a, front, now, p);
      RunAllConcat(t, w, a, front, now);
      RunAllConcat(t, w, a, b, now);
    }
  }

  /** The pairs whose stored key the next judgement will change. */
  ghost function StalePairs(t: Tables): set<Id> {
    set p | p in t.pairs && IsStale(t, p)
  }

  lemma MovableKept(t: Tables, w: World, ids: seq<Id>, now: int)
    ensures var u := RunAll(t, w, ids, now);
      MovablePairs(u) == MovablePairs(t) && forall p :: Judgeable(u, p) <==> Judgeable(t, p)
  {
    var u := RunAll(t, w, ids, now);
    RunAllSettlesKeys(t, w, ids, now);
    forall p ensures Judgeable(u, p) <==> Judgeable(t, p) {
      LoadableSame(t, u, p);
    }
    MovableSame(t, u);
  }

  lemma StaleAfterOne(t: Tables, w: World, last: Id, now: int, p: Id)
    ensures IsStale(RunVerdict(t, w, last, now), p) <==> IsStale(t, p) && p != last
  {
    RunVerdictView(t, w, last, now);
    LoadableSame(t, RunVerdict(t, w, last, now), p);
  }

  lemma {:induction false} StaleAfter(t: Tables, w: World, ids: seq<Id>, now: int, p: Id)
    ensures IsStale(RunAll(t, w, ids, now), p) <==> IsStale(t, p) && p !in ids
  {
    if ids != [] {
      var front, last := ids[..|ids| - 1], ids[|ids| - 1];
      assert ids == front + [last];
      StaleAfter(t, w, front, now, p);
      StaleAfterOne(RunAll(t, w, front, now), w, last, now, p);
    }
  }

  /** The first judgement of a stale pair. */
  lemma {:induction false} FirstStale(t: Tables, ids: seq<Id>) returns (i: nat)
    ensures i <= |ids| && (forall q :: q in ids[..i] ==> !IsStale(t, q)) && (i < |ids| ==> IsStale(t, ids[i]))
  {
    if ids == [] || IsStale(t, ids[0]) {
      i := 0;
    } else {
      i := FirstStale(t, ids[1..]);
      i := i + 1;
      assert ids[..i] == [ids[0]] + ids[1..][..i - 1];
    }
  }

  lemma OneStepChanges(t: Tables, w: World, q: Id, now: int, p: Id)
    requires p in t.pairs
    ensures StatusChanges(t, w, [q], now, p) <= 1
  {
    assert [q][..0] == [];
  }

  lemma StaleShrinks(t: Tables, w: World, front: seq<Id>, q: Id, now: int)
    requires IsStale(t, q)
    ensures |StalePairs(RunAll(t, w, front + [q], now))| < |StalePairs(t)|
  {
    var u := RunAll(t, w, front + [q], now);
    forall p ensures IsStale(u, p) <==> IsStale(t, p) && p !in front + [q] {
      StaleAfter(t, w, front + [q], now, p);
    }
    assert StalePairs(u) <= StalePairs(t) && q in StalePairs(t) && q !in StalePairs(u);
    StrictSubsetSmaller(StalePairs(u), StalePairs(t));
  }

  lemma ChangesSplit(t: Tables, w: World, front: seq<Id>, q: Id, rest: seq<Id>, now: int, p: Id)
    requires p in t.pairs
    ensures var u := RunAll(t, w, front + [q], now);
      && p in u.pairs
      && StatusChanges(t, w, front + [q] + rest, now, p) <=
        StatusChanges(t, w, front, now, p) + 1 + StatusChanges(u, w, rest, now, p)
  {
    RunAllKeepsInputs(t, w, front, now);
    RunAllKeepsInputs(t, w, front + [q], now);
    ChangesConcat(t, w, front, [q], now, p);
    OneStepChanges(RunAll(t, w, front, now), w, q, now, p);
    ChangesConcat(t, w, front + [q], rest, now, p);
  }

  lemma TimesMonotone(a: nat, b: nat, c: nat)
    requires a <= b
    ensures a * c <= b * c
  {
  }

  lemma OneMore(k: nat, c: nat)
    ensures (k + 1) * c == k * c + c
  {
  }

  lemma PhasesAddUp(first: nat, rest: nat, j: nat, k: nat, c: nat)
    requires first <= c && rest < (j + 1) * c && j < k
    ensures first + rest < (k + 1) * c
  {
    TimesMonotone(j + 1, k, c);
    OneMore(k, c);
  }

  lemma OnePhase(first: nat, k: nat, c: nat)
    requires first < c
    ensures first < (k + 1) * c
  {
    OneMore(k, c);
    TimesMonotone(0, k, c);
  }

  /** The rest of a run after its first stale judgement, over tables with fewer stale pairs. */
  lemma AfterFirstStale(t: Tables, w: World, front: seq<Id>, q: Id, now: int, p: Id) returns (u: Tables)
    requires Judgeable(t, p) && IsStale(t, q)
    ensures u == RunAll(t, w, front + [q], now) && Judgeable(u, p)
    ensures |StalePairs(u)| < |StalePairs(t)| && MovablePairs(u) == MovablePairs(t)
  {
    u := RunAll(t, w, front + [q], now);
    MovableKept(t, w, front + [q], now);
    StaleShrinks(t, w, front, q, now);
  }

  /** A run is one with current keys only, or such a run, one judgement and a run over fewer stale pairs. */
  lemma Phase(t: Tables, w: World, ids: seq<Id>, now: int, p: Id)
    returns (whole: bool, first: nat, u: Tables, rest: seq<Id>)
    requires Judgeable(t, p)
    ensures first <= 2 * |MovablePairs(t)| + 1
    ensures whole ==> StatusChanges(t, w, ids, now, p) == first
    ensures !whole ==>
      && Judgeable(u, p) && |StalePairs(u)| < |StalePairs(t)| && MovablePairs(u) == MovablePairs(t) && |rest| < |ids|
      && StatusChanges(t, w, ids, now, p) <= first + 1 + StatusChanges(u, w, rest, now, p)
  {
    var i := FirstStale(t, ids);
    CurrentRunChanges(t, w, ids[..i], now, p);
    first := StatusChanges(t, w, ids[..i], now, p);
    whole := i == |ids|;
    u, rest := t, ids;
    if whole {
      assert ids[..i] == ids;
    } else {
      u := AfterFirstStale(t, w, ids[..i], ids[i], now, p);
      rest := ids[i + 1..];
      assert ids == ids[..i] + [ids[i]] + rest;
      ChangesSplit(t, w, ids[..i], ids[i], rest, now, p);
    }
  }

  lemma {:induction false} ChangesWithin(t: Tables, w: World, ids: seq<Id>, now: int, p: Id, k: nat, c: nat)
    requires Judgeable(t, p) && k == |StalePairs(t)| && c == 2 * |MovablePairs(t)| + 2
    ensures StatusChanges(t, w, ids, now, p) < (k + 1) * c
    decreases |ids|
  {
    var whole, first, u, rest := Phase(t, w, ids, now, p);
    if whole {
      OnePhase(first, k, c);
    } else {
      ChangesWithin(u, w, rest, now, p, |StalePairs(u)|, c);
      PhasesAddUp(first + 1, StatusChanges(u, w, rest, now, p), |StalePairs(u)|, k, c);
    }
  }

  /** From any tables, with any stored keys, any sequence of verdict runs in any order changes a pair's status at
      most (k + 1)(2n + 2) - 1 times, where n is the number of pairs no operator has set and k that of stale keys
      among them: 2n + 1 times when every key is current. */
  lemma VerdictsChangeFinitelyOften(t: Tables, w: World, ids: seq<Id>, now: int, p: Id)
    requires Judgeable(t, p)
    ensures StatusChanges(t, w, ids, now, p) < (|StalePairs(t)| + 1) * (2 * |MovablePairs(t)| + 2)
    ensures KeysSettled(t) ==> StatusChanges(t, w, ids, now, p) <= 2 * |MovablePairs(t)| + 1
  {
    ChangesWithin(t, w, ids, now, p, |StalePairs(t)|, 2 * |MovablePairs(t)| + 2);
    if KeysSettled(t) { CurrentRunChanges(t, w, ids, now, p); }
  }

  // ----- passes --------------------------------------------------------------

  lemma DemoteKeepsView(t: Tables, w: World, now: int, sweptAt: int)
    ensures var u := Demote(t, None, sweptAt);
      && u.pairs == t.pairs && SameWorldView(t, u) && NetOf(u, w, now) == NetOf(t, w, now)
      && StatusesOf(u) == StatusesOf(t)
      && (KeysSettled(t) ==> KeysSettled(u))
  {
    var u := Demote(t, None, sweptAt);
    SelfView(t);
    forall k | k in t.tokens ensures SameTokenInputs(t.tokens[k], u.tokens[k]) {
      assert SameTokenInputs(t.tokens[k], WithStatus(t.tokens[k], NeedsReview, sweptAt));
    }
    NetSame(t, u, w, now);
    if KeysSettled(t) { KeysStaySettled(t, u); }
  }

  lemma RevalidateIsRun(t: Tables, w: World, now: int, pass: Revalidation)
    requires KeysSettled(t)
    ensures var u := Revalidate(t, w, now, pass);
      && Valid(NetOf(t, w, now)) && NetOf(u, w, now) == NetOf(t, w, now) && KeysSettled(u) && SameWorldView(t, u)
      && StatusesOf(u) == Run(NetOf(t, w, now), StatusesOf(t), pass.order)
  {
    var judged := RunAll(t, w, pass.order, now);
    RunAllIsRun(t, w, pass.order, now);
    DemoteKeepsView(judged, w, now, pass.sweptAt);
    SameViewTransitive(t, judged, Demote(judged, None, pass.sweptAt));
  }

  lemma KeyAfterRun(t: Tables, w: World, last: Id, now: int, p: Id)
    ensures var u := RunVerdict(t, w, last, now);
      && (Judgeable(u, p) ==> Judgeable(t, p))
      && (Judgeable(u, p) && (p == last || t.pairs[p].canonicalKey == KeyOf(t, p)) ==>
        u.pairs[p].canonicalKey == KeyOf(u, p))
  {
    RunVerdictView(t, w, last, now);
    LoadableSame(t, RunVerdict(t, w, last, now), p);
  }

  /** Whatever the stored keys were, judging a pair brings its key up to date for good. */
  lemma {:induction false} RunAllSettlesKeys(t: Tables, w: World, ids: seq<Id>, now: int)
    ensures var u := RunAll(t, w, ids, now);
      && SameInputs(t, u) && u.pairs.Keys == t.pairs.Keys
      && (forall q :: q in t.pairs ==> (IsManual(t.pairs[q].status) <==> IsManual(u.pairs[q].status)))
      && (forall p :: Judgeable(u, p) && p in ids ==> u.pairs[p].canonicalKey == KeyOf(u, p))
  {
    if ids == [] {
      SelfView(t);
    } else {
      var front, last := ids[..|ids| - 1], ids[|ids| - 1];
      var before, u := RunAll(t, w, front, now), RunAll(t, w, ids, now);
      RunAllSettlesKeys(t, w, front, now);
      RunVerdictView(before, w, last, now);
      SameInputsTransitive(t, before, u);
      assert ids == front + [last];
      forall p | Judgeable(u, p) && p in ids ensures u.pairs[p].canonicalKey == KeyOf(u, p) {
        KeyAfterRun(before, w, last, now, p);
      }
    }
  }

  lemma OnePassSettlesKeys(t: Tables, w: World, now: int, pass: Revalidation)
    requires Lists(pass.order, t.pairs.Keys)
    ensures var u := Revalidate(t, w, now, pass); KeysSettled(u) && u.pairs.Keys == t.pairs.Keys
  {
    RunAllSettlesKeys(t, w, pass.order, now);
    var judged := RunAll(t, w, pass.order, now);
    assert KeysSettled(judged);
    DemoteKeepsView(judged, w, now, pass.sweptAt);
  }

  /** Every pair's status is the one a further verdict run would give it. */
  ghost predicate StatusesSettled(t: Tables, w: World, now: int) {
    KeysSettled(t) && Valid(NetOf(t, w, now)) && Settled(NetOf(t, w, now), StatusesOf(t))
  }

  function FourPasses(t: Tables, w: World, now: int, p1: Revalidation, p2: Revalidation, p3: Revalidation,
                      p4: Revalidation): Tables {
    Revalidate(Revalidate(Revalidate(Revalidate(t, w, now, p1), w, now, p2), w, now, p3), w, now, p4)
  }

  lemma ListingCovers(t: Tables, w: World, now: int, order: seq<Id>)
    requires Lists(order, t.pairs.Keys)
    ensures Covers(NetOf(t, w, now), order)
  {
  }

  /** From any tables at all, with stale keys and arbitrary statuses, four passes settle every status. */
  lemma FourPassesSettle(t: Tables, w: World, now: int, p1: Revalidation, p2: Revalidation, p3: Revalidation,
                         p4: Revalidation)
    requires Lists(p1.order, t.pairs.Keys) && Lists(p2.order, t.pairs.Keys)
    requires Lists(p3.order, t.pairs.Keys) && Lists(p4.order, t.pairs.Keys)
    ensures StatusesSettled(FourPasses(t, w, now, p1, p2, p3, p4), w, now)
    ensures FourPasses(t, w, now, p1, p2, p3, p4).pairs.Keys == t.pairs.Keys
  {
    var t1 := Revalidate(t, w, now, p1);
    OnePassSettlesKeys(t, w, now, p1);
    var t2 := Revalidate(t1, w, now, p2);
    RevalidateIsRun(t1, w, now, p2);
    var t3 := Revalidate(t2, w, now, p3);
    RevalidateIsRun(t2, w, now, p3);
    RevalidateIsRun(t3, w, now, p4);
    ListingCovers(t1, w, now, p2.order);
    ListingCovers(t1, w, now, p3.order);
    ListingCovers(t1, w, now, p4.order);
    ThreePassesSettle(NetOf(t1, w, now), StatusesOf(t1), p2.order, p3.order, p4.order);
  }

  // ----- the pass that changes nothing ---------------------------------------

  ghost predicate Fixed(t: Tables, w: World, now: int, p: Id) {
    RunVerdict(t, w, p, now) == t
  }

  /** With settled statuses a verdict run keeps every judgement, so it only refreshes its own row. */
  lemma SettledJudgement(t: Tables, w: World, now: int, p: Id, q: Id)
    requires StatusesSettled(t, w, now) && Judgeable(t, q)
    ensures var u := RunVerdict(t, w, p, now);
      && StatusesSettled(u, w, now) && StatusesOf(u) == StatusesOf(t)
      && Judgeable(u, q) && Judge(u, w, q, now) == Judge(t, w, q, now)
  {
    var u := RunVerdict(t, w, p, now);
    var net := NetOf(t, w, now);
    RunVerdictIsStep(t, w, p, now);
    if p in net.movable { assert Step(net, StatusesOf(t), p) == StatusesOf(t); }
    assert q in net.movable && q in NetOf(u, w, now).movable;
    LoadableSame(t, u, q);
    VoteIsVouched(t, w, q, now);
    VoteIsVouched(u, w, q, now);
    JudgeIsVerdictWith(t, w, q, now);
    JudgeIsVerdictWith(u, w, q, now);
    VerdictSame(t, u, w, q, now, HasVerifiedSibling(t, q, KeyOf(t, q)));
  }

  lemma SettledStaysSettled(t: Tables, w: World, now: int, p: Id)
    requires StatusesSettled(t, w, now)
    ensures StatusesSettled(RunVerdict(t, w, p, now), w, now)
  {
    if Judgeable(t, p) { SettledJudgement(t, w, now, p, p); }
  }

  lemma PromoteTwice(t: Tables, ids: set<Id>, now: int)
    ensures Promote(Promote(t, ids, now), ids, now) == Promote(t, ids, now)
  {
  }

  /** A promotion that had nothing to do still has nothing to do after another one. */
  lemma PromotionsCommute(t: Tables, ids: set<Id>, others: set<Id>, now: int)
    requires Promote(t, ids, now) == t
    ensures Promote(Promote(t, others, now), ids, now) == Promote(t, others, now)
  {
    var u := Promote(t, others, now);
    forall k | k in t.tokens ensures Promote(u, ids, now).tokens[k] == u.tokens[k] {
      assert Promote(t, ids, now).tokens[k] == t.tokens[k];
    }
  }

  /** What a fixed pair looks like: its row is what judging writes, its tokens are already promoted. */
  ghost predicate Written(t: Tables, w: World, now: int, p: Id)
    requires Judgeable(t, p)
  {
    var row, r := t.pairs[p], Judge(t, w, p, now);
    row == JudgedRow(row, r, now) && (IsVerified(r.verdict) ==> Promote(t, {row.token0, row.token1}, now) == t)
  }

  lemma FixedIffWritten(t: Tables, w: World, now: int, p: Id)
    requires Judgeable(t, p)
    ensures Fixed(t, w, now, p) <==> Written(t, w, now, p)
  {
    var row, r := t.pairs[p], Judge(t, w, p, now);
    var judged := t.(pairs := t.pairs[p := JudgedRow(row, r, now)]);
    assert judged.pairs[p] == JudgedRow(row, r, now);
    if row == JudgedRow(row, r, now) {
      assert judged.pairs == t.pairs;
      assert judged == t;
    }
    if Fixed(t, w, now, p) {
      assert RunVerdict(t, w, p, now).pairs == judged.pairs;
    }
  }

  lemma RunFixesOwnPair(t: Tables, w: World, now: int, p: Id)
    requires StatusesSettled(t, w, now)
    ensures Fixed(RunVerdict(t, w, p, now), w, now, p)
  {
    if Judgeable(t, p) {
      var u := RunVerdict(t, w, p, now);
      var row, r := t.pairs[p], Judge(t, w, p, now);
      SettledJudgement(t, w, now, p, p);
      assert u.pairs[p] == JudgedRow(row, r, now);
      assert StatusesOf(u)[p] == u.pairs[p].status && StatusesOf(t)[p] == row.status;
      var judged := t.(pairs := t.pairs[p := JudgedRow(row, r, now)]);
      PromoteTwice(judged, {row.token0, row.token1}, now);
      FixedIffWritten(u, w, now, p);
    }
  }

  lemma RunKeepsFixed(t: Tables, w: World, now: int, p: Id, q: Id)
    requires StatusesSettled(t, w, now) && Fixed(t, w, now, q)
    ensures Fixed(RunVerdict(t, w, p, now), w, now, q)
  {
    var u := RunVerdict(t, w, p, now);
    if p != q && Judgeable(t, q) && Judgeable(t, p) {
      SettledJudgement(t, w, now, p, q);
      FixedIffWritten(t, w, now, q);
      RunKeepsWritten(t, w, now, p, q);
      FixedIffWritten(u, w, now, q);
    } else if !Judgeable(t, q) {
      RunVerdictView(t, w, p, now);
      LoadableSame(t, u, q);
    }
  }

  lemma RunKeepsWritten(t: Tables, w: World, now: int, p: Id, q: Id)
    requires p != q && Judgeable(t, p) && Judgeable(t, q) && Written(t, w, now, q)
    requires var u := RunVerdict(t, w, p, now); Judgeable(u, q) && Judge(u, w, q, now) == Judge(t, w, q, now)
    ensures Written(RunVerdict(t, w, p, now), w, now, q)
  {
    var u := RunVerdict(t, w, p, now);
    var promoted := {t.pairs[p].token0, t.pairs[p].token1};
    var own := {t.pairs[q].token0, t.pairs[q].token1};
    assert u.pairs[q] == t.pairs[q];
    assert u.tokens == t.tokens || u.tokens == Promote(t, promoted, now).tokens;
    if Promote(t, own, now) == t {
      PromotionsCommute(t, own, promoted, now);
      SameTokensPromote(t, u, promoted, own, now);
    }
  }

  lemma SameTokensPromote(t: Tables, u: Tables, others: set<Id>, ids: set<Id>, now: int)
    requires Promote(t, ids, now) == t && Promote(Promote(t, others, now), ids, now) == Promote(t, others, now)
    requires u.tokens == t.tokens || u.tokens == Promote(t, others, now).tokens
    ensures Promote(u, ids, now) == u
  {
    if u.tokens == t.tokens {
      assert Promote(u, ids, now).tokens == Promote(t, ids, now).tokens;
    } else {
      assert Promote(u, ids, now).tokens == Promote(Promote(t, others, now), ids, now).tokens;
    }
  }

  lemma {:induction false} RunAllFixes(t: Tables, w: World, now: int, ids: seq<Id>)
    requires StatusesSettled(t, w, now)
    ensures var u := RunAll(t, w, ids, now); StatusesSettled(u, w, now) && forall p :: p in ids ==> Fixed(u, w, now, p)
  {
    if ids != [] {
      var front, last := ids[..|ids| - 1], ids[|ids| - 1];
      var before := RunAll(t, w, front, now);
      RunAllFixes(t, w, now, front);
      SettledStaysSettled(before, w, now, last);
      RunFixesOwnPair(before, w, now, last);
      assert ids == front + [last];
      forall p | p in ids ensures Fixed(RunAll(t, w, ids, now), w, now, p) {
        if p != last { RunKeepsFixed(before, w, now, last, p); }
      }
    }
  }

  lemma {:induction false} RunAllOfFixed(t: Tables, w: World, now: int, ids: seq<Id>)
    requires forall p :: p in ids ==> Fixed(t, w, now, p)
    ensures RunAll(t, w, ids, now) == t
  {
    if ids != [] {
      assert ids == ids[..|ids| - 1] + [ids[|ids| - 1]];
      RunAllOfFixed(t, w, now, ids[..|ids| - 1]);
      assert Fixed(t, w, now, ids[|ids| - 1]);
    }
  }

  lemma DemoteTwice(t: Tables, sweptAt: int, again: int)
    ensures Demote(Demote(t, None, sweptAt), None, again) == Demote(t, None, sweptAt)
  {
    var u := Demote(t, None, sweptAt);
    forall k | k in u.tokens ensures Demote(u, None, again).tokens[k] == u.tokens[k] {
    }
    assert Demote(u, None, again).tokens == u.tokens;
  }

  /** The sweep demotes only flagged tokens, which no verdict promotes, so what was fixed stays fixed. */
  lemma DemoteKeepsFixed(t: Tables, w: World, now: int, sweptAt: int, p: Id)
    requires Fixed(t, w, now, p)
    ensures Fixed(Demote(t, None, sweptAt), w, now, p)
  {
    var u := Demote(t, None, sweptAt);
    DemoteKeepsView(t, w, now, sweptAt);
    LoadableSame(t, u, p);
    if Judgeable(t, p) {
      FixedIffWritten(t, w, now, p);
      DemoteKeepsJudge(t, w, now, sweptAt, p);
      DemoteKeepsPromoted(t, {t.pairs[p].token0, t.pairs[p].token1}, now, sweptAt);
      FixedIffWritten(u, w, now, p);
    }
  }

  lemma DemoteKeepsJudge(t: Tables, w: World, now: int, sweptAt: int, p: Id)
    requires Judgeable(t, p)
    ensures var u := Demote(t, None, sweptAt); Judgeable(u, p) && Judge(u, w, p, now) == Judge(t, w, p, now)
  {
    var u := Demote(t, None, sweptAt);
    DemoteKeepsView(t, w, now, sweptAt);
    LoadableSame(t, u, p);
    JudgeIsVerdictWith(t, w, p, now);
    JudgeIsVerdictWith(u, w, p, now);
    VerdictSame(t, u, w, p, now, HasVerifiedSibling(t, p, KeyOf(t, p)));
  }

  lemma DemoteKeepsPromoted(t: Tables, ids: set<Id>, now: int, sweptAt: int)
    ensures var u := Demote(t, None, sweptAt); Promote(t, ids, now) == t ==> Promote(u, ids, now) == u
  {
    var u := Demote(t, None, sweptAt);
    if Promote(t, ids, now) == t {
      forall k | k in u.tokens ensures Promote(u, ids, now).tokens[k] == u.tokens[k] {
        assert Promote(t, ids, now).tokens[k] == t.tokens[k];
      }
      assert Promote(u, ids, now).tokens == u.tokens;
    }
  }

  /** Once four passes and one more have run, a further pass in any order leaves both tables exactly
      as they are: statuses, stamps, reasons, scores, keys and token promotions. */
  lemma SixthPassChangesNothing(t: Tables, w: World, now: int, p1: Revalidation, p2: Revalidation, p3: Revalidation,
                                p4: Revalidation, p5: Revalidation, p6: Revalidation)
    requires Lists(p1.order, t.pairs.Keys) && Lists(p2.order, t.pairs.Keys) && Lists(p3.order, t.pairs.Keys)
    requires Lists(p4.order, t.pairs.Keys) && Lists(p5.order, t.pairs.Keys) && Lists(p6.order, t.pairs.Keys)
    ensures var t5 := Revalidate(FourPasses(t, w, now, p1, p2, p3, p4), w, now, p5); Revalidate(t5, w, now, p6) == t5
  {
    var t4 := FourPasses(t, w, now, p1, p2, p3, p4);
    FourPassesSettle(t, w, now, p1, p2, p3, p4);
    var judged := RunAll(t4, w, p5.order, now);
    RunAllFixes(t4, w, now, p5.order);
    var t5 := Demote(judged, None, p5.sweptAt);
    forall p | p in p6.order ensures Fixed(t5, w, now, p) {
      assert p in p5.order;
      DemoteKeepsFixed(judged, w, now, p5.sweptAt, p);
    }
    RunAllOfFixed(t5, w, now, p6.order);
    DemoteTwice(judged, p5.sweptAt, p6.sweptAt);
  }
}
