/** Tables on which the re-validation of lib/pipeline.ts needs every one of the passes
    that `SettlingTables` allows it. */
module SettlingLadder {
  // Four pools: 0, 2 and 3 on one source, 1 on another. Pools 0, 1 and 2 trade the same two coins, and only 2 has
  // enough trades to be verified by itself; 3 trades two tokens without a coin id. Each pass goes through them in
  // the order of their ids, which is against the direction in which the votes travel.

  import opened Wrappers
  import opened JsString
  import opened Verdict
  import opened Tables
  import opened Passes
  import opened Settling
  import opened SettlingTables

  const COIN0: Str := [97]

  const COIN1: Str := [98]

  const KEY: Option<Str> := CanonicalKey(COIN0, COIN1)

  const ORDER: seq<Id> := [0, 1, 2, 3]

  const IDS: set<Id> := {0, 1, 2, 3}

  predicate OnLadder(p: Id) { p <= 3 }

  function SourceAt(p: Id): (Str, Str) { if p == 1 then ([1], [1]) else ([1], [2]) }

  function KeyAt(p: Id): Option<Str> { if p == 3 then None else KEY }

  function Lift(on: bool): Status { if on then AutoVerified else NeedsReview }

  // ----- the ladder as a network ---------------------------------------------

  /** Pair 2 verifies by itself, pairs 0 and 1 only when vouched for, pair 3 never. */
  function VerdictAt(p: Id, vouched: bool): Status {
    if p == 3 then NeedsReview else Lift(p == 2 || vouched)
  }

  ghost predicate LadderAt(net: Net, p: Id)
    requires Valid(net)
  {
    && (p in net.key <==> OnLadder(p)) && (p in net.movable <==> OnLadder(p))
    && (OnLadder(p) ==> net.key[p] == KeyAt(p) && net.source[p] == SourceAt(p))
    && (OnLadder(p) ==> net.base[p] == VerdictAt(p, false) && net.boosted[p] == VerdictAt(p, true))
  }

  ghost predicate IsLadder(net: Net) {
    Valid(net) && forall p :: LadderAt(net, p)
  }

  predicate StandsAt(st: State, s0: Status, s1: Status, s2: Status, s3: Status) {
    (0 in st && st[0] == s0) && (1 in st && st[1] == s1) && (2 in st && st[2] == s2) && (3 in st && st[3] == s3)
  }

  lemma KeyExists()
    ensures KEY.Some?
  {
    KeyExistsIff(COIN0, COIN1);
  }

  lemma LadderVotes(net: Net, st: State)
    requires IsLadder(net)
    ensures Vouched(net, st, 0) <==> On(st, 1)
    ensures Vouched(net, st, 1) <==> On(st, 0) || On(st, 2)
  {
    KeyExists();
    assert LadderAt(net, 0) && LadderAt(net, 1) && LadderAt(net, 2) && LadderAt(net, 3);
    assert Siblings(net, 0, 1) && Siblings(net, 1, 0) && Siblings(net, 1, 2);
    forall o | Siblings(net, 0, o) ensures o == 1 { assert LadderAt(net, o); }
    forall o | Siblings(net, 1, o) ensures o == 0 || o == 2 { assert LadderAt(net, o); }
  }

  lemma LadderSteps(net: Net, st: State, s0: Status, s1: Status, s2: Status, s3: Status)
    requires IsLadder(net) && StandsAt(st, s0, s1, s2, s3)
    ensures StandsAt(Step(net, st, 0), Lift(IsVerified(s1)), s1, s2, s3)
    ensures StandsAt(Step(net, st, 1), s0, Lift(IsVerified(s0) || IsVerified(s2)), s2, s3)
    ensures StandsAt(Step(net, st, 2), s0, s1, AutoVerified, s3)
    ensures StandsAt(Step(net, st, 3), s0, s1, s2, NeedsReview)
  {
    LadderVotes(net, st);
    assert LadderAt(net, 0) && LadderAt(net, 1) && LadderAt(net, 2) && LadderAt(net, 3);
  }

  lemma PassOfFour(net: Net, st: State)
    requires Valid(net)
    ensures Run(net, st, ORDER) == Step(net, Step(net, Step(net, Step(net, st, 0), 1), 2), 3)
  {
    assert ORDER[..3] == [0, 1, 2] && [0, 1, 2][..2] == [0, 1] && [0, 1][..1] == [0] && [0][..0] == [];
    assert Run(net, st, [0]) == Step(net, Run(net, st, []), 0);
    assert Run(net, st, [0, 1]) == Step(net, Run(net, st, [0]), 1);
    assert Run(net, st, [0, 1, 2]) == Step(net, Run(net, st, [0, 1]), 2);
  }

  lemma LadderPass(net: Net, st: State, s0: Status, s1: Status, s2: Status, s3: Status)
    requires IsLadder(net) && StandsAt(st, s0, s1, s2, s3) && !IsVerified(s1)
    ensures StandsAt(Run(net, st, ORDER), NeedsReview, Lift(IsVerified(s2)), AutoVerified, NeedsReview)
  {
    PassOfFour(net, st);
    LadderSteps(net, st, s0, s1, s2, s3);
    var a := Step(net, st, 0);
    LadderSteps(net, a, NeedsReview, s1, s2, s3);
    var b := Step(net, a, 1);
    LadderSteps(net, b, NeedsReview, Lift(IsVerified(s2)), s2, s3);
    LadderSteps(net, Step(net, b, 2), NeedsReview, Lift(IsVerified(s2)), AutoVerified, s3);
  }

  lemma LiftingPass(net: Net, st: State, s0: Status, s2: Status, s3: Status)
    requires IsLadder(net) && StandsAt(st, s0, AutoVerified, s2, s3)
    ensures StandsAt(Run(net, st, ORDER), AutoVerified, AutoVerified, AutoVerified, NeedsReview)
  {
    PassOfFour(net, st);
    LadderSteps(net, st, s0, AutoVerified, s2, s3);
    var a := Step(net, st, 0);
    LadderSteps(net, a, AutoVerified, AutoVerified, s2, s3);
    var b := Step(net, a, 1);
    LadderSteps(net, b, AutoVerified, AutoVerified, s2, s3);
    LadderSteps(net, Step(net, b, 2), AutoVerified, AutoVerified, AutoVerified, s3);
  }

  // ----- the ladder as tables ------------------------------------------------

  const CONFIG: VerdictConfig := VerdictConfig(25000.0, 5, 0.0, 24.0, 5.0, 0, 36, 5000.0, 0.85, 8.0)

  /** No canonical contract is cached; a live lookup, made on a conflict only, names a third contract. */
  function LadderWorld(): World {
    World((_: Str, _: Str) => CONFIG, (_: Str, _: Str) => None, (_: Str, _: Str) => Some([99]),
      (_: Str, _: Str) => None, (_: Str, _: Str) => false, (_: Str) => false, (_: Str) => true, (_: Str) => true)
  }

  function CoinAt(token: Id): Str { if token == 0 then COIN0 else if token == 1 then COIN1 else [] }

  function AddressAt(token: Id): Str {
    if token == 0 then [10] else if token == 1 then [11] else if token == 2 then [12] else [13]
  }

  function TokenAt(token: Id): TokenRow {
    TokenRow([1], AddressAt(token), CoinAt(token), 18, None, false, false, None, None, 0, 0, 0, 0, 0, Unverified, 0,
      Import)
  }

  function TradesAt(p: Id): int { if p < 2 then 2 else 9 }

  function First(p: Id): Id { if p == 3 then 2 else 0 }

  function PoolAt(p: Id): Str { if p == 0 then [20] else if p == 1 then [21] else if p == 2 then [22] else [23] }

  function PairAt(p: Id, key: Option<Str>): PairRow {
    PairRow(SourceAt(p).0, SourceAt(p).1, PoolAt(p), First(p), First(p) + 1, 100000.0, 100000.0, TradesAt(p),
      0.0, 0.0, 0.0, 0.0, None, 0, false, None, 0, Unverified, 0, Import, key, 0.0, 0, None)
  }

  /** All four pools unjudged; the stored key of pool 3 may be one its tokens do not have. */
  function LadderTables(key3: Option<Str>): Tables {
    Tables(map p | p in IDS :: PairAt(p, if p == 3 then key3 else KEY), map k | k in IDS :: TokenAt(k))
  }

  lemma LadderLookup(key3: Option<Str>, p: Id)
    ensures var t := LadderTables(key3);
      && (p in t.pairs <==> OnLadder(p)) && (p in t.tokens <==> OnLadder(p))
      && (OnLadder(p) ==> t.pairs[p] == PairAt(p, if p == 3 then key3 else KEY) && t.tokens[p] == TokenAt(p))
  {
    assert p in IDS <==> OnLadder(p);
  }

  /** Tables with the ladder's inputs, whatever keys and statuses they store. */
  ghost predicate OfLadder(t: Tables) {
    SameInputs(LadderTables(None), t)
  }

  lemma LadderRow(t: Tables, p: Id)
    requires OfLadder(t)
    ensures p in t.pairs <==> OnLadder(p)
    ensures OnLadder(p) ==> SamePairInputs(PairAt(p, KeyAt(p)), t.pairs[p]) && Loadable(t, p)
    ensures OnLadder(p) ==> SameTokenInputs(TokenAt(First(p)), t.tokens[First(p)])
    ensures OnLadder(p) ==> SameTokenInputs(TokenAt(First(p) + 1), t.tokens[First(p) + 1])
  {
    var l := LadderTables(None);
    LadderLookup(None, p);
    if OnLadder(p) {
      LadderLookup(None, First(p));
      LadderLookup(None, First(p) + 1);
      assert SamePairInputs(l.pairs[p], t.pairs[p]);
      assert SameTokenInputs(l.tokens[First(p)], t.tokens[First(p)]);
      assert SameTokenInputs(l.tokens[First(p) + 1], t.tokens[First(p) + 1]);
    }
  }

  lemma LadderKey(t: Tables, p: Id)
    requires OfLadder(t) && OnLadder(p)
    ensures Loadable(t, p) && KeyOf(t, p) == KeyAt(p)
  {
    LadderRow(t, p);
    KeyExistsIff([], []);
  }

  lemma TokenSetAt(t: Tables, p: Id)
    requires OfLadder(t) && OnLadder(p)
    ensures p in t.pairs && TokenSetOf(t, t.pairs[p]) == TokenSet(AddressAt(First(p)), AddressAt(First(p) + 1))
  {
    LadderRow(t, p);
  }

  lemma TokenSetsDiffer()
    ensures TokenSet([10], [11]) != TokenSet([12], [13])
  {
    assert TokenSet([10], [11])[0] in {10, 11};
    assert TokenSet([12], [13])[0] in {12, 13};
  }

  /** Among pools on one source only pool 3 lists other contracts than the rest. */
  lemma ConflictAt(t: Tables, p: Id, o: Id)
    requires OfLadder(t) && OnLadder(p) && OnLadder(o)
    ensures p in t.pairs && o in t.pairs
    ensures SameSource(t.pairs[p], t.pairs[o]) && TokenSetOf(t, t.pairs[p]) != TokenSetOf(t, t.pairs[o]) <==>
      p != 1 && o != 1 && (p == 3 <==> o != 3)
  {
    TokenSetsDiffer();
    LadderRow(t, p);
    LadderRow(t, o);
    TokenSetAt(t, p);
    TokenSetAt(t, o);
  }

  /** A conflict comes from a stored key of pool 3 that its tokens do not have, and touches pools 0 and 2. */
  lemma ConflictIff(t: Tables, p: Id)
    requires OfLadder(t) && OnLadder(p)
    ensures p in t.pairs && 3 in t.pairs
    ensures HasIntraConflict(t, p, KeyAt(p)) <==> (p == 0 || p == 2) && t.pairs[3].canonicalKey == KEY
  {
    KeyExists();
    LadderRow(t, p);
    LadderRow(t, 3);
    if p != 3 {
      ConflictAt(t, p, 3);
      forall o | o in t.pairs && SameSource(t.pairs[p], t.pairs[o]) &&
        TokenSetOf(t, t.pairs[p]) != TokenSetOf(t, t.pairs[o])
        ensures o == 3 && p != 1
      {
        LadderRow(t, o);
        ConflictAt(t, p, o);
      }
    }
  }

  // ----- the verdicts --------------------------------------------------------

  function InputAt(k: Id, canonical: Option<Str>): VerdictToken {
    VerdictToken(AddressAt(k), Some(CoinAt(k)), 18, None, 0.0, 0.0, canonical, false)
  }

  function LadderInput(p: Id, canonical: Option<Str>): VerdictPair {
    VerdictPair(100000.0, 100000.0, TradesAt(p), InputAt(First(p), canonical), InputAt(First(p) + 1, canonical))
  }

  function LadderContext(p: Id, now: int, vouched: bool, loser: bool): VerdictContext {
    VerdictContext(now, CONFIG, KeyAt(p), vouched, loser, false, false, false, None, None, false, false, 0)
  }

  lemma PlainContext(t: Tables, p: Id, now: int)
    requires OfLadder(t) && OnLadder(p) && Loadable(t, p) && !HasIntraConflict(t, p, KeyOf(t, p)) &&
      KeyOf(t, p) == KeyAt(p)
    ensures ContextOf(t, LadderWorld(), p, now) ==
      (LadderInput(p, None), LadderContext(p, now, HasVerifiedSibling(t, p, KeyAt(p)), false))
  {
    LadderRow(t, p);
  }

  lemma PlainContextAt(t: Tables, p: Id, now: int)
    requires OfLadder(t) && OnLadder(p) && 3 in t.pairs && (p == 1 || p == 3 || t.pairs[3].canonicalKey != KEY)
    ensures Loadable(t, p)
    ensures ContextOf(t, LadderWorld(), p, now) ==
      (LadderInput(p, None), LadderContext(p, now, HasVerifiedSibling(t, p, KeyAt(p)), false))
  {
    LadderKey(t, p);
    ConflictIff(t, p);
    PlainContext(t, p, now);
  }

  /** With a live answer that is neither token's contract, a conflict is lost. */
  lemma ConflictLoses(t: Tables, w: World, p: Id, now: int, live: Str)
    requires Loadable(t, p) && HasIntraConflict(t, p, KeyOf(t, p)) && live != []
    requires var row := t.pairs[p]; var t0, t1 := t.tokens[row.token0], t.tokens[row.token1];
      && w.cachedCanonical(t0.coingeckoCoinId, row.chain) == None
      && w.cachedCanonical(t1.coingeckoCoinId, row.chain) == None
      && w.liveCanonical(t0.coingeckoCoinId, row.chain) == Some(live)
      && w.liveCanonical(t1.coingeckoCoinId, row.chain) == Some(live)
      && t0.coingeckoCoinId != [] && t1.coingeckoCoinId != [] && !AddrEq(t0.contractAddress, Some(live))
    ensures var context := ContextOf(t, w, p, now).1;
      context.intraChainImpostorLoser && context.lastSeenAt == t.pairs[p].lastChecked
  {
  }

  lemma ThirdContract()
    ensures COIN0 != [] && COIN1 != [] && !AddrEq([10], Some([99]))
  {
    assert ToLower([10])[0] == 10 && ToLower([99])[0] == 99;
  }

  lemma LoserContext(t: Tables, p: Id, now: int)
    requires OfLadder(t) && (p == 0 || p == 2) && Loadable(t, p) && HasIntraConflict(t, p, KeyOf(t, p))
    ensures ContextOf(t, LadderWorld(), p, now).1.intraChainImpostorLoser &&
      ContextOf(t, LadderWorld(), p, now).1.lastSeenAt == 0
  {
    LadderRow(t, p);
    ThirdContract();
    ConflictLoses(t, LadderWorld(), p, now, [99]);
  }

  lemma LoserVerdict(t: Tables, p: Id, now: int)
    requires OfLadder(t) && (p == 0 || p == 2) && 3 in t.pairs && t.pairs[3].canonicalKey == KEY
    ensures Loadable(t, p) && Judge(t, LadderWorld(), p, now).verdict == NotCurrentlyUsable
  {
    LadderKey(t, p);
    ConflictIff(t, p);
    LoserContext(t, p, now);
    UnusableIff(ContextOf(t, LadderWorld(), p, now).0, ContextOf(t, LadderWorld(), p, now).1);
  }

  lemma {:induction false} WeightWithin(fences: seq<Fence>, i: nat)
    requires i < |fences|
    ensures fences[i].weight <= TotalWeight(fences)
  {
    if i < |fences| - 1 { WeightWithin(fences[..|fences| - 1], i); }
  }

  lemma FullScore(now: int, vouched: bool)
    ensures Confidence(FencesOf(LadderInput(2, None), LadderContext(2, now, vouched, false)).All()) == 1.0
  {
    var f := FencesOf(LadderInput(2, None), LadderContext(2, now, vouched, false));
    WeightWithin(f.All(), 0);
    ConfidenceRange(f.All());
  }

  lemma VerdictOf(p: Id, now: int, vouched: bool)
    requires OnLadder(p)
    ensures EvaluatePair(LadderInput(p, None), LadderContext(p, now, vouched, false)).verdict == VerdictAt(p, vouched)
  {
    if p == 2 { FullScore(now, vouched); }
  }

  lemma VerdictWithAt(p: Id, now: int, vouched: bool)
    requires OnLadder(p)
    ensures var t := LadderTables(None);
      Loadable(t, p) && VerdictWith(t, LadderWorld(), p, now, vouched).verdict == VerdictAt(p, vouched)
  {
    var t := LadderTables(None);
    SelfView(t);
    KeyExists();
    LadderLookup(None, 3);
    PlainContextAt(t, p, now);
    VerdictOf(p, now, vouched);
  }

  lemma LadderJudgeable(p: Id)
    ensures var t := LadderTables(None); Judgeable(t, p) <==> OnLadder(p)
    ensures var t := LadderTables(None); OnLadder(p) ==> t.pairs[p].canonicalKey == KeyOf(t, p)
  {
    SelfView(LadderTables(None));
    LadderLookup(None, p);
    if OnLadder(p) { LadderKey(LadderTables(None), p); }
  }

  lemma LadderStart()
    ensures KeysSettled(LadderTables(None)) && Lists(ORDER, LadderTables(None).pairs.Keys)
  {
    forall p | Judgeable(LadderTables(None), p)
      ensures LadderTables(None).pairs[p].canonicalKey == KeyOf(LadderTables(None), p)
    {
      LadderJudgeable(p);
    }
    forall p ensures p in ORDER <==> p in LadderTables(None).pairs.Keys {
      LadderLookup(None, p);
    }
  }

  lemma LadderNetAt(now: int, p: Id)
    requires Valid(NetOf(LadderTables(None), LadderWorld(), now))
    ensures LadderAt(NetOf(LadderTables(None), LadderWorld(), now), p)
  {
    LadderJudgeable(p);
    LadderLookup(None, p);
    if OnLadder(p) {
      VerdictWithAt(p, now, false);
      VerdictWithAt(p, now, true);
    }
  }

  lemma LadderNetOf(now: int)
    ensures IsLadder(NetOf(LadderTables(None), LadderWorld(), now))
  {
    NetIsValid(LadderTables(None), LadderWorld(), now);
    forall p ensures LadderAt(NetOf(LadderTables(None), LadderWorld(), now), p) {
      LadderNetAt(now, p);
    }
  }

  // ----- two passes, then three ----------------------------------------------

  predicate Row(t: Tables, p: Id, s: Status) { p in t.pairs && t.pairs[p].status == s }

  /** The statuses of the four pools. */
  predicate Stands(t: Tables, s0: Status, s1: Status, s2: Status, s3: Status) {
    Row(t, 0, s0) && Row(t, 1, s1) && Row(t, 2, s2) && Row(t, 3, s3)
  }

  lemma RowIs(t: Tables, p: Id, s: Status)
    ensures Row(t, p, s) <==> p in StatusesOf(t) && StatusesOf(t)[p] == s
  {
  }

  lemma StandsIs(t: Tables, s0: Status, s1: Status, s2: Status, s3: Status)
    ensures Stands(t, s0, s1, s2, s3) <==> StandsAt(StatusesOf(t), s0, s1, s2, s3)
  {
    RowIs(t, 0, s0);
    RowIs(t, 1, s1);
    RowIs(t, 2, s2);
    RowIs(t, 3, s3);
  }

  /** The ladder with current keys. */
  ghost predicate Current(t: Tables, now: int) {
    KeysSettled(t) && IsLadder(NetOf(t, LadderWorld(), now))
  }

  /** The pools in order, the sweep at the same clock. */
  function PassAt(now: int): Revalidation {
    Revalidation(ORDER, now)
  }

  lemma PassOnLadder(t: Tables, now: int, s0: Status, s1: Status, s2: Status, s3: Status)
    requires Current(t, now) && Stands(t, s0, s1, s2, s3) && !IsVerified(s1)
    ensures var u := Revalidate(t, LadderWorld(), now, PassAt(now));
      Current(u, now) && Stands(u, NeedsReview, Lift(IsVerified(s2)), AutoVerified, NeedsReview)
  {
    RevalidateIsRun(t, LadderWorld(), now, PassAt(now));
    StandsIs(t, s0, s1, s2, s3);
    StandsIs(Revalidate(t, LadderWorld(), now, PassAt(now)), NeedsReview, Lift(IsVerified(s2)), AutoVerified,
      NeedsReview);
    LadderPass(NetOf(t, LadderWorld(), now), StatusesOf(t), s0, s1, s2, s3);
  }

  /** After a pass that verified pool 1, the next one verifies pool 0. */
  lemma PassLiftsPoolZero(t: Tables, now: int, s0: Status, s2: Status, s3: Status)
    requires Current(t, now) && Stands(t, s0, AutoVerified, s2, s3)
    ensures Stands(Revalidate(t, LadderWorld(), now, PassAt(now)), AutoVerified, AutoVerified, AutoVerified,
      NeedsReview)
  {
    RevalidateIsRun(t, LadderWorld(), now, PassAt(now));
    StandsIs(t, s0, AutoVerified, s2, s3);
    StandsIs(Revalidate(t, LadderWorld(), now, PassAt(now)), AutoVerified, AutoVerified, AutoVerified, NeedsReview);
    LiftingPass(NetOf(t, LadderWorld(), now), StatusesOf(t), s0, s2, s3);
  }

  /** From a ladder on which neither 1 nor 2 is verified, the third pass still changes a verdict: pool 2 is
      verified by the first after pool 1 was judged, pool 1 by the second after pool 0 was, pool 0 by the third. */
  lemma ThirdPassChanges(t: Tables, now: int, s0: Status, s1: Status, s2: Status, s3: Status)
    requires Current(t, now) && Stands(t, s0, s1, s2, s3) && !IsVerified(s1) && !IsVerified(s2)
    ensures var w := LadderWorld();
      var t2 := Revalidate(Revalidate(t, w, now, PassAt(now)), w, now, PassAt(now));
      var t3 := Revalidate(t2, w, now, PassAt(now));
      Row(t2, 0, NeedsReview) && Row(t3, 0, AutoVerified)
  {
    var w := LadderWorld();
    PassOnLadder(t, now, s0, s1, s2, s3);
    var t1 := Revalidate(t, w, now, PassAt(now));
    PassOnLadder(t1, now, NeedsReview, NeedsReview, AutoVerified, NeedsReview);
    var t2 := Revalidate(t1, w, now, PassAt(now));
    PassLiftsPoolZero(t2, now, NeedsReview, AutoVerified, NeedsReview);
  }

  /** Two passes do not settle every tables with current keys. */
  lemma TwoPassesAreNotEnough(now: int)
    ensures var t, w := LadderTables(None), LadderWorld();
      var t2 := Revalidate(Revalidate(t, w, now, PassAt(now)), w, now, PassAt(now));
      var t3 := Revalidate(t2, w, now, PassAt(now));
      && KeysSettled(t) && Lists(ORDER, t.pairs.Keys)
      && Row(t2, 0, NeedsReview) && Row(t3, 0, AutoVerified)
  {
    var t := LadderTables(None);
    LadderStart();
    LadderNetOf(now);
    forall p | OnLadder(p) ensures Row(t, p, Unverified) { LadderLookup(None, p); }
    ThirdPassChanges(t, now, Unverified, Unverified, Unverified, Unverified);
  }

  // ----- a stale key costs one pass more -------------------------------------

  /** Pools 0, 1 and 2 store their key, pool 3 the given one, and none is verified or operator-set. */
  ghost predicate StoredAs(t: Tables, key3: Option<Str>) {
    OfLadder(t) && forall p :: OnLadder(p) ==> RowStored(t, p, key3)
  }

  predicate RowStored(t: Tables, p: Id, key3: Option<Str>) {
    p in t.pairs && t.pairs[p].canonicalKey == (if p == 3 then key3 else KEY) && !IsVerified(t.pairs[p].status) &&
      !IsManual(t.pairs[p].status)
  }

  lemma NotVouched(t: Tables, p: Id)
    requires StoredAs(t, KEY) && OnLadder(p)
    ensures p in t.pairs && !HasVerifiedSibling(t, p, KeyAt(p))
  {
    assert RowStored(t, p, KEY);
    forall o | o in t.pairs ensures !IsVerified(t.pairs[o].status) {
      LadderRow(t, o);
      assert RowStored(t, o, KEY);
    }
  }

  /** With the stale key stored, 0 and 2 lose a conflict that is not there, and 1 and 3 go to review. */
  lemma StaleJudge(t: Tables, p: Id, now: int)
    requires StoredAs(t, KEY) && OnLadder(p)
    ensures Loadable(t, p) &&
      Judge(t, LadderWorld(), p, now).verdict == if p == 0 || p == 2 then NotCurrentlyUsable else NeedsReview
    ensures Judge(t, LadderWorld(), p, now).canonicalKey == KeyAt(p)
  {
    assert RowStored(t, 3, KEY);
    if p == 0 || p == 2 {
      LoserVerdict(t, p, now);
    } else {
      PlainContextAt(t, p, now);
      NotVouched(t, p);
      VerdictOf(p, now, false);
    }
    JudgeIsVerdictWith(t, LadderWorld(), p, now);
    LadderKey(t, p);
  }

  lemma PairsAfter(t: Tables, w: World, p: Id, now: int)
    requires Judgeable(t, p)
    ensures RunVerdict(t, w, p, now).pairs == t.pairs[p := JudgedRow(t.pairs[p], Judge(t, w, p, now), now)]
  {
  }

  lemma InputsAfter(l: Tables, t: Tables, w: World, p: Id, now: int)
    requires SameInputs(l, t)
    ensures SameInputs(l, RunVerdict(t, w, p, now))
  {
    RunVerdictKeepsInputs(t, w, p, now);
    SameInputsTransitive(l, t, RunVerdict(t, w, p, now));
  }

  lemma StaleJudgeable(t: Tables, p: Id)
    requires StoredAs(t, KEY) && OnLadder(p)
    ensures Judgeable(t, p)
  {
    LadderRow(t, p);
    assert RowStored(t, p, KEY);
  }

  lemma StaleRun(t: Tables, p: Id, now: int) returns (r: VerdictResult)
    requires StoredAs(t, KEY) && OnLadder(p)
    ensures p in t.pairs && RunVerdict(t, LadderWorld(), p, now).pairs == t.pairs[p := JudgedRow(t.pairs[p], r, now)]
    ensures r.canonicalKey == KeyAt(p) && (r.verdict == NotCurrentlyUsable || r.verdict == NeedsReview)
  {
    StaleJudgeable(t, p);
    StaleJudge(t, p, now);
    r := Judge(t, LadderWorld(), p, now);
    PairsAfter(t, LadderWorld(), p, now);
  }

  lemma StaleRow(t: Tables, u: Tables, p: Id, q: Id, r: VerdictResult, now: int)
    requires OnLadder(p) && RowStored(t, p, KEY) && RowStored(t, q, KEY)
    requires u.pairs == t.pairs[p := JudgedRow(t.pairs[p], r, now)]
    requires r.canonicalKey == KeyAt(p) && (r.verdict == NotCurrentlyUsable || r.verdict == NeedsReview)
    ensures RowStored(u, q, if p == 3 then None else KEY)
  {
  }

  lemma StaleWrite(t: Tables, u: Tables, p: Id, r: VerdictResult, now: int)
    requires StoredAs(t, KEY) && OnLadder(p) && OfLadder(u)
    requires p in t.pairs && u.pairs == t.pairs[p := JudgedRow(t.pairs[p], r, now)]
    requires r.canonicalKey == KeyAt(p) && (r.verdict == NotCurrentlyUsable || r.verdict == NeedsReview)
    ensures StoredAs(u, if p == 3 then None else KEY)
  {
    assert RowStored(t, p, KEY);
    forall q | OnLadder(q) ensures RowStored(u, q, if p == 3 then None else KEY) {
      assert RowStored(t, q, KEY);
      StaleRow(t, u, p, q, r, now);
    }
  }

  lemma StaleStep(t: Tables, p: Id, now: int)
    requires StoredAs(t, KEY) && OnLadder(p)
    ensures StoredAs(RunVerdict(t, LadderWorld(), p, now), if p == 3 then None else KEY)
  {
    var r := StaleRun(t, p, now);
    InputsAfter(LadderTables(None), t, LadderWorld(), p, now);
    StaleWrite(t, RunVerdict(t, LadderWorld(), p, now), p, r, now);
  }

  lemma RunAllOfFour(t: Tables, w: World, now: int)
    ensures RunAll(t, w, ORDER, now) ==
      RunVerdict(RunVerdict(RunVerdict(RunVerdict(t, w, 0, now), w, 1, now), w, 2, now), w, 3, now)
  {
    assert ORDER[..3] == [0, 1, 2] && [0, 1, 2][..2] == [0, 1] && [0, 1][..1] == [0] && [0][..0] == [];
    assert RunAll(t, w, [0], now) == RunVerdict(RunAll(t, w, [], now), w, 0, now);
    assert RunAll(t, w, [0, 1], now) == RunVerdict(RunAll(t, w, [0], now), w, 1, now);
    assert RunAll(t, w, [0, 1, 2], now) == RunVerdict(RunAll(t, w, [0, 1], now), w, 2, now);
  }

  /** The first pass over the stale key brings the keys up to date and verifies nothing. */
  lemma StalePass(now: int)
    ensures StoredAs(Revalidate(LadderTables(KEY), LadderWorld(), now, PassAt(now)), None)
  {
    var t, w := LadderTables(KEY), LadderWorld();
    StaleStart();
    var a := RunVerdict(t, w, 0, now);
    StaleStep(t, 0, now);
    var b := RunVerdict(a, w, 1, now);
    StaleStep(a, 1, now);
    var c := RunVerdict(b, w, 2, now);
    StaleStep(b, 2, now);
    var d := RunVerdict(c, w, 3, now);
    StaleStep(c, 3, now);
    RunAllOfFour(t, w, now);
    DemoteKeepsInputs(d, None, now);
    SameInputsTransitive(LadderTables(None), d, Demote(d, None, now));
    forall p | OnLadder(p) ensures RowStored(Demote(d, None, now), p, None) { assert RowStored(d, p, None); }
  }

  lemma StaleStart()
    ensures StoredAs(LadderTables(KEY), KEY) && Lists(ORDER, LadderTables(KEY).pairs.Keys)
  {
    var l, t := LadderTables(None), LadderTables(KEY);
    forall p ensures p in l.pairs ==> p in t.pairs && SamePairInputs(l.pairs[p], t.pairs[p]) {
      LadderLookup(None, p);
      LadderLookup(KEY, p);
    }
    forall k | k in l.tokens ensures SameTokenInputs(l.tokens[k], t.tokens[k]) {
    }
    forall p ensures (p in ORDER <==> p in t.pairs) && (OnLadder(p) ==> RowStored(t, p, KEY)) {
      LadderLookup(KEY, p);
    }
  }

  /** Tables that store current keys are the ladder again. */
  lemma StoredKeysAgree(t: Tables, p: Id)
    requires StoredAs(t, None) && p in LadderTables(None).pairs
    ensures p in t.pairs && LadderTables(None).pairs[p].canonicalKey == t.pairs[p].canonicalKey
    ensures !IsManual(LadderTables(None).pairs[p].status) && !IsManual(t.pairs[p].status)
  {
    LadderLookup(None, p);
    assert RowStored(t, p, None);
  }

  lemma StoredIsCurrent(t: Tables, now: int)
    requires StoredAs(t, None)
    ensures Current(t, now)
  {
    forall p | p in LadderTables(None).pairs
      ensures p in t.pairs && LadderTables(None).pairs[p].canonicalKey == t.pairs[p].canonicalKey
      ensures !IsManual(LadderTables(None).pairs[p].status) && !IsManual(t.pairs[p].status)
    {
      StoredKeysAgree(t, p);
    }
    LadderStart();
    LadderNetOf(now);
    NetSame(LadderTables(None), t, LadderWorld(), now);
    KeysStaySettled(LadderTables(None), t);
  }

  /** Four is the best bound from any tables: with a stale key three passes leave a verdict to change. */
  lemma ThreePassesAreNotEnough(now: int)
    ensures var t, w := LadderTables(KEY), LadderWorld();
      var t3 := Revalidate(Revalidate(Revalidate(t, w, now, PassAt(now)), w, now, PassAt(now)), w, now, PassAt(now));
      var t4 := Revalidate(t3, w, now, PassAt(now));
      && Lists(ORDER, t.pairs.Keys)
      && Row(t3, 0, NeedsReview) && Row(t4, 0, AutoVerified)
  {
    var t1 := Revalidate(LadderTables(KEY), LadderWorld(), now, PassAt(now));
    StaleStart();
    StalePass(now);
    StoredIsCurrent(t1, now);
    assert RowStored(t1, 0, None) && RowStored(t1, 1, None) && RowStored(t1, 2, None) && RowStored(t1, 3, None);
    ThirdPassChanges(t1, now, t1.pairs[0].status, t1.pairs[1].status, t1.pairs[2].status, t1.pairs[3].status);
  }
}
