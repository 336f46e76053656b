/** Re-validation as a feedback system. */
module Settling {
  // Every verdict is a vote for the verified-sibling rule of the others, so one pass can change what the next one
  // decides. Here is that system on its own: nodes with a canonical key and a source, and for each movable node the
  // verdict it gets with and without a verified sibling. `SettlingTables` ties it to the tables.

  import opened Wrappers
  import opened JsString
  import opened Verdict

  type State = map<Id, Status>

  /** A network of pairs: operator-set pairs are nodes that never move. */
  datatype Net = Net(
    key: map<Id, Option<Str>>, source: map<Id, (Str, Str)>, movable: set<Id>,
    base: map<Id, Status>, boosted: map<Id, Status>)

  /** A sibling's vote can only lift a verdict to AutoVerified, and the engine verifies no other way. */
  ghost predicate Valid(net: Net) {
    && net.key.Keys == net.source.Keys && net.movable <= net.key.Keys
    && net.movable <= net.base.Keys && net.movable <= net.boosted.Keys
    && (forall p :: p in net.movable ==> net.boosted[p] == net.base[p] || net.boosted[p] == AutoVerified)
    && (forall p :: p in net.movable && IsVerified(net.base[p]) ==> net.base[p] == AutoVerified)
  }

  predicate Siblings(net: Net, p: Id, o: Id)
    requires net.key.Keys == net.source.Keys
  {
    p in net.key && o in net.key && net.key[p].Some? && net.key[p] == net.key[o] && net.source[p] != net.source[o]
  }

  predicate On(st: State, p: Id) {
    p in st && IsVerified(st[p])
  }

  predicate Vouched(net: Net, st: State, p: Id)
    requires net.key.Keys == net.source.Keys
  {
    exists o :: o in net.key && Siblings(net, p, o) && On(st, o)
  }

  /** Judging one pair. */
  function Step(net: Net, st: State, p: Id): State
    requires Valid(net)
  {
    if p in net.movable then st[p := if Vouched(net, st, p) then net.boosted[p] else net.base[p]] else st
  }

  function Run(net: Net, st: State, calls: seq<Id>): State
    requires Valid(net)
  {
    if calls == [] then st else Step(net, Run(net, st, calls[..|calls| - 1]), calls[|calls| - 1])
  }

  /** A pass judges every movable pair at least once, in any order. */
  ghost predicate Covers(net: Net, calls: seq<Id>) {
    forall p :: p in net.movable ==> p in calls
  }

  ghost predicate Settled(net: Net, st: State)
    requires Valid(net)
  {
    forall p :: p in net.movable ==> Step(net, st, p) == st
  }

  /** The pair's status is one its current inputs can give it. */
  predicate LegitAt(net: Net, st: State, p: Id)
    requires Valid(net)
  {
    p in net.movable ==> p in st && (st[p] == net.base[p] || st[p] == net.boosted[p])
  }

  ghost predicate Legit(net: Net, st: State)
    requires Valid(net)
  {
    forall p :: p in net.movable ==> LegitAt(net, st, p)
  }

  lemma SiblingsSymmetric(net: Net, p: Id, o: Id)
    requires Valid(net)
    ensures Siblings(net, p, o) <==> Siblings(net, o, p)
  {
  }

  /** A verified pair that is legit would be verified again if vouched for. */
  lemma OnStaysBoosted(net: Net, st: State, p: Id)
    requires Valid(net) && p in net.movable && LegitAt(net, st, p) && On(st, p)
    ensures net.boosted[p] == AutoVerified
  {
  }

  lemma StepKeepsLegit(net: Net, st: State, p: Id)
    requires Valid(net)
    ensures LegitAt(net, Step(net, st, p), p)
    ensures forall q :: LegitAt(net, st, q) ==> LegitAt(net, Step(net, st, p), q)
  {
  }

  // ----- how often a pair can change -----------------------------------------

  /** Two for a verified pair without a verified sibling, one for an unverified pair, none for a
      verified pair that a verified sibling vouches for. */
  function Rank(net: Net, st: State, p: Id): (r: nat)
    requires Valid(net)
    ensures r <= 2
  {
    if !On(st, p) then 1 else if Vouched(net, st, p) then 0 else 2
  }

  ghost function Illegit(net: Net, st: State): set<Id>
    requires Valid(net)
  {
    set p | p in net.movable && !LegitAt(net, st, p)
  }

  /** A bound on the changes still open to p. */
  ghost function Budget(net: Net, st: State, p: Id): nat
    requires Valid(net)
  {
    (if LegitAt(net, st, p) then Rank(net, st, p) else 3) + 2 * |Illegit(net, st) - {p}|
  }

  /** How many of the calls change the status of p. */
  function ChangesOf(net: Net, st: State, calls: seq<Id>, p: Id): nat
    requires Valid(net)
  {
    if calls == [] then 0
    else
      var before := Run(net, st, calls[..|calls| - 1]);
      var after := Step(net, before, calls[|calls| - 1]);
      ChangesOf(net, st, calls[..|calls| - 1], p) +
        if p in before && p in after && before[p] == after[p] then 0 else if p !in before && p !in after then 0 else 1
  }

  /** Among legit pairs no step raises anyone's rank, and a step that moves a pair lowers its own. */
  lemma LegitStepLowersRank(net: Net, st: State, c: Id, p: Id)
    requires Valid(net) && c in net.movable && p in net.movable && LegitAt(net, st, c) && LegitAt(net, st, p)
    ensures Rank(net, Step(net, st, c), p) <= Rank(net, st, p)
    ensures Step(net, st, c)[p] != st[p] ==> Rank(net, Step(net, st, c), p) < Rank(net, st, p)
  {
    var after := Step(net, st, c);
    if Vouched(net, st, p) {
      var o :| o in net.key && Siblings(net, p, o) && On(st, o);
      if On(st, p) && o == c {
        SiblingsSymmetric(net, p, c);
        OnStaysBoosted(net, st, c);
        assert Vouched(net, st, c);
      }
      if o != c || On(after, c) {
        assert Siblings(net, p, o) && On(after, o);
        assert Vouched(net, after, p);
      }
    }
  }

  lemma StepShrinksIllegit(net: Net, st: State, c: Id, p: Id)
    requires Valid(net) && c in net.movable && !LegitAt(net, st, c) && c != p
    ensures |Illegit(net, Step(net, st, c)) - {p}| < |Illegit(net, st) - {p}|
  {
    StepKeepsLegit(net, st, c);
    assert c in Illegit(net, st) - {p} && c !in Illegit(net, Step(net, st, c));
    StrictSubsetSmaller(Illegit(net, Step(net, st, c)) - {p}, Illegit(net, st) - {p});
  }

  lemma StrictSubsetSmaller(a: set<Id>, b: set<Id>)
    requires a < b
    ensures |a| < |b|
  {
    assert b == a + (b - a) && b - a != {};
    assert |b| == |a| + |b - a|;
  }

  lemma SubsetNoLarger(a: set<Id>, b: set<Id>)
    requires a <= b
    ensures |a| <= |b|
  {
    if a != b { StrictSubsetSmaller(a, b); }
  }

  lemma StepSpendsBudget(net: Net, st: State, c: Id, p: Id)
    requires Valid(net) && p in net.movable && p in st
    ensures var after := Step(net, st, c);
      p in after && Budget(net, after, p) + (if after[p] == st[p] then 0 else 1) <= Budget(net, st, p)
  {
    if c in net.movable {
      var after := Step(net, st, c);
      StepKeepsLegit(net, st, c);
      SubsetNoLarger(Illegit(net, after) - {p}, Illegit(net, st) - {p});
      if !LegitAt(net, st, c) && c != p {
        StepShrinksIllegit(net, st, c, p);
      } else if LegitAt(net, st, c) && LegitAt(net, st, p) {
        LegitStepLowersRank(net, st, c, p);
      }
    }
  }

  lemma {:induction false} ChangesWithinBudget(net: Net, st: State, calls: seq<Id>, p: Id)
    requires Valid(net) && p in net.movable && p in st
    ensures p in Run(net, st, calls)
    ensures ChangesOf(net, st, calls, p) + Budget(net, Run(net, st, calls), p) <= Budget(net, st, p)
  {
    if calls != [] {
      var front := calls[..|calls| - 1];
      ChangesWithinBudget(net, st, front, p);
      StepSpendsBudget(net, Run(net, st, front), calls[|calls| - 1], p);
    }
  }

  /** However long the run and whatever its order, a pair's status changes at most 2n + 1 times over
      n movable pairs, and at most twice once every status is one its inputs can give. */
  lemma FinitelyManyChanges(net: Net, st: State, calls: seq<Id>, p: Id)
    requires Valid(net) && p in net.movable && p in st
    ensures ChangesOf(net, st, calls, p) <= 2 * |net.movable| + 1
    ensures Legit(net, st) ==> ChangesOf(net, st, calls, p) <= 2
  {
    ChangesWithinBudget(net, st, calls, p);
    StrictSubsetSmaller(Illegit(net, st) - {p}, net.movable);
    if Legit(net, st) {
      assert Illegit(net, st) == {};
    }
  }

  // ----- passes --------------------------------------------------------------

  lemma {:induction false} JudgedAreLegit(net: Net, st: State, calls: seq<Id>)
    requires Valid(net)
    ensures forall p :: p in calls || LegitAt(net, st, p) ==> LegitAt(net, Run(net, st, calls), p)
  {
    if calls != [] {
      var front := calls[..|calls| - 1];
      JudgedAreLegit(net, st, front);
      StepKeepsLegit(net, Run(net, st, front), calls[|calls| - 1]);
      assert calls == front + [calls[|calls| - 1]];
    }
  }

  /** Two verified pairs with one key on two sources hold each other up. */
  ghost predicate Anchor(net: Net, st: State, p: Id, q: Id)
    requires Valid(net)
  {
    Siblings(net, p, q) && On(st, p) && On(st, q)
  }

  ghost predicate Anchored(net: Net, st: State, key: Str)
    requires Valid(net)
  {
    exists p, q :: p in net.key && q in net.key && net.key[p] == Some(key) && Anchor(net, st, p, q)
  }

  lemma StepKeepsAnchor(net: Net, st: State, c: Id, p: Id, q: Id)
    requires Valid(net) && Legit(net, st) && Anchor(net, st, p, q)
    ensures Anchor(net, Step(net, st, c), p, q)
  {
    SiblingsSymmetric(net, p, q);
    if c in net.movable && (c == p || c == q) {
      assert Vouched(net, st, c);
      OnStaysBoosted(net, st, c);
    }
  }

  lemma StepKeepsAnchored(net: Net, st: State, c: Id, key: Str)
    requires Valid(net) && Legit(net, st) && Anchored(net, st, key)
    ensures Anchored(net, Step(net, st, c), key)
  {
    var p, q :| p in net.key && q in net.key && net.key[p] == Some(key) && Anchor(net, st, p, q);
    StepKeepsAnchor(net, st, c, p, q);
  }

  /** In an anchored class every pair has a verified sibling: it is on another source than one of the two. */
  lemma AnchoredVouches(net: Net, st: State, key: Str, r: Id)
    requires Valid(net) && Anchored(net, st, key) && r in net.key && net.key[r] == Some(key)
    ensures Vouched(net, st, r)
  {
    var p, q :| p in net.key && q in net.key && net.key[p] == Some(key) && Anchor(net, st, p, q);
    if net.source[r] != net.source[p] {
      assert Siblings(net, r, p) && On(st, p);
    } else {
      assert Siblings(net, r, q) && On(st, q);
    }
  }

  /** From an anchored state every judged pair of the class gets and keeps its boosted verdict. */
  lemma {:induction false} AnchoredRun(net: Net, st: State, calls: seq<Id>, key: Str)
    requires Valid(net) && Legit(net, st) && Anchored(net, st, key)
    ensures var after := Run(net, st, calls);
      && Legit(net, after) && Anchored(net, after, key)
      && forall r :: r in net.movable && r in calls && net.key[r] == Some(key) ==>
        r in after && after[r] == net.boosted[r]
  {
    if calls != [] {
      var front, c := calls[..|calls| - 1], calls[|calls| - 1];
      var before := Run(net, st, front);
      AnchoredRun(net, st, front, key);
      StepKeepsLegit(net, before, c);
      StepKeepsAnchored(net, before, c, key);
      if c in net.movable && net.key[c] == Some(key) {
        AnchoredVouches(net, before, key, c);
      }
      assert calls == front + [c];
    }
  }

  /** A pair that is verified in every legit state. */
  predicate SteadyOn(net: Net, st: State, q: Id)
    requires Valid(net)
  {
    if q in net.movable then net.base[q] == AutoVerified else On(st, q)
  }

  ghost predicate SteadySibling(net: Net, st: State, r: Id)
    requires Valid(net)
  {
    exists q :: q in net.key && Siblings(net, r, q) && SteadyOn(net, st, q)
  }

  /** The pair has its plain verdict, and no lasting vote that would change it. */
  ghost predicate Quiet(net: Net, st: State, r: Id)
    requires Valid(net) && r in net.movable
  {
    r in st && st[r] == net.base[r] && (SteadySibling(net, st, r) ==> net.boosted[r] == net.base[r])
  }

  lemma {:induction false} UnanchoredRun(net: Net, st: State, calls: seq<Id>, key: Str)
    requires Valid(net) && Legit(net, st) && !Anchored(net, Run(net, st, calls), key)
    ensures var after := Run(net, st, calls);
      Legit(net, after) && forall r :: r in net.movable && r in calls && net.key[r] == Some(key) ==>
        Quiet(net, after, r)
  {
    JudgedAreLegit(net, st, calls);
    if calls != [] {
      var front, c := calls[..|calls| - 1], calls[|calls| - 1];
      var before, after := Run(net, st, front), Run(net, st, calls);
      JudgedAreLegit(net, st, front);
      if Anchored(net, before, key) { StepKeepsAnchored(net, before, c, key); }
      UnanchoredRun(net, st, front, key);
      assert calls == front + [c];
      forall r | r in net.movable && r in calls && net.key[r] == Some(key) ensures Quiet(net, after, r) {
        SteadySame(net, before, c, r);
        if r == c { JudgedQuiet(net, before, c, key); }
      }
    }
  }

  lemma SteadySame(net: Net, st: State, c: Id, r: Id)
    requires Valid(net)
    ensures SteadySibling(net, Step(net, st, c), r) <==> SteadySibling(net, st, r)
  {
    forall q ensures SteadyOn(net, Step(net, st, c), q) <==> SteadyOn(net, st, q) {
    }
  }

  lemma JudgedQuiet(net: Net, st: State, c: Id, key: Str)
    requires Valid(net) && Legit(net, st) && c in net.movable && net.key[c] == Some(key)
    requires !Anchored(net, Step(net, st, c), key)
    ensures Quiet(net, Step(net, st, c), c)
  {
    var after := Step(net, st, c);
    SteadySame(net, st, c, c);
    if Vouched(net, st, c) {
      var o :| o in net.key && Siblings(net, c, o) && On(st, o);
      assert On(after, o);
      if On(after, c) { assert Anchor(net, after, c, o); }
      assert net.boosted[c] == net.base[c];
    }
  }

  /** The class rests: judging any of its pairs changes nothing. */
  ghost predicate Rests(net: Net, st: State, key: Str)
    requires Valid(net)
  {
    forall r :: r in net.movable && net.key[r] == Some(key) ==> Step(net, st, r) == st
  }

  lemma QuietRests(net: Net, st: State, key: Str)
    requires Valid(net)
    requires forall r :: r in net.movable && net.key[r] == Some(key) ==> Quiet(net, st, r)
    ensures Rests(net, st, key)
  {
    forall r | r in net.movable && net.key[r] == Some(key) ensures Step(net, st, r) == st {
      if Vouched(net, st, r) {
        var o :| o in net.key && Siblings(net, r, o) && On(st, o);
        assert SteadyOn(net, st, o);
        assert SteadySibling(net, st, r);
      }
    }
  }

  ghost predicate SameOnClass(net: Net, st: State, st': State, key: Str)
    requires Valid(net)
  {
    forall r :: r in net.key && net.key[r] == Some(key) ==> (r in st <==> r in st') && (r in st ==> st[r] == st'[r])
  }

  lemma SameOnClassRests(net: Net, st: State, st': State, key: Str)
    requires Valid(net) && SameOnClass(net, st, st', key) && Rests(net, st, key)
    ensures Rests(net, st', key)
  {
    forall r | r in net.movable && net.key[r] == Some(key) ensures Step(net, st', r) == st' {
      assert Step(net, st, r) == st;
      assert forall o :: Siblings(net, r, o) ==> (On(st, o) <==> On(st', o));
      assert Vouched(net, st, r) <==> Vouched(net, st', r);
    }
  }

  lemma {:induction false} RestingRun(net: Net, st: State, calls: seq<Id>, key: Str)
    requires Valid(net) && Rests(net, st, key)
    ensures SameOnClass(net, st, Run(net, st, calls), key) && Rests(net, Run(net, st, calls), key)
  {
    if calls != [] {
      var front, c := calls[..|calls| - 1], calls[|calls| - 1];
      RestingRun(net, st, front, key);
      var before := Run(net, st, front);
      if c in net.movable && net.key[c] == Some(key) {
        assert Step(net, before, c) == before;
      }
      SameOnClassRests(net, before, Step(net, before, c), key);
    }
  }

  lemma UnkeyedStep(net: Net, st: State, p: Id)
    requires Valid(net) && p in net.movable && net.key[p] == None && p in st && st[p] == net.base[p]
    ensures Step(net, st, p) == st
  {
  }

  lemma {:induction false} UnkeyedRun(net: Net, st: State, calls: seq<Id>, p: Id)
    requires Valid(net) && p in net.movable && net.key[p] == None && p in calls
    ensures p in Run(net, st, calls) && Run(net, st, calls)[p] == net.base[p]
  {
    var front, c := calls[..|calls| - 1], calls[|calls| - 1];
    assert calls == front + [c];
    if p in front { UnkeyedRun(net, st, front, p); }
  }

  /** Two passes, each in any order, settle the network once every status is legit. */
  lemma TwoPassesSettle(net: Net, st: State, first: seq<Id>, second: seq<Id>)
    requires Valid(net) && Legit(net, st) && Covers(net, first) && Covers(net, second)
    ensures Settled(net, Run(net, Run(net, st, first), second))
  {
    var mid := Run(net, st, first);
    var end := Run(net, mid, second);
    JudgedAreLegit(net, st, first);
    forall p | p in net.movable ensures Step(net, end, p) == end {
      match net.key[p]
      case None =>
        UnkeyedRun(net, mid, second, p);
        UnkeyedStep(net, end, p);
      case Some(key) =>
        if Anchored(net, mid, key) {
          AnchoredRun(net, mid, second, key);
          AnchoredVouches(net, end, key, p);
        } else {
          UnanchoredRun(net, st, first, key);
          QuietRests(net, mid, key);
          RestingRun(net, mid, second, key);
        }
    }
  }

  /** From any statuses whatever, three passes settle the network. */
  lemma ThreePassesSettle(net: Net, st: State, first: seq<Id>, second: seq<Id>, third: seq<Id>)
    requires Valid(net) && Covers(net, first) && Covers(net, second) && Covers(net, third)
    ensures Settled(net, Run(net, Run(net, Run(net, st, first), second), third))
  {
    JudgedAreLegit(net, st, first);
    TwoPassesSettle(net, Run(net, st, first), second, third);
  }
}
