/** Every interleaving of the calls of lib/providerAuth.ts: what a bearer in the table proves. */
module ProviderRuns {
  import opened Wrappers
  import opened JsString
  import opened ProviderAuth

  datatype Call = Call(params: Params, phase: Phase)

  datatype State = State(store: Store, calls: seq<Call>)

  /** One statement of some request, or an operator's revocation. */
  datatype Event =
    | Create(address: Str, chainId: int, nonce: Str, now: int)
    | Begin(params: Params)
    | Step(call: nat, pick: nat, registered: bool, hash: Str)
    | Lookup(hash: Str, now: int)
    | Revoke(token: nat, at: int)

  function Apply(env: Env, s: State, e: Event): State {
    match e
    case Create(address, chainId, nonce, now) => s.(store := WithChallenge(env, s.store, address, chainId, nonce, now))
    case Begin(params) => s.(calls := s.calls + [Call(params, Started)])
    case Step(i, pick, registered, hash) =>
      if i < |s.calls| then
        var (store, phase) := Advance(env, s.store, s.calls[i].params, s.calls[i].phase, pick, registered, hash);
        State(store, s.calls[i := s.calls[i].(phase := phase)])
      else s
    case Lookup(hash, now) => s.(store := s.store.(tokens := Touch(s.store.tokens, hash, now)))
    case Revoke(t, at) =>
      if t < |s.store.tokens| then
        s.(store := s.store.(tokens := s.store.tokens[t := s.store.tokens[t].(revokedAt := at)]))
      else s
  }

  const EMPTY := State(Store([], []), [])

  function Run(env: Env, events: seq<Event>): State {
    if events == [] then EMPTY else Apply(env, Run(env, events[..|events| - 1]), events[|events| - 1])
  }

  // ----- what the tables keep ------------------------------------------------

  /** A row keeps its wallet, chain, text and expiry, and once consumed stays as it is. */
  predicate Later(c: Challenge, d: Challenge) {
    && d.address == c.address && d.chainId == c.chainId && d.message == c.message && d.expiresAt == c.expiresAt
    && (c.consumedAt != 0 ==> d.consumedAt == c.consumedAt)
  }

  predicate SameBearer(t: Token, u: Token) {
    && u.tokenHash == t.tokenHash && u.address == t.address && u.chainId == t.chainId
    && u.issuedAt == t.issuedAt && u.expiresAt == t.expiresAt
  }

  /** No statement removes a row or rewrites what it stands for. */
  predicate Extends(a: Store, b: Store) {
    && |a.challenges| <= |b.challenges| && |a.tokens| <= |b.tokens|
    && (forall i :: 0 <= i < |a.challenges| ==> Later(a.challenges[i], b.challenges[i]))
    && (forall i :: 0 <= i < |a.tokens| ==> SameBearer(a.tokens[i], b.tokens[i]))
  }

  lemma ApplyExtends(env: Env, s: State, e: Event)
    ensures Extends(s.store, Apply(env, s, e).store)
  {
  }

  // ----- what a call's progress shows ----------------------------------------

  /** The challenge a call goes by is for its wallet and chain and had not expired at the call's clock. */
  predicate Holds(store: Store, p: Params, id: nat) {
    && id < |store.challenges|
    && store.challenges[id].address == ToLower(p.address) && store.challenges[id].chainId == p.chainId
    && store.challenges[id].expiresAt > p.now
  }

  /** The wallet signed that challenge's text. */
  predicate SignedIt(env: Env, store: Store, p: Params, id: nat) {
    Holds(store, p, id) && RecoverSigner(env, store.challenges[id].message, p.signature) == ToLower(p.address)
  }

  /** The call has taken the challenge; a clock of zero leaves no mark. */
  predicate Took(env: Env, store: Store, p: Params, id: nat) {
    SignedIt(env, store, p, id) && (p.now != 0 ==> store.challenges[id].consumedAt == p.now)
  }

  predicate BearerOf(env: Env, t: Token, p: Params) {
    SameBearer(TokenFor(env, p, t.tokenHash), t)
  }

  predicate CallOk(env: Env, store: Store, c: Call) {
    match c.phase
    case Started => true
    case Refused => true
    case Found(id, row) => Holds(store, c.params, id) && row.message == store.challenges[id].message
    case Signed(id) => SignedIt(env, store, c.params, id)
    case Registered(id) => SignedIt(env, store, c.params, id)
    case Spent(id) => Took(env, store, c.params, id)
    case Issued(id, t) =>
      Took(env, store, c.params, id) && t < |store.tokens| && BearerOf(env, store.tokens[t], c.params)
  }

  predicate HasTaken(c: Call, id: nat) {
    (c.phase.Spent? && c.phase.id == id) || (c.phase.Issued? && c.phase.id == id)
  }

  predicate HasIssued(c: Call, t: nat) {
    c.phase.Issued? && c.phase.token == t
  }

  ghost predicate CallsOk(env: Env, s: State) {
    forall i :: 0 <= i < |s.calls| ==> CallOk(env, s.store, s.calls[i])
  }

  /** Two calls with a clock never take the same challenge. */
  ghost predicate OneTaker(s: State) {
    forall i, j, id: nat :: (
      0 <= i < |s.calls| && 0 <= j < |s.calls| && HasTaken(s.calls[i], id) && HasTaken(s.calls[j], id) &&
      s.calls[i].params.now != 0 && s.calls[j].params.now != 0) ==> i == j
  }

  /** Every bearer was issued by exactly one call. */
  ghost predicate OneIssuer(s: State) {
    && (forall i, j, t: nat ::
          0 <= i < |s.calls| && 0 <= j < |s.calls| && HasIssued(s.calls[i], t) && HasIssued(s.calls[j], t) ==> i == j)
    && (forall t: nat :: t < |s.store.tokens| ==> HasIssuer(s, t))
  }

  ghost predicate HasIssuer(s: State, t: nat) {
    exists i :: 0 <= i < |s.calls| && HasIssued(s.calls[i], t)
  }

  ghost predicate DistinctHashes(tokens: seq<Token>) {
    forall i, j :: 0 <= i < j < |tokens| ==> tokens[i].tokenHash != tokens[j].tokenHash
  }

  ghost predicate Sound(env: Env, s: State) {
    CallsOk(env, s) && OneTaker(s) && OneIssuer(s) && DistinctHashes(s.store.tokens)
  }

  // ----- every statement keeps it --------------------------------------------

  lemma OldCallStaysOk(env: Env, a: Store, b: Store, c: Call)
    requires Extends(a, b) && CallOk(env, a, c)
    ensures CallOk(env, b, c)
  {
  }

  lemma SteppedCallOk(env: Env, s: Store, c: Call, pick: nat, registered: bool, hash: Str)
    requires CallOk(env, s, c)
    ensures var (t, phase) :=
      Advance(env, s, c.params, c.phase, pick, registered, hash); CallOk(env, t, c.(phase := phase))
  {
  }

  lemma ApplyKeepsCalls(env: Env, s: State, e: Event)
    requires CallsOk(env, s)
    ensures CallsOk(env, Apply(env, s, e))
  {
    var t := Apply(env, s, e);
    ApplyExtends(env, s, e);
    forall i | 0 <= i < |t.calls| ensures CallOk(env, t.store, t.calls[i]) {
      if e.Step? && i == e.call {
        SteppedCallOk(env, s.store, s.calls[i], e.pick, e.registered, e.hash);
      } else if i < |s.calls| {
        OldCallStaysOk(env, s.store, t.store, s.calls[i]);
      }
    }
  }

  /** A step that takes a challenge finds it unconsumed. */
  lemma TakingNeedsUnconsumed(env: Env, s: Store, c: Call, pick: nat, registered: bool, hash: Str, id: nat)
    requires HasTaken(c.(phase := Advance(env, s, c.params, c.phase, pick, registered, hash).1), id)
    ensures HasTaken(c, id) || Unconsumed(s, id)
  {
  }

  lemma ApplyKeepsOneTaker(env: Env, s: State, e: Event)
    requires CallsOk(env, s) && OneTaker(s)
    ensures OneTaker(Apply(env, s, e))
  {
    var t := Apply(env, s, e);
    forall i, j, id: nat | 0 <= i < |t.calls| && 0 <= j < |t.calls| && HasTaken(t.calls[i], id) &&
      HasTaken(t.calls[j], id) &&
      t.calls[i].params.now != 0 && t.calls[j].params.now != 0
      ensures i == j
    {
      TakerBefore(env, s, e, i, id);
      TakerBefore(env, s, e, j, id);
    }
  }

  lemma TakerBefore(env: Env, s: State, e: Event, i: nat, id: nat)
    requires CallsOk(env, s) && i < |Apply(env, s, e).calls| && HasTaken(Apply(env, s, e).calls[i], id)
    ensures i < |s.calls| && Apply(env, s, e).calls[i].params == s.calls[i].params
    ensures HasTaken(s.calls[i], id) || (e.Step? && e.call == i && Unconsumed(s.store, id))
    ensures HasTaken(s.calls[i], id) && s.calls[i].params.now != 0 ==> !Unconsumed(s.store, id)
  {
    if e.Step? && e.call == i {
      TakingNeedsUnconsumed(env, s.store, s.calls[i], e.pick, e.registered, e.hash, id);
    }
    assert CallOk(env, s.store, s.calls[i]);
  }

  lemma ApplyKeepsHashes(env: Env, s: State, e: Event)
    requires DistinctHashes(s.store.tokens)
    ensures DistinctHashes(Apply(env, s, e).store.tokens)
  {
  }

  /** A step that issues a bearer issues the next one. */
  lemma IssuedByStep(env: Env, s: State, e: Event, i: nat, t: nat)
    requires CallsOk(env, s) && i < |Apply(env, s, e).calls| && HasIssued(Apply(env, s, e).calls[i], t)
    ensures (i < |s.calls| && HasIssued(s.calls[i], t) && t < |s.store.tokens|) ||
      (e.Step? && e.call == i && t == |s.store.tokens|)
  {
    assert i < |s.calls| ==> CallOk(env, s.store, s.calls[i]);
  }

  lemma IssuerStays(env: Env, s: State, e: Event, t: nat)
    requires CallsOk(env, s) && (t < |s.store.tokens| ==> HasIssuer(s, t)) && t < |Apply(env, s, e).store.tokens|
    ensures HasIssuer(Apply(env, s, e), t)
  {
    var s' := Apply(env, s, e);
    if t < |s.store.tokens| {
      var i :| 0 <= i < |s.calls| && HasIssued(s.calls[i], t);
      assert HasIssued(s'.calls[i], t);
    } else {
      assert HasIssued(s'.calls[e.call], t);
    }
  }

  lemma ApplyKeepsOneIssuer(env: Env, s: State, e: Event)
    requires CallsOk(env, s) && OneIssuer(s)
    ensures OneIssuer(Apply(env, s, e))
  {
    var s' := Apply(env, s, e);
    forall i, j, t: nat | 0 <= i < |s'.calls| && 0 <= j < |s'.calls| && HasIssued(s'.calls[i], t) &&
      HasIssued(s'.calls[j], t)
      ensures i == j
    {
      IssuedByStep(env, s, e, i, t);
      IssuedByStep(env, s, e, j, t);
    }
    forall t: nat | t < |s'.store.tokens| ensures HasIssuer(s', t) {
      IssuerStays(env, s, e, t);
    }
  }

  lemma {:induction false} RunSound(env: Env, events: seq<Event>)
    ensures Sound(env, Run(env, events))
  {
    if events != [] {
      var s, e := Run(env, events[..|events| - 1]), events[|events| - 1];
      RunSound(env, events[..|events| - 1]);
      ApplyKeepsCalls(env, s, e);
      ApplyKeepsOneTaker(env, s, e);
      ApplyKeepsOneIssuer(env, s, e);
      ApplyKeepsHashes(env, s, e);
    }
  }

  // ----- the theorems --------------------------------------------------------

  /** Single use, over every interleaving: a challenge never yields two bearers to calls that have a clock. */
  lemma SingleUse(env: Env, events: seq<Event>, i: nat, j: nat)
    requires var calls := Run(env, events).calls;
      i < |calls| && j < |calls| && i != j && calls[i].phase.Issued? && calls[j].phase.Issued? &&
        calls[i].phase.id == calls[j].phase.id
    ensures Run(env, events).calls[i].params.now == 0 || Run(env, events).calls[j].params.now == 0
  {
    RunSound(env, events);
    var calls := Run(env, events).calls;
    assert HasTaken(calls[i], calls[i].phase.id) && HasTaken(calls[j], calls[i].phase.id);
  }

  /** Every bearer in the table goes back to one call that was signed for a challenge of the same wallet and
      chain, unexpired at that call's clock and consumed by it. */
  lemma BearerProvenance(env: Env, events: seq<Event>, t: nat)
    requires t < |Run(env, events).store.tokens|
    ensures var s := Run(env, events);
      exists i :: (0 <= i < |s.calls| && HasIssued(s.calls[i], t) &&
        Took(env, s.store, s.calls[i].params, s.calls[i].phase.id) &&
          BearerOf(env, s.store.tokens[t], s.calls[i].params))
  {
    RunSound(env, events);
    var s := Run(env, events);
    assert HasIssuer(s, t);
    var i :| 0 <= i < |s.calls| && HasIssued(s.calls[i], t);
    assert CallOk(env, s.store, s.calls[i]);
  }

  /** A challenge's text names its wallet, its chain with that chain's router, and its five-minute life. */
  predicate Formed(env: Env, c: Challenge) {
    && env.routerOf(c.chainId) == Some(c.message.router) && c.expiresAt == c.createdAt + CHALLENGE_TTL
    && c.message == Message(c.address, c.chainId, c.message.router, c.nonce, c.createdAt, c.expiresAt)
  }

  lemma {:induction false} RowsFormed(env: Env, events: seq<Event>, id: nat)
    requires id < |Run(env, events).store.challenges|
    ensures Formed(env, Run(env, events).store.challenges[id])
  {
    if events != [] {
      if id < |Run(env, events[..|events| - 1]).store.challenges| { RowsFormed(env, events[..|events| - 1], id); }
    }
  }

  /** What was signed for a bearer: a text naming the bearer's wallet and chain, issued less than five
      minutes before the call's clock. */
  lemma SignedText(env: Env, events: seq<Event>, t: nat)
    requires t < |Run(env, events).store.tokens|
    ensures var bearer := Run(env, events).store.tokens[t];
      exists m: Message, signature: Str :: (
        RecoverSigner(env, m, signature) == bearer.address == m.address && m.chainId == bearer.chainId &&
        env.routerOf(bearer.chainId) == Some(m.router) && bearer.issuedAt < m.expiresAt == m.issuedAt + CHALLENGE_TTL)
  {
    var s := Run(env, events);
    BearerProvenance(env, events, t);
    var i :| 0 <= i < |s.calls| && HasIssued(s.calls[i], t) &&
      Took(env, s.store, s.calls[i].params, s.calls[i].phase.id) && BearerOf(env, s.store.tokens[t], s.calls[i].params);
    var id := s.calls[i].phase.id;
    RowsFormed(env, events, id);
    var m := s.store.challenges[id].message;
    assert RecoverSigner(env, m, s.calls[i].params.signature) == s.store.tokens[t].address;
  }

  /** A bearer that lookupLiveToken accepts is within its lifetime and was earned by a signature. */
  lemma AcceptedBearer(env: Env, events: seq<Event>, hash: Str, now: int, grant: Grant)
    requires Answers(Run(env, events).store, hash, now, Some(grant))
    ensures var s := Run(env, events);
      exists i :: (0 <= i < |s.calls| && s.calls[i].phase.Issued? &&
        SignedIt(env, s.store, s.calls[i].params, s.calls[i].phase.id) &&
        grant == Grant(ToLower(s.calls[i].params.address), s.calls[i].params.chainId) &&
        now < s.calls[i].params.now + env.tokenTtl)
  {
    var s := Run(env, events);
    var t :| 0 <= t < |s.store.tokens| && Usable(s.store.tokens[t], hash, now) &&
      grant == Grant(s.store.tokens[t].address, s.store.tokens[t].chainId);
    BearerProvenance(env, events, t);
    var i :| 0 <= i < |s.calls| && HasIssued(s.calls[i], t) &&
      Took(env, s.store, s.calls[i].params, s.calls[i].phase.id) && BearerOf(env, s.store.tokens[t], s.calls[i].params);
    assert s.calls[i].phase.Issued?;
  }

  // ----- bearers and consumed challenges -------------------------------------

  ghost predicate ClocksRun(s: State) {
    forall i :: 0 <= i < |s.calls| ==> s.calls[i].params.now != 0
  }

  /** The challenges that bearers t and later were issued for. */
  lemma {:induction false} ConsumedBehind(env: Env, s: State, n: nat) returns (ids: set<nat>)
    requires Sound(env, s) && ClocksRun(s) && n <= |s.store.tokens|
    ensures |ids| == n
    ensures forall id <- ids :: id < |s.store.challenges| && s.store.challenges[id].consumedAt != 0
    ensures forall id <- ids :: exists i ::
      0 <= i < |s.calls| && HasTaken(s.calls[i], id) && s.calls[i].phase.Issued? && s.calls[i].phase.token < n
  {
    if n == 0 {
      return {};
    }
    var rest := ConsumedBehind(env, s, n - 1);
    assert HasIssuer(s, n - 1);
    var i :| 0 <= i < |s.calls| && HasIssued(s.calls[i], n - 1);
    var id := s.calls[i].phase.id;
    assert CallOk(env, s.store, s.calls[i]);
    assert HasTaken(s.calls[i], id);
    forall x | x in rest ensures x != id {
      var j :| 0 <= j < |s.calls| && HasTaken(s.calls[j], x) && s.calls[j].phase.Issued? &&
        s.calls[j].phase.token < n - 1;
    }
    ids := rest + {id};
  }

  /** With running clocks there are never more bearers than consumed challenges. */
  lemma BearersWithinConsumed(env: Env, events: seq<Event>)
    requires ClocksRun(Run(env, events))
    ensures var s := Run(env, events).store;
      |s.tokens| <= |set id: nat | id < |s.challenges| && s.challenges[id].consumedAt != 0|
  {
    RunSound(env, events);
    var s := Run(env, events);
    var ids := ConsumedBehind(env, s, |s.store.tokens|);
    var consumed := set id: nat | id < |s.store.challenges| && s.store.challenges[id].consumedAt != 0;
    assert ids <= consumed;
    SubsetSize(ids, consumed);
  }

  lemma {:induction false} SubsetSize(a: set<nat>, b: set<nat>)
    requires a <= b
    ensures |a| <= |b|
  {
    if a != {} {
      var x :| x in a;
      SubsetSize(a - {x}, b - {x});
    }
  }

  // ----- the clock matters ---------------------------------------------------

  lemma RunNext(env: Env, before: seq<Event>, e: Event)
    ensures Run(env, before + [e]) == Apply(env, Run(env, before), e)
  {
    assert (before + [e])[..|before|] == before;
  }

  /** At clock zero a whole call, alone, goes through and leaves the challenge unconsumed. */
  lemma CallAtZero(env: Env, before: seq<Event>, s: State, i: nat, c: Challenge, hash: Str) returns (after: seq<Event>)
    requires s == Run(env, before) && i < |s.calls| && s.calls[i].phase == Started && s.store.challenges == [c]
    requires s.calls[i].params.now == 0 && Live(c, ToLower(s.calls[i].params.address), s.calls[i].params.chainId, 0)
    requires RecoverSigner(env, c.message, s.calls[i].params.signature) == ToLower(s.calls[i].params.address)
    requires !HashTaken(s.store.tokens, hash)
    ensures Run(env, after) == State(
      s.store.(tokens := s.store.tokens + [TokenFor(env, s.calls[i].params, hash)]),
      s.calls[i := Call(s.calls[i].params, Issued(0, |s.store.tokens|))])
  {
    var p := s.calls[i].params;
    assert Newest(s.store.challenges, ToLower(p.address), p.chainId, 0, 0);
    after := StepRun(env, before, s, i, hash, s.store, Found(0, c));
    after := StepRun(env, after, Run(env, after), i, hash, s.store, Signed(0));
    after := StepRun(env, after, Run(env, after), i, hash, s.store, Registered(0));
    assert c.(consumedAt := 0) == c;
    assert Consume(s.store, 0, 0) == s.store;
    after := StepRun(env, after, Run(env, after), i, hash, s.store, Spent(0));
    var issued := s.store.(tokens := s.store.tokens + [TokenFor(env, p, hash)]);
    after := StepRun(env, after, Run(env, after), i, hash, issued, Issued(0, |s.store.tokens|));
    assert Run(env, after).calls == s.calls[i := Call(p, Issued(0, |s.store.tokens|))];
  }

  /** One more step of one call. */
  lemma StepRun(env: Env, before: seq<Event>, s: State, i: nat, hash: Str, store: Store, phase: Phase)
    returns (after: seq<Event>)
    requires s == Run(env, before) && i < |s.calls|
    requires Advance(env, s.store, s.calls[i].params, s.calls[i].phase, 0, true, hash) == (store, phase)
    ensures Run(env, after) == State(store, s.calls[i := Call(s.calls[i].params, phase)])
  {
    after := before + [Step(i, 0, true, hash)];
    RunNext(env, before, Step(i, 0, true, hash));
  }

  /** A challenge and two calls of the same wallet waiting on it. */
  lemma TwoCalls(env: Env, p: Params, nonce: Str, router: Str) returns (events: seq<Event>)
    requires p.now == 0 && env.routerOf(p.chainId) == Some(router)
    ensures Run(env, events) ==
      State(Store([ChallengeFor(router, p.address, p.chainId, nonce, 0)], []), [Call(p, Started), Call(p, Started)])
  {
    var create := Create(p.address, p.chainId, nonce, 0);
    var store := Store([ChallengeFor(router, p.address, p.chainId, nonce, 0)], []);
    RunNext(env, [], create);
    assert Run(env, [] + [create]) == State(store, []);
    RunNext(env, [] + [create], Begin(p));
    assert Run(env, [] + [create] + [Begin(p)]) == State(store, [Call(p, Started)]);
    RunNext(env, [] + [create] + [Begin(p)], Begin(p));
    events := [] + [create] + [Begin(p)] + [Begin(p)];
  }

  /** Why the clock matters: at clock zero consuming leaves no mark, and one challenge yields two bearers. */
  lemma ClockZeroReuses(env: Env, p: Params, nonce: Str, router: Str, hash: Str, other: Str)
    returns (events: seq<Event>)
    requires p.now == 0 && hash != other && env.routerOf(p.chainId) == Some(router)
    requires RecoverSigner(env, ChallengeFor(router, p.address, p.chainId, nonce, 0).message, p.signature) ==
      ToLower(p.address)
    ensures var s := Run(env, events);
      |s.calls| == 2 && |s.store.challenges| == 1 && s.calls[0].phase == Issued(0, 0) &&
        s.calls[1].phase == Issued(0, 1)
  {
    var c := ChallengeFor(router, p.address, p.chainId, nonce, 0);
    events := TwoCalls(env, p, nonce, router);
    events := CallAtZero(env, events, Run(env, events), 0, c, hash);
    events := CallAtZero(env, events, Run(env, events), 1, c, other);
  }
}
