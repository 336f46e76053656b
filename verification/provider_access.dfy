/** Who is let in by lib/providerAuth.ts. */
module ProviderAccess {
  // Bearers from their issue to their revocation, challenges from their creation to their use.

  import opened Wrappers
  import opened JsString
  import opened ProviderAuth
  import opened ProviderRuns

  // ----- revocation ----------------------------------------------------------

  /** Event k revokes bearer t. */
  predicate RevokesAt(events: seq<Event>, k: nat, t: nat) {
    k < |events| && events[k].Revoke? && events[k].token == t && events[k].at != 0
  }

  /** From event k on nothing takes the revocation back. */
  predicate NeverRestored(events: seq<Event>, k: nat, t: nat) {
    forall i :: k <= i < |events| && events[i].Revoke? && events[i].token == t ==> events[i].at != 0
  }

  lemma RevokedByOne(env: Env, s: State, e: Event, t: nat)
    requires t < |s.store.tokens|
    ensures t < |Apply(env, s, e).store.tokens|
    ensures Apply(env, s, e).store.tokens[t].revokedAt ==
      if e.Revoke? && e.token == t then e.at else s.store.tokens[t].revokedAt
  {
    ApplyExtends(env, s, e);
  }

  lemma {:induction false} RevokedStays(env: Env, events: seq<Event>, k: nat, t: nat)
    requires RevokesAt(events, k, t) && NeverRestored(events, k, t) && t < |Run(env, events[..k]).store.tokens|
    ensures t < |Run(env, events).store.tokens| && Run(env, events).store.tokens[t].revokedAt != 0
  {
    var front, last := events[..|events| - 1], events[|events| - 1];
    if k == |events| - 1 {
      RevokedByOne(env, Run(env, front), last, t);
    } else {
      assert front[..k] == events[..k];
      RevokedStays(env, front, k, t);
      RevokedByOne(env, Run(env, front), last, t);
    }
  }

  /** Once revoked, and until the revocation is taken back, a bearer is refused at every clock. */
  lemma RevokedIsRefused(env: Env, events: seq<Event>, k: nat, t: nat, now: int, grant: Grant)
    requires RevokesAt(events, k, t) && NeverRestored(events, k, t) && t < |Run(env, events[..k]).store.tokens|
    ensures var s := Run(env, events).store;
      t < |s.tokens| && !Answers(s, s.tokens[t].tokenHash, now, Some(grant))
  {
    RevokedStays(env, events, k, t);
    RunSound(env, events);
  }

  // ----- acceptance ----------------------------------------------------------

  /** The bearer's row as it stands: not revoked and not yet expired. */
  predicate InForce(t: Token, now: int) {
    t.revokedAt == 0 && now < t.expiresAt
  }

  /** In every reachable table: a bearer in force is answered with its own wallet and chain and nothing else; any other
      is refused. */
  lemma LookupAnswers(env: Env, events: seq<Event>, t: nat, now: int, grant: Option<Grant>)
    requires t < |Run(env, events).store.tokens|
    ensures var s := Run(env, events).store;
      Answers(s, s.tokens[t].tokenHash, now, grant) <==>
        grant == if InForce(s.tokens[t], now) then Some(Grant(s.tokens[t].address, s.tokens[t].chainId)) else None
  {
    RunSound(env, events);
    var s := Run(env, events).store;
    if InForce(s.tokens[t], now) { assert Usable(s.tokens[t], s.tokens[t].tokenHash, now); }
  }

  /** A hash of no row is refused. */
  lemma UnknownIsRefused(env: Env, events: seq<Event>, hash: Str, now: int, grant: Option<Grant>)
    requires !HashTaken(Run(env, events).store.tokens, hash)
    ensures Answers(Run(env, events).store, hash, now, grant) <==> grant == None
  {
  }

  /** A lookup moves the use stamp of the bearer it accepts, and changes nothing else. */
  lemma LookupStamps(env: Env, s: State, hash: Str, now: int, t: nat)
    requires t < |s.store.tokens|
    ensures var u := Apply(env, s, Lookup(hash, now));
      && u.calls == s.calls && u.store.challenges == s.store.challenges && |u.store.tokens| == |s.store.tokens|
      && u.store.tokens[t] ==
           if s.store.tokens[t].tokenHash == hash && InForce(s.store.tokens[t], now)
           then s.store.tokens[t].(lastUsedAt := now) else s.store.tokens[t]
  {
  }

  predicate NeverRevoked(events: seq<Event>, t: nat) {
    forall i :: 0 <= i < |events| && events[i].Revoke? && events[i].token == t ==> events[i].at == 0
  }

  lemma {:induction false} UnrevokedStays(env: Env, events: seq<Event>, t: nat)
    requires NeverRevoked(events, t) && t < |Run(env, events).store.tokens|
    ensures Run(env, events).store.tokens[t].revokedAt == 0
  {
    if events != [] {
      var front, last := events[..|events| - 1], events[|events| - 1];
      var s := Run(env, front);
      if t < |s.store.tokens| {
        UnrevokedStays(env, front, t);
        RevokedByOne(env, s, last, t);
      } else {
        NewIsUnrevoked(env, s, last, t);
      }
    }
  }

  lemma NewIsUnrevoked(env: Env, s: State, e: Event, t: nat)
    requires |s.store.tokens| <= t < |Apply(env, s, e).store.tokens|
    ensures Apply(env, s, e).store.tokens[t].revokedAt == 0
  {
  }

  /** Over every run: a bearer that nobody revoked is accepted exactly until its lifetime after the clock of the call
      that issued it, with that call's wallet in lower case and its chain. */
  lemma IssuedIsAccepted(env: Env, events: seq<Event>, i: nat, now: int, grant: Option<Grant>)
    requires i < |Run(env, events).calls| && Run(env, events).calls[i].phase.Issued?
    requires NeverRevoked(events, Run(env, events).calls[i].phase.token)
    ensures var s := Run(env, events);
      var p, t := s.calls[i].params, s.calls[i].phase.token;
      t < |s.store.tokens| && (Answers(s.store, s.store.tokens[t].tokenHash, now, grant) <==>
        grant == if now < p.now + env.tokenTtl then Some(Grant(ToLower(p.address), p.chainId)) else None)
  {
    RunSound(env, events);
    var s := Run(env, events);
    assert CallOk(env, s.store, s.calls[i]);
    UnrevokedStays(env, events, s.calls[i].phase.token);
    LookupAnswers(env, events, s.calls[i].phase.token, now, grant);
  }

  // ----- one whole call ------------------------------------------------------

  /** Unused and unexpired, for this wallet and chain. */
  predicate Open(c: Challenge, address: Str, chainId: int, now: int) {
    && c.consumedAt == 0 && now < c.expiresAt && c.chainId == chainId && c.address == ToLower(address)
  }

  /** Of the open challenges none was created later. */
  predicate LatestOpen(s: Store, p: Params, id: nat) {
    && id < |s.challenges| && Open(s.challenges[id], p.address, p.chainId, p.now)
    && forall i :: 0 <= i < |s.challenges| && Open(s.challenges[i], p.address, p.chainId, p.now) ==>
      s.challenges[i].createdAt <= s.challenges[id].createdAt
  }

  /** The text was signed by the wallet: signature recovery finds it, capitals apart. */
  predicate SignedBy(env: Env, m: Message, signature: Str, address: Str) {
    match env.recover(m, signature)
    case Some(signer) => ToLower(signer) == ToLower(address)
    case None => ToLower(address) == []
  }

  /** A call that nothing interrupts, with the database's pick among the latest open challenges: it issues a bearer
      exactly when there is one, the wallet signed its text, the wallet is registered and the hash is new. It then
      marks that challenge used at its clock and adds the bearer; it changes nothing when it ends before. */
  lemma CallIssuesIff(env: Env, s: Store, p: Params, pick: nat, registered: bool, hash: Str)
    requires LatestOpen(s, p, pick)
    ensures var (u, phase) := Uninterrupted(env, s, p, pick, registered, hash);
      var signed := SignedBy(env, s.challenges[pick].message, p.signature, p.address);
      && (phase == Issued(pick, |s.tokens|) <==> signed && registered && !HashTaken(s.tokens, hash))
      && (phase != Issued(pick, |s.tokens|) ==> phase == Refused)
      && u.challenges == (if signed && registered then s.challenges[pick := s.challenges[pick].(consumedAt := p.now)]
                          else s.challenges)
      && u.tokens == (if phase.Issued? then
           s.tokens + [Token(hash, ToLower(p.address), p.chainId, p.now, p.now + env.tokenTtl, 0, 0)] else s.tokens)
  {
    var address := ToLower(p.address);
    assert Newest(s.challenges, address, p.chainId, p.now, pick);
    assert RecoverSigner(env, s.challenges[pick].message, p.signature) == address <==>
      SignedBy(env, s.challenges[pick].message, p.signature, p.address);
  }

  lemma NoneOpenRefuses(env: Env, s: Store, p: Params, pick: nat, registered: bool, hash: Str)
    requires forall i :: 0 <= i < |s.challenges| ==> !Open(s.challenges[i], p.address, p.chainId, p.now)
    ensures Uninterrupted(env, s, p, pick, registered, hash) == (s, Refused)
  {
  }

  /** A challenge just created, at whatever spelling of the wallet, is the one the wallet's next call goes by, for
      three hundred seconds; its text names the wallet in lower case, the chain with its router, the nonce and the
      two times. */
  lemma FreshChallengeServes(env: Env, s: Store, address: Str, nonce: Str, now: int, p: Params, router: Str)
    requires env.routerOf(p.chainId) == Some(router) && !NonceTaken(s.challenges, nonce)
    requires ToLower(address) == ToLower(p.address) && now <= p.now < now + 300
    requires forall i :: 0 <= i < |s.challenges| ==> s.challenges[i].createdAt <= now
    ensures var u := WithChallenge(env, s, address, p.chainId, nonce, now);
      && u.tokens == s.tokens && |u.challenges| == |s.challenges| + 1 && u.challenges[..|s.challenges|] == s.challenges
      && LatestOpen(u, p, |s.challenges|)
      && u.challenges[|s.challenges|].message == Message(ToLower(address), p.chainId, router, nonce, now, now + 300)
  {
  }

  /** It serves no call after that, and none of another wallet or chain. */
  lemma ExpiredServesNone(env: Env, s: Store, address: Str, chainId: int, nonce: Str, now: int, p: Params, router: Str)
    requires env.routerOf(chainId) == Some(router) && !NonceTaken(s.challenges, nonce)
    requires p.now >= now + 300 || p.chainId != chainId || ToLower(p.address) != ToLower(address)
    ensures var u := WithChallenge(env, s, address, chainId, nonce, now);
      |u.challenges| == |s.challenges| + 1 && !Open(u.challenges[|s.challenges|], p.address, p.chainId, p.now)
  {
  }
}
