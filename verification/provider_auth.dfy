/** The challenge and bearer tables of lib/providerAuth.ts. */
module ProviderAuth {
  // And the database steps that its calls are made of. Each step is one atomic statement; calls interleave between
  // them.

  import opened Wrappers
  import opened JsString

  const CHALLENGE_TTL := 300

  /** The fields of the text that the wallet signs. */
  datatype Message = Message(address: Str, chainId: int, router: Str, nonce: Str, issuedAt: int, expiresAt: int)

  /** Signature recovery, the router catalogue and the bearer lifetime. */
  datatype Env = Env(recover: (Message, Str) -> Option<Str>, routerOf: int -> Option<Str>, tokenTtl: nat)

  /** The lower-cased signer, or the empty string when recovery fails. */
  function RecoverSigner(env: Env, m: Message, signature: Str): Str {
    match env.recover(m, signature)
    case Some(a) => ToLower(a)
    case None => []
  }

  datatype Challenge = Challenge(address: Str, chainId: int, nonce: Str, message: Message, expiresAt: int,
    consumedAt: int, createdAt: int)

  datatype Token = Token(tokenHash: Str, address: Str, chainId: int, issuedAt: int, expiresAt: int, lastUsedAt: int,
    revokedAt: int)

  datatype Store = Store(challenges: seq<Challenge>, tokens: seq<Token>)

  datatype Params = Params(address: Str, chainId: int, signature: Str, now: int)

  datatype Grant = Grant(address: Str, chainId: int)

  // ----- the statements ------------------------------------------------------

  predicate Live(c: Challenge, address: Str, chainId: int, now: int) {
    c.address == address && c.chainId == chainId && c.consumedAt == 0 && c.expiresAt > now
  }

  predicate AnyLive(challenges: seq<Challenge>, address: Str, chainId: int, now: int) {
    exists i :: 0 <= i < |challenges| && Live(challenges[i], address, chainId, now)
  }

  /** A newest live challenge: what findFirst may return, ties being the database's choice. */
  predicate Newest(challenges: seq<Challenge>, address: Str, chainId: int, now: int, id: nat) {
    && id < |challenges| && Live(challenges[id], address, chainId, now)
    && forall i :: 0 <= i < |challenges| && Live(challenges[i], address, chainId, now) ==>
      challenges[i].createdAt <= challenges[id].createdAt
  }

  predicate NonceTaken(challenges: seq<Challenge>, nonce: Str) {
    exists i :: 0 <= i < |challenges| && challenges[i].nonce == nonce
  }

  predicate HashTaken(tokens: seq<Token>, hash: Str) {
    exists i :: 0 <= i < |tokens| && tokens[i].tokenHash == hash
  }

  /** The row createChallenge inserts. */
  function ChallengeFor(router: Str, address: Str, chainId: int, nonce: Str, now: int): Challenge {
    var a := ToLower(address);
    Challenge(a, chainId, nonce, Message(a, chainId, router, nonce, now, now + CHALLENGE_TTL), now + CHALLENGE_TTL, 0,
      now)
  }

  /** The table after createChallenge; an unknown chain or a nonce already used adds nothing. */
  function WithChallenge(env: Env, s: Store, address: Str, chainId: int, nonce: Str, now: int): Store {
    match env.routerOf(chainId)
    case None => s
    case Some(router) =>
      if NonceTaken(s.challenges, nonce) then s
      else s.(challenges := s.challenges + [ChallengeFor(router, address, chainId, nonce, now)])
  }

  predicate Unconsumed(s: Store, id: nat) {
    id < |s.challenges| && s.challenges[id].consumedAt == 0
  }

  function Consume(s: Store, id: nat, now: int): Store {
    if Unconsumed(s, id) then s.(challenges := s.challenges[id := s.challenges[id].(consumedAt := now)]) else s
  }

  function TokenFor(env: Env, p: Params, hash: Str): Token {
    Token(hash, ToLower(p.address), p.chainId, p.now, p.now + env.tokenTtl, 0, 0)
  }

  predicate Usable(t: Token, hash: Str, now: int) {
    t.tokenHash == hash && t.revokedAt == 0 && t.expiresAt > now
  }

  /** What lookupLiveToken answers. */
  predicate Answers(s: Store, hash: Str, now: int, grant: Option<Grant>) {
    match grant
    case Some(g) =>
      exists i ::
        0 <= i < |s.tokens| && Usable(s.tokens[i], hash, now) && g == Grant(s.tokens[i].address, s.tokens[i].chainId)
    case None => forall i :: 0 <= i < |s.tokens| ==> !Usable(s.tokens[i], hash, now)
  }

  function Touch(tokens: seq<Token>, hash: Str, now: int): seq<Token> {
    seq(|tokens|, i requires 0 <= i < |tokens| =>
      if Usable(tokens[i], hash, now) then tokens[i].(lastUsedAt := now) else tokens[i])
  }

  // ----- one call of verifyAndIssueToken -------------------------------------

  /** How far a call has come. `row` is the challenge as the call read it. */
  datatype Phase = Started | Found(id: nat, row: Challenge) | Signed(id: nat) | Registered(id: nat) | Spent(id: nat)
    | Issued(id: nat, token: nat) | Refused

  /** The next statement of a call: which newest challenge the database picks, what the registration check
      answers and the hash of the random bearer are the outside world's. */
  function Advance(env: Env, s: Store, p: Params, phase: Phase, pick: nat, registered: bool, hash: Str): (Store,
                   Phase) {
    var address := ToLower(p.address);
    match phase
    case Started =>
      if !AnyLive(s.challenges, address, p.chainId, p.now) then (s, Refused)
      else if Newest(s.challenges, address, p.chainId, p.now, pick) then (s, Found(pick, s.challenges[pick]))
      else (s, Started)
    case Found(id, row) =>
      (s, if RecoverSigner(env, row.message, p.signature) == address then Signed(id) else Refused)
    case Signed(id) => (s, if registered then Registered(id) else Refused)
    case Registered(id) => (Consume(s, id, p.now), if Unconsumed(s, id) then Spent(id) else Refused)
    case Spent(id) =>
      if HashTaken(s.tokens, hash) then (s, Refused)
      else (s.(tokens := s.tokens + [TokenFor(env, p, hash)]), Issued(id, |s.tokens|))
    case Issued(_, _) => (s, phase)
    case Refused => (s, phase)
  }

  /** The tables as one object, with a method per statement and the whole call when nothing interrupts it. */
  class AuthTables {
    var challenges: seq<Challenge>
    var tokens: seq<Token>

    ghost function Contents(): Store
      reads this
    {
      Store(challenges, tokens)
    }

    constructor ()
      ensures Contents() == Store([], [])
    {
      challenges, tokens := [], [];
    }

    method CreateChallenge(env: Env, address: Str, chainId: int, nonce: Str, now: int) returns (r: Option<Challenge>)
      modifies this
      ensures Contents() == WithChallenge(env, old(Contents()), address, chainId, nonce, now)
      ensures r.Some? <==> |challenges| == |old(challenges)| + 1
      ensures r.Some? ==> r.value == challenges[|challenges| - 1]
    {
      r := None;
      match env.routerOf(chainId)
      case None =>
      case Some(router) =>
        if !NonceTaken(challenges, nonce) {
          var row := ChallengeFor(router, address, chainId, nonce, now);
          challenges := challenges + [row];
          r := Some(row);
        }
    }

    method FindNewest(address: Str, chainId: int, now: int) returns (id: Option<nat>)
      ensures id.Some? ==> Newest(challenges, address, chainId, now, id.value)
      ensures id.None? ==> !AnyLive(challenges, address, chainId, now)
    {
      id := None;
      for i := 0 to |challenges|
        invariant id.None? ==> forall j :: 0 <= j < i ==> !Live(challenges[j], address, chainId, now)
        invariant id.Some? ==> id.value < i && Live(challenges[id.value], address, chainId, now)
        invariant id.Some? ==> forall j :: 0 <= j < i && Live(challenges[j], address, chainId, now) ==>
          challenges[j].createdAt <= challenges[id.value].createdAt
      {
        if Live(challenges[i], address, chainId, now) &&
          (id.None? || challenges[id.value].createdAt < challenges[i].createdAt) {
          id := Some(i);
        }
      }
    }

    method ConsumeChallenge(id: nat, now: int) returns (count: nat)
      modifies this
      ensures Contents() == Consume(old(Contents()), id, now)
      ensures count == if Unconsumed(old(Contents()), id) then 1 else 0
    {
      if id < |challenges| && challenges[id].consumedAt == 0 {
        challenges := challenges[id := challenges[id].(consumedAt := now)];
        count := 1;
      } else {
        count := 0;
      }
    }

    /** The whole call, uninterrupted, is five steps of `Advance`; the pick is the row it found. */
    method VerifyAndIssueToken(env: Env, p: Params, registered: bool, hash: Str)
      returns (token: Option<Token>, ghost pick: nat)
      modifies this
      ensures var (s, phase) := Uninterrupted(env, old(Contents()), p, pick, registered, hash);
        && Contents() == s
        && (token.Some? <==> phase.Issued?)
        && (phase.Refused? || phase.Issued?)
        && (phase.Issued? ==> phase.token < |s.tokens| && token == Some(s.tokens[phase.token]))
    {
      token, pick := None, 0;
      var address := ToLower(p.address);
      var id := FindNewest(address, p.chainId, p.now);
      if id.None? {
        return;
      }
      pick := id.value;
      var row := challenges[id.value];
      if RecoverSigner(env, row.message, p.signature) != address {
        return;
      }
      if !registered {
        return;
      }
      var count := ConsumeChallenge(id.value, p.now);
      if count != 1 {
        return;
      }
      if !HashTaken(tokens, hash) {
        var t := TokenFor(env, p, hash);
        tokens := tokens + [t];
        token := Some(t);
      }
    }

    method LookupLiveToken(hash: Str, now: int) returns (grant: Option<Grant>)
      requires forall i, j :: 0 <= i < j < |tokens| ==> tokens[i].tokenHash != tokens[j].tokenHash
      modifies this
      ensures Contents() == old(Contents()).(tokens := Touch(old(tokens), hash, now))
      ensures Answers(old(Contents()), hash, now, grant)
      ensures forall i :: 0 <= i < |old(tokens)| && old(tokens)[i].tokenHash == hash ==>
        var t := old(tokens)[i];
        grant == if t.revokedAt == 0 && now < t.expiresAt then Some(Grant(t.address, t.chainId)) else None
      ensures (forall i :: 0 <= i < |old(tokens)| ==> old(tokens)[i].tokenHash != hash) ==> grant == None
    {
      grant := None;
      for i := 0 to |tokens|
        invariant unchanged(this) && grant.None?
        invariant forall j :: 0 <= j < i ==> tokens[j].tokenHash != hash
      {
        if tokens[i].tokenHash == hash {
          var row := tokens[i];
          if row.revokedAt == 0 && row.expiresAt > now {
            assert Usable(row, hash, now);
            grant := Some(Grant(row.address, row.chainId));
            tokens := tokens[i := row.(lastUsedAt := now)];
          }
          assert tokens == Touch(old(tokens), hash, now);
          return;
        }
      }
      assert tokens == Touch(tokens, hash, now);
    }
  }

  /** Five steps of one call with nothing in between. */
  function Uninterrupted(env: Env, s: Store, p: Params, pick: nat, registered: bool, hash: Str): (Store, Phase) {
    var (s1, a) := Advance(env, s, p, Started, pick, registered, hash);
    var (s2, b) := Advance(env, s1, p, a, pick, registered, hash);
    var (s3, c) := Advance(env, s2, p, b, pick, registered, hash);
    var (s4, d) := Advance(env, s3, p, c, pick, registered, hash);
    Advance(env, s4, p, d, pick, registered, hash)
  }
}
