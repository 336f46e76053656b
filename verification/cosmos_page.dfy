/** Curation of Cosmos pools in lib/cosmosPage.ts. */
module CosmosPage {
  // The deepest pool of each denom pair, oriented and filtered.

  import opened JsString

  datatype Asset = Asset(denom: Str, name: Str, symbol: Str, decimals: int, coinId: Str)

  datatype Candidate = Candidate(poolId: Str, denom0: Str, denom1: Str, reserve: real, volume: real, price0: real,
    price1: real)

  datatype Token = Token(asset: Asset, price: real)

  datatype Pool = Pool(poolId: Str, base: Str, quote: Str, reserve: real, volume: real, basePrice: real,
    quotePrice: real)

  datatype Page = Page(poolCount: nat, pools: seq<Pool>, tokens: map<Str, Token>)

  type Registry = map<Str, Asset>

  const PIPE: CodeUnit := 124

  const STABLE_COINS: set<Str> :=
    {Ascii("usd-coin"), Ascii("tether"), Ascii("dai"), Ascii("axlusdc"), Ascii("first-digital-usd")}

  // ----- the three steps -----------------------------------------------------

  predicate IsKnown(assets: Registry, c: Candidate) {
    c.poolId != [] && c.denom0 in assets && c.denom1 in assets
  }

  function Known(assets: Registry, candidates: seq<Candidate>): seq<Candidate> {
    if candidates == [] then []
    else if IsKnown(assets, candidates[|candidates| - 1]) then Known(assets, candidates[..|candidates| - 1]) +
      [candidates[|candidates| - 1]]
    else Known(assets, candidates[..|candidates| - 1])
  }

  function KeyOf(c: Candidate): Str {
    JoinSorted(c.denom0, c.denom1, PIPE)
  }

  /** A JavaScript map from keys to candidates: the keys in insertion order. */
  datatype Depths = Depths(keys: seq<Str>, at: map<Str, Candidate>)

  function Deepen(d: Depths, c: Candidate): Depths {
    var key := KeyOf(c);
    if key !in d.at then Depths(d.keys + [key], d.at[key := c])
    else if c.reserve > d.at[key].reserve then d.(at := d.at[key := c])
    else d
  }

  function DepthsOf(known: seq<Candidate>): Depths {
    if known == [] then Depths([], map[]) else Deepen(DepthsOf(known[..|known| - 1]), known[|known| - 1])
  }

  predicate IsStable(a: Asset) {
    a.coinId in STABLE_COINS
  }

  /** A lone stablecoin is moved to the quote side. */
  predicate Flips(assets: Registry, c: Candidate)
    requires IsKnown(assets, c)
  {
    IsStable(assets[c.denom0]) && !IsStable(assets[c.denom1])
  }

  function Oriented(assets: Registry, c: Candidate): Pool
    requires IsKnown(assets, c)
  {
    if Flips(assets, c) then Pool(c.poolId, c.denom1, c.denom0, c.reserve, c.volume, c.price1, c.price0)
    else Pool(c.poolId, c.denom0, c.denom1, c.reserve, c.volume, c.price0, c.price1)
  }

  predicate Emits(assets: Registry, c: Candidate)
    requires IsKnown(assets, c)
  {
    assets[c.denom0].symbol != assets[c.denom1].symbol && c.price0 > 0.0 && c.price1 > 0.0
  }

  ghost predicate AllKnown(assets: Registry, cs: seq<Candidate>) {
    forall i :: 0 <= i < |cs| ==> IsKnown(assets, cs[i])
  }

  function PoolsOf(assets: Registry, cs: seq<Candidate>): seq<Pool>
    requires AllKnown(assets, cs)
  {
    if cs == [] then []
    else if Emits(assets, cs[|cs| - 1]) then PoolsOf(assets, cs[..|cs| - 1]) + [Oriented(assets, cs[|cs| - 1])]
    else PoolsOf(assets, cs[..|cs| - 1])
  }

  function TokensOf(assets: Registry, cs: seq<Candidate>): map<Str, Token>
    requires AllKnown(assets, cs)
  {
    if cs == [] then map[]
    else
      var c, rest := cs[|cs| - 1], TokensOf(assets, cs[..|cs| - 1]);
      if Emits(assets, c) then
        var p := Oriented(assets, c);
        rest[p.base := Token(assets[p.base], p.basePrice)][p.quote := Token(assets[p.quote], p.quotePrice)]
      else rest
  }

  lemma {:induction false} DepthsKeyed(known: seq<Candidate>)
    ensures forall k :: k in DepthsOf(known).keys <==> k in DepthsOf(known).at
    ensures forall k :: k in DepthsOf(known).at ==> DepthsOf(known).at[k] in known
  {
    if known != [] {
      DepthsKeyed(known[..|known| - 1]);
      assert known == known[..|known| - 1] + [known[|known| - 1]];
    }
  }

  /** The candidates left, in the order in which their pairs first appeared. */
  function Survivors(known: seq<Candidate>): seq<Candidate> {
    DepthsKeyed(known);
    var d := DepthsOf(known);
    seq(|d.keys|, i requires 0 <= i < |d.keys| => assert d.keys[i] in d.keys; d.at[d.keys[i]])
  }

  lemma {:induction false} KnownAreKnown(assets: Registry, candidates: seq<Candidate>, c: Candidate)
    ensures c in Known(assets, candidates) <==> c in candidates && IsKnown(assets, c)
  {
    if candidates != [] {
      KnownAreKnown(assets, candidates[..|candidates| - 1], c);
      assert candidates == candidates[..|candidates| - 1] + [candidates[|candidates| - 1]];
    }
  }

  lemma SurvivorsKnown(assets: Registry, candidates: seq<Candidate>)
    ensures AllKnown(assets, Survivors(Known(assets, candidates)))
  {
    var known := Known(assets, candidates);
    DepthsKeyed(known);
    forall i | 0 <= i < |Survivors(known)| ensures IsKnown(assets, Survivors(known)[i]) {
      var d := DepthsOf(known);
      assert d.keys[i] in d.keys;
      KnownAreKnown(assets, candidates, Survivors(known)[i]);
    }
  }

  function Curated(assets: Registry, candidates: seq<Candidate>): Page {
    SurvivorsKnown(assets, candidates);
    var left := Survivors(Known(assets, candidates));
    Page(|Known(assets, candidates)|, PoolsOf(assets, left), TokensOf(assets, left))
  }

  // ----- the loops -----------------------------------------------------------

  method FindKnown(assets: Registry, candidates: seq<Candidate>) returns (known: seq<Candidate>)
    ensures known == Known(assets, candidates)
  {
    known := [];
    for i := 0 to |candidates|
      invariant known == Known(assets, candidates[..i])
    {
      assert candidates[..i + 1][..i] == candidates[..i];
      if IsKnown(assets, candidates[i]) {
        known := known + [candidates[i]];
      }
    }
    assert candidates[..|candidates|] == candidates;
  }

  method KeepDeepest(known: seq<Candidate>) returns (left: seq<Candidate>)
    ensures left == Survivors(known)
  {
    var keys: seq<Str>, at: map<Str, Candidate> := [], map[];
    for i := 0 to |known|
      invariant Depths(keys, at) == DepthsOf(known[..i])
    {
      assert known[..i + 1][..i] == known[..i];
      var key := KeyOf(known[i]);
      if key !in at {
        keys, at := keys + [key], at[key := known[i]];
      } else if known[i].reserve > at[key].reserve {
        at := at[key := known[i]];
      }
    }
    assert known[..|known|] == known;
    DepthsKeyed(known);
    left := [];
    for i := 0 to |keys|
      invariant left == Survivors(known)[..i]
    {
      assert keys[i] in keys;
      left := left + [at[keys[i]]];
    }
  }

  method BuildCosmosPage(assets: Registry, candidates: seq<Candidate>) returns (page: Page)
    ensures page == Curated(assets, candidates)
  {
    var known := FindKnown(assets, candidates);
    var left := KeepDeepest(known);
    SurvivorsKnown(assets, candidates);
    var tokens: map<Str, Token>, pools: seq<Pool> := map[], [];
    for i := 0 to |left|
      invariant pools == PoolsOf(assets, left[..i]) && tokens == TokensOf(assets, left[..i])
    {
      assert left[..i + 1][..i] == left[..i];
      var c := left[i];
      assert IsKnown(assets, c);
      var flip := IsStable(assets[c.denom0]) && !IsStable(assets[c.denom1]);
      var base := if flip then c.denom1 else c.denom0;
      var quote := if flip then c.denom0 else c.denom1;
      var basePrice := if flip then c.price1 else c.price0;
      var quotePrice := if flip then c.price0 else c.price1;
      if assets[base].symbol == assets[quote].symbol || basePrice <= 0.0 || quotePrice <= 0.0 {
        continue;
      }
      tokens := tokens[base := Token(assets[base], basePrice)];
      tokens := tokens[quote := Token(assets[quote], quotePrice)];
      pools := pools + [Pool(c.poolId, base, quote, c.reserve, c.volume, basePrice, quotePrice)];
    }
    assert left[..|left|] == left;
    page := Page(|known|, pools, tokens);
  }
}
