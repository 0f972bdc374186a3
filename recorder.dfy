/**
 * The `POST /record` logic: normalising an observation, validating its
 * address, and the insert-or-merge that the worker hands to the store as a
 * single upsert statement.
 */
module Recorder {
  import opened Tokens

  predicate IsUpper(c: char)
  {
    'A' <= c <= 'Z'
  }

  function LowerChar(c: char): char
  {
    if IsUpper(c) then (c as int + 32) as char else c
  }

  /**
   * `toLowerCase` on ASCII: upper-case letters become lower-case, every
   * other character is kept.
   */
  function Lower(s: string): (r: string)
    ensures |r| == |s|
    ensures forall i :: 0 <= i < |r| ==> !IsUpper(r[i])
    ensures forall i :: 0 <= i < |r| && !IsUpper(s[i]) ==> r[i] == s[i]
    ensures forall i :: 0 <= i < |r| && IsUpper(s[i]) ==> r[i] as int == s[i] as int + 32
  {
    seq(|s|, i requires 0 <= i < |s| => LowerChar(s[i]))
  }

  /** Lower-casing twice is lower-casing once. */
  lemma LowerIdempotent(s: string)
    ensures Lower(Lower(s)) == Lower(s)
  {
  }

  /** The only shape check the worker makes: the address starts with "0x". */
  predicate IsAddress(s: string)
  {
    |s| >= 2 && s[0] == '0' && s[1] == 'x'
  }

  /** A key the store can hold: a lower-case string starting with "0x". */
  predicate IsKey(s: string)
  {
    IsAddress(s) && Lower(s) == s
  }

  /** `Math.max(0, Math.min(100, x))`. */
  function Clamp(x: int): (r: int)
    ensures 0 <= r <= MaxScore
    ensures 0 <= x <= MaxScore ==> r == x
    ensures x < 0 ==> r == 0
    ensures x > MaxScore ==> r == MaxScore
  {
    if x < 0 then 0 else if x > MaxScore then MaxScore else x
  }

  /** An observation as it stands after normalisation. */
  predicate Normalised(o: Observation)
  {
    && Lower(o.address) == o.address
    && o.chainId != ""
    && o.symbol != Some("")
    && o.name != Some("")
    && 0 <= o.hype <= MaxScore
    && 0 <= o.safety <= MaxScore
  }

  /**
   * The first lines of the record handler: lower-case the address, default
   * the chain, turn an empty symbol or name into null, clamp both scores.
   */
  function Normalise(o: Observation): (n: Observation)
    ensures Normalised(n)
    ensures n.address == Lower(o.address)
    ensures n.chainId == if o.chainId == "" then DefaultChain else o.chainId
    ensures n.symbol == OrNull(o.symbol) && n.name == OrNull(o.name)
    ensures n.hype == Clamp(o.hype) && n.safety == Clamp(o.safety)
  {
    Observation(
      Lower(o.address),
      if o.chainId == "" then DefaultChain else o.chainId,
      OrNull(o.symbol),
      OrNull(o.name),
      Clamp(o.hype),
      Clamp(o.safety))
  }

  /** Normalisation leaves a normalised observation as it is, so applying it twice changes nothing. */
  lemma NormaliseIdempotent(o: Observation)
    ensures Normalised(o) ==> Normalise(o) == o
    ensures Normalise(Normalise(o)) == Normalise(o)
  {
    LowerIdempotent(o.address);
  }

  /** The request is accepted iff its lower-cased address starts with "0x". */
  predicate Accepts(o: Observation)
  {
    IsAddress(Normalise(o).address)
  }

  /** Acceptance read off the raw address: "0x" or "0X" in front. */
  lemma AcceptsExactly(o: Observation)
    ensures Accepts(o) <==>
      |o.address| >= 2 && o.address[0] == '0' && (o.address[1] == 'x' || o.address[1] == 'X')
  {
  }

  /** The row the upsert inserts when the address is new. */
  function Insert(n: Observation, now: int): TokenRecord
  {
    TokenRecord(n.chainId, n.symbol, n.name, n.hype, n.safety, now)
  }

  /**
   * The ON CONFLICT branch of the upsert: chain and lastSeen are overwritten,
   * symbol and name are COALESCE(new, old), both scores are MAX(old, new).
   */
  function Merge(cur: TokenRecord, n: Observation, now: int): (t: TokenRecord)
    ensures t.chainId == n.chainId && t.lastSeen == now
    ensures n.symbol == None ==> t.symbol == cur.symbol
    ensures n.symbol != None ==> t.symbol == n.symbol
    ensures n.name == None ==> t.name == cur.name
    ensures n.name != None ==> t.name == n.name
    ensures t.hype >= cur.hype && t.hype >= n.hype && (t.hype == cur.hype || t.hype == n.hype)
    ensures t.safety >= cur.safety && t.safety >= n.safety && (t.safety == cur.safety || t.safety == n.safety)
  {
    TokenRecord(
      n.chainId,
      if n.symbol.Some? then n.symbol else cur.symbol,
      if n.name.Some? then n.name else cur.name,
      if cur.hype >= n.hype then cur.hype else n.hype,
      if cur.safety >= n.safety then cur.safety else n.safety,
      now)
  }

  /** INSERT ... ON CONFLICT(address) DO UPDATE, on the table as a map. */
  function Upsert(tokens: map<string, TokenRecord>, n: Observation, now: int): (t: map<string, TokenRecord>)
    ensures t.Keys == tokens.Keys + {n.address}
    ensures forall a :: a in tokens && a != n.address ==> t[a] == tokens[a]
    ensures n.address !in tokens ==> t[n.address] == Insert(n, now)
    ensures n.address in tokens ==> t[n.address] == Merge(tokens[n.address], n, now)
  {
    tokens[n.address := if n.address in tokens then Merge(tokens[n.address], n, now) else Insert(n, now)]
  }

  /** The tokens table after one record request: upserted when accepted, untouched when rejected. */
  function TokensAfter(tokens: map<string, TokenRecord>, o: Observation, now: int): (t: map<string, TokenRecord>)
    ensures !Accepts(o) ==> t == tokens
    ensures Accepts(o) ==> t == Upsert(tokens, Normalise(o), now)
  {
    if Accepts(o) then Upsert(tokens, Normalise(o), now) else tokens
  }

  /** The searches table after one record request: one event appended when accepted. */
  function SearchesAfter(searches: seq<SearchEvent>, o: Observation, now: int): (s: seq<SearchEvent>)
    ensures !Accepts(o) ==> s == searches
    ensures Accepts(o) ==> |s| == |searches| + 1 && s[..|searches|] == searches
    ensures Accepts(o) ==> s[|searches|] == SearchEvent(Lower(o.address), now)
  {
    if Accepts(o) then searches + [SearchEvent(Normalise(o).address, now)] else searches
  }

  /** Every stored row has both scores on the 0..100 scale. */
  ghost predicate ScoresInRange(tokens: map<string, TokenRecord>)
  {
    forall a :: a in tokens ==> InRange(tokens[a])
  }

  /** A record request keeps every stored score on the 0..100 scale, whatever scores it carries. */
  lemma RecordKeepsScoresInRange(tokens: map<string, TokenRecord>, o: Observation, now: int)
    requires ScoresInRange(tokens)
    ensures ScoresInRange(TokensAfter(tokens, o, now))
  {
  }

  /**
   * The row for the request's address after an accepted request: it is
   * stored under the lower-cased address, its scores are at least the
   * clamped incoming ones and at least the ones stored before, chain and
   * lastSeen are the incoming ones, and a missing symbol or name keeps the
   * stored one.
   */
  lemma RecordedRow(tokens: map<string, TokenRecord>, o: Observation, now: int)
    requires Accepts(o)
    ensures Lower(o.address) in TokensAfter(tokens, o, now)
    ensures var t := TokensAfter(tokens, o, now)[Lower(o.address)];
      && t.hype >= Clamp(o.hype) && t.safety >= Clamp(o.safety)
      && t.chainId == (if o.chainId == "" then DefaultChain else o.chainId)
      && t.lastSeen == now
    ensures Lower(o.address) in tokens ==>
      var t, t0 := TokensAfter(tokens, o, now)[Lower(o.address)], tokens[Lower(o.address)];
      && t.hype >= t0.hype && t.safety >= t0.safety
      && (OrNull(o.symbol) == None ==> t.symbol == t0.symbol)
      && (OrNull(o.name) == None ==> t.name == t0.name)
    ensures Lower(o.address) !in tokens ==>
      var t := TokensAfter(tokens, o, now)[Lower(o.address)];
      && t.symbol == OrNull(o.symbol) && t.name == OrNull(o.name)
      && t.hype == Clamp(o.hype) && t.safety == Clamp(o.safety)
  {
  }

  /** A record request touches no row but its own. */
  lemma RecordTouchesOneRow(tokens: map<string, TokenRecord>, o: Observation, now: int, a: string)
    requires a != Lower(o.address)
    ensures a in TokensAfter(tokens, o, now) <==> a in tokens
    ensures a in tokens ==> TokensAfter(tokens, o, now)[a] == tokens[a]
  {
  }

  /** A sequence of record requests, each with the time at which it arrived. */
  datatype Request = Request(obs: Observation, now: int)

  /** The tokens table after handling `batch` in order. */
  function Replay(tokens: map<string, TokenRecord>, batch: seq<Request>): map<string, TokenRecord>
    decreases |batch|
  {
    if batch == [] then tokens
    else Replay(TokensAfter(tokens, batch[0].obs, batch[0].now), batch[1..])
  }

  /**
   * High-water mark across any sequence of requests: a row is never removed
   * and its hype and safety never go down.
   */
  lemma {:induction false} ReplayHighWater(tokens: map<string, TokenRecord>, batch: seq<Request>, a: string)
    requires a in tokens
    ensures a in Replay(tokens, batch)
    ensures Replay(tokens, batch)[a].hype >= tokens[a].hype
    ensures Replay(tokens, batch)[a].safety >= tokens[a].safety
    decreases |batch|
  {
    if batch != [] {
      var next := TokensAfter(tokens, batch[0].obs, batch[0].now);
      ReplayHighWater(next, batch[1..], a);
    }
  }

  /** Across any sequence of requests every stored score stays on the 0..100 scale. */
  lemma {:induction false} ReplayKeepsScoresInRange(tokens: map<string, TokenRecord>, batch: seq<Request>)
    requires ScoresInRange(tokens)
    ensures ScoresInRange(Replay(tokens, batch))
    decreases |batch|
  {
    if batch != [] {
      RecordKeepsScoresInRange(tokens, batch[0].obs, batch[0].now);
      ReplayKeepsScoresInRange(TokensAfter(tokens, batch[0].obs, batch[0].now), batch[1..]);
    }
  }

  /** "0xABCDEF" is stored and logged as "0xabcdef". */
  lemma ExampleLowerCase(tokens: map<string, TokenRecord>, searches: seq<SearchEvent>, now: int)
    ensures var o := Observation("0xABCDEF", "", None, None, 0, 0);
      && "0xabcdef" in TokensAfter(tokens, o, now)
      && SearchesAfter(searches, o, now)[|searches|].address == "0xabcdef"
  {
    assert Lower("0xABCDEF") == "0xabcdef";
  }

  /** Hype 10 then hype 3 keeps 10; safety 5 then safety 90 gives 90. */
  lemma ExampleHighWater()
    ensures var o1 := Observation("0xAAA", "", None, None, 10, 5);
      var o2 := Observation("0xAAA", "", None, None, 3, 90);
      var t := TokensAfter(TokensAfter(map[], o1, 1), o2, 2);
      "0xaaa" in t && t["0xaaa"].hype == 10 && t["0xaaa"].safety == 90
  {
    assert Lower("0xAAA") == "0xaaa";
  }

  /** "not-an-address" is rejected: neither table changes. */
  lemma ExampleRejected(tokens: map<string, TokenRecord>, searches: seq<SearchEvent>, now: int)
    ensures var o := Observation("not-an-address", "", None, None, 50, 50);
      TokensAfter(tokens, o, now) == tokens && SearchesAfter(searches, o, now) == searches
  {
  }
}
