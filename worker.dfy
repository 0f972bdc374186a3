/**
 * The worker's two endpoints over its store: the `tokens` table as a map
 * from address to row, and the `searches` table as an append-only sequence.
 */
module Worker {
  import opened Tokens
  import opened Recorder
  import opened SearchLog
  import opened Leaderboard

  class Store {
    var tokens: map<string, TokenRecord>
    var searches: seq<SearchEvent>

    /**
     * What every handled request keeps: stored scores lie on the 0..100
     * scale, every address in either table is lower-case and starts with
     * "0x", and every searched address has a token row (the upsert runs
     * before the search is logged).
     */
    ghost predicate Valid()
      reads this
    {
      && ScoresInRange(tokens)
      && (forall a :: a in tokens ==> IsKey(a))
      && (forall i :: 0 <= i < |searches| ==> IsKey(searches[i].address) && searches[i].address in tokens)
    }

    /** An empty store. */
    constructor ()
      ensures Valid()
      ensures tokens == map[] && searches == []
    {
      tokens := map[];
      searches := [];
    }

    /**
     * `POST /record` at time `now`: normalise, reject an address that does
     * not start with "0x" before any write, else upsert the token row and
     * append one search event.
     */
    method Record(obs: Observation, now: int) returns (r: Outcome)
      requires Valid()
      modifies this
      ensures Valid()
      ensures r == if Accepts(obs) then Ok else Invalid("invalid address")
      ensures tokens == TokensAfter(old(tokens), obs, now)
      ensures searches == SearchesAfter(old(searches), obs, now)
    {
      var n := Normalise(obs);
      if !IsAddress(n.address) {
        return Invalid("invalid address");
      }
      LowerIdempotent(obs.address);
      tokens := Upsert(tokens, n, now);
      searches := searches + [SearchEvent(n.address, now)];
      r := Ok;
    }

    /** `GET /leaderboard` at time `now`, with the optional `days` parameter. It reads the store and writes nothing. */
    method Leaderboard(now: int, days: Option<int>) returns (lb: Board)
      ensures IsLeaderboard(lb, tokens, searches, Since(now, days))
    {
      lb := Build(tokens, searches, now, days);
    }
  }

  /**
   * An accepted record raises the windowed count of its own address by
   * exactly one, whenever the window starts no later than `now`, and leaves
   * the count of every other address as it was.
   */
  lemma RecordCountsOnce(searches: seq<SearchEvent>, obs: Observation, now: int, since: int, a: string)
    requires Accepts(obs)
    ensures a == Lower(obs.address) && since <= now ==>
      Hits(SearchesAfter(searches, obs, now), a, since) == Hits(searches, a, since) + 1
    ensures a != Lower(obs.address) || since > now ==>
      Hits(SearchesAfter(searches, obs, now), a, since) == Hits(searches, a, since)
  {
    HitsAppend(searches, SearchEvent(Lower(obs.address), now), a, since);
  }

  /**
   * Asking for the leaderboard twice with no write between: each call reads
   * the clock itself, so the window may move. `topHype` and `topSafety` are
   * the same whatever the two readings are, and when both readings give the
   * same window start the whole answer is the same.
   */
  method LeaderboardTwice(store: Store, now1: int, now2: int, days: Option<int>) returns (first: Board, second: Board)
    ensures first.topHype == second.topHype && first.topSafety == second.topSafety
    ensures Since(now1, days) == Since(now2, days) ==> first == second
  {
    first := store.Leaderboard(now1, days);
    second := store.Leaderboard(now2, days);
    TopListsUnique(first, second, store.tokens);
    if Since(now1, days) == Since(now2, days) {
      LeaderboardUnique(first, second, store.tokens, store.searches, Since(now1, days));
    }
  }
}
