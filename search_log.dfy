/**
 * The append-only `searches` table and the windowed count that
 * `GET /leaderboard` runs over it (COUNT(*) ... WHERE ts >= since GROUP BY address).
 */
module SearchLog {
  import opened Tokens

  /** The event is a search for `address` at or after `since`. */
  predicate InWindow(e: SearchEvent, address: string, since: int)
  {
    e.address == address && e.ts >= since
  }

  /** The number of searches for `address` with `ts >= since`. */
  function Hits(events: seq<SearchEvent>, address: string, since: int): (n: nat)
    ensures n <= |events|
    ensures n == 0 <==> forall i :: 0 <= i < |events| ==> !InWindow(events[i], address, since)
    decreases |events|
  {
    if events == [] then 0
    else
      var last := events[|events| - 1];
      Hits(events[..|events| - 1], address, since) + if InWindow(last, address, since) then 1 else 0
  }

  /** Counting an appended event: it adds one exactly when it is in the window for that address. */
  lemma HitsAppend(events: seq<SearchEvent>, e: SearchEvent, address: string, since: int)
    ensures Hits(events + [e], address, since)
      == Hits(events, address, since) + if InWindow(e, address, since) then 1 else 0
  {
    assert (events + [e])[..|events|] == events;
  }

  /** Every address searched in the log. */
  function Searched(events: seq<SearchEvent>): set<string>
  {
    set e | e in events :: e.address
  }

  /**
   * GROUP BY address over the window: for each address searched at or after
   * `since`, its number of such searches.
   */
  method CountWindow(events: seq<SearchEvent>, since: int) returns (counts: map<string, nat>)
    ensures forall a :: a in counts <==> Hits(events, a, since) > 0
    ensures forall a :: a in counts ==> counts[a] == Hits(events, a, since)
  {
    counts := map[];
    var i := 0;
    while i < |events|
      invariant 0 <= i <= |events|
      invariant forall a :: a in counts <==> Hits(events[..i], a, since) > 0
      invariant forall a :: a in counts ==> counts[a] == Hits(events[..i], a, since)
    {
      var e := events[i];
      assert events[..i + 1] == events[..i] + [e];
      forall a
        ensures Hits(events[..i + 1], a, since)
          == Hits(events[..i], a, since) + if InWindow(e, a, since) then 1 else 0
      {
        HitsAppend(events[..i], e, a, since);
      }
      if e.ts >= since {
        counts := counts[e.address := (if e.address in counts then counts[e.address] else 0) + 1];
      }
      i := i + 1;
    }
    assert events[..i] == events;
  }

  /** Addresses with a search in the window are searched addresses. */
  lemma HitsInSearched(events: seq<SearchEvent>, address: string, since: int)
    requires Hits(events, address, since) > 0
    ensures address in Searched(events)
  {
    var i :| 0 <= i < |events| && InWindow(events[i], address, since);
    assert events[i] in events;
  }
}
