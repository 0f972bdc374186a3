/**
 * `GET /leaderboard`: the most searched addresses in a trailing window,
 * joined with their token rows, and the top rows by hype and by safety,
 * each list ranked from 1.
 */
module Leaderboard {
  import opened Tokens
  import opened SearchLog
  import opened Ranking

  /** Every list is cut to this many rows (LIMIT 10). */
  const Limit: nat := 10

  const DayMillis: int := 24 * 3600 * 1000

  /** Window used when the request gives no `days`. */
  const DefaultDays: int := 30

  /** Start of the window, in ms: `now - days * 86400000`. */
  function Since(now: int, days: Option<int>): int
  {
    now - (if days.Some? then days.value else DefaultDays) * DayMillis
  }

  /** A row of `mostSearched` before ranking. */
  datatype HitsRow = HitsRow(
    address: string, symbol: Option<string>, name: Option<string>, hype: int, safety: int, hits: nat)

  /** A row of `topHype` before ranking. */
  datatype HypeRow = HypeRow(address: string, symbol: Option<string>, name: Option<string>, hype: int)

  /** A row of `topSafety` before ranking. */
  datatype SafetyRow = SafetyRow(address: string, symbol: Option<string>, name: Option<string>, safety: int)

  /** A row with its 1-based place in its list. */
  datatype Ranked<T> = Ranked(rank: nat, row: T)

  /** The response body. */
  datatype Board = Board(
    mostSearched: seq<Ranked<HitsRow>>,
    topHype: seq<Ranked<HypeRow>>,
    topSafety: seq<Ranked<SafetyRow>>)

  /** `rankify`: the rows in the same order, numbered 1, 2, 3, ... */
  function Rankify<T>(rows: seq<T>): (r: seq<Ranked<T>>)
    ensures |r| == |rows|
    ensures forall i :: 0 <= i < |r| ==> r[i].rank == i + 1 && r[i].row == rows[i]
  {
    seq(|rows|, i requires 0 <= i < |rows| => Ranked(i + 1, rows[i]))
  }

  /** The search counts of the window as a table of sort keys (hits; no tie-break column). */
  ghost function HitScores(events: seq<SearchEvent>, since: int): map<string, Score>
  {
    map a | a in Searched(events) && Hits(events, a, since) > 0 :: Score(Hits(events, a, since), 0)
  }

  /** The tokens table sorted by hype, then lastSeen. */
  function HypeScores(tokens: map<string, TokenRecord>): map<string, Score>
  {
    map a | a in tokens :: Score(tokens[a].hype, tokens[a].lastSeen)
  }

  /** The tokens table sorted by safety, then lastSeen. */
  function SafetyScores(tokens: map<string, TokenRecord>): map<string, Score>
  {
    map a | a in tokens :: Score(tokens[a].safety, tokens[a].lastSeen)
  }

  /**
   * One `mostSearched` row: the address and its count, with symbol, name and
   * scores from its token row when there is one, else null and 0.
   */
  function SearchedRow(tokens: map<string, TokenRecord>, address: string, hits: nat): (r: HitsRow)
    ensures r.address == address && r.hits == hits
    ensures address !in tokens ==> r.symbol == None && r.name == None && r.hype == 0 && r.safety == 0
    ensures address in tokens ==>
      && r.symbol == OrNull(tokens[address].symbol) && r.name == OrNull(tokens[address].name)
      && r.hype == tokens[address].hype && r.safety == tokens[address].safety
  {
    if address in tokens then
      var t := tokens[address];
      HitsRow(address, OrNull(t.symbol), OrNull(t.name), t.hype, t.safety, hits)
    else
      HitsRow(address, None, None, 0, 0, hits)
  }

  function HypeRowOf(tokens: map<string, TokenRecord>, address: string): HypeRow
    requires address in tokens
  {
    var t := tokens[address];
    HypeRow(address, t.symbol, t.name, t.hype)
  }

  function SafetyRowOf(tokens: map<string, TokenRecord>, address: string): SafetyRow
    requires address in tokens
  {
    var t := tokens[address];
    SafetyRow(address, t.symbol, t.name, t.safety)
  }

  function SearchedAddresses(r: seq<Ranked<HitsRow>>): seq<string>
  {
    seq(|r|, i requires 0 <= i < |r| => r[i].row.address)
  }

  function HypeAddresses(r: seq<Ranked<HypeRow>>): seq<string>
  {
    seq(|r|, i requires 0 <= i < |r| => r[i].row.address)
  }

  function SafetyAddresses(r: seq<Ranked<SafetyRow>>): seq<string>
  {
    seq(|r|, i requires 0 <= i < |r| => r[i].row.address)
  }

  /**
   * `mostSearched` for the store (tokens, searches) and window start `since`:
   * the addresses are the top 10 by hits in the window, and each row carries
   * its rank, its count and the columns of its token row.
   */
  ghost predicate IsMostSearched(rows: seq<Ranked<HitsRow>>, tokens: map<string, TokenRecord>, searches: seq<SearchEvent>, since: int)
  {
    && IsTop(SearchedAddresses(rows), HitScores(searches, since), Limit)
    && (forall i :: 0 <= i < |rows| ==>
          rows[i] == Ranked(i + 1, SearchedRow(tokens, rows[i].row.address, Hits(searches, rows[i].row.address, since))))
  }

  /** `topHype`: the top 10 tokens by hype, then lastSeen, each row with its rank and stored columns. */
  ghost predicate IsTopHype(rows: seq<Ranked<HypeRow>>, tokens: map<string, TokenRecord>)
  {
    && IsTop(HypeAddresses(rows), HypeScores(tokens), Limit)
    && (forall i :: 0 <= i < |rows| ==>
          rows[i].row.address in tokens && rows[i] == Ranked(i + 1, HypeRowOf(tokens, rows[i].row.address)))
  }

  /** `topSafety`: the top 10 tokens by safety, then lastSeen, each row with its rank and stored columns. */
  ghost predicate IsTopSafety(rows: seq<Ranked<SafetyRow>>, tokens: map<string, TokenRecord>)
  {
    && IsTop(SafetyAddresses(rows), SafetyScores(tokens), Limit)
    && (forall i :: 0 <= i < |rows| ==>
          rows[i].row.address in tokens && rows[i] == Ranked(i + 1, SafetyRowOf(tokens, rows[i].row.address)))
  }

  /** The response body for the store (tokens, searches) and window start `since`. */
  ghost predicate IsLeaderboard(lb: Board, tokens: map<string, TokenRecord>, searches: seq<SearchEvent>, since: int)
  {
    && IsMostSearched(lb.mostSearched, tokens, searches, since)
    && IsTopHype(lb.topHype, tokens)
    && IsTopSafety(lb.topSafety, tokens)
  }

  /** The loop that looks up each most-searched address in `tokens` and pushes its row. */
  method JoinMetadata(tokens: map<string, TokenRecord>, counts: map<string, nat>, top: seq<string>)
    returns (rows: seq<HitsRow>)
    requires forall i :: 0 <= i < |top| ==> top[i] in counts
    ensures |rows| == |top|
    ensures forall i :: 0 <= i < |top| ==> rows[i] == SearchedRow(tokens, top[i], counts[top[i]])
  {
    rows := [];
    for i := 0 to |top|
      invariant |rows| == i
      invariant forall j :: 0 <= j < i ==> rows[j] == SearchedRow(tokens, top[j], counts[top[j]])
    {
      rows := rows + [SearchedRow(tokens, top[i], counts[top[i]])];
    }
  }

  /** Count the window, keep the 10 most searched addresses, join each with its token row, rank. */
  method BuildMostSearched(tokens: map<string, TokenRecord>, searches: seq<SearchEvent>, since: int)
    returns (rows: seq<Ranked<HitsRow>>)
    ensures IsMostSearched(rows, tokens, searches, since)
  {
    var counts := CountWindow(searches, since);
    var hitScores := map a | a in counts :: Score(counts[a], 0);
    assert hitScores == HitScores(searches, since) by {
      forall a | a in counts
        ensures a in Searched(searches)
      {
        HitsInSearched(searches, a, since);
      }
    }
    var top := SelectTop(hitScores, Limit);
    var joined := JoinMetadata(tokens, counts, top);
    rows := Rankify(joined);
    assert SearchedAddresses(rows) == top;
  }

  /** SELECT ... FROM tokens ORDER BY last_hype DESC, last_seen DESC LIMIT 10, ranked. */
  method BuildTopHype(tokens: map<string, TokenRecord>) returns (rows: seq<Ranked<HypeRow>>)
    ensures IsTopHype(rows, tokens)
  {
    var top := SelectTop(HypeScores(tokens), Limit);
    rows := Rankify(seq(|top|, i requires 0 <= i < |top| => HypeRowOf(tokens, top[i])));
    assert HypeAddresses(rows) == top;
  }

  /** SELECT ... FROM tokens ORDER BY last_safety DESC, last_seen DESC LIMIT 10, ranked. */
  method BuildTopSafety(tokens: map<string, TokenRecord>) returns (rows: seq<Ranked<SafetyRow>>)
    ensures IsTopSafety(rows, tokens)
  {
    var top := SelectTop(SafetyScores(tokens), Limit);
    rows := Rankify(seq(|top|, i requires 0 <= i < |top| => SafetyRowOf(tokens, top[i])));
    assert SafetyAddresses(rows) == top;
  }

  /** The `/leaderboard` handler, with the clock reading `now` and the `days` parameter as inputs. */
  method Build(tokens: map<string, TokenRecord>, searches: seq<SearchEvent>, now: int, days: Option<int>)
    returns (lb: Board)
    ensures IsLeaderboard(lb, tokens, searches, Since(now, days))
  {
    var mostSearched := BuildMostSearched(tokens, searches, Since(now, days));
    var topHype := BuildTopHype(tokens);
    var topSafety := BuildTopSafety(tokens);
    lb := Board(mostSearched, topHype, topSafety);
  }

  /** Every list has at most 10 rows, and the row at position i has rank i + 1. */
  lemma LeaderboardShape(lb: Board, tokens: map<string, TokenRecord>, searches: seq<SearchEvent>, since: int)
    requires IsLeaderboard(lb, tokens, searches, since)
    ensures |lb.mostSearched| <= Limit && |lb.topHype| <= Limit && |lb.topSafety| <= Limit
    ensures forall i :: 0 <= i < |lb.mostSearched| ==> lb.mostSearched[i].rank == i + 1
    ensures forall i :: 0 <= i < |lb.topHype| ==> lb.topHype[i].rank == i + 1
    ensures forall i :: 0 <= i < |lb.topSafety| ==> lb.topSafety[i].rank == i + 1
  {
  }

  /**
   * `mostSearched`: each row's hits is its address's number of searches in
   * the window, the list is non-increasing in hits with no address twice,
   * an address without a token row gets null and 0, and an address left out
   * has no more hits than any listed one and is only left out of a full list.
   */
  lemma MostSearchedMeaning(rows: seq<Ranked<HitsRow>>, tokens: map<string, TokenRecord>, searches: seq<SearchEvent>, since: int)
    requires IsMostSearched(rows, tokens, searches, since)
    ensures forall i :: 0 <= i < |rows| ==>
      rows[i].row.hits == Hits(searches, rows[i].row.address, since) && rows[i].row.hits > 0
    ensures forall i, j :: 0 <= i < j < |rows| ==>
      rows[i].row.hits >= rows[j].row.hits && rows[i].row.address != rows[j].row.address
    ensures forall i :: 0 <= i < |rows| && rows[i].row.address !in tokens ==>
      rows[i].row.symbol == None && rows[i].row.name == None && rows[i].row.hype == 0 && rows[i].row.safety == 0
    ensures forall a :: Hits(searches, a, since) > 0 && a !in SearchedAddresses(rows) ==>
      |rows| == Limit && forall i :: 0 <= i < |rows| ==> rows[i].row.hits >= Hits(searches, a, since)
  {
    var m := HitScores(searches, since);
    var keys := SearchedAddresses(rows);
    assert forall i :: 0 <= i < |rows| ==> keys[i] == rows[i].row.address;
    TopOrder(keys, m, Limit);
    forall i | 0 <= i < |rows|
      ensures rows[i].row.hits == m[keys[i]].primary
    {
    }
    forall a | Hits(searches, a, since) > 0 && a !in keys
      ensures |rows| == Limit
      ensures forall i :: 0 <= i < |rows| ==> rows[i].row.hits >= Hits(searches, a, since)
    {
      HitsInSearched(searches, a, since);
      assert a in m && m[a].primary == Hits(searches, a, since);
      TopFull(keys, m, Limit, a);
    }
  }

  /**
   * `topHype`: every row is a stored token with its stored hype, ordered by
   * hype descending and, among equal hype, by lastSeen descending; a token
   * left out has no more hype than any listed one and is only left out of a
   * full list.
   */
  lemma TopHypeMeaning(rows: seq<Ranked<HypeRow>>, tokens: map<string, TokenRecord>)
    requires IsTopHype(rows, tokens)
    ensures forall i :: 0 <= i < |rows| ==>
      rows[i].row.address in tokens && rows[i].row.hype == tokens[rows[i].row.address].hype
    ensures forall i, j :: 0 <= i < j < |rows| ==>
      var a, b := rows[i].row.address, rows[j].row.address;
      a != b && (tokens[a].hype > tokens[b].hype ||
                 (tokens[a].hype == tokens[b].hype && tokens[a].lastSeen >= tokens[b].lastSeen))
    ensures forall a :: a in tokens && a !in HypeAddresses(rows) ==>
      |rows| == Limit && forall i :: 0 <= i < |rows| ==> rows[i].row.hype >= tokens[a].hype
  {
    var m := HypeScores(tokens);
    var keys := HypeAddresses(rows);
    assert forall i :: 0 <= i < |rows| ==> keys[i] == rows[i].row.address;
    TopOrder(keys, m, Limit);
    forall a | a in tokens && a !in keys
      ensures |rows| == Limit
    {
      TopFull(keys, m, Limit, a);
    }
  }

  /** `topSafety`: as `topHype`, with safety in place of hype. */
  lemma TopSafetyMeaning(rows: seq<Ranked<SafetyRow>>, tokens: map<string, TokenRecord>)
    requires IsTopSafety(rows, tokens)
    ensures forall i :: 0 <= i < |rows| ==>
      rows[i].row.address in tokens && rows[i].row.safety == tokens[rows[i].row.address].safety
    ensures forall i, j :: 0 <= i < j < |rows| ==>
      var a, b := rows[i].row.address, rows[j].row.address;
      a != b && (tokens[a].safety > tokens[b].safety ||
                 (tokens[a].safety == tokens[b].safety && tokens[a].lastSeen >= tokens[b].lastSeen))
    ensures forall a :: a in tokens && a !in SafetyAddresses(rows) ==>
      |rows| == Limit && forall i :: 0 <= i < |rows| ==> rows[i].row.safety >= tokens[a].safety
  {
    var m := SafetyScores(tokens);
    var keys := SafetyAddresses(rows);
    assert forall i :: 0 <= i < |rows| ==> keys[i] == rows[i].row.address;
    TopOrder(keys, m, Limit);
    forall a | a in tokens && a !in keys
      ensures |rows| == Limit
    {
      TopFull(keys, m, Limit, a);
    }
  }

  /**
   * The tokens table alone determines `topHype` and `topSafety`: they do not
   * depend on the search log or the window.
   */
  lemma TopListsUnique(lb1: Board, lb2: Board, tokens: map<string, TokenRecord>)
    requires IsTopHype(lb1.topHype, tokens) && IsTopSafety(lb1.topSafety, tokens)
    requires IsTopHype(lb2.topHype, tokens) && IsTopSafety(lb2.topSafety, tokens)
    ensures lb1.topHype == lb2.topHype && lb1.topSafety == lb2.topSafety
  {
    var h1, h2 := HypeAddresses(lb1.topHype), HypeAddresses(lb2.topHype);
    TopUnique(h1, h2, HypeScores(tokens), Limit);
    assert forall i :: 0 <= i < |h1| ==> lb1.topHype[i] == lb2.topHype[i] by {
      assert forall i :: 0 <= i < |h1| ==> h1[i] == lb1.topHype[i].row.address;
      assert forall i :: 0 <= i < |h2| ==> h2[i] == lb2.topHype[i].row.address;
    }

    var s1, s2 := SafetyAddresses(lb1.topSafety), SafetyAddresses(lb2.topSafety);
    TopUnique(s1, s2, SafetyScores(tokens), Limit);
    assert forall i :: 0 <= i < |s1| ==> lb1.topSafety[i] == lb2.topSafety[i] by {
      assert forall i :: 0 <= i < |s1| ==> s1[i] == lb1.topSafety[i].row.address;
      assert forall i :: 0 <= i < |s2| ==> s2[i] == lb2.topSafety[i].row.address;
    }
  }

  /**
   * The store determines the leaderboard: two leaderboards of the same
   * tokens, searches and window are equal.
   */
  lemma LeaderboardUnique(lb1: Board, lb2: Board, tokens: map<string, TokenRecord>, searches: seq<SearchEvent>, since: int)
    requires IsLeaderboard(lb1, tokens, searches, since)
    requires IsLeaderboard(lb2, tokens, searches, since)
    ensures lb1 == lb2
  {
    var ms1, ms2 := SearchedAddresses(lb1.mostSearched), SearchedAddresses(lb2.mostSearched);
    TopUnique(ms1, ms2, HitScores(searches, since), Limit);
    assert forall i :: 0 <= i < |ms1| ==> lb1.mostSearched[i] == lb2.mostSearched[i] by {
      assert forall i :: 0 <= i < |ms1| ==> ms1[i] == lb1.mostSearched[i].row.address;
      assert forall i :: 0 <= i < |ms2| ==> ms2[i] == lb2.mostSearched[i].row.address;
    }
    TopListsUnique(lb1, lb2, tokens);
  }

  /** Three searches for 0xaaa and one for 0xbbb, all at `now`. */
  function ExampleSearches(now: int): seq<SearchEvent>
  {
    [SearchEvent("0xaaa", now), SearchEvent("0xbbb", now), SearchEvent("0xaaa", now), SearchEvent("0xaaa", now)]
  }

  lemma ExampleHits(now: int, since: int)
    requires since <= now
    ensures Hits(ExampleSearches(now), "0xaaa", since) == 3
    ensures Hits(ExampleSearches(now), "0xbbb", since) == 1
  {
    var a, b := SearchEvent("0xaaa", now), SearchEvent("0xbbb", now);
    var e1, e2, e3 := [a], [a, b], [a, b, a];
    assert Hits(e1, "0xaaa", since) == 1 && Hits(e1, "0xbbb", since) == 0 by {
      assert e1 == [] + [a];
      HitsAppend([], a, "0xaaa", since);
      HitsAppend([], a, "0xbbb", since);
    }
    assert Hits(e2, "0xaaa", since) == 1 && Hits(e2, "0xbbb", since) == 1 by {
      assert e2 == e1 + [b];
      HitsAppend(e1, b, "0xaaa", since);
      HitsAppend(e1, b, "0xbbb", since);
    }
    assert Hits(e3, "0xaaa", since) == 2 && Hits(e3, "0xbbb", since) == 1 by {
      assert e3 == e2 + [a];
      HitsAppend(e2, a, "0xaaa", since);
      HitsAppend(e2, a, "0xbbb", since);
    }
    assert ExampleSearches(now) == e3 + [a];
    HitsAppend(e3, a, "0xaaa", since);
    HitsAppend(e3, a, "0xbbb", since);
  }

  lemma ExampleSearched(now: int)
    ensures Searched(ExampleSearches(now)) == {"0xaaa", "0xbbb"}
  {
  }

  lemma ExampleHitScores(now: int, since: int)
    requires since <= now
    ensures HitScores(ExampleSearches(now), since).Keys == {"0xaaa", "0xbbb"}
    ensures HitScores(ExampleSearches(now), since)["0xaaa"] == Score(3, 0)
    ensures HitScores(ExampleSearches(now), since)["0xbbb"] == Score(1, 0)
  {
    ExampleHits(now, since);
    ExampleSearched(now);
  }

  /**
   * Three searches for 0xaaa and one for 0xbbb in the window: 0xaaa comes
   * first, with 3 hits and rank 1.
   */
  lemma ExampleMostSearched(rows: seq<Ranked<HitsRow>>, tokens: map<string, TokenRecord>, now: int)
    requires IsMostSearched(rows, tokens, ExampleSearches(now), Since(now, None))
    ensures |rows| == 2
    ensures rows[0].row.address == "0xaaa" && rows[0].row.hits == 3 && rows[0].rank == 1
  {
    var since := Since(now, None);
    ExampleHitScores(now, since);
    var m := HitScores(ExampleSearches(now), since);
    var keys := SearchedAddresses(rows);
    assert |keys| == 2;
    assert keys[0] == rows[0].row.address;
    assert keys[0] == "0xaaa" || Ahead(m, keys[0], "0xaaa") by {
      if "0xaaa" in keys {
        var j :| 0 <= j < |keys| && keys[j] == "0xaaa";
        if j != 0 {
          assert Ahead(m, keys[0], keys[j]);
        }
      }
    }
    assert keys[0] in m.Keys;
    assert keys[0] == "0xaaa";
    assert Hits(ExampleSearches(now), "0xaaa", since) == 3;
  }
}
