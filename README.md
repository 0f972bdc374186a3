# devwifhat worker: recorder and leaderboard

A model of the Cloudflare worker `devwifhat-api/worker.js`. The worker keeps
two tables. `tokens` holds one row per token address: chain, optional symbol
and name, the hype and safety scores, and when the address was last seen.
`searches` is an append-only log of `(address, ts)` events. The worker has
two endpoints, modelled here over an in-memory store:

- `POST /record` (the recorder) normalises an observation. It lower-cases
  the address, defaults the chain to `"pulsechain"`, turns an empty symbol
  or name into null, and clamps both scores into 0..100. It rejects an
  address that does not start with `0x` before writing anything. Otherwise
  it upserts the token row and appends one search event. The upsert
  overwrites chain and lastSeen, keeps the old symbol and name when the new
  ones are null, and keeps the maximum of the old and new scores.
- `GET /leaderboard` (the leaderboard builder) counts the searches in a
  trailing window of `days` days (30 by default). It keeps the 10 most
  searched addresses and joins each with its token row, using null and 0
  when there is no row. It also lists the 10 tokens with the highest hype
  and the 10 with the highest safety, each ordered by score and then by
  lastSeen, both descending. Every list is ranked from 1.

Layout, one module per file:

- `tokens.dfy` (`Tokens`): the rows, the request body and the answer.
- `recorder.dfy` (`Recorder`): normalisation, validation, and the upsert
  as a map update.
- `search_log.dfy` (`SearchLog`): the windowed count and the group-count
  loop.
- `ranking.dfy` (`Ranking`): ORDER BY ... LIMIT over a table, as a
  selection loop, with the proof that the result is unique.
- `lex.dfy` (`Lex`): the order on addresses used to break ties.
- `leaderboard.dfy` (`Leaderboard`): the three lists, the join loop,
  `rankify`, and what a leaderboard is.
- `worker.dfy` (`Worker`): the store as a class with `Record` and
  `Leaderboard`.

The clock is an input: `now` is a parameter of both endpoints.

Where the store leaves an order open, the model chooses one:

- The tie order among equal hit counts in `mostSearched` is not fixed by
  the store.
- The same holds for rows that tie on both score and lastSeen in `topHype`
  and `topSafety`.

The model breaks these remaining ties by ascending address. This is one of
the orders the store may produce. It makes the leaderboard a function of
the store and the window start. Two calls with no write between them give
the same `topHype` and `topSafety` whatever the clock reads
(`TopListsUnique`), and the same whole answer when their window starts agree
(`LeaderboardUnique`, `LeaderboardTwice`). The source-level properties (`MostSearchedMeaning`,
`TopHypeMeaning`, `TopSafetyMeaning`) do not depend on this choice.

lastSeen is overwritten with the request's clock reading (worker.js:88). It
is therefore non-decreasing only when the clock is. The model follows the
code.

## Model

| member | source | states |
|---|---|---|
| `Tokens.OrNull` | devwifhat-api/worker.js:67-68 | the falsy-to-null step gives null exactly for an absent or empty string, else the value itself |
| `Recorder.Lower` | devwifhat-api/worker.js:65 | lower-casing keeps the length, leaves no upper-case letter, keeps every other character, and maps each upper-case letter to its lower-case one |
| `Recorder.LowerIdempotent` | devwifhat-api/worker.js:65 | lower-casing a lower-cased address changes nothing |
| `Recorder.Clamp` | devwifhat-api/worker.js:69-70 | the clamped score lies in 0..100: in-range input is kept, negative input gives 0, input above 100 gives 100 |
| `Recorder.Normalise` | devwifhat-api/worker.js:65-70 | the normalised observation has a lower-cased address, the default chain when none is given, null for an empty symbol or name, and clamped scores |
| `Recorder.NormaliseIdempotent` | devwifhat-api/worker.js:65-70 | normalising is idempotent and leaves an already normalised observation unchanged |
| `Recorder.AcceptsExactly` | devwifhat-api/worker.js:65-72 | a request is accepted exactly when its raw address starts with "0x" or "0X" |
| `Recorder.Merge` | devwifhat-api/worker.js:82-88 | on conflict, chain and lastSeen become the incoming values, a null symbol or name keeps the stored one, and hype and safety are the maximum of stored and incoming |
| `Recorder.Upsert` | devwifhat-api/worker.js:79-89 | the upsert adds exactly the request's key, leaves every other row unchanged, inserts a new row and merges into an existing one |
| `Recorder.TokensAfter` | devwifhat-api/worker.js:72-89 | a rejected request leaves the tokens table unchanged; an accepted one upserts the normalised observation |
| `Recorder.SearchesAfter` | devwifhat-api/worker.js:72-92 | a rejected request leaves the search log unchanged; an accepted one keeps every earlier event and appends exactly one event: the lower-cased address at `now` |
| `Recorder.RecordKeepsScoresInRange` | devwifhat-api/worker.js:69-87 | if every stored score lies in 0..100 before a request, it still does after it, whatever scores the request carries |
| `Recorder.RecordedRow` | devwifhat-api/worker.js:80-89 | after an accepted request the row sits under the lower-cased address. Its scores are at least the clamped incoming ones and at least the stored ones. Chain and lastSeen are the incoming values. A null symbol or name keeps the stored one. A new row holds the supplied fields |
| `Recorder.RecordTouchesOneRow` | devwifhat-api/worker.js:80-89 | a request changes no row but the one for its own address, and adds no other key |
| `Recorder.ReplayHighWater` | devwifhat-api/worker.js:86-87 | across any sequence of requests, a stored row is never removed and its hype and safety never decrease |
| `Recorder.ReplayKeepsScoresInRange` | devwifhat-api/worker.js:69-87 | across any sequence of requests every stored score stays in 0..100 |
| `Recorder.ExampleLowerCase` | devwifhat-api/worker.js:65-92 | a request for "0xABCDEF" leaves a token row under "0xabcdef" and logs a search event for "0xabcdef" |
| `Recorder.ExampleHighWater` | devwifhat-api/worker.js:86-87 | hype 10 then 3 leaves 10; safety 5 then 90 leaves 90 |
| `Recorder.ExampleRejected` | devwifhat-api/worker.js:72-76 | "not-an-address" is rejected and neither table changes |
| `SearchLog.Hits` | devwifhat-api/worker.js:18-19 | the window count of an address is at most the log length, and is 0 exactly when no event for it has `ts >= since` |
| `SearchLog.HitsAppend` | devwifhat-api/worker.js:92 | appending an event adds one to the window count of its address when its time is in the window, and nothing otherwise |
| `SearchLog.CountWindow` | devwifhat-api/worker.js:17-21 | the GROUP BY holds exactly the addresses with a search in the window, each with its number of such searches |
| `SearchLog.HitsInSearched` | devwifhat-api/worker.js:18-19 | an address with a search in the window occurs in the log |
| `Ranking.SelectTop` | devwifhat-api/worker.js:18-20 | ORDER BY ... DESC LIMIT k returns min(k, table size) distinct rows, strictly in rank order, each ahead of every row left out; it serves the hits query here and the hype and safety queries at worker.js:41-49 |
| `Ranking.TopOrder` | devwifhat-api/worker.js:41-49 | in a top list the primary column is non-increasing, the tie-break column is non-increasing among equal primaries, no row repeats, and no row left out has a higher primary |
| `Ranking.TopFull` | devwifhat-api/worker.js:43 | a top list that leaves out a row of its table has exactly k rows |
| `Ranking.TopUnique` | devwifhat-api/worker.js:41-49 | a table has exactly one top-k list |
| `Leaderboard.Rankify` | devwifhat-api/worker.js:52 | `rankify` keeps the rows and their order and gives the row at position i the rank i + 1 |
| `Leaderboard.SearchedRow` | devwifhat-api/worker.js:30-37 | a most-searched row carries the address and its hits, with the token's symbol, name and scores, or null, null, 0, 0 when there is no token row |
| `Leaderboard.JoinMetadata` | devwifhat-api/worker.js:24-38 | the join loop pushes one row per top address, in the same order, each the address joined with its token row |
| `Leaderboard.BuildMostSearched` | devwifhat-api/worker.js:16-38 | the most-searched list is the top 10 of the window counts, each joined and ranked |
| `Leaderboard.BuildTopHype` | devwifhat-api/worker.js:41-44 | the hype list is the top 10 tokens by hype, then lastSeen, ranked |
| `Leaderboard.BuildTopSafety` | devwifhat-api/worker.js:46-49 | the safety list is the top 10 tokens by safety, then lastSeen, ranked |
| `Leaderboard.Build` | devwifhat-api/worker.js:12-57 | the handler returns a leaderboard of the store for the window starting at `now - days * 86400000`, with 30 days when `days` is absent |
| `Leaderboard.LeaderboardShape` | devwifhat-api/worker.js:52-56 | each list has at most 10 rows, and the row at position i has rank i + 1 |
| `Leaderboard.MostSearchedMeaning` | devwifhat-api/worker.js:17-38 | each hits value is the address's number of searches with `ts >= since` and is positive. Hits are non-increasing down the list and no address repeats. A missing token gives null and 0. An address left out has no more hits than any listed one, and is left out only when the list already has 10 rows |
| `Leaderboard.TopHypeMeaning` | devwifhat-api/worker.js:41-44 | each row is a stored token with its stored hype. Rows are ordered by hype descending, then lastSeen descending. A token left out has no more hype than any listed one, and is left out only when the list already has 10 rows |
| `Leaderboard.TopSafetyMeaning` | devwifhat-api/worker.js:46-49 | as for hype, with safety |
| `Leaderboard.TopListsUnique` | devwifhat-api/worker.js:41-49 | the tokens table alone determines `topHype` and `topSafety`, whatever the search log and the window |
| `Leaderboard.LeaderboardUnique` | devwifhat-api/worker.js:12-57 | the same store and window always yield the same leaderboard |
| `Leaderboard.ExampleMostSearched` | devwifhat-api/worker.js:17-38 | with three searches for 0xaaa and one for 0xbbb in the window, the list has two rows and the first is 0xaaa with 3 hits and rank 1 |
| `Worker.Store.Record` | devwifhat-api/worker.js:62-97 | answers "invalid address" exactly when the lower-cased address does not start with "0x". The tables become `TokensAfter` and `SearchesAfter` of the old ones. The store invariant is kept: scores in 0..100, lower-case "0x" keys, every searched address has a row |
| `Worker.Store.Leaderboard` | devwifhat-api/worker.js:12-57 | returns the leaderboard of the current store and modifies nothing |
| `Worker.RecordCountsOnce` | devwifhat-api/worker.js:92 | an accepted record raises its own address's window count by exactly 1 when the window starts no later than `now`, and leaves every other count as it was |
| `Worker.LeaderboardTwice` | devwifhat-api/worker.js:12-57 | two leaderboard calls with no write between return the same `topHype` and `topSafety` whatever clock readings they get, and an identical answer when both readings give the same window start |

## Left out

- HTTP routing, the OPTIONS/CORS response, URL parsing, JSON bodies,
  `Response` construction and the 400/404/500 status codes, including the
  catch-all error handler (worker.js:99-104). They are transport plumbing.
  The 400 answer is modelled as `Invalid("invalid address")`.
- The D1 database client and `async`/`await`. The two tables are a map and
  a sequence, and each SQL statement is modelled by its meaning.
- Atomicity under concurrent requests, and a failure between the upsert
  and the search insert. Only sequential calls are modelled. Every searched
  address has a token row in any case: each request finishes its upsert
  before it logs its search, and no row is ever deleted.
- JavaScript number coercion: `Number(...)` giving NaN, fractional scores,
  and the 32-bit `| 0` in `rankify`. Scores, times and `days` are integers.
  An absent `days` (or an empty one) is `None` and means 30.
- Inputs that are not strings. Absent fields are modelled as the empty
  string, None, or 0; `String(...)` on other types is not modelled.
- `toLowerCase` beyond ASCII: only `A`-`Z` are mapped.
- `Date.now()`: the clock reading is the parameter `now`. Successive real
  calls read the clock separately, so the window moves between them, and
  `mostSearched` can change without any write while `topHype` and
  `topSafety` cannot.
- The store's own tie order: the model breaks remaining ties by ascending
  address.
