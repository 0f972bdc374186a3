/**
 * The values the worker stores and receives: one row of the `tokens` table,
 * one row of the `searches` table, and the body of a record request.
 */
module Tokens {

  datatype Option<T> = None | Some(value: T)

  /** Chain written when a request names none. */
  const DefaultChain: string := "pulsechain"

  /** Upper end of the score scale; the lower end is 0. */
  const MaxScore: int := 100

  /**
   * One row of `tokens`, without its key: the map from address to
   * TokenRecord is the table.
   */
  datatype TokenRecord = TokenRecord(
    chainId: string,
    symbol: Option<string>,
    name: Option<string>,
    hype: int,
    safety: int,
    lastSeen: int)

  /** One row of `searches`: an address and the time it was recorded, in ms. */
  datatype SearchEvent = SearchEvent(address: string, ts: int)

  /**
   * The fields of a `POST /record` body. An absent address or chain is the
   * empty string, an absent symbol or name is None, an absent score is 0.
   */
  datatype Observation = Observation(
    address: string,
    chainId: string,
    symbol: Option<string>,
    name: Option<string>,
    hype: int,
    safety: int)

  /** What `POST /record` answers. */
  datatype Outcome = Ok | Invalid(error: string)

  /** JavaScript's `v || null` on an optional string: the empty string is falsy. */
  function OrNull(v: Option<string>): (r: Option<string>)
    ensures r == None <==> (v == None || v == Some(""))
    ensures r != None ==> r == v
  {
    if v == Some("") then None else v
  }

  /** Both scores lie on the 0..100 scale. */
  predicate InRange(t: TokenRecord)
  {
    0 <= t.hype <= MaxScore && 0 <= t.safety <= MaxScore
  }
}
