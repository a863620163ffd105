/**
 * What the engine takes from its surroundings, passed in explicitly: the
 * clock, `Date.parse`, `Number()` on text, the database, the values
 * `createExecutionContext` draws from the clock and `crypto.randomUUID`, and
 * `JSON.stringify` of a node (used in one validation message).
 */
module Runtime {
  import opened Wrappers
  import opened Js
  import Queries
  import Dsl

  datatype Env = Env(
    now: int,
    iso: string -> Option<int>,
    textToNumber: string -> Number,
    db: Queries.Db,
    executedAt: string,
    traceId: string,
    json: Dsl.Node -> string)
}
