/** The parts of the JavaScript runtime the cache engine relies on: thrown
    errors and the global JSON object. */
module Js {
  import opened Wrappers

  /** A thrown JavaScript error, distinguished by its message. */
  datatype Error = Error(message: string)

  /** The JSON implementation the engine runs against, left uninterpreted.
      `stringify` may throw (cyclic values, BigInt), and so may `parse`
      (malformed text). `gather` builds the JavaScript array that a rest
      parameter gathers the call arguments into, so that the arguments can be
      stringified as one value. No round-trip law between `stringify` and
      `parse` is assumed. */
  datatype Json<!V> = Json(
    stringify: V -> Result<string, Error>,
    parse: string -> Result<V, Error>,
    gather: seq<V> -> V)
}
