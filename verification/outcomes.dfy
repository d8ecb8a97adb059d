/**
 Results of lookups and of calls into the remote document store.
 */
module Outcomes {

  /** What a `find`-style lookup yields: the position it stopped at, or
      nothing when no element matched. */
  datatype Lookup<+T> = NotFound | Found(value: T)

  /** How an awaited store call settles: it resolves with a value, or it
      rejects with an error carrying a human-readable message. */
  datatype Outcome<+T> = Ok(value: T) | Err(message: string)
}
