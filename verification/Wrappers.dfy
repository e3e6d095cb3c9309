/** Optional values, and results of operations that a transaction may abandon. */
module Wrappers {

  datatype Option<+T> = None | Some(value: T)

  datatype Error = InvalidInput | InsufficientStock | NotFound | ConstraintViolation

  datatype Result<+T> = Ok(value: T) | Err(error: Error)

  /** A transaction does what its outcome says: it leaves the new state, or the error and the old one. */
  predicate Reports<S(==)>(error: Option<Error>, outcome: Result<S>, after: S, was: S) {
    if outcome.Ok? then error.None? && after == outcome.value else error == Some(outcome.error) && after == was
  }

  /** The same within a larger transaction, which an error abandons. */
  predicate ReportsWithin<S(==)>(error: Option<Error>, outcome: Result<S>, after: S) {
    if outcome.Ok? then error.None? && after == outcome.value else error == Some(outcome.error)
  }
}
