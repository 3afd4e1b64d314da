/** Failure-carrying results: a JavaScript `throw` in the importer becomes a
    failure value that the caller propagates. */
module Wrappers {

  datatype Option<+T> = None | Some(value: T)

  /** A computed value, or the error that was thrown instead. */
  datatype Result<+T, +E> = Ok(value: T) | Err(error: E)

  /** Completion of a statement that produces no value: normal, or thrown. */
  datatype Outcome<+E> = Pass | Fail(error: E)
}
