/** Failure-carrying values shared by the other modules. */
module Wrappers {

  datatype Option<+T> = None | Some(value: T)

  /** The result of a library call that either yields a value or fails with a message
      (a Go call whose non-error value is discarded when the error is set). */
  datatype Result<+T> = Ok(value: T) | Err(msg: string)

  /** A Go `(value, error)` pair whose value is still used when the error is set. */
  datatype Outcome<+T> = Outcome(value: T, err: Option<string>) {
    predicate Failed() { err.Some? }
  }
}
