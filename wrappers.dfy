/** Failure-carrying values: the outcome of a remote call is passed into the
    model as one of these instead of being performed. */
module Wrappers {

  /** A value that may be missing (JavaScript `null` / `undefined`). */
  datatype Option<+T> = None | Some(value: T)

  /** The result of a remote query: the rows it returned, or the error it reported. */
  datatype Result<+R, +E> = Success(value: R) | Failure(error: E)

  /** The result of a remote write, which returns no rows. */
  datatype Outcome<+E> = Pass | Fail(error: E)
}
