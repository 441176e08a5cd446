/** Optional values and results, standing in for the source's `null` / `undefined`
    and for its thrown errors. */
module Wrappers {

  /** A value that may be absent: `T | null` in the source. */
  datatype Option<+T> = None | Some(value: T)

  /** The outcome of an operation that either yields a value or fails. */
  datatype Result<+R, +E> = Success(value: R) | Failure(error: E)
}
