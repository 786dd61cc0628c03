/** Optional values and success-or-error results, used for the source's
    `null`/`undefined` values and for its thrown errors. */
module Wrappers {

  datatype Option<+T> = None | Some(value: T)

  /** A computation that either produced a value or threw an error whose
      message is `error`. */
  datatype Result<+R, +E> = Success(value: R) | Failure(error: E)
}
