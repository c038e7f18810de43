/** Optional values and success-or-failure results, used in place of JavaScript's
    `null`/`undefined` and of rejected promises. */
module Wrappers {

  datatype Option<+T> = None | Some(value: T)

  datatype Result<+R, +E> = Success(value: R) | Failure(error: E)
}
