/** Optional values and results, used wherever the source returns `null`/`undefined`
    or throws an error that a caller catches. */
module Wrappers {

  datatype Option<+T> = None | Some(value: T)

  datatype Result<+T, +E> = Success(value: T) | Failure(error: E)
}
