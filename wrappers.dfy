/** Optional values and results with an error, used wherever the source
    returns `undefined`/`null` or reports a failure instead of a value. */
module Wrappers {

  datatype Option<+T> = None | Some(value: T)

  datatype Result<+T, +E> = Success(value: T) | Failure(error: E)
}
