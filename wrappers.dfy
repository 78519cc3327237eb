/** Optional values and results with an error: the model's stand-ins for Go's nil
    pointers and for its `(value, error)` return pairs. */
module Wrappers {

  datatype Option<+T> = None | Some(value: T)

  datatype Result<+R, +E> = Success(value: R) | Failure(error: E)
}
