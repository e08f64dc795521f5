/** Optional values and error-carrying results, as the Go code expresses them with
    nullable pointers, `(value, found)` pairs and `(value, error)` pairs. */
module Wrappers {

  datatype Option<+T> = None | Some(value: T)

  datatype Result<+R, +E> = Success(value: R) | Failure(error: E)
}
