/** Failure-compatible wrappers used across the model: an optional value
    (a nullable column, a geocoding miss) and a result with an error. */
module Wrappers {

  datatype Option<+T> = None | Some(value: T)

  datatype Result<+R, +E> = Success(value: R) | Failure(error: E)
}
