/** Optional and either-or result types used by the registry model. */
module Wrappers {

  /** An optional value: the outcome of a lookup that may find nothing. */
  datatype Option<+T> = None | Some(value: T)

  /** Either a value or an error. */
  datatype Result<+R, +E> = Success(value: R) | Failure(error: E)
}
