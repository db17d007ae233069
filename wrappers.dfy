/** Wrappers used across the routing model: an Option for
    Go's nil-able pointers and comma-ok lookups, a Result for Go's (value, error) pairs. */
module Wrappers {

  datatype Option<+T> = None | Some(value: T)

  datatype Result<+R, +E> = Success(value: R) | Failure(error: E)
}
