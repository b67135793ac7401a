/** Optional values and results: the nil pointers, protobuf wrappers and
    (value, error) pairs of the Go services become these datatypes. */
module Wrappers {

  /** A nil-able value: `None` is Go's nil, `Some(v)` a non-nil pointer or wrapper. */
  datatype Option<+T> = None | Some(value: T)

  /** A Go `(value, error)` pair where exactly one side is meaningful. */
  datatype Result<+R, +E> = Success(value: R) | Failure(error: E)
}
