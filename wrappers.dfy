/** A value or an error, as Go's `(value, error)` result pairs are used in package common. */
module Wrappers {

  datatype Result<T, E> = Ok(value: T) | Err(error: E)
}
