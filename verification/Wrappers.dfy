/** Failure-carrying result types shared by the other modules. */
module Wrappers {

  /** A value that may be absent: Go's nil pointer, nil slice or missing map entry. */
  datatype Option<+T> = None | Some(value: T)

  /** What a Go function with an error return gives back. */
  datatype Result<+T, +E> = Ok(value: T) | Err(error: E)
}
