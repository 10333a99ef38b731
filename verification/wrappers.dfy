/** Option and Result: the error paths of the Go functions (a returned `error`, a nil pointer). */
module Wrappers {

  datatype Option<T> = None | Some(value: T) {
    function UnwrapOr(default: T): T {
      match this
      case None => default
      case Some(v) => v
    }
  }

  /** A Go `(T, error)` pair: exactly one of the two is meaningful. */
  datatype Result<T> = Ok(value: T) | Err(msg: string)
}
