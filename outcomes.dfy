/** Optional values and success-or-error results, standing for Go's nil pointers and
    `(value, error)` returns. */
module Outcomes {

  /** `None` plays the role of a nil pointer, a nil function or an absent value. */
  datatype Option<+T> = None | Some(value: T) {
    function GetOr(default: T): T {
      match this
      case Some(v) => v
      case None => default
    }
  }

  /** The `(value, error)` pair of a Go function: exactly one side is meaningful. */
  datatype Result<+T, +E> = Ok(value: T) | Err(error: E)
}
