/** Failure-compatible wrappers used across the model: `Option` for Python's
    `None`-or-value returns and `Result` for form validation that either yields a
    cleaned value or raises a `ValidationError`. */
module Wrappers {

  datatype Option<+T> = None | Some(value: T) {
    /** Python's `x or default` on a value whose only falsy form is `None`. */
    function GetOr(default: T): T {
      match this
      case Some(v) => v
      case None => default
    }
  }

  datatype Result<+R, +E> = Success(value: R) | Failure(error: E)
}
