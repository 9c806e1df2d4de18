/** Small failure-compatible wrappers used across the model: Kotlin's nullable
    values become `Option`, and a lookup that either yields a value or an error
    message becomes `Result`. */
module Wrappers {

  /** A Kotlin `T?` value: `None` is `null`. */
  datatype Option<T> = None | Some(value: T) {

    /** Kotlin's elvis operator `x ?: default`. */
    function GetOr(default: T): T {
      match this
      case Some(v) => v
      case None => default
    }
  }

  /** Either a value or an error message. */
  datatype Result<T, E> = Ok(value: T) | Err(error: E)
}
