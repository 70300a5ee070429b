/** Rust's `Option`, and a `Result` for an operation that either yields a
    value or stops where the Rust code panics in `unwrap()`. */
module Wrappers {

  /** Rust's `Option<T>`. */
  datatype Option<+T> = None | Some(value: T) {

    /** The value, or `default` when absent (Rust's `unwrap_or`). */
    function GetOr(default: T): T {
      match this
      case Some(v) => v
      case None => default
    }
  }

  /** The outcome of an operation that either yields a value or aborts. */
  datatype Result<+R, +E> = Success(value: R) | Failure(error: E)
}
