/** Option and Result, the two failure-carrying shapes the rest of the model uses
    for Rust's `Option<T>` and `Result<T, E>`. */
module Outcomes {

  datatype Option<+T> = None | Some(value: T) {
    /** Rust's `unwrap_or`: the carried value, or `default` when there is none. */
    function GetOr(default: T): T {
      match this
      case Some(v) => v
      case None => default
    }
  }

  datatype Result<+T, +E> = Ok(value: T) | Err(error: E)
}
