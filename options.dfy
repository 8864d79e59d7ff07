/** Optional values and fallible results, shared by the backend and the CLI models. */
module Options {

  /** Rust's `Option<T>`; Python's `None`-or-value. */
  datatype Option<T> = None | Some(value: T) {
    /** Rust `unwrap_or`, Python `dict.get(key, default)`. */
    function GetOr(default: T): T {
      match this
      case Some(v) => v
      case None => default
    }
  }

  /** Rust's `Result<T, E>` with the error carried as its display text. */
  datatype Result<T> = Ok(value: T) | Err(error: string)
}
