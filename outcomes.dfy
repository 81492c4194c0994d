/** Optional values and command results, standing for Rust's `Option<T>` and
    the `Result<T, String>` every Tauri command of the back end returns. */
module Outcomes {

  datatype Option<T> = None | Some(value: T)

  /** `Option::unwrap_or`: the carried value, or `otherwise` when there is none. */
  function UnwrapOr<T>(o: Option<T>, otherwise: T): T {
    match o
    case Some(v) => v
    case None => otherwise
  }

  /** The outcome of a command: a value, or the error text the command reports. */
  datatype Result<T> = Ok(value: T) | Err(error: string)
}
