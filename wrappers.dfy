/** The two shapes every implementation uses: a value that may be absent
  * (Python None, Rust Option, Go nil pointer, Java null) and an outcome that
  * may be an error (an exception, a Rust Err, a Go error return). */
module Wrappers {
  datatype Option<+T> = None | Some(value: T)

  datatype Result<+T, +E> = Ok(value: T) | Err(error: E)
}
