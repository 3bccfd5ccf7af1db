/** Outcome types shared by the model: Go's `(T, error)` pairs become `Result<T>`,
    a bare `error` becomes `Status`. Errors are carried as their `Error()` text. */
module Wrappers {

  datatype Option<+T> = None | Some(value: T)

  /** A value or the text of the error that replaced it. */
  datatype Result<+T> = Ok(value: T) | Err(error: string)

  /** A Go `error` return: nil, or an error with its text. */
  datatype Status = Success | Failure(error: string)
}
