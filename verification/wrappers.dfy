/** Failure-carrying values shared by every service: Go's `(T, error)` pairs and bare `error` returns. */
module Wrappers {

  datatype Option<+T> = None | Some(value: T)

  /** A value or the text of the error that replaced it. */
  datatype Result<+T> = Ok(value: T) | Err(msg: string)

  /** Go's bare `error` return: nil (Pass) or an error with its text. */
  datatype Outcome = Pass | Fail(msg: string)

  function OrElse<T>(o: Option<T>, default: T): T
  {
    match o
    case Some(v) => v
    case None => default
  }
}
