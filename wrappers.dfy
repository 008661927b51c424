/** Option, Result and the failures the application reports. */
module Wrappers {

  datatype Option<+T> = None | Some(value: T) {
    function GetOr(default: T): T {
      match this
      case Some(v) => v
      case None => default
    }
  }

  datatype Result<+R, +E> = Ok(value: R) | Err(error: E)

  /** A check that either passes or fails with an error. */
  datatype Outcome<+E> = Pass | Fail(error: E)

  /** What a request ends with when it does not succeed: a raised HTTPException
      (status code and detail message) or an uncaught Python exception. */
  datatype Failure = Http(status: int, detail: string) | Crash(exception: string)
}
