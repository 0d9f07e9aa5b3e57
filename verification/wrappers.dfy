/** Option and Result, the two failure-carrying shapes the model uses for Python's
    `None` and for raised exceptions / error responses. */
module Wrappers {

  datatype Option<+T> = None | Some(value: T) {
    function GetOr(default: T): T {
      match this
      case Some(v) => v
      case None => default
    }
  }

  datatype Result<+T, +E> = Ok(value: T) | Err(error: E)

  /** An HTTP error response raised by a service (FastAPI's HTTPException). */
  datatype HttpError = HttpError(status: int, detail: string)
}
