/** Outcome types shared by every module: a possibly-absent value, a value or
    an error, and the error an HTTP handler raises. */
module Wrappers {

  datatype Option<+T> = None | Some(value: T)

  datatype Result<+T, +E> = Ok(value: T) | Err(error: E)

  /** FastAPI's `HTTPException(status_code, detail)`. */
  datatype HttpError = HttpError(status: int, detail: string)
}
