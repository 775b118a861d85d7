/**
  Handler outcomes shared by every module of the model.

  The Go handlers answer through `respondWithError(w, code, message)` or a JSON
  success payload; the model replaces both by a `Result` whose failure carries
  the HTTP status and the message text the handler writes.
 */
module Common {

  datatype Option<+T> = None | Some(value: T)

  /** An error response: the HTTP status code and the message written. */
  datatype Failure = Failure(status: int, message: string)

  datatype Result<+T> = Ok(value: T) | Err(failure: Failure)

  const StatusBadRequest: int := 400
  const StatusUnauthorized: int := 401
  const StatusForbidden: int := 403
  const StatusNotFound: int := 404
  const StatusConflict: int := 409
  const StatusInternalServerError: int := 500
  const StatusServiceUnavailable: int := 503

  /** A byte, as Go's `byte`. */
  newtype byte = x: int | 0 <= x < 256
}
