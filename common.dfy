/** Values shared by every part of the backend model: optional values,
    handler outcomes and the HTTP errors the handlers raise. */
module Common {

  datatype Option<+T> = None | Some(value: T)

  /** The outcome of a handler: a value, or the error it raises. */
  datatype Result<+T, +E> = Ok(value: T) | Err(error: E)

  /** An `HTTPException`: its status code and its `detail` text. */
  datatype HttpError = HttpError(status: int, detail: string)

  const BadRequest: int := 400
  const Unauthorized: int := 401
  const NotFound: int := 404
  const InternalServerError: int := 500
  const BadGateway: int := 502

  /** What the web framework answers when a handler raises an exception
      that is not an `HTTPException`. */
  const UnhandledException: HttpError := HttpError(InternalServerError, "Internal Server Error")
}
