/** Values shared by every controller: optional values, results and the
    HTTP errors that NestJS turns into responses. */
module Common {

  datatype Option<+T> = None | Some(value: T)

  /** `Ok` is a normal return of a handler; `Err` is an `HttpException`
      that the framework turns into a response with that status and message. */
  datatype Result<+T, +E> = Ok(value: T) | Err(error: E)

  datatype HttpError = HttpError(status: int, message: string)

  const BadRequest: int := 400
  const Forbidden: int := 403
  const InternalServerError: int := 500

  function BadRequestError(message: string): HttpError
  {
    HttpError(BadRequest, message)
  }
}
