/** The failure vocabulary of the HTTP handlers: every `HTTPException` the
    routers raise becomes an `Error` whose variant fixes the status code and
    whose detail string is the one the handler sends. */
module Http {

  datatype Option<+T> = None | Some(value: T) {
    function GetOr(default: T): T {
      match this
      case Some(v) => v
      case None => default
    }
  }

  datatype Error =
    | BadRequest(detail: string)     // 400
    | Forbidden(detail: string)      // 403
    | NotFound(detail: string)       // 404
    | Conflict(detail: string)       // 409
    | Unprocessable(detail: string)  // 422, raised by request validation
    | Internal(detail: string)       // 500, an exception the handler does not catch
  {
    function Status(): int {
      match this
      case BadRequest(_) => 400
      case Forbidden(_) => 403
      case NotFound(_) => 404
      case Conflict(_) => 409
      case Unprocessable(_) => 422
      case Internal(_) => 500
    }
  }

  datatype Result<+T> = Ok(value: T) | Err(error: Error)
}
