/**
 * The Express error middleware: every error a route handler passes to
 * `next(error)` (or throws) becomes a JSON error response.
 */
module ErrorHandler {
  import opened Wrappers

  /** A thrown JavaScript error: optional `status`, `message`, optional `stack`. */
  datatype JsError = JsError(status: Option<int>, message: string, stack: Option<string>)

  datatype ErrorBody = ErrorBody(error: string, status: int, stack: Option<string>)

  /** The HTTP status code sent and the JSON body. */
  datatype ErrorResponse = ErrorResponse(httpStatus: int, body: ErrorBody)

  const DefaultStatus := 500
  const DefaultMessage := "Server error"

  /** `err.status || 500` */
  function StatusOf(err: JsError): (s: int)
    ensures s != 0
    ensures err.status.Some? && err.status.value != 0 ==> s == err.status.value
    ensures err.status.None? || err.status.value == 0 ==> s == DefaultStatus
  {
    if err.status.Some? && err.status.value != 0 then err.status.value else DefaultStatus
  }

  /** `err.message || 'Server error'` */
  function MessageOf(err: JsError): (m: string)
    ensures m != ""
    ensures err.message != "" ==> m == err.message
    ensures err.message == "" ==> m == DefaultMessage
  {
    if err.message != "" then err.message else DefaultMessage
  }

  /**
   * The response: the status line and the body's `status` agree, the body's
   * `error` is the message, and the stack is disclosed only in development.
   */
  function Handle(err: JsError, nodeEnv: string): (r: ErrorResponse)
    ensures r.httpStatus == r.body.status == StatusOf(err)
    ensures r.body.error == MessageOf(err)
    ensures r.body.stack.Some? ==> nodeEnv == "development"
    ensures nodeEnv == "development" ==> r.body.stack == err.stack
  {
    ErrorResponse(StatusOf(err), ErrorBody(MessageOf(err), StatusOf(err),
      if nodeEnv == "development" then err.stack else None))
  }

  /** An error the runtime raises without a `status` (a TypeError, a Mongoose error). */
  function Untyped(name: string, message: string): (e: JsError)
    ensures StatusOf(e) == DefaultStatus
  {
    JsError(None, message, Some(name + ": " + message))
  }
}

/** What a route handler ends with: a success value, an early-return guard response, or a thrown error. */
module Outcomes {
  import ErrorHandler

  datatype Outcome<T> =
    | Ok(value: T)
    | NotFound(message: string)         // 404 { error }
    | Forbidden                         // 403 { error: 'Not authorized' }
    | BadRequest(message: string)       // 400 { error }
    | Thrown(error: ErrorHandler.JsError) // next(error): the error middleware answers

  const NotAuthorized := "Not authorized"

  /** The HTTP status the client sees, where `okStatus` is the route's success status. */
  function StatusCode<T>(o: Outcome<T>, okStatus: int, nodeEnv: string): (s: int)
    ensures o.Thrown? ==> s == ErrorHandler.StatusOf(o.error)
    ensures o.Thrown? && o.error.status.None? ==> s == ErrorHandler.DefaultStatus
  {
    match o
    case Ok(_) => okStatus
    case NotFound(_) => 404
    case Forbidden => 403
    case BadRequest(_) => 400
    case Thrown(e) => ErrorHandler.Handle(e, nodeEnv).httpStatus
  }
}
