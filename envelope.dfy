/** The JSON envelopes the handlers write, the HTTP status that goes with them, and the two
    default error handlers that render an uncaught exception. */
module Envelope {
  import opened Wrappers
  import opened Mysqli

  /** `{status, message, details?, row_id?, code?}`; an absent key is `None`. */
  datatype Envelope = Envelope(
    status: bool,
    message: string,
    details: Option<seq<Row>>,
    rowId: Option<int>,
    code: Option<int>)

  datatype Response = Response(httpStatus: int, body: Envelope)

  /** An exception that leaves a handler: its message and code. */
  datatype Exc = Exc(message: string, code: int)

  /** A handler either writes its response or lets an exception escape to the error handler. */
  datatype Outcome = Respond(response: Response) | Raise(exc: Exc)

  /** The status every response starts with: no handler lowers or raises it unless it says so. */
  const DefaultStatus: int := 200

  /** MySQL's error 1452: a foreign key constraint fails (no such `users.id`). */
  const ForeignKeyViolation: int := 1452

  function Plain(status: bool, message: string): Envelope
  {
    Envelope(status, message, None, None, None)
  }

  /** The answer to a body that did not decode to an array. */
  const InvalidJson: Response := Response(400, Plain(false, "Invalid JSON format"))

  /** The message of the TypeError PHP 7.4 raises when a `?array` function returns a scalar. */
  function ReturnTypeMessage(reader: string, phpType: string): string
  {
    "Return value of " + reader + " must be of the type array or null, " + phpType + " returned"
  }

  /** The message an update reports when its statement throws. */
  function UpdateFailureMessage(code: int): string
  {
    if code == ForeignKeyViolation then "Specified user_id do not exists!" else "Internal error was raised"
  }

  /** app.php's error handler: `{status:false, message, code}` with the exception's code as
      the HTTP status. */
  function AppErrorResponse(e: Exc): Response
  {
    Response(e.code, Envelope(false, e.message, None, None, Some(e.code)))
  }

  /** index.php's error handler: the same body, but the status is never set. */
  function IndexErrorResponse(e: Exc): Response
  {
    Response(DefaultStatus, Envelope(false, e.message, None, None, Some(e.code)))
  }

  /** What reaches the client from app.php. */
  function AppServe(o: Outcome): Response
  {
    match o
    case Respond(response) => response
    case Raise(e) => AppErrorResponse(e)
  }

  /** What reaches the client from index.php. */
  function IndexServe(o: Outcome): Response
  {
    match o
    case Respond(response) => response
    case Raise(e) => IndexErrorResponse(e)
  }

  /** The two files render an escaping exception with the same body; only app.php turns its code
      into the HTTP status. */
  lemma ErrorHandlersDifferOnlyInStatus(e: Exc)
    ensures AppServe(Raise(e)).body == IndexServe(Raise(e)).body
    ensures AppServe(Raise(e)).httpStatus == e.code && IndexServe(Raise(e)).httpStatus == 200
  {
  }
}
