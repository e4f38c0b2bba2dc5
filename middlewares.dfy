/**
 * The two error handlers, in the order the application registers them: validation
 * failures first, then the catch-all.
 */
module Middlewares {
  import opened Http

  const UNEXPECTED_MESSAGE := "Unexpected error occurred"

  /** What an error handler does: answer, or hand the error to the next handler. */
  datatype Handled = Responded(response: Response) | Forwarded(error: Error)

  /** A validation failure is answered 400 with its message and field errors; anything else goes on. */
  function RequestValidationMiddleware(err: Error): (h: Handled)
    ensures h.Responded? <==> err.Invalid?
    ensures err.Invalid? ==> && h.response.status == 400
                             && h.response.body == ValidationReport(err.failure.message, err.failure.errors)
    ensures h.Forwarded? ==> h.error == err
  {
    match err
    case Invalid(failure) => Responded(Response(400, ValidationReport(failure.message, failure.errors)))
    case Unexpected(_) => Forwarded(err)
  }

  /**
   * The terminal handler: always 500 with the same generic message, so nothing of the
   * error reaches the client. It returns a response, never another error.
   */
  function UnexpectedErrorMiddleware(err: Error): (r: Response)
    ensures r.status == 500
    ensures r.body == Message(UNEXPECTED_MESSAGE)
  {
    Response(500, Message(UNEXPECTED_MESSAGE))
  }

  /**
   * The intended chain, with the catch-all taking four parameters: the validation
   * handler, then the catch-all (`IntendedChainIsHandleError`).
   */
  function HandleError(err: Error): (r: Response)
    ensures r.status == 400 <==> err.Invalid?
    ensures r.status == 500 <==> err.Unexpected?
    ensures err.Invalid? ==> r.body == ValidationReport(err.failure.message, err.failure.errors)
    ensures err.Unexpected? ==> r.body == Message(UNEXPECTED_MESSAGE)
  {
    match RequestValidationMiddleware(err)
    case Responded(response) => response
    case Forwarded(e) => UnexpectedErrorMiddleware(e)
  }

  /**
   * The response the client gets for what a route handler did: its own response, or the
   * intended chain's answer (catch-all taking four parameters) to the error it passed to
   * `next`.
   */
  function Respond(o: Outcome): (r: Response)
    ensures o.Sent? ==> r == o.response
    ensures o.Next? ==> (r.status == 400 <==> o.error.Invalid?)
    ensures o.Next? && o.error.Unexpected? ==> r == Response(500, Message(UNEXPECTED_MESSAGE))
  {
    match o
    case Sent(response) => response
    case Next(err) => HandleError(err)
  }

  // How Express runs the error handlers registered after the routes. It calls a handler
  // with the error only when the handler's function declares four parameters; it skips
  // every other one. An error that no handler answers reaches Express's own last handler.

  datatype HandlerKind = ValidationHandler | CatchAllHandler

  /** A registered handler and the number of parameters its function declares. */
  datatype Registered = Registered(kind: HandlerKind, arity: nat)

  /** The chain as registered: the catch-all's function declares three parameters. */
  const REGISTERED_CHAIN := [Registered(ValidationHandler, 4), Registered(CatchAllHandler, 3)]

  /** The chain as intended: both handlers take the error. */
  const INTENDED_CHAIN := [Registered(ValidationHandler, 4), Registered(CatchAllHandler, 4)]

  /** The text of an error, as its stack trace shows it. */
  function ErrorText(err: Error): string {
    match err
    case Invalid(failure) => failure.message
    case Unexpected(detail) => detail
  }

  /**
   * Express's own last handler: 500 (no error here carries a status of its own) with an
   * HTML page, which shows the error's stack outside production and only the status text
   * in production. It never sends the JSON bodies of the service.
   */
  function FinalHandler(err: Error, production: bool): (r: Response)
    ensures r.status == 500
    ensures r.body.ErrorPage? && r.body != Message(UNEXPECTED_MESSAGE)
    ensures !production ==> r.body.text == ErrorText(err)
  {
    Response(500, ErrorPage(if production then "Internal Server Error" else ErrorText(err)))
  }

  function Invoke(kind: HandlerKind, err: Error): Handled {
    match kind
    case ValidationHandler => RequestValidationMiddleware(err)
    case CatchAllHandler => Responded(UnexpectedErrorMiddleware(err))
  }

  /** An error passed along `chain`, each handler in turn, skipping those that take no error. */
  function Dispatch(chain: seq<Registered>, err: Error, production: bool): (r: Response)
    ensures (forall i :: 0 <= i < |chain| ==> chain[i].arity != 4) ==> r == FinalHandler(err, production)
    ensures r.body.ErrorPage? ==> forall i :: 0 <= i < |chain| && chain[i].kind == CatchAllHandler ==> chain[i].arity != 4
    ensures err.Unexpected? && r.body.ErrorPage? ==> r == FinalHandler(err, production)
  {
    if |chain| == 0 then FinalHandler(err, production)
    else if chain[0].arity != 4 then Dispatch(chain[1..], err, production)
    else match Invoke(chain[0].kind, err)
      case Responded(response) => response
      case Forwarded(e) => Dispatch(chain[1..], e, production)
  }

  /**
   * As registered, an unexpected error never reaches the catch-all: Express's last handler
   * answers it, with its HTML page instead of the fixed JSON message, and outside
   * production that page shows the error's own text.
   */
  lemma CatchAllSkippedAsWritten(detail: string, production: bool)
    ensures var r := Dispatch(REGISTERED_CHAIN, Unexpected(detail), production);
            && r == FinalHandler(Unexpected(detail), production)
            && r != HandleError(Unexpected(detail))
            && (!production ==> r.body == ErrorPage(detail))
  {
    assert REGISTERED_CHAIN[1..] == [Registered(CatchAllHandler, 3)];
    assert REGISTERED_CHAIN[1..][1..] == [];
  }

  /** With the catch-all taking the error, the chain answers every error as `HandleError`. */
  lemma IntendedChainIsHandleError(err: Error, production: bool)
    ensures Dispatch(INTENDED_CHAIN, err, production) == HandleError(err)
  {
    assert INTENDED_CHAIN[1..] == [Registered(CatchAllHandler, 4)];
  }

  /** Validation errors are answered the same way by the chain as registered. */
  lemma ValidationAnsweredAsWritten(failure: ValidationError, production: bool)
    ensures Dispatch(REGISTERED_CHAIN, Invalid(failure), production) == HandleError(Invalid(failure))
  {
  }
}
