/** Requests, responses and the two kinds of error that reach the error handlers. */
module Http {
  import opened Wrappers
  import opened Json
  import opened Entity

  /** The parts of a request the schemas look at; `body` is `None` when there is none. */
  datatype Request = Request(query: Fields, params: Fields, body: Option<Fields>)

  /** A schema failure: its message and the list of per-field messages. */
  datatype ValidationError = ValidationError(message: string, errors: seq<string>)

  /** A validation failure, or anything else (a database failure, an internal exception). */
  datatype Error = Invalid(failure: ValidationError) | Unexpected(detail: string)

  /**
   * The JSON bodies the service sends, and the HTML page Express's own last handler sends
   * for an error that no registered error handler answered.
   */
  datatype Body =
    | Record(property: Property)
    | Records(properties: seq<Property>)
    | Message(message: string)
    | ValidationReport(message: string, validationErrors: seq<string>)
    | ErrorPage(text: string)

  datatype Response = Response(status: int, body: Body)

  /** What a route handler does: send a response itself, or pass an error to `next`. */
  datatype Outcome = Sent(response: Response) | Next(error: Error)
}
