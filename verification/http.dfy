/** The JSON envelope every handler answers with, and the shape common to
    all handlers: at most one store call, then a response. */
module Http {
  import opened Js

  /** One entry of the validation library's `errors.array()`. */
  datatype FieldError = FieldError(field: string, msg: string)

  /** A response: HTTP status, the `success` flag where the handler sends one,
      the validation errors where it sends them, and the listed records. */
  datatype Response = Response(status: int, success: Option<bool>, errors: seq<FieldError>, data: seq<Object>)

  /** A response with a `success` flag and no payload. */
  function Reply(status: int, ok: bool): Response
  {
    Response(status, Some(ok), [], [])
  }

  /** A response without a `success` flag (the user controller's style). */
  function Bare(status: int): Response
  {
    Response(status, None, [], [])
  }

  /** What one request did: the store call it issued, if any, and its response. */
  datatype Outcome<+Q> = Outcome(call: Option<Q>, response: Response)

  /** The error codes of the MySQL driver the controllers tell apart. */
  datatype DbError = BadNull | DupEntry | OtherDbError

  /** handleValidationErrors: a non-empty error list answers 400 with the whole
      list and stops the chain; an empty one passes on (`next()`). */
  function HandleValidationErrors(errors: seq<FieldError>): (r: Option<Response>)
    ensures r.None? <==> errors == []
    ensures r.Some? ==> r.value == Response(400, Some(false), errors, [])
  {
    if errors == [] then None else Some(Response(400, Some(false), errors, []))
  }
}
