/** The contact controller (controllers/contactController.js). */
module ContactController {
  import opened Js
  import opened Http

  /** The arguments of `Contact.create`. */
  datatype ContactCall = Create(name: Value, email: Value, message: Value)

  /** The status submitMessage answers a failed insert with. */
  function StatusOf(e: DbError): int
  {
    match e
    case BadNull => 400
    case DupEntry => 409
    case OtherDbError => 500
  }

  /** submitMessage: validation errors answer 400 with the list and insert
      nothing; otherwise the message is inserted, and the driver's error code
      decides the answer: NOT NULL violation 400, duplicate 409, anything
      else 500, success 201. */
  function SubmitMessage(errors: seq<FieldError>, name: Value, email: Value, message: Value,
                         dbError: Option<DbError>): (o: Outcome<ContactCall>)
    ensures errors != [] ==> o == Outcome(None, Response(400, Some(false), errors, []))
    ensures errors == [] ==> o.call == Some(Create(name, email, message))
    ensures errors == [] && dbError.Some? ==> o.response == Reply(StatusOf(dbError.value), false)
    ensures o.response.status == 201 <==> errors == [] && dbError.None?
    ensures o.response.success == Some(true) <==> o.response.status == 201
  {
    if errors != [] then Outcome(None, Response(400, Some(false), errors, []))
    else if dbError.None? then Outcome(Some(Create(name, email, message)), Reply(201, true))
    else Outcome(Some(Create(name, email, message)), Reply(StatusOf(dbError.value), false))
  }

  /** After a valid request the status tells which of the driver's outcomes
      occurred. */
  lemma StatusIdentifiesOutcome(name: Value, email: Value, message: Value, a: Option<DbError>, b: Option<DbError>)
    requires SubmitMessage([], name, email, message, a).response.status
          == SubmitMessage([], name, email, message, b).response.status
    ensures a == b
  {
    if a.Some? && b.Some? {
      assert StatusOf(a.value) == StatusOf(b.value);
    }
  }
}
