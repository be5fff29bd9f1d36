/** The booking controller (controllers/bookingController.js). The booking
    routes define their own handlers, so nothing mounts this controller. */
module BookingController {
  import opened Js
  import opened Dates
  import opened Text
  import opened Http

  /** A date of the body: Absent stands for a value that is not sent or is
      empty (falsy), Invalid for a text `new Date` cannot parse. */
  datatype Body = Body(userId: Value, carId: Value, startDate: Field<Moment>, endDate: Field<Moment>,
                       totalPrice: Value, status: Value)

  /** The store calls the controller issues. Dates are forwarded as they came. */
  datatype Call =
    | Create(userId: Value, carId: Value, startDate: Field<Moment>, endDate: Field<Moment>, totalPrice: Value, status: string)
    | GetByUserId(user: string)
    | UpdateById(id: string, startDate: Field<Moment>, endDate: Field<Moment>, totalPrice: Value, newStatus: Value)
    | DeleteById(id: string)

  /** createBooking: 400 for validation errors or a start not before the end;
      otherwise the body is forwarded unchanged as a pending booking. */
  function CreateBooking(errors: seq<FieldError>, b: Body, dbFails: bool): (o: Outcome<Call>)
    ensures errors != [] ==> o == Outcome(None, Response(400, Some(false), errors, []))
    ensures o.call.Some? <==> errors == [] && !NotBefore(b.startDate, b.endDate)
    ensures errors == [] && o.call.None? ==> o.response == Reply(400, false)
    ensures o.call.Some? ==> o.call.value == Create(b.userId, b.carId, b.startDate, b.endDate, b.totalPrice, "pending")
    ensures o.call.Some? ==> o.response == (if dbFails then Reply(500, false) else Reply(201, true))
  {
    if errors != [] then Outcome(None, Response(400, Some(false), errors, []))
    else if NotBefore(b.startDate, b.endDate) then Outcome(None, Reply(400, false))
    else Outcome(Some(Create(b.userId, b.carId, b.startDate, b.endDate, b.totalPrice, "pending")),
                 if dbFails then Reply(500, false) else Reply(201, true))
  }

  /** getBookingsForUser: a missing or non-numeric id answers 400 before the
      store is asked; otherwise the user's bookings, or 500. */
  function GetBookingsForUser(userId: string, dbFails: bool, results: seq<Object>): (o: Outcome<Call>)
    ensures o.call.None? <==> NotAnId(userId)
    ensures o.call.None? ==> o.response == Reply(400, false)
    ensures o.call.Some? ==> o.call.value == GetByUserId(userId)
    ensures o.call.Some? ==> o.response == (if dbFails then Reply(500, false) else Response(200, Some(true), [], results))
  {
    if NotAnId(userId) then Outcome(None, Reply(400, false))
    else Outcome(Some(GetByUserId(userId)), if dbFails then Reply(500, false) else Response(200, Some(true), [], results))
  }

  /** updateBooking: the order is checked only when both dates are present. */
  function UpdateBooking(errors: seq<FieldError>, id: string, b: Body, dbFails: bool): (o: Outcome<Call>)
    ensures errors != [] ==> o == Outcome(None, Response(400, Some(false), errors, []))
    ensures o.call.Some? <==> errors == [] && !(!b.startDate.Absent? && !b.endDate.Absent? && NotBefore(b.startDate, b.endDate))
    ensures errors == [] && o.call.None? ==> o.response == Reply(400, false)
    ensures o.call.Some? ==> o.call.value == UpdateById(id, b.startDate, b.endDate, b.totalPrice, b.status)
    ensures o.call.Some? ==> o.response == (if dbFails then Reply(500, false) else Reply(200, true))
  {
    if errors != [] then Outcome(None, Response(400, Some(false), errors, []))
    else if !b.startDate.Absent? && !b.endDate.Absent? && NotBefore(b.startDate, b.endDate) then
      Outcome(None, Reply(400, false))
    else Outcome(Some(UpdateById(id, b.startDate, b.endDate, b.totalPrice, b.status)),
                 if dbFails then Reply(500, false) else Reply(200, true))
  }

  /** deleteBooking: a missing or non-numeric id answers 400 before the store
      is asked. */
  function DeleteBooking(id: string, dbFails: bool): (o: Outcome<Call>)
    ensures o.call.None? <==> NotAnId(id)
    ensures o.call.None? ==> o.response == Reply(400, false)
    ensures o.call.Some? ==> o.call.value == DeleteById(id)
    ensures o.call.Some? ==> o.response == (if dbFails then Reply(500, false) else Reply(200, true))
  {
    if NotAnId(id) then Outcome(None, Reply(400, false))
    else Outcome(Some(DeleteById(id)), if dbFails then Reply(500, false) else Reply(200, true))
  }

  /** Whatever passes the mounted routes' digit-only id check also passes
      this controller's id guard. */
  lemma DigitIdsPass(id: string, dbFails: bool)
    requires DigitString(id)
    ensures DeleteBooking(id, dbFails).call == Some(DeleteById(id))
  {
    DigitStringIsNumber(id);
  }
}
