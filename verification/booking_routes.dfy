/** The booking endpoints that are mounted (routes/bookingRoutes.js): the
    create handler behind POST `/` and the update handler behind PUT `/:id`. */
module BookingRoutes {
  import opened Js
  import opened Dates
  import opened Http
  import BookingModel

  /** The body of a POST. A date field is Invalid when the validator took it
      for an ISO 8601 date but `new Date` cannot parse it. */
  datatype CreateBody = CreateBody(userId: Field<int>, carId: Field<int>, startDate: Field<Moment>,
                                   endDate: Field<Moment>, totalPrice: Field<int>)

  /** What the validator chain of POST `/` guarantees when it reports nothing:
      integer ids, both dates sent, and a positive price. */
  predicate CreateValidated(b: CreateBody)
  {
    && b.userId.Given? && b.carId.Given?
    && !b.startDate.Absent? && !b.endDate.Absent?
    && b.totalPrice.Given? && b.totalPrice.value > 0
  }

  /** The arguments of `Booking.create`. */
  datatype CreateCall = CreateCall(userId: int, carId: int, startDate: Option<Day>, endDate: Option<Day>,
                                   totalPrice: int, status: string)

  const Pending: string := "pending"

  /** POST `/`: validation errors answer 400 with the list; a start that is
      not before the end answers 400; otherwise the dates are cut to their
      day and the booking is created as pending: 201, or 500 on a store error. */
  function CreateBooking(errors: seq<FieldError>, b: CreateBody, dbFails: bool): (o: Outcome<CreateCall>)
    requires errors == [] ==> CreateValidated(b)
    ensures errors != [] ==> o == Outcome(None, Response(400, Some(false), errors, []))
    ensures o.call.Some? <==> errors == [] && !NotBefore(b.startDate, b.endDate)
    ensures errors == [] && o.call.None? ==> o.response == Reply(400, false)
    ensures o.call.Some? ==> o.call.value == CreateCall(b.userId.value, b.carId.value, ToDateOnly(b.startDate),
                                                        ToDateOnly(b.endDate), b.totalPrice.value, Pending)
    ensures o.call.Some? ==> o.response == (if dbFails then Reply(500, false) else Reply(201, true))
  {
    match HandleValidationErrors(errors)
    case Some(r) => Outcome(None, r)
    case None =>
      if NotBefore(b.startDate, b.endDate) then Outcome(None, Reply(400, false))
      else
        var call := CreateCall(b.userId.value, b.carId.value, ToDateOnly(b.startDate),
                               ToDateOnly(b.endDate), b.totalPrice.value, Pending);
        Outcome(Some(call), if dbFails then Reply(500, false) else Reply(201, true))
  }

  /** A created booking whose two dates parsed never ends before it starts;
      the order is only weak, because the check compares moments and the
      store keeps days. */
  lemma CreatedDatesWeaklyOrdered(errors: seq<FieldError>, b: CreateBody, dbFails: bool)
    requires errors == [] ==> CreateValidated(b)
    requires b.startDate.Given? && b.endDate.Given?
    ensures var o := CreateBooking(errors, b, dbFails);
      o.call.Some? ==> o.call.value.startDate.value <= o.call.value.endDate.value
  {
    var o := CreateBooking(errors, b, dbFails);
    if o.call.Some? {
      DayOrderIsWeak(b.startDate.value, b.endDate.value);
    }
  }

  /** Two moments of one day: 10:00 and 20:00 UTC on 2025-01-17. */
  const SameDayBody: CreateBody :=
    CreateBody(Given(1), Given(1), Given(Instant(20105, 36000000)), Given(Instant(20105, 72000000)), Given(100))

  /** As written, such a request is accepted and stores a booking that starts
      and ends on the same day. */
  lemma CreateStoresSameDayBooking()
    ensures var o := CreateBooking([], SameDayBody, false);
      && o.call.Some?
      && o.call.value.startDate == o.call.value.endDate == Some(20105)
      && o.response.status == 201
  {
  }

  /** POST `/` with the order checked on the days that are stored: the
      request is refused unless both dates parse and the start day is
      before the end day. */
  function CreateBookingDayChecked(errors: seq<FieldError>, b: CreateBody, dbFails: bool): (o: Outcome<CreateCall>)
    requires errors == [] ==> CreateValidated(b)
    ensures errors != [] ==> o == Outcome(None, Response(400, Some(false), errors, []))
    ensures errors == [] && o.call.None? ==> o.response == Reply(400, false)
    ensures o.call.Some? ==> o.response == (if dbFails then Reply(500, false) else Reply(201, true))
    ensures o.call.Some? ==> o.call.value.status == Pending && o.call.value.totalPrice > 0
  {
    match HandleValidationErrors(errors)
    case Some(r) => Outcome(None, r)
    case None =>
      var s := ToDateOnly(b.startDate);
      var e := ToDateOnly(b.endDate);
      if !(s.Some? && e.Some? && s.value < e.value) then Outcome(None, Reply(400, false))
      else
        var call := CreateCall(b.userId.value, b.carId.value, s, e, b.totalPrice.value, Pending);
        Outcome(Some(call), if dbFails then Reply(500, false) else Reply(201, true))
  }

  /** With the corrected check every stored booking has both days and ends
      on a later day than it starts, and every request the original handler
      refuses for its order is still refused. */
  lemma DayCheckedStoresStrictRanges(errors: seq<FieldError>, b: CreateBody, dbFails: bool)
    requires errors == [] ==> CreateValidated(b)
    ensures var o := CreateBookingDayChecked(errors, b, dbFails);
      o.call.Some? ==> o.call.value.startDate.Some? && o.call.value.endDate.Some?
                       && o.call.value.startDate.value < o.call.value.endDate.value
    ensures CreateBooking(errors, b, dbFails).call.None? ==> CreateBookingDayChecked(errors, b, dbFails).call.None?
  {
    if errors == [] && NotBefore(b.startDate, b.endDate) && EpochMs(b.endDate.value) < EpochMs(b.startDate.value) {
      DayOrderIsWeak(b.endDate.value, b.startDate.value);
    }
  }

  /** The body of a PUT; every field may be left out. */
  datatype UpdateBody = UpdateBody(startDate: Field<Moment>, endDate: Field<Moment>,
                                   totalPrice: Field<int>, status: Field<string>)

  /** The statuses the validator of PUT `/:id` admits. */
  predicate KnownStatus(s: string)
  {
    s == "pending" || s == "ongoing" || s == "completed" || s == "cancelled"
  }

  /** What the validator chain of PUT `/:id` guarantees when it reports
      nothing: an integer id, and each field either left out or valid. */
  predicate UpdateValidated(id: Field<int>, b: UpdateBody)
  {
    && id.Given?
    && !b.totalPrice.Invalid? && (b.totalPrice.Given? ==> b.totalPrice.value > 0)
    && !b.status.Invalid? && (b.status.Given? ==> KnownStatus(b.status.value))
  }

  /** The arguments of `Booking.updateById`. */
  datatype UpdateCall = UpdateCall(id: int, update: BookingModel.Update)

  /** PUT `/:id`: the order is checked only when both dates are sent; every
      date sent is cut to its day; all four columns are forwarded, the ones
      left out as NULL. */
  function UpdateBooking(errors: seq<FieldError>, id: Field<int>, b: UpdateBody, dbFails: bool): (o: Outcome<UpdateCall>)
    requires errors == [] ==> UpdateValidated(id, b)
    ensures errors != [] ==> o == Outcome(None, Response(400, Some(false), errors, []))
    ensures o.call.Some? <==> errors == [] && !(!b.startDate.Absent? && !b.endDate.Absent? && NotBefore(b.startDate, b.endDate))
    ensures errors == [] && o.call.None? ==> o.response == Reply(400, false)
    ensures o.call.Some? ==> o.call.value == UpdateCall(id.value, BookingModel.Update(
                               ToDateOnly(b.startDate), ToDateOnly(b.endDate), Present(b.totalPrice), Present(b.status)))
    ensures o.call.Some? ==> o.response == (if dbFails then Reply(500, false) else Reply(200, true))
  {
    match HandleValidationErrors(errors)
    case Some(r) => Outcome(None, r)
    case None =>
      if !b.startDate.Absent? && !b.endDate.Absent? && NotBefore(b.startDate, b.endDate) then
        Outcome(None, Reply(400, false))
      else
        var update := BookingModel.Update(ToDateOnly(b.startDate), ToDateOnly(b.endDate),
                                          Present(b.totalPrice), Present(b.status));
        Outcome(Some(UpdateCall(id.value, update)), if dbFails then Reply(500, false) else Reply(200, true))
  }

  /** A body with a single date is never refused for its order, and a body
      without dates clears both date columns. */
  lemma UpdateSingleDateIsOnlyNormalised(id: Field<int>, b: UpdateBody, dbFails: bool)
    requires UpdateValidated(id, b)
    requires b.startDate.Absent? || b.endDate.Absent?
    ensures UpdateBooking([], id, b, dbFails).call.Some?
    ensures b.startDate.Absent? ==> UpdateBooking([], id, b, dbFails).call.value.update.startDate.None?
    ensures b.endDate.Absent? ==> UpdateBooking([], id, b, dbFails).call.value.update.endDate.None?
  {
  }
}
