/** The booking modal of the car listing page (pages/AvailableCarsPage.js):
    the only availability check of the application. Dates are calendar days;
    a date input that is still empty is None. */
module BookingModal {
  import opened Js
  import opened Seqs
  import BookingModel

  /** A booking as the page lists it. */
  datatype ListedBooking = ListedBooking(carId: int, status: string, startDate: int, endDate: int)

  /** `new Date(d)` of a DATE column as the page receives it: a NULL date is
      `new Date(null)`, the epoch, day 0. */
  function ListedDay(d: Option<int>): int
  {
    if d.Some? then d.value else 0
  }

  /** A row of the bookings list (`GET /bookings`) as the page reads it. A NULL
      status is not "ongoing". */
  function Listed(row: BookingModel.BookingRow): (b: ListedBooking)
    ensures b.carId == row.carId
    ensures b.status == "ongoing" <==> row.status == Some("ongoing")
    ensures row.startDate.None? ==> b.startDate == 0
    ensures row.endDate.None? ==> b.endDate == 0
  {
    ListedBooking(row.carId, if row.status.Some? then row.status.value else "",
                  ListedDay(row.startDate), ListedDay(row.endDate))
  }

  /** doRangesOverlap: both ranges are closed, so sharing a single day counts. */
  predicate RangesOverlap(startA: int, endA: int, startB: int, endB: int)
  {
    startA <= endB && startB <= endA
  }

  predicate InRange(d: int, start: int, end: int)
  {
    start <= d <= end
  }

  /** For ranges that are not reversed, overlapping means having a day in
      common; the test is symmetric, and a range that ends on the day another
      starts overlaps it. */
  lemma OverlapIsSharedDay(startA: int, endA: int, startB: int, endB: int)
    requires startA <= endA && startB <= endB
    ensures RangesOverlap(startA, endA, startB, endB) <==> exists d :: InRange(d, startA, endA) && InRange(d, startB, endB)
    ensures RangesOverlap(startA, endA, startB, endB) == RangesOverlap(startB, endB, startA, endA)
    ensures RangesOverlap(startA, endA, endA, endA + 1)
  {
    if RangesOverlap(startA, endA, startB, endB) {
      var d := if startA < startB then startB else startA;
      assert InRange(d, startA, endA) && InRange(d, startB, endB);
    }
  }

  /** Some booked range overlaps the chosen one: `bookedRanges.some(...)`. */
  predicate Blocked(ranges: seq<ListedBooking>, start: int, end: int)
  {
    exists i :: 0 <= i < |ranges| && RangesOverlap(start, end, ranges[i].startDate, ranges[i].endDate)
  }

  /** The `.some` scan, stopping at the first overlapping range. */
  method ScanOverlap(ranges: seq<ListedBooking>, start: int, end: int) returns (overlap: bool)
    ensures overlap <==> Blocked(ranges, start, end)
  {
    var i := 0;
    while i < |ranges|
      invariant 0 <= i <= |ranges|
      invariant forall k :: 0 <= k < i ==> !RangesOverlap(start, end, ranges[k].startDate, ranges[k].endDate)
    {
      if RangesOverlap(start, end, ranges[i].startDate, ranges[i].endDate) {
        return true;
      }
      i := i + 1;
    }
    return false;
  }

  /** Bookings whose dates are both NULL read as the single day 1970-01-01, so
      they block no range chosen after that day. */
  lemma NullDatesNeverBlock(ranges: seq<ListedBooking>, start: int, end: int)
    requires forall i :: 0 <= i < |ranges| ==> ranges[i].startDate == 0 && ranges[i].endDate == 0
    requires start > 0
    ensures !Blocked(ranges, start, end)
  {
  }

  predicate IsOngoingFor(carId: int, b: ListedBooking)
  {
    b.carId == carId && b.status == "ongoing"
  }

  /** getOngoingBookingsForCar: the car's own bookings whose status is
      "ongoing", in list order. */
  function OngoingFor(all: seq<ListedBooking>, carId: int): seq<ListedBooking>
  {
    Filter(all, b => IsOngoingFor(carId, b))
  }

  /** Only the car's ongoing bookings block a range: a pending, completed or
      cancelled booking, or one of another car, never does. */
  lemma OnlyOngoingBlocks(all: seq<ListedBooking>, carId: int, start: int, end: int)
    ensures Blocked(OngoingFor(all, carId), start, end) <==>
            exists b :: b in all && IsOngoingFor(carId, b) && RangesOverlap(start, end, b.startDate, b.endDate)
  {
    var ongoing := OngoingFor(all, carId);
    FilterMembership(all, b => IsOngoingFor(carId, b));
    if Blocked(ongoing, start, end) {
      var i :| 0 <= i < |ongoing| && RangesOverlap(start, end, ongoing[i].startDate, ongoing[i].endDate);
      assert ongoing[i] in ongoing;
    }
    if exists b :: b in all && IsOngoingFor(carId, b) && RangesOverlap(start, end, b.startDate, b.endDate) {
      var b :| b in all && IsOngoingFor(carId, b) && RangesOverlap(start, end, b.startDate, b.endDate);
      assert b in ongoing;
      var i :| 0 <= i < |ongoing| && ongoing[i] == b;
      assert RangesOverlap(start, end, ongoing[i].startDate, ongoing[i].endDate);
    }
  }

  const OrderError: string := "Start date must be before end date."
  const UnavailableError: string := "This period is unavailable. Please choose another."
  const RequestFailed: string := "Failed to create booking."
  const RequestThrew: string := "Failed to create booking. Please try again."

  /** What the modal shows for a choice of dates: the total price and the
      error message, if any. */
  datatype Quote = Quote(price: int, error: Option<string>)

  /** The effect that recomputes price and error. With a date missing both are
      cleared; a start not before the end, or an overlap with a booked range,
      gives price 0 and an error; otherwise the price is the number of days
      times the daily price and there is no error. */
  function QuoteFor(startDate: Option<int>, endDate: Option<int>, ranges: seq<ListedBooking>, pricePerDay: int): (q: Quote)
    ensures q.error.Some? ==> q.price == 0
    ensures q.error == Some(OrderError) <==> startDate.Some? && endDate.Some? && startDate.value >= endDate.value
    ensures q.error == Some(UnavailableError) <==> startDate.Some? && endDate.Some? && startDate.value < endDate.value
                                                   && Blocked(ranges, startDate.value, endDate.value)
    ensures q.error.None? && startDate.Some? && endDate.Some? ==>
              endDate.value - startDate.value > 0 && q.price == (endDate.value - startDate.value) * pricePerDay
    ensures startDate.None? || endDate.None? ==> q == Quote(0, None)
    ensures (startDate.Some? && endDate.Some? && startDate.value < endDate.value
             && !Blocked(ranges, startDate.value, endDate.value)) ==> q.error.None?
  {
    if startDate.None? || endDate.None? then Quote(0, None)
    else
      var s, e := startDate.value, endDate.value;
      if s >= e then Quote(0, Some(OrderError))
      else if Blocked(ranges, s, e) then Quote(0, Some(UnavailableError))
      else
        var days := e - s;
        Quote(if days > 0 then days * pricePerDay else 0, None)
  }

  /** A quote allows a booking exactly when both dates are chosen, in order,
      free of every booked range, and the car has a positive daily price. */
  lemma QuoteAllowsBooking(startDate: Option<int>, endDate: Option<int>, ranges: seq<ListedBooking>, pricePerDay: int)
    ensures var q := QuoteFor(startDate, endDate, ranges, pricePerDay);
      q.error.None? && q.price > 0 <==>
        startDate.Some? && endDate.Some? && startDate.value < endDate.value
        && !Blocked(ranges, startDate.value, endDate.value) && pricePerDay > 0
  {
    if startDate.Some? && endDate.Some? && startDate.value < endDate.value && !Blocked(ranges, startDate.value, endDate.value) {
      PositiveTotal(endDate.value - startDate.value, pricePerDay);
    }
  }

  /** A positive number of days costs a positive total exactly when the daily
      price is positive. */
  lemma PositiveTotal(days: int, pricePerDay: int)
    requires days > 0
    ensures days * pricePerDay > 0 <==> pricePerDay > 0
  {
    if pricePerDay > 0 {
      assert days * pricePerDay >= pricePerDay;
    } else {
      assert days * pricePerDay <= 0;
    }
  }

  /** The body `handleBooking` posts. */
  datatype CreatePayload = CreatePayload(userId: int, carId: int, startDate: int, endDate: int, totalPrice: int)

  /** What the booking request came back with: it threw, or it answered with
      a success flag and a message (empty when there is none). */
  datatype ApiReply = Threw | Replied(success: bool, message: string)

  class Modal {
    const carId: int
    const pricePerDay: int
    const bookedRanges: seq<ListedBooking>
    var startDate: Option<int>
    var endDate: Option<int>
    var totalPrice: int
    var error: Option<string>
    var closed: bool

    /** A positive price was computed for the dates shown, so they are in
        order and free. The error may since have been replaced by the server's
        message. */
    ghost predicate Valid()
      reads this
    {
      totalPrice > 0 ==> startDate.Some? && endDate.Some? && startDate.value < endDate.value
                         && !Blocked(bookedRanges, startDate.value, endDate.value)
    }

    /** The modal opens with both dates empty, price 0 and no error. */
    constructor (carId: int, pricePerDay: int, bookedRanges: seq<ListedBooking>)
      ensures Valid()
      ensures this.carId == carId && this.pricePerDay == pricePerDay && this.bookedRanges == bookedRanges
      ensures startDate == None && endDate == None && totalPrice == 0 && error == None && !closed
    {
      this.carId := carId;
      this.pricePerDay := pricePerDay;
      this.bookedRanges := bookedRanges;
      startDate, endDate := None, None;
      totalPrice, error := 0, None;
      closed := false;
    }

    /** A date input changes, and the effect recomputes price and error. */
    method ChooseDates(s: Option<int>, e: Option<int>)
      requires Valid()
      modifies this
      ensures Valid()
      ensures startDate == s && endDate == e && closed == old(closed)
      ensures Quote(totalPrice, error) == QuoteFor(s, e, bookedRanges, pricePerDay)
    {
      startDate, endDate := s, e;
      if s.None? || e.None? {
        totalPrice, error := 0, None;
        return;
      }
      if s.value >= e.value {
        totalPrice, error := 0, Some(OrderError);
        return;
      }
      var overlap := ScanOverlap(bookedRanges, s.value, e.value);
      if overlap {
        totalPrice, error := 0, Some(UnavailableError);
        return;
      }
      var days := e.value - s.value;
      totalPrice := if days > 0 then days * pricePerDay else 0;
      error := None;
    }

    /** handleBooking: nothing is posted while an error shows, while the price
        is not positive, or without a stored user; otherwise the chosen dates
        and price are posted. */
    method HandleBooking(storedUser: Option<int>) returns (payload: Option<CreatePayload>)
      requires Valid()
      ensures payload.Some? <==> error.None? && totalPrice > 0 && storedUser.Some?
      ensures payload.Some? ==> payload.value == CreatePayload(storedUser.value, carId, startDate.value, endDate.value, totalPrice)
      ensures payload.Some? ==> payload.value.startDate < payload.value.endDate
                                && !Blocked(bookedRanges, payload.value.startDate, payload.value.endDate)
    {
      if error.Some? {
        return None;
      }
      if totalPrice <= 0 {
        return None;
      }
      if storedUser.None? {
        return None;
      }
      payload := Some(CreatePayload(storedUser.value, carId, startDate.value, endDate.value, totalPrice));
    }

    /** The answer to the posted booking. A reply whose `success` is true
        closes the modal; a reply whose `success` is false shows its message, or
        a default when it has none; a thrown request shows the fixed text
        `RequestThrew`. The API client turns every non-2xx reply, and with it
        each 400 and 500 of the backend, into a thrown request, so only a 2xx
        body can reach the refusal branch. */
    method ReceiveReply(reply: ApiReply)
      requires Valid()
      modifies this`error, this`closed
      ensures Valid()
      ensures reply.Replied? && reply.success ==> closed && error == old(error)
      ensures reply.Replied? && !reply.success ==>
                !closed && error == Some(if reply.message != "" then reply.message else RequestFailed)
      ensures reply.Threw? ==> !closed && error == Some(RequestThrew)
    {
      match reply
      case Threw =>
        error := Some(RequestThrew);
        closed := false;
      case Replied(success, message) =>
        if success {
          closed := true;
        } else {
          error := Some(if message != "" then message else RequestFailed);
          closed := false;
        }
    }
  }
}
