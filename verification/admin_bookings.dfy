/** The admin booking management page (pages/AdminBookingManagementPage.js):
    date formatting and the local list updates after the server calls. */
module AdminBookings {
  import opened Js
  import opened Seqs
  import opened Text
  import BookingModel
  import BookingRoutes
  import BookingModal

  /** A booking as the admin list holds it; the dates are the ISO strings the
      server sent, or null. */
  datatype AdminBooking = AdminBooking(id: int, status: string, startDate: Option<string>, endDate: Option<string>)

  const NotAvailable: string := "N/A"

  /** formatDate: "N/A" for a null or empty string, otherwise the part before
      the first 'T'. */
  function FormatDate(iso: Option<string>): (r: string)
    ensures iso.None? || iso == Some("") ==> r == NotAvailable
  {
    if iso.None? || iso.value == "" then NotAvailable else BeforeFirst(iso.value, 'T')
  }

  /** A non-empty date string is cut at its first 'T': the shown date is a
      prefix of it that contains no 'T' and is either the whole string or
      followed by the 'T'. */
  lemma FormatDateIsDatePart(iso: string)
    requires iso != ""
    ensures var r := FormatDate(Some(iso));
      && r <= iso
      && 'T' !in r
      && (|r| == |iso| || iso[|r|] == 'T')
  {
    BeforeFirstIsPrefix(iso, 'T');
  }

  /** `bookings.map(b => b.id === id ? { ...b, status } : b)`: the bookings
      with that id get the new status and keep their dates; every other entry
      stays as it was. */
  function WithStatus(bookings: seq<AdminBooking>, id: int, status: string): (r: seq<AdminBooking>)
    ensures |r| == |bookings|
    ensures forall i :: 0 <= i < |r| ==>
      if bookings[i].id == id
      then r[i].id == id && r[i].status == status && r[i].startDate == bookings[i].startDate
           && r[i].endDate == bookings[i].endDate
      else r[i] == bookings[i]
  {
    seq(|bookings|, i requires 0 <= i < |bookings| =>
      if bookings[i].id == id then bookings[i].(status := status) else bookings[i])
  }

  predicate OtherThan(id: int, b: AdminBooking)
  {
    b.id != id
  }

  /** `bookings.filter(b => b.id !== id)`. */
  function WithoutBooking(bookings: seq<AdminBooking>, id: int): seq<AdminBooking>
  {
    Filter(bookings, b => OtherThan(id, b))
  }

  /** Deleting removes exactly the bookings with that id; what is left keeps
      its order, since removing from a concatenation removes from each part. */
  lemma WithoutBookingRemovesOnlyId(bookings: seq<AdminBooking>, more: seq<AdminBooking>, id: int)
    ensures forall b :: b in WithoutBooking(bookings, id) <==> b in bookings && b.id != id
    ensures WithoutBooking(bookings + more, id) == WithoutBooking(bookings, id) + WithoutBooking(more, id)
  {
    FilterMembership(bookings, b => OtherThan(id, b));
    FilterAppend(bookings, more, b => OtherThan(id, b));
  }

  /** The body handleStatusChange sends with `PUT /bookings/:id`: the status
      alone, the dates and the price left out. */
  function StatusOnlyBody(newStatus: string): BookingRoutes.UpdateBody
  {
    BookingRoutes.UpdateBody(Absent, Absent, Absent, Given(newStatus))
  }

  /** As written: the PUT route forwards the fields left out as NULL, so
      marking a booking "ongoing" also clears its dates and price. The car
      page then lists it as ongoing on the single day 1970-01-01, and it
      blocks no range chosen after that day. */
  lemma StatusChangeClearsDates(row: BookingModel.BookingRow, id: int, dbFails: bool, start: int, end: int)
    requires start > 0
    ensures var call := BookingRoutes.UpdateBooking([], Given(id), StatusOnlyBody("ongoing"), dbFails).call;
      && call == Some(BookingRoutes.UpdateCall(id, BookingModel.Update(None, None, None, Some("ongoing"))))
      && var b := BookingModal.Listed(BookingModel.Applied(row, call.value.update));
         BookingModal.IsOngoingFor(row.carId, b) && !BookingModal.Blocked([b], start, end)
  {
    var call := BookingRoutes.UpdateBooking([], Given(id), StatusOnlyBody("ongoing"), dbFails).call;
    var b := BookingModal.Listed(BookingModel.Applied(row, call.value.update));
    BookingModal.NullDatesNeverBlock([b], start, end);
  }

  /** The status change as written, end to end: the PUT route's call carried
      out by Booking.updateById. Every column but user and car is rewritten. */
  method ChangeStatusAsWritten(table: BookingModel.BookingTable, id: int, newStatus: string)
    returns (listed: BookingModal.ListedBooking)
    requires table.Valid() && id in table.rows && BookingRoutes.KnownStatus(newStatus)
    modifies table
    ensures table.Valid() && table.rows.Keys == old(table.rows).Keys
    ensures forall k :: k in table.rows && k != id ==> table.rows[k] == old(table.rows)[k]
    ensures table.rows[id] == old(table.rows)[id].(startDate := None, endDate := None, totalPrice := None,
                                                   status := Some(newStatus))
    ensures listed == BookingModal.Listed(table.rows[id]) && listed.startDate == 0 && listed.endDate == 0
  {
    var o := BookingRoutes.UpdateBooking([], Given(id), StatusOnlyBody(newStatus), false);
    var affected := table.UpdateById(o.call.value.id, o.call.value.update);
    listed := BookingModal.Listed(table.rows[id]);
  }

  /** The status change corrected: Booking.updateStatus writes the status
      alone, so the booking keeps its dates and price. */
  method ChangeStatusKeepingDates(table: BookingModel.BookingTable, id: int, newStatus: string)
    returns (listed: BookingModal.ListedBooking)
    requires table.Valid() && id in table.rows
    modifies table
    ensures table.Valid() && table.rows.Keys == old(table.rows).Keys
    ensures forall k :: k in table.rows && k != id ==> table.rows[k] == old(table.rows)[k]
    ensures table.rows[id] == old(table.rows)[id].(status := Some(newStatus))
    ensures listed == BookingModal.Listed(table.rows[id])
    ensures listed.startDate == BookingModal.ListedDay(old(table.rows)[id].startDate)
    ensures listed.endDate == BookingModal.ListedDay(old(table.rows)[id].endDate)
  {
    var affected := table.UpdateStatus(id, newStatus);
    listed := BookingModal.Listed(table.rows[id]);
  }

  /** With the status written alone, a booking marked "ongoing" keeps its
      days, and the car page's check blocks exactly the ranges overlapping
      them. */
  lemma KeptDatesStillBlock(row: BookingModel.BookingRow, s: int, e: int, start: int, end: int)
    requires row.startDate == Some(s) && row.endDate == Some(e)
    ensures var b := BookingModal.Listed(row.(status := Some("ongoing")));
      && BookingModal.IsOngoingFor(row.carId, b)
      && (BookingModal.Blocked([b], start, end) <==> BookingModal.RangesOverlap(start, end, s, e))
  {
    var b := BookingModal.Listed(row.(status := Some("ongoing")));
    if BookingModal.RangesOverlap(start, end, s, e) {
      assert BookingModal.RangesOverlap(start, end, [b][0].startDate, [b][0].endDate);
    }
  }

  class BookingsPage {
    var bookings: seq<AdminBooking>

    constructor (fetched: seq<AdminBooking>)
      ensures bookings == fetched
    {
      bookings := fetched;
    }

    /** handleStatusChange: the list changes only once the server accepted
        the update. */
    method HandleStatusChange(id: int, newStatus: string, serverOk: bool)
      modifies this
      ensures serverOk ==> bookings == WithStatus(old(bookings), id, newStatus)
      ensures !serverOk ==> bookings == old(bookings)
    {
      if serverOk {
        bookings := WithStatus(bookings, id, newStatus);
      }
    }

    /** handleDeleteBooking: a declined confirmation sends nothing; the list
        changes only once the server accepted the delete. Returns whether the
        delete request was sent. */
    method HandleDeleteBooking(id: int, confirmed: bool, serverOk: bool) returns (sent: bool)
      modifies this
      ensures sent == confirmed
      ensures confirmed && serverOk ==> bookings == WithoutBooking(old(bookings), id)
      ensures !(confirmed && serverOk) ==> bookings == old(bookings)
    {
      if !confirmed {
        return false;
      }
      sent := true;
      if serverOk {
        bookings := WithoutBooking(bookings, id);
      }
    }
  }
}
