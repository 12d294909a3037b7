/**
 * One row of the bookings table: the status tag and the actions its menu
 * offers, which follow the booking lifecycle.
 */
module BookingRowView {
  import opened BookingStatus
  import SeedBookings

  /** Pages an action navigates to. */
  datatype Route = BookingPage(bookingId: int) | CheckinPage(bookingId: int)

  datatype MenuAction =
    | SeeDetail(goTo: Route)
    | CheckIn(goTo: Route)
    | CheckOut(bookingId: int, disabled: bool)
    | DeleteBooking(bookingId: int)

  /** What confirming a deletion sets off. */
  datatype Effect = RequestDelete(bookingId: int) | NavigateBack

  /** The row's menu, in display order. */
  function Menu(bookingId: int, status: string, isCheckingOut: bool): (items: seq<MenuAction>)
    ensures |items| >= 2
    ensures items[0] == SeeDetail(BookingPage(bookingId))
    ensures items[|items| - 1] == DeleteBooking(bookingId)
    ensures CheckIn(CheckinPage(bookingId)) in items <==> status == Name(Unconfirmed)
    ensures CheckOut(bookingId, isCheckingOut) in items <==> status == Name(CheckedIn)
    ensures forall a :: a in items ==>
      a in {SeeDetail(BookingPage(bookingId)), CheckIn(CheckinPage(bookingId)),
            CheckOut(bookingId, isCheckingOut), DeleteBooking(bookingId)}
  {
    [SeeDetail(BookingPage(bookingId))]
    + (if status == "unconfirmed" then [CheckIn(CheckinPage(bookingId))] else [])
    + (if status == "checked-in" then [CheckOut(bookingId, isCheckingOut)] else [])
    + [DeleteBooking(bookingId)]
  }

  /** Confirming a deletion from a row only asks the store to delete; the table stays in place. */
  function RowDeleteEffects(bookingId: int): seq<Effect> {
    [RequestDelete(bookingId)]
  }

  /** Over the three statuses: check-in only for an unconfirmed booking, check-out only for a checked-in one, delete always. */
  lemma MenuFollowsLifecycle(bookingId: int, s: Status, isCheckingOut: bool)
    ensures var items := Menu(bookingId, Name(s), isCheckingOut);
      && (CheckIn(CheckinPage(bookingId)) in items <==> s == Unconfirmed)
      && (CheckOut(bookingId, isCheckingOut) in items <==> s == CheckedIn)
      && DeleteBooking(bookingId) in items
      && |items| == if s == CheckedOut then 2 else 3
  {
    ParseName(s, Unconfirmed);
    ParseName(s, CheckedIn);
  }

  /**
   * A freshly seeded booking whose stay does not end before it starts can be
   * checked in from its row exactly when it has not started yet, and checked
   * out exactly when it started before today and has not ended.
   */
  lemma SeededRowActions(
    templates: seq<SeedBookings.BookingTemplate>, cabins: seq<SeedBookings.CabinTemplate>,
    guestIds: seq<int>, cabinIds: seq<int>, today: int, i: int, bookingId: int, isCheckingOut: bool)
    requires SeedBookings.AllRefsInRange(templates, cabins, guestIds, cabinIds)
    requires 0 <= i < |templates| && templates[i].startDate <= templates[i].endDate
    ensures var b := SeedBookings.MaterialiseAll(templates, cabins, guestIds, cabinIds, today)[i];
      var items := Menu(bookingId, Name(b.status), isCheckingOut);
      && (CheckIn(CheckinPage(bookingId)) in items <==> today <= b.startDate)
      && (CheckOut(bookingId, isCheckingOut) in items <==> b.startDate < today <= b.endDate)
  {
    var b := SeedBookings.MaterialiseAll(templates, cabins, guestIds, cabinIds, today)[i];
    SeedBookings.SeededBookingsConsistent(templates, cabins, guestIds, cabinIds, today, i);
    MenuFollowsLifecycle(bookingId, b.status, isCheckingOut);
  }
}
