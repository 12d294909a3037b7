/**
 * The booking detail page: a placeholder while loading or when no booking was
 * found, otherwise the status tag and the buttons the lifecycle allows.
 */
module BookingDetailView {
  import opened Wrappers
  import opened BookingStatus
  import opened BookingRowView

  /** The fields of a loaded booking the page reads. */
  datatype DetailBooking = DetailBooking(id: int, status: string)

  datatype Button =
    | CheckInButton(goTo: Route)
    | CheckOutButton(bookingId: int, disabled: bool)
    | DeleteButton(bookingId: int)
    | BackButton

  datatype DetailView =
    | Spinner
    | Empty
    | Page(bookingId: int, tag: Tag, buttons: seq<Button>, confirmDeleteDisabled: bool)

  /** The button group of a loaded booking, in display order. */
  function Buttons(bookingId: int, status: string, isCheckingOut: bool): (buttons: seq<Button>)
    ensures CheckInButton(CheckinPage(bookingId)) in buttons <==> status == Name(Unconfirmed)
    ensures CheckOutButton(bookingId, isCheckingOut) in buttons <==> status == Name(CheckedIn)
    ensures DeleteButton(bookingId) in buttons && BackButton in buttons
    ensures forall btn :: btn in buttons ==>
      btn in {CheckInButton(CheckinPage(bookingId)), CheckOutButton(bookingId, isCheckingOut),
              DeleteButton(bookingId), BackButton}
  {
    (if status == "unconfirmed" then [CheckInButton(CheckinPage(bookingId))] else [])
    + (if status == "checked-in" then [CheckOutButton(bookingId, isCheckingOut)] else [])
    + [DeleteButton(bookingId), BackButton]
  }

  /** The page for the loaded booking, if any. */
  function Detail(isLoading: bool, booking: Option<DetailBooking>, isCheckingOut: bool, isDeletingBooking: bool): (v: DetailView)
    ensures v.Spinner? <==> isLoading
    ensures v.Empty? <==> !isLoading && booking.None?
    ensures v.Page? ==> booking.Some? && v.bookingId == booking.value.id
    ensures v.Page? ==> v.tag == StatusTag(booking.value.status)
    ensures v.Page? ==> v.buttons == Buttons(v.bookingId, booking.value.status, isCheckingOut)
    ensures v.Page? ==> v.confirmDeleteDisabled == isDeletingBooking
  {
    if isLoading then Spinner
    else if booking.None? then Empty
    else
      var id, status := booking.value.id, booking.value.status;
      Page(id, StatusTag(status), Buttons(id, status, isCheckingOut), isDeletingBooking)
  }

  /**
   * Confirming a deletion on the detail page: the delete request, then, once
   * it settles, a step back. The step back is attached to the request's
   * settling, which happens on success and on failure alike, so the outcome
   * does not appear here.
   */
  function DetailDeleteEffects(bookingId: int): seq<Effect> {
    [RequestDelete(bookingId)] + [NavigateBack]
  }

  /**
   * Both ways of deleting send the same request first; the page then steps
   * back (whatever the outcome, by construction of `DetailDeleteEffects`),
   * while a row stays where it is.
   */
  lemma NavigatesBackWhateverTheOutcome(bookingId: int)
    ensures DetailDeleteEffects(bookingId)[0] == RowDeleteEffects(bookingId)[0] == RequestDelete(bookingId)
    ensures NavigateBack in DetailDeleteEffects(bookingId)
    ensures NavigateBack !in RowDeleteEffects(bookingId)
  {
  }

  /** The detail page and the table row offer check-in and check-out for the same statuses. */
  lemma DetailAgreesWithRow(booking: DetailBooking, isCheckingOut: bool, isDeletingBooking: bool)
    ensures var v := Detail(false, Some(booking), isCheckingOut, isDeletingBooking);
      var items := Menu(booking.id, booking.status, isCheckingOut);
      && v.Page?
      && (CheckInButton(CheckinPage(booking.id)) in v.buttons <==> CheckIn(CheckinPage(booking.id)) in items)
      && (CheckOutButton(booking.id, isCheckingOut) in v.buttons <==> CheckOut(booking.id, isCheckingOut) in items)
  {
  }
}
