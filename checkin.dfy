/**
 * The check-in page: two flags the staff set (payment confirmed, breakfast
 * added), the guard on the check-in action, and the request it sends.
 */
module Checkin {
  import opened Wrappers
  import SeedBookings

  datatype Settings = Settings(breakfastPrice: int)

  /** The fields of a stored booking that the check-in page reads; `isPaid` may be absent. */
  datatype StayBooking = StayBooking(
    id: int,
    totalPrice: int,
    numGuests: int,
    hasBreakfast: bool,
    numNights: int,
    isPaid: Option<bool>)

  /** The breakfast part of a check-in request: empty, or the three fields to set. */
  datatype Breakfast = Unchanged | Added(hasBreakfast: bool, extrasPrice: int, totalPrice: int)

  datatype CheckinRequest = CheckinRequest(bookingId: int, breakfast: Breakfast)

  /** What breakfast for the whole stay would cost at the configured price. */
  function OptionalBreakfastPrice(b: StayBooking, settings: Settings): int {
    b.numNights * settings.breakfastPrice * b.numGuests
  }

  /** The request the check-in action sends for `b`. */
  function RequestFor(b: StayBooking, settings: Settings, addBreakfast: bool): CheckinRequest {
    if addBreakfast then
      var extra := OptionalBreakfastPrice(b, settings);
      CheckinRequest(b.id, Added(true, extra, b.totalPrice + extra))
    else
      CheckinRequest(b.id, Unchanged)
  }

  /** The amount the payment confirmation asks the staff to confirm. */
  function AmountToConfirm(b: StayBooking, settings: Settings, addBreakfast: bool): int {
    if !addBreakfast then b.totalPrice else b.totalPrice + OptionalBreakfastPrice(b, settings)
  }

  /** The booking's total once a request's breakfast fields are written over it. */
  function TotalAfter(b: StayBooking, r: CheckinRequest): int {
    match r.breakfast
    case Unchanged => b.totalPrice
    case Added(_, _, total) => total
  }

  /**
   * The request is for the booking shown; it carries breakfast fields exactly
   * when breakfast was added, and then sets the breakfast flag and the extras
   * price; either way the booking's new total is the amount that was confirmed
   * as paid.
   */
  lemma RequestChargesConfirmedAmount(b: StayBooking, settings: Settings, addBreakfast: bool)
    ensures var r := RequestFor(b, settings, addBreakfast);
      && r.bookingId == b.id
      && (r.breakfast.Added? <==> addBreakfast)
      && (addBreakfast ==> r.breakfast.hasBreakfast && r.breakfast.extrasPrice == OptionalBreakfastPrice(b, settings))
      && TotalAfter(b, r) == AmountToConfirm(b, settings, addBreakfast)
  {
  }

  /** The booking as the check-in page sees a seeded booking stored under `id`. */
  function StayOf(id: int, s: SeedBookings.Booking): StayBooking {
    StayBooking(id, s.totalPrice, s.numGuests, s.hasBreakfast, s.numNights, Some(s.isPaid))
  }

  /**
   * Adding breakfast at check-in, at the seeder's breakfast price, prices a
   * seeded booking exactly as if it had been seeded with breakfast.
   */
  lemma BreakfastAtCheckinMatchesSeeding(
    t: SeedBookings.BookingTemplate, cabins: seq<SeedBookings.CabinTemplate>,
    guestIds: seq<int>, cabinIds: seq<int>, today: int, id: int)
    requires SeedBookings.RefsInRange(t, cabins, guestIds, cabinIds) && !t.hasBreakfast
    ensures var seeded := SeedBookings.Materialise(t, cabins, guestIds, cabinIds, today);
      var withBreakfast := SeedBookings.Materialise(t.(hasBreakfast := true), cabins, guestIds, cabinIds, today);
      var r := RequestFor(StayOf(id, seeded), Settings(SeedBookings.BreakfastRate), true);
      && r.breakfast.extrasPrice == withBreakfast.extrasPrice
      && TotalAfter(StayOf(id, seeded), r) == withBreakfast.totalPrice
  {
  }

  /** The payment checkbox is disabled while a check-in is in flight or once payment is confirmed. */
  predicate ConfirmPaidDisabled(isCheckingIn: bool, confirmPaid: bool) {
    isCheckingIn || confirmPaid
  }

  /** The check-in button is disabled while a check-in is in flight or until payment is confirmed. */
  predicate CheckinDisabled(isCheckingIn: bool, confirmPaid: bool) {
    isCheckingIn || !confirmPaid
  }

  /**
   * At most one of the two controls is enabled at a time, and while no
   * check-in is in flight exactly one is: the payment box until payment is
   * confirmed, the check-in button after.
   */
  lemma ControlsTakeTurns(isCheckingIn: bool, confirmPaid: bool)
    ensures ConfirmPaidDisabled(isCheckingIn, confirmPaid) || CheckinDisabled(isCheckingIn, confirmPaid)
    ensures !isCheckingIn ==> (ConfirmPaidDisabled(isCheckingIn, confirmPaid) <==> !CheckinDisabled(isCheckingIn, confirmPaid))
    ensures !isCheckingIn ==> (CheckinDisabled(isCheckingIn, confirmPaid) <==> !confirmPaid)
  {
  }

  /** The add-breakfast offer is shown only for a booking without breakfast. */
  predicate BreakfastOffered(b: StayBooking) {
    !b.hasBreakfast
  }

  /**
   * The page's two flags. The ghost fields belong to the model only: `sent`
   * logs the check-in requests issued, and `confirmedWith` records the
   * breakfast choice on screen when staff ticked the payment box (None when
   * the booking was already marked paid).
   */
  class CheckinForm {
    var confirmPaid: bool
    var addBreakfast: bool
    ghost var sent: seq<CheckinRequest>
    ghost var confirmedWith: Option<bool>

    /** A payment ticked by staff was ticked for the breakfast choice now on screen. */
    ghost predicate Valid()
      reads this
    {
      confirmPaid && confirmedWith.Some? ==> confirmedWith.value == addBreakfast
    }

    constructor()
      ensures Valid()
      ensures !confirmPaid && !addBreakfast && sent == []
    {
      confirmPaid := false;
      addBreakfast := false;
      sent := [];
      confirmedWith := None;
    }

    /** Runs when the loaded booking changes: payment counts as confirmed when the booking is marked paid. */
    method BookingChanged(booking: Option<StayBooking>)
      requires Valid()
      modifies this`confirmPaid, this`confirmedWith
      ensures Valid()
      ensures confirmPaid == (booking.Some? && booking.value.isPaid == Some(true))
    {
      confirmPaid := if booking.Some? then booking.value.isPaid.GetOr(false) else false;
      confirmedWith := None;
    }

    /** The add-breakfast checkbox changed: the choice flips and any payment confirmation is withdrawn. */
    method ToggleBreakfast(b: StayBooking)
      requires Valid() && BreakfastOffered(b)
      modifies this`confirmPaid, this`addBreakfast
      ensures Valid()
      ensures addBreakfast == !old(addBreakfast)
      ensures !confirmPaid
    {
      addBreakfast := !addBreakfast;
      confirmPaid := false;
    }

    /** A click on the payment checkbox: it has an effect only while enabled, and then can only confirm. */
    method ClickConfirmPaid(isCheckingIn: bool)
      requires Valid()
      modifies this`confirmPaid, this`confirmedWith
      ensures Valid()
      ensures confirmPaid == (old(confirmPaid) || !isCheckingIn)
      ensures old(confirmPaid) ==> confirmPaid
      ensures addBreakfast == old(addBreakfast)
    {
      if !ConfirmPaidDisabled(isCheckingIn, confirmPaid) {
        confirmPaid := !confirmPaid;
        confirmedWith := Some(addBreakfast);
      }
    }

    /** The check-in handler: nothing happens until payment is confirmed. */
    method HandleCheckin(b: StayBooking, settings: Settings)
      modifies this`sent
      ensures sent == old(sent) + if confirmPaid then [RequestFor(b, settings, addBreakfast)] else []
    {
      if !confirmPaid {
        return;
      }
      sent := sent + [RequestFor(b, settings, addBreakfast)];
    }

    /**
     * A click on the check-in button: it sends a request only while enabled,
     * and a request sent after staff ticked the payment box charges the amount
     * the page now shows for the breakfast choice they confirmed (the same
     * amount they saw when ticking, as long as the booking and the settings
     * have not changed in between).
     */
    method ClickCheckin(b: StayBooking, settings: Settings, isCheckingIn: bool)
      requires Valid()
      modifies this`sent
      ensures Valid()
      ensures sent == old(sent) + if !CheckinDisabled(isCheckingIn, confirmPaid) then [RequestFor(b, settings, addBreakfast)] else []
      ensures |sent| > |old(sent)| ==> confirmPaid && !isCheckingIn
      ensures |sent| > |old(sent)| && confirmedWith.Some? ==>
                TotalAfter(b, sent[|sent| - 1]) == AmountToConfirm(b, settings, confirmedWith.value)
    {
      if !CheckinDisabled(isCheckingIn, confirmPaid) {
        HandleCheckin(b, settings);
        RequestChargesConfirmedAmount(b, settings, addBreakfast);
      }
    }
  }
}
