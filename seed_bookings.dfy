/**
 * The booking derivation of the sample-data seeder (`createBookings`): each
 * booking template is priced against its cabin template, given a status from
 * its dates and "today", and has its guest and cabin template positions
 * replaced by the identifiers the store assigned.
 *
 * Dates are whole day numbers; "today" is a parameter.
 */
module SeedBookings {
  import opened Wrappers
  import opened BookingStatus

  /** Fixed breakfast price per guest per night used when seeding. */
  const BreakfastRate: int := 15

  /** The pricing fields of a cabin template. */
  datatype CabinTemplate = CabinTemplate(name: string, maxCapacity: int, regularPrice: int, discount: int)

  /**
   * A booking template: `cabinId` and `guestId` are 1-based positions in the
   * cabin and guest template lists, not store identifiers.
   */
  datatype BookingTemplate = BookingTemplate(
    createdAt: int,
    startDate: int,
    endDate: int,
    cabinId: int,
    guestId: int,
    hasBreakfast: bool,
    observations: string,
    isPaid: bool,
    numGuests: int)

  /** A booking as inserted: the template's fields, store identifiers, and the derived fields. */
  datatype Booking = Booking(
    createdAt: int,
    startDate: int,
    endDate: int,
    cabinId: int,
    guestId: int,
    hasBreakfast: bool,
    observations: string,
    isPaid: bool,
    numGuests: int,
    numNights: int,
    cabinPrice: int,
    extrasPrice: int,
    totalPrice: int,
    status: Status)

  // ---------------------------------------------------------------------------
  // Status

  /**
   * The status table: each status has a rule on the dates. The rules are tried
   * in the order CheckedOut, Unconfirmed, CheckedIn, and a rule that fires
   * overrides any earlier one.
   */
  predicate Fires(s: Status, startDate: int, endDate: int, today: int) {
    match s
    case CheckedOut => endDate < today
    case Unconfirmed => today <= startDate
    case CheckedIn => today <= endDate && startDate < today
  }

  /** Position of a status's rule in the table. */
  function Rank(s: Status): nat {
    match s
    case CheckedOut => 0
    case Unconfirmed => 1
    case CheckedIn => 2
  }

  /** The status a booking gets: the last rule of the table that fires. */
  function DeriveStatus(startDate: int, endDate: int, today: int): (s: Status)
    ensures Fires(s, startDate, endDate, today)
    ensures forall t: Status :: Rank(s) < Rank(t) ==> !Fires(t, startDate, endDate, today)
  {
    if today <= endDate && startDate < today then CheckedIn
    else if today <= startDate then Unconfirmed
    else CheckedOut
  }

  /**
   * The status assignment as the seeder writes it: an unset variable that each
   * firing rule overwrites in turn. It is never left unset.
   */
  method AssignStatus(startDate: int, endDate: int, today: int) returns (status: Option<Status>)
    ensures status == Some(DeriveStatus(startDate, endDate, today))
  {
    status := None;
    if endDate < today {
      status := Some(CheckedOut);
    }
    if today <= startDate {
      status := Some(Unconfirmed);
    }
    if today <= endDate && startDate < today {
      status := Some(CheckedIn);
    }
  }

  /** Some rule always fires, whatever the dates; two fire only for a stay that ends before it starts. */
  lemma SomeRuleFires(startDate: int, endDate: int, today: int)
    ensures exists s: Status :: Fires(s, startDate, endDate, today)
    ensures forall s: Status, t: Status :: s != t && Fires(s, startDate, endDate, today) && Fires(t, startDate, endDate, today)
              ==> endDate < today <= startDate
  {
    assert Fires(DeriveStatus(startDate, endDate, today), startDate, endDate, today);
  }

  /** For a stay that does not end before it starts, the status is read off the dates alone. */
  lemma StatusTable(startDate: int, endDate: int, today: int)
    requires startDate <= endDate
    ensures DeriveStatus(startDate, endDate, today) == CheckedOut <==> endDate < today
    ensures DeriveStatus(startDate, endDate, today) == Unconfirmed <==> today <= startDate
    ensures DeriveStatus(startDate, endDate, today) == CheckedIn <==> startDate < today <= endDate
  {
  }

  // ---------------------------------------------------------------------------
  // Pricing and identifier substitution

  /** The price per night of a cabin. */
  function NightlyRate(cabin: CabinTemplate): int {
    cabin.regularPrice - cabin.discount
  }

  /** The template positions of `t` fall inside the cabin list and the two identifier lists. */
  predicate RefsInRange(t: BookingTemplate, cabins: seq<CabinTemplate>, guestIds: seq<int>, cabinIds: seq<int>) {
    1 <= t.cabinId <= |cabins| && t.cabinId <= |cabinIds| && 1 <= t.guestId <= |guestIds|
  }

  /** `b` keeps every field of `t` other than the two references. */
  predicate KeepsTemplateFields(b: Booking, t: BookingTemplate) {
    && b.createdAt == t.createdAt
    && b.startDate == t.startDate
    && b.endDate == t.endDate
    && b.hasBreakfast == t.hasBreakfast
    && b.observations == t.observations
    && b.isPaid == t.isPaid
    && b.numGuests == t.numGuests
  }

  /** One booking as the seeder inserts it. */
  function Materialise(t: BookingTemplate, cabins: seq<CabinTemplate>, guestIds: seq<int>, cabinIds: seq<int>, today: int): (b: Booking)
    requires RefsInRange(t, cabins, guestIds, cabinIds)
  {
    var cabin := cabins[t.cabinId - 1];
    var numNights := t.endDate - t.startDate;
    var cabinPrice := numNights * (cabin.regularPrice - cabin.discount);
    var extrasPrice := if t.hasBreakfast then numNights * 15 * t.numGuests else 0;
    Booking(
      t.createdAt, t.startDate, t.endDate,
      cabinIds[t.cabinId - 1], guestIds[t.guestId - 1],
      t.hasBreakfast, t.observations, t.isPaid, t.numGuests,
      numNights, cabinPrice, extrasPrice, cabinPrice + extrasPrice,
      DeriveStatus(t.startDate, t.endDate, today))
  }

  /** Every template in `templates` has its references in range. */
  predicate AllRefsInRange(templates: seq<BookingTemplate>, cabins: seq<CabinTemplate>, guestIds: seq<int>, cabinIds: seq<int>) {
    forall i :: 0 <= i < |templates| ==> RefsInRange(templates[i], cabins, guestIds, cabinIds)
  }

  /** All bookings as the seeder inserts them: one per template, in template order. */
  function MaterialiseAll(templates: seq<BookingTemplate>, cabins: seq<CabinTemplate>, guestIds: seq<int>, cabinIds: seq<int>, today: int): (bs: seq<Booking>)
    requires AllRefsInRange(templates, cabins, guestIds, cabinIds)
    ensures |bs| == |templates|
    ensures forall i :: 0 <= i < |templates| ==> bs[i] == Materialise(templates[i], cabins, guestIds, cabinIds, today)
  {
    if templates == [] then []
    else
      [Materialise(templates[0], cabins, guestIds, cabinIds, today)]
        + MaterialiseAll(templates[1..], cabins, guestIds, cabinIds, today)
  }

  /**
   * The i-th inserted booking comes from the i-th template: its references are
   * the store identifiers at the template positions, its other template fields
   * are kept, it is priced at its cabin's nightly rate plus breakfast, its total
   * is the sum of the two, and its status agrees with the status table.
   */
  lemma SeededBookingsConsistent(templates: seq<BookingTemplate>, cabins: seq<CabinTemplate>, guestIds: seq<int>, cabinIds: seq<int>, today: int, i: int)
    requires AllRefsInRange(templates, cabins, guestIds, cabinIds)
    requires 0 <= i < |templates|
    ensures var b := MaterialiseAll(templates, cabins, guestIds, cabinIds, today)[i];
      && b.numNights == templates[i].endDate - templates[i].startDate
      && b.cabinPrice == b.numNights * NightlyRate(cabins[templates[i].cabinId - 1])
      && b.extrasPrice == (if b.hasBreakfast then b.numNights * BreakfastRate * b.numGuests else 0)
      && b.totalPrice == b.cabinPrice + b.extrasPrice
      && (!b.hasBreakfast ==> b.totalPrice == b.cabinPrice)
      && b.guestId == guestIds[templates[i].guestId - 1]
      && b.cabinId == cabinIds[templates[i].cabinId - 1]
      && KeepsTemplateFields(b, templates[i])
      && b.status == DeriveStatus(b.startDate, b.endDate, today)
      && (b.startDate <= b.endDate ==>
            (b.status == CheckedOut <==> b.endDate < today) &&
            (b.status == Unconfirmed <==> today <= b.startDate) &&
            (b.status == CheckedIn <==> b.startDate < today <= b.endDate))
  {
    var t := templates[i];
    if t.startDate <= t.endDate {
      StatusTable(t.startDate, t.endDate, today);
    }
  }

  /** A stay that does not end before it starts, at a cabin not discounted below zero, has no negative price. */
  lemma PricesNonNegative(t: BookingTemplate, cabins: seq<CabinTemplate>, guestIds: seq<int>, cabinIds: seq<int>, today: int)
    requires RefsInRange(t, cabins, guestIds, cabinIds)
    requires t.startDate <= t.endDate && t.numGuests >= 0
    requires cabins[t.cabinId - 1].discount <= cabins[t.cabinId - 1].regularPrice
    ensures var b := Materialise(t, cabins, guestIds, cabinIds, today);
      b.numNights >= 0 && b.cabinPrice >= 0 && b.extrasPrice >= 0 && b.totalPrice >= b.cabinPrice
  {
    var n := t.endDate - t.startDate;
    assert n * NightlyRate(cabins[t.cabinId - 1]) >= 0;
    assert n * BreakfastRate * t.numGuests >= 0;
  }

  /** Worked examples: 3 nights at 100 less 10 cost 270; breakfast for 2 guests over 3 nights costs 90. */
  lemma PricingExamples(guestIds: seq<int>, cabinIds: seq<int>, today: int)
    requires |guestIds| >= 1 && |cabinIds| >= 1
    ensures var b := Materialise(BookingTemplate(0, 10, 13, 1, 1, true, "", false, 2),
                                 [CabinTemplate("001", 2, 100, 10)], guestIds, cabinIds, today);
      b.numNights == 3 && b.cabinPrice == 270 && b.extrasPrice == 90 && b.totalPrice == 360
  {
  }
}
