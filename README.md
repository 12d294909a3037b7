# Booking lifecycle core of the cabin-hotel dashboard

This project is a Dafny model of the booking-lifecycle logic in an admin dashboard for a small cabin hotel. The rest of the dashboard is views over a hosted database. The model covers three pieces:

- **Sample-data seeding** (`src/data/Uploader.jsx`). `createBookings` turns each booking template into an inserted booking:
  - the number of nights is end minus start;
  - the cabin price is nights times the cabin's regular price less its discount;
  - breakfast costs 15 per guest per night;
  - the total is the cabin price plus extras;
  - the status (`unconfirmed`, `checked-in` or `checked-out`) comes from the dates and today;
  - the template's 1-based guest and cabin positions become the identifiers the store assigned.

  `uploadAll` and `uploadBookings` run a fixed chain of store steps that stops at the first failure, set a message, and clear a busy flag at the end.
- **Check-in** (`src/features/check-in-out/CheckinBooking.jsx`). The page has a payment-confirmed flag and an add-breakfast flag. Changing the breakfast choice withdraws the payment confirmation. The payment checkbox can only confirm. Check-in is sent only once payment is confirmed, with breakfast fields when breakfast was added.
- **Status-driven views** (`src/features/bookings/BookingRow.jsx`, `BookingDetail.jsx`). These map each status to a tag colour and a label: the status with its first `-` replaced by a space. They offer check-in only for `unconfirmed` bookings, check-out only for `checked-in` ones, and delete always.

Files and modules:

| file | module | models |
|---|---|---|
| wrappers.dfy | `Wrappers` | `Option` (an absent value) and `Outcome` (Pass, or Fail with a cause; what a `throw` chain ends with) |
| booking_status.dfy | `BookingStatus` | the three statuses, their stored names, the tag-colour table, the label transform |
| seed_bookings.dfy | `SeedBookings` | the derivation inside `createBookings` |
| seed_loader.dfy | `SeedLoader` | `uploadAll` and `uploadBookings`: class `Uploader` over `isLoading`, `message` and a ghost log of store steps |
| checkin.dfy | `Checkin` | class `CheckinForm` over `confirmPaid` and `addBreakfast`; the request and price functions |
| booking_row.dfy | `BookingRowView` | the row's status tag and menu |
| booking_detail.dfy | `BookingDetailView` | the detail page's guards, tag and buttons |

Modelling choices:
- Dates are whole day numbers and "today" is a parameter. "In the past and not today" becomes `d < today`. "In the future or today" becomes `d >= today`.
- The store is an oracle `ok: Step -> bool` that says whether each step succeeds.
- The template lists and the ordered identifier lists are inputs. `createBookings` reads both identifier lists itself (Uploader.jsx:41-50), so `uploadBookings` re-reads them too.
- The status assignment (a `let` overwritten by three `if`s) is the method `SeedBookings.AssignStatus`, proved equal to the function `DeriveStatus`. The status is never left unset. When end < today <= start the first two rules both fire and the later one, `unconfirmed`, wins; otherwise exactly one rule fires.
- The views take the status as the stored string. A string outside the colour table gets no colour, as a lookup that yields `undefined` would, for any string other than a key every JavaScript object inherits (`constructor`, `toString`, ...).

## Model

| member | source | states |
|---|---|---|
| BookingStatus.TagColourOf | src/features/bookings/BookingRow.jsx:83-87 | unconfirmed is blue, checked-in green, checked-out silver; a string that is not a status has no colour |
| BookingStatus.TagColoursDistinct | src/features/bookings/BookingDetail.jsx:45-49 | every status has a colour, and different statuses have different colours |
| BookingStatus.ReplaceFirst | src/features/bookings/BookingRow.jsx:108 | the label has the status's length; only the first occurrence of the character changes; all other positions are kept |
| BookingStatus.ReplaceFirstAbsent | src/features/bookings/BookingRow.jsx:108 | a status without '-' is shown unchanged |
| BookingStatus.ReplaceFirstSplit | src/features/bookings/BookingRow.jsx:108 | for `p-q` with no '-' in p, the label is `p q`; any later '-' in q is kept |
| BookingStatus.Label | src/features/bookings/BookingRow.jsx:108 | the label is the status with its first '-' replaced by a space (contract of ReplaceFirst) |
| BookingStatus.StatusTag | src/features/bookings/BookingDetail.jsx:57 | the tag pairs the colour looked up for the status with its label |
| BookingStatus.StatusLabel | src/features/bookings/BookingDetail.jsx:57 | the labels are "unconfirmed", "checked in" and "checked out" |
| BookingStatus.LabelsDistinct | src/features/bookings/BookingRow.jsx:108 | status labels contain no '-' and tell the statuses apart |
| SeedBookings.DeriveStatus | src/data/Uploader.jsx:61-78 | the status is the last rule of the table (checked-out, unconfirmed, checked-in) that fires for the dates |
| SeedBookings.AssignStatus | src/data/Uploader.jsx:61-78 | the overwrite-by-if assignment always sets a status, and it is the one of DeriveStatus |
| SeedBookings.SomeRuleFires | src/data/Uploader.jsx:61-78 | some rule always fires; two fire only when end < today <= start, a stay ending before it starts |
| SeedBookings.StatusTable | src/data/Uploader.jsx:61-78 | for start <= end: checked-out iff end < today; unconfirmed iff today <= start; checked-in iff start < today <= end |
| SeedBookings.Materialise | src/data/Uploader.jsx:52-89 | one template becomes one booking; its properties are stated by SeededBookingsConsistent |
| SeedBookings.MaterialiseAll | src/data/Uploader.jsx:52-90 | one booking per template, in template order, each derived from its own template |
| SeedBookings.SeededBookingsConsistent | src/data/Uploader.jsx:52-89 | each booking's nights, cabin price, breakfast extras (zero without breakfast), total = cabin + extras, status, substituted ids and copied fields |
| SeedBookings.PricesNonNegative | src/data/Uploader.jsx:54-59 | a stay with start <= end, a discount within the price and a non-negative guest count gets no negative price |
| SeedBookings.PricingExamples | src/data/Uploader.jsx:53-59 | 3 nights at 100 less 10 cost 270; breakfast for 2 guests over 3 nights costs 90 |
| SeedLoader.FailureMessageNamesStep | src/data/Uploader.jsx:107-121 | "Error: Failed to <step>" decodes back to exactly that step; the success messages decode to no step |
| SeedLoader.IndexOfFailure | src/data/Uploader.jsx:105-116 | position of the first step the store refuses: every earlier step succeeded |
| SeedLoader.Attempted | src/data/Uploader.jsx:105-116 | the steps of a plan that a throw-on-failure chain issues; characterised by RunStopsAtFirstFailure |
| SeedLoader.FirstFailure | src/data/Uploader.jsx:105-116 | the step the chain throws on, or Pass; characterised by RunStopsAtFirstFailure |
| SeedLoader.RunStopsAtFirstFailure | src/data/Uploader.jsx:105-121 | a run issues its plan up to and including the first refused step and nothing after it; it fails with that step, or passes having issued the whole plan |
| SeedLoader.IssuedOnlyAfterEarlierSuccesses | src/data/Uploader.jsx:105-116 | in a plan naming each step once, a step is issued only after every earlier step succeeded |
| SeedLoader.FullResetDependencies | src/data/Uploader.jsx:106-116 | guests and cabins are deleted only after bookings were; bookings are created only after guests and cabins were |
| SeedLoader.Report | src/data/Uploader.jsx:118-121 | the success text or "Error: Failed to <step>"; ReportIsFaithful states what it tells |
| SeedLoader.ReportIsFaithful | src/data/Uploader.jsx:118-121 | the final message is the success text iff every step succeeded; otherwise it names the failed step |
| SeedLoader.Uploader.constructor | src/data/Uploader.jsx:98-99 | not loading, empty message, no step issued |
| SeedLoader.Uploader.Run | src/data/Uploader.jsx:10-95 | one store step is issued, only while the busy flag is set, and reports success or the step that failed |
| SeedLoader.Uploader.RunFullReset | src/data/Uploader.jsx:105-116 | issues exactly the attempted prefix of the six steps in order and ends with the first failure |
| SeedLoader.Uploader.RunBookingsRefresh | src/data/Uploader.jsx:132-136 | issues delete bookings, then create bookings only if the delete succeeded |
| SeedLoader.Uploader.UploadAll | src/data/Uploader.jsx:101-126 | after the run: not loading; the log grew by the attempted steps; the message is the success text or the failure message |
| SeedLoader.Uploader.UploadBookings | src/data/Uploader.jsx:128-146 | as UploadAll, for the two-step bookings refresh |
| Checkin.OptionalBreakfastPrice | src/features/check-in-out/CheckinBooking.jsx:54-55 | breakfast for the whole stay: nights times the configured price times guests |
| Checkin.RequestFor | src/features/check-in-out/CheckinBooking.jsx:62-71 | the check-in request with or without breakfast fields; stated by RequestChargesConfirmedAmount |
| Checkin.AmountToConfirm | src/features/check-in-out/CheckinBooking.jsx:110-116 | the total, plus the breakfast price when breakfast was added; RequestChargesConfirmedAmount ties it to the request |
| Checkin.ConfirmPaidDisabled | src/features/check-in-out/CheckinBooking.jsx:106 | the payment box is disabled while checking in or once confirmed |
| Checkin.CheckinDisabled | src/features/check-in-out/CheckinBooking.jsx:124 | the check-in button is disabled while checking in or until payment is confirmed |
| Checkin.ControlsTakeTurns | src/features/check-in-out/CheckinBooking.jsx:101-125 | the payment box and the check-in button are never both enabled; with no check-in in flight exactly one is, the button iff payment is confirmed |
| Checkin.RequestChargesConfirmedAmount | src/features/check-in-out/CheckinBooking.jsx:54-72 | the request is for the shown booking; it has breakfast fields iff breakfast was added, and they set hasBreakfast and the extras price; the new total is the amount confirmed as paid |
| Checkin.BreakfastAtCheckinMatchesSeeding | src/features/check-in-out/CheckinBooking.jsx:62-70 | at the seeder's breakfast price, adding breakfast at check-in gives the extras and total of a booking seeded with breakfast |
| Checkin.CheckinForm.constructor | src/features/check-in-out/CheckinBooking.jsx:32-33 | both flags start false and no request is sent |
| Checkin.CheckinForm.BookingChanged | src/features/check-in-out/CheckinBooking.jsx:41 | payment counts as confirmed iff the loaded booking is marked paid; an absent flag or booking means false |
| Checkin.CheckinForm.ToggleBreakfast | src/features/check-in-out/CheckinBooking.jsx:85-92 | only offered without breakfast; flips the choice and withdraws payment confirmation |
| Checkin.CheckinForm.ClickConfirmPaid | src/features/check-in-out/CheckinBooking.jsx:101-106 | no effect while disabled (check-in in flight or already confirmed); otherwise confirms; never un-confirms |
| Checkin.CheckinForm.HandleCheckin | src/features/check-in-out/CheckinBooking.jsx:57-72 | sends nothing unless payment is confirmed; otherwise sends the request for the current breakfast choice |
| Checkin.CheckinForm.ClickCheckin | src/features/check-in-out/CheckinBooking.jsx:121-125 | sends only when confirmed and not in flight; a request after staff ticked payment charges the amount the page now shows for the breakfast choice they confirmed |
| BookingRowView.Menu | src/features/bookings/BookingRow.jsx:111-143 | see-detail first and delete last; check-in iff unconfirmed; check-out, disabled while checking out, iff checked-in; nothing else |
| BookingRowView.MenuFollowsLifecycle | src/features/bookings/BookingRow.jsx:122-143 | for the three statuses: check-in only for unconfirmed, check-out only for checked-in, delete always |
| BookingRowView.SeededRowActions | src/features/bookings/BookingRow.jsx:122-139 | a seeded stay (start <= end) offers check-in iff it starts today or later, and check-out iff start < today <= end |
| BookingRowView.RowDeleteEffects | src/features/bookings/BookingRow.jsx:150 | a row's delete sends the delete request and nothing else |
| BookingDetailView.Buttons | src/features/bookings/BookingDetail.jsx:64-112 | check-in button iff unconfirmed; check-out button iff checked-in; delete and back always; nothing else |
| BookingDetailView.Detail | src/features/bookings/BookingDetail.jsx:38-62 | spinner iff loading; the empty placeholder, with no status or buttons, iff loaded without a booking; otherwise the booking's tag and buttons |
| BookingDetailView.DetailDeleteEffects | src/features/bookings/BookingDetail.jsx:90-94 | the delete request, then a step back once it settles; the outcome does not enter |
| BookingDetailView.NavigatesBackWhateverTheOutcome | src/features/bookings/BookingDetail.jsx:81-94 | both deletes send the same request first; the page then steps back (whatever the outcome, by construction), a row delete does not navigate |
| BookingDetailView.DetailAgreesWithRow | src/features/bookings/BookingDetail.jsx:65-80 | the detail page and the row offer check-in and check-out for the same statuses |

## Left out

- Store calls (Uploader.jsx:10-50, 92): the remote database client. Each step is a success/failure oracle. The ordered identifier selects are input lists assumed long enough; their unchecked `data` is not modelled. A step that throws instead of returning false (a null `data` at Uploader.jsx:45 or 50, an `.at` past the end at 53-55) ends the run with "Error: " and the exception's own text, which is not one of the modelled failure messages; the model has no such path.
- `createBookings` as a pipeline step is one opaque store step in `SeedLoader`. Its derivation is `SeedBookings.MaterialiseAll`.
- Date handling (`isPast`, `isFuture`, `isToday`, `subtractDates`): replaced by day numbers and a `today` parameter. Time zones and time of day are not modelled.
- `Array.prototype.at` with negative or out-of-range positions: positions are required to lie between 1 and the list length.
- The static template lists (`data-bookings`, `data-cabins`, `data-guests`): not part of this model; they are parameters.
- Prices and the settings' breakfast price are integers; JavaScript floating-point numbers are not modelled.
- Checkin.CheckinForm.ClickCheckin: the charged amount is the one the page shows at the click. Booking and settings are taken as fixed while the page is open; if the settings' breakfast price is refetched between the tick and the click, the source keeps the confirmation and charges the new amount, and the model does not track the amount seen at the tick.
- Checkin.CheckinForm.ToggleBreakfast: requires the breakfast offer to be shown, since the checkbox exists only then.
- The upload buttons' `disabled={isLoading}` and the intermediate "Starting ..." message: steps run synchronously here, so the busy state is seen only inside a run (`Run` requires it).
- React rendering: styled components, menus, modals, the check-in page's loading spinner, currency and date formatting, and the hooks `useBooking`, `useCheckin`, `useCheckout`, `useDeleteBooking`, `useSettings`, `useMoveBack`. What the check-in and check-out mutations do to a booking is not part of this model. `TotalAfter` only writes the request's breakfast fields over the booking.
- `console` logging, async/await and concurrency.
- `src/hooks/useLocalStorageState.js`: a thin wrapper over browser storage and JSON, with no logic of its own.
