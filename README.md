# Booking conflict engine

This project models the reservation core of a small hotel booking system, `BookingService` together with the queries of its two repositories.

- A room can be booked for a stay `[checkIn, checkOut)` only when no CONFIRMED booking of the same room overlaps the stay.
- An availability search returns the rooms that no overlapping CONFIRMED booking occupies.
- An update re-runs the conflict check against the proposed room and dates, discounting the booking's own id. When the room changes, it flips the rooms' display flags.
- A delete removes the booking, and removes its guest too when no booking references that guest any more.

The modules are:

- `Entities`: the entities, the request and response shapes, and the room look-ups.
- `BookingRepository`: the three JPQL queries as filters over the booking table.
- `GuestRepository`: the guest booking count.
- `Ledger`: the stay total, the ADVANCE ledger entry, and the paid sum.
- `BookingService`: availability and the read-backs as functions; create, update, delete and the booking list as methods of a `Store` class.
  - The `Store` class holds the room table, the room status column (`RoomFlags`), the guest and booking tables, and the two identity counters.
  - Every `Store` method keeps the invariant `Consistent`: unique keys, resolving foreign keys, ids below the counters, no guest without a booking, and at most one ADVANCE entry per ledger.
- `Scenarios`: the concrete situations of the repository's tests, as lemmas.

## How the source is represented

- **Dates.** A date is its epoch-day number. The source stores every date as `atStartOfDay().toInstant(UTC)`, so comparing stored instants is comparing epoch days.
  - The expiry query takes an instant (epoch seconds) and compares it with `StartOfDay(checkOut)`.
- **Money.** Amounts are integers in the smallest currency unit, matching exact BigDecimal arithmetic.
- **Nulls, and the errors the code throws.**
  - A null DTO field is `None`.
  - Each `RuntimeException` the code throws is an `Error`: RoomNotFound, BookingNotFound or RoomUnavailable.
  - The NullPointerException of a null date or nightly rate is `MissingField`.
- **Transactions.** Each `@Transactional` operation is all-or-nothing. The methods compute the new tables in locals and assign them only on success, so every failure leaves the store unchanged. This holds even though the source saves the guest before its checks.
- **`findByRoomNumber(null)`** finds nothing, so a create without a room number is RoomNotFound.
- **`updateBooking`, line 196.** This line multiplies the DTO's nightly rate by the DTO's nights without a null check. An update without a rate or a date therefore fails with MissingField after the room and conflict checks.
  - As a consequence, the guest-only update of the unit test (`Scenarios.GuestOnlyUpdateFails`) fails.
  - For the same reason, a successful update has always run the conflict check.
- **The stored total after an update** is rate × nights, computed at line 247. The ADVANCE entry's pending amount uses the line-196 total, which includes the additional charges.
- **Room equality at line 230** is equality of room ids.
- **`getAdditionalCharges()`** is read by the service but is not declared by the DTO class. It is modelled as an optional list of the charges' amounts.
- **`deleteBooking`** does not touch any room's status, as in the code. Both delete unit tests (`BookingServiceTest.java:475` and `BookingServiceTest.java:512`) expect a room save that the code does not perform; the model follows the code.

## Model

| member | source | states |
|---|---|---|
| BookingRepository.FindOverlappingBookings | src/main/java/com/karunavilla/booking_system/repository/BookingRepository.java:21-25 | the result holds exactly the stored bookings that are CONFIRMED and whose stay overlaps the request, and is no longer than the table |
| BookingRepository.FindOverlappingBookingsForRoom | src/main/java/com/karunavilla/booking_system/repository/BookingRepository.java:27-32 | the result holds exactly the stored CONFIRMED bookings of that room that overlap the request |
| BookingRepository.Overlaps | src/main/java/com/karunavilla/booking_system/repository/BookingRepository.java:22 | definition of the interval test of both overlap queries: the stay starts before the request ends and ends after it starts, both ends exclusive |
| BookingRepository.Blocks | src/main/java/com/karunavilla/booking_system/repository/BookingRepository.java:22-23 | definition of what both overlap queries return: a booking that is CONFIRMED and whose stay passes the interval test |
| BookingRepository.OverlapsIffCommonNight | src/main/java/com/karunavilla/booking_system/repository/BookingRepository.java:22 | for non-empty stays, the interval test holds exactly when the two stays share a night |
| BookingRepository.FindById | src/main/java/com/karunavilla/booking_system/service/BookingService.java:121-122 | a found index holds a booking with the id; when nothing is found, no booking has the id |
| BookingRepository.FindExpiredBookingsWithBookedRooms | src/main/java/com/karunavilla/booking_system/repository/BookingRepository.java:18-19 | the result holds exactly the CONFIRMED bookings that checked out strictly before `now` and whose room's status is BOOKED |
| BookingRepository.RoomStatusOf | src/main/java/com/karunavilla/booking_system/repository/BookingRepository.java:18 | definition of the `JOIN b.room r` of the expiry query: the booked room's status flag, none for a room without one |
| BookingRepository.OverlapsSymmetric | src/main/java/com/karunavilla/booking_system/repository/BookingRepository.java:22 | swapping the stored and requested intervals does not change the overlap test |
| BookingRepository.AdjacentStaysDoNotOverlap | src/main/java/com/karunavilla/booking_system/repository/BookingRepository.java:22 | a stay ending on the day another starts does not overlap it, in either order |
| BookingRepository.OwnBookingConflictsWithItself | src/main/java/com/karunavilla/booking_system/repository/BookingRepository.java:27-29 | a CONFIRMED non-empty stay is returned by both overlap queries for its own dates, which is why update must discount its own id |
| BookingRepository.UnconfirmedNeverOverlaps | src/main/java/com/karunavilla/booking_system/repository/BookingRepository.java:23 | a booking that is not CONFIRMED (CANCELLED, say) is returned by neither overlap query |
| BookingRepository.ForRoomIsRestriction | src/main/java/com/karunavilla/booking_system/repository/BookingRepository.java:21-32 | the per-room query equals the general query restricted to that room, order included |
| BookingRepository.ExpiredAtStartOfDay | src/main/java/com/karunavilla/booking_system/repository/BookingRepository.java:18 | queried at the start of day `d`, a CONFIRMED booking of a BOOKED room has expired exactly when it checked out before `d` |
| GuestRepository.CountBookingsByGuestId | src/main/java/com/karunavilla/booking_system/repository/GuestRepository.java:12-13 | the count never exceeds the number of stored bookings |
| GuestRepository.CountIsOccurrences | src/main/java/com/karunavilla/booking_system/repository/GuestRepository.java:12 | the count equals the multiplicity of the guest's id in the booking table's guest column |
| GuestRepository.GuestColumn | src/main/java/com/karunavilla/booking_system/repository/GuestRepository.java:12 | the column has one entry per booking, each being that booking's guest id |
| GuestRepository.CountZeroIffUnreferenced | src/main/java/com/karunavilla/booking_system/repository/GuestRepository.java:12-13 | the count is zero exactly when no stored booking references the guest |
| GuestRepository.CountConcat | src/main/java/com/karunavilla/booking_system/repository/GuestRepository.java:12 | the count over two concatenated tables is the sum of their counts |
| GuestRepository.CountAppend | src/main/java/com/karunavilla/booking_system/service/BookingService.java:89 | saving a booking raises its guest's count by one, and no other guest's |
| GuestRepository.CountRemoveAt | src/main/java/com/karunavilla/booking_system/service/BookingService.java:262-265 | deleting one booking lowers its guest's count by exactly one, and leaves every other guest's count unchanged |
| GuestRepository.CountSeesOnlyGuests | src/main/java/com/karunavilla/booking_system/repository/GuestRepository.java:12 | the count has no status filter: tables that agree on every row's guest give equal counts, and CANCELLED bookings count too |
| Entities.FindRoomById | src/main/java/com/karunavilla/booking_system/service/BookingService.java:102 | a found room is in the table and carries the id |
| Entities.FindRoomByIdMisses | src/main/java/com/karunavilla/booking_system/service/BookingService.java:102 | the id look-up finds nothing exactly when no room has the id |
| Entities.FindRoomByNumber | src/main/java/com/karunavilla/booking_system/service/BookingService.java:49-50 | a found room is in the table and carries the number |
| Entities.FindRoomByNumberMisses | src/main/java/com/karunavilla/booking_system/service/BookingService.java:165-166 | the number look-up finds nothing exactly when no room has the number |
| Entities.StartOfDay | src/main/java/com/karunavilla/booking_system/service/BookingService.java:52-53 | definition of the date-to-instant conversion: the instant at midnight UTC beginning the day, seconds per day × the epoch day |
| Ledger.ChargeAddsToTotal | src/main/java/com/karunavilla/booking_system/service/BookingService.java:69-74 | each additional charge adds its amount to the total; an empty or null list adds nothing |
| Ledger.ChargesSum | src/main/java/com/karunavilla/booking_system/service/BookingService.java:70-74 | definition of the additional charges' contribution: the sum of their amounts, 0 for a null or empty list |
| Ledger.StayTotal | src/main/java/com/karunavilla/booking_system/service/BookingService.java:69-74 | definition of create's total: nightly rate × (check-out day − check-in day) plus the sum of the additional charges, a null list adding nothing |
| Ledger.TotalPaid | src/main/java/com/karunavilla/booking_system/service/BookingService.java:108-110 | definition of the paid sum: the sum of every entry's advance amount, a null amount counting as 0 (exact, where the source sums doubles) |
| Ledger.StayTotalExample | src/main/java/com/karunavilla/booking_system/service/BookingService.java:69-74 | a rate of 100 for two nights with a charge of 25 totals 225 |
| Ledger.SumConcat | src/main/java/com/karunavilla/booking_system/service/BookingService.java:73 | the charges' sum over a concatenation is the sum of the two sums |
| Ledger.NewAdvance | src/main/java/com/karunavilla/booking_system/service/BookingService.java:80-84 | a new entry is of kind ADVANCE, carries the advance and the payment method, and has total − advance pending |
| Ledger.FirstAdvance | src/main/java/com/karunavilla/booking_system/service/BookingService.java:137-139 | the index found is the first ADVANCE entry, and nothing is found when no entry is ADVANCE |
| Ledger.AmendAdvance | src/main/java/com/karunavilla/booking_system/service/BookingService.java:205-226 | without an advance the ledger is unchanged. With an advance: the first ADVANCE entry gets the amount, the pending amount and the method when one is given, or one entry is appended exactly when there was none. Every other entry is unchanged and the ledger grows by at most one |
| Ledger.FirstAdvanceOfAppended | src/main/java/com/karunavilla/booking_system/service/BookingService.java:218-224 | an ADVANCE entry appended to a ledger without one becomes its first |
| Ledger.SameKindsSameFirstAdvance | src/main/java/com/karunavilla/booking_system/service/BookingService.java:206-212 | amending entries without changing their kinds keeps the first ADVANCE entry in place |
| Ledger.AdvanceCountConcat | src/main/java/com/karunavilla/booking_system/service/BookingService.java:224 | the ADVANCE count over a concatenation is the sum of the two counts |
| Ledger.AdvanceCountSameKinds | src/main/java/com/karunavilla/booking_system/service/BookingService.java:211-216 | ledgers with the same entry kinds have the same ADVANCE count |
| Ledger.NoAdvanceCountsZero | src/main/java/com/karunavilla/booking_system/service/BookingService.java:217 | a ledger without an ADVANCE entry has an ADVANCE count of zero |
| Ledger.AmendAdvanceKeepsOneAdvance | src/main/java/com/karunavilla/booking_system/service/BookingService.java:205-226 | a ledger with at most one ADVANCE entry keeps at most one, and has exactly one after a supplied advance |
| Ledger.TotalPaidConcat | src/main/java/com/karunavilla/booking_system/service/BookingService.java:108-110 | the paid sum over a concatenation is the sum of the two paid sums |
| Ledger.TotalPaidReplace | src/main/java/com/karunavilla/booking_system/service/BookingService.java:108-110 | replacing one entry changes the paid sum by the difference of the two entries' advance amounts |
| Ledger.AmendAdvancePaid | src/main/java/com/karunavilla/booking_system/service/BookingService.java:205-226 | after an update with advance `a`, the paid sum is the old one with the first ADVANCE entry's amount replaced by `a`, or with `a` added when there was none |
| BookingService.ExcludingId | src/main/java/com/karunavilla/booking_system/service/BookingService.java:189-190 | the result holds exactly the given bookings whose id differs |
| BookingService.RoomIsFree | src/main/java/com/karunavilla/booking_system/service/BookingService.java:186-194 | definition of the conflict test of update, and with no exclusion of create (lines 55-59): no CONFIRMED booking of the room except the excluded id overlaps the stay |
| BookingService.CreateConflictTest | src/main/java/com/karunavilla/booking_system/service/BookingService.java:55-59 | the per-room query is empty exactly when no CONFIRMED booking of the room overlaps the stay |
| BookingService.UpdateConflictTest | src/main/java/com/karunavilla/booking_system/service/BookingService.java:186-194 | the query, after `removeIf` of the own id, is empty exactly when no other CONFIRMED booking of the room overlaps the stay |
| BookingService.BlockedRoomIds | src/main/java/com/karunavilla/booking_system/service/BookingService.java:276-279 | a room id is in the set exactly when some CONFIRMED booking of that room overlaps the request |
| BookingService.WithoutRoomIds | src/main/java/com/karunavilla/booking_system/service/BookingService.java:281-284 | the result keeps the table's order and holds exactly the rooms whose id is not in the set |
| BookingService.GetRoomsAvailable | src/main/java/com/karunavilla/booking_system/service/BookingService.java:270-285 | the result holds exactly the rooms, in table order, that no CONFIRMED booking overlapping the request occupies |
| BookingService.WithoutRoomIdsMultiplicity | src/main/java/com/karunavilla/booking_system/service/BookingService.java:281-284 | the filter keeps each room exactly as often as the table lists it when its id is not blocked, and drops it otherwise |
| BookingService.AvailableMultiplicity | src/main/java/com/karunavilla/booking_system/service/BookingService.java:270-285 | availability returns each free room as often as the table lists it and no blocked room |
| BookingService.AvailableIffCreateWouldAccept | src/main/java/com/karunavilla/booking_system/service/BookingService.java:55-57 | a room is offered for a stay exactly when create's conflict query for it is empty |
| BookingService.RoomsAt | src/main/java/com/karunavilla/booking_system/service/BookingService.java:49 | two different rows of the room table differ in id and in number |
| BookingService.BookingsAt | src/main/java/com/karunavilla/booking_system/service/BookingService.java:121 | two different rows of the booking table differ in id |
| BookingService.FindByIdIsTheRow | src/main/java/com/karunavilla/booking_system/service/BookingService.java:121-122 | the row found by id is the only row with that id, and a miss means no row has it |
| BookingService.GuestFromRequest | src/main/java/com/karunavilla/booking_system/service/BookingService.java:43-46 | definition of the guest create saves: the request's name, email and mobile number |
| BookingService.MergeGuest | src/main/java/com/karunavilla/booking_system/service/BookingService.java:154-158 | definition of the update's guest step; its per-field meaning is stated by MergeGuestProperties |
| BookingService.Details | src/main/java/com/karunavilla/booking_system/service/BookingService.java:124-145 | definition of the read-back DTO: guest name, email and number, dates, room number, rate, stored total, source and notes, the first ADVANCE entry's amount and method (none without one), and no charges |
| BookingService.MergeGuestProperties | src/main/java/com/karunavilla/booking_system/service/BookingService.java:154-160 | each supplied guest field replaces the stored one and each null one keeps it; merging twice is merging once |
| BookingService.GetBookingDetailsById | src/main/java/com/karunavilla/booking_system/service/BookingService.java:120-146 | BookingNotFound exactly when no booking has the id; otherwise the DTO of that booking, read through its guest and its room |
| BookingService.Summarize | src/main/java/com/karunavilla/booking_system/service/BookingService.java:98-114 | the row carries the booking's id, source, dates, status, guest name and number, and room number. Its paid sum is the entries' advance amounts, and paid plus balance is the stored total |
| BookingService.RequestedRoom | src/main/java/com/karunavilla/booking_system/service/BookingService.java:49-50 | a found room is in the table and has the requested number; nothing is found exactly when the number is null or no room has it |
| BookingService.BookingFromRequest | src/main/java/com/karunavilla/booking_system/service/BookingService.java:61-87 | the booking is CONFIRMED and has the given ids, and its total is rate × nights plus the charges. Its ledger is empty without an advance, or else one ADVANCE entry with the advance, total − advance pending, and the payment method |
| BookingService.CreateTotal | src/main/java/com/karunavilla/booking_system/service/BookingService.java:69-74 | definition of the total create stores: the stay total of the request's rate, dates and charges |
| BookingService.CreateReadsBack | src/main/java/com/karunavilla/booking_system/service/BookingService.java:120-146 | reading a created booking back gives the request, with the computed total, no charges, and the payment method only together with an advance |
| BookingService.PlanUpdate | src/main/java/com/karunavilla/booking_system/service/BookingService.java:162-196 | the update's checks in source order: RoomNotFound for an unknown other room number; if the room or dates change, RoomUnavailable when another CONFIRMED booking of the proposed room overlaps; MissingField for a null rate or date; otherwise the move, changing room exactly when another number is named |
| BookingService.NamesOtherRoom | src/main/java/com/karunavilla/booking_system/service/BookingService.java:164 | definition of the room-change test: a room number is given and differs from the current room's |
| BookingService.ChecksConflicts | src/main/java/com/karunavilla/booking_system/service/BookingService.java:180-181 | definition of when update checks conflicts: it changes room or gives either date |
| BookingService.UpdatedBooking | src/main/java/com/karunavilla/booking_system/service/BookingService.java:196-249 | the id, guest and status are kept, and the room, dates and rate are as proposed. Source and notes are overridden only when supplied, the ledger is amended with the charges-inclusive total, and the stored total is rate × nights |
| BookingService.UpdateTotalOmitsCharges | src/main/java/com/karunavilla/booking_system/service/BookingService.java:196-249 | the same request's create total exceeds its stored update total by the additional charges |
| BookingService.UpdateReadsBack | src/main/java/com/karunavilla/booking_system/service/BookingService.java:253 | an updated booking reads back with the request's dates, rate, room number, supplied guest fields and advance, and a total without the charges |
| BookingService.MoveRoomFlags | src/main/java/com/karunavilla/booking_system/service/BookingService.java:229-235 | the new room is BOOKED, the old one AVAILABLE when it differs, and every other room's flag is as before |
| BookingService.DistinctNumbersDistinctIds | src/main/java/com/karunavilla/booking_system/service/BookingService.java:164-230 | rooms with different numbers have different ids, so room equality at line 230 agrees with line 164's number test |
| BookingService.FindRoomIdOfMember | src/main/java/com/karunavilla/booking_system/service/BookingService.java:102 | a room of the table is found under its own id |
| BookingService.CreatePreservesConsistency | src/main/java/com/karunavilla/booking_system/service/BookingService.java:41-91 | saving the new guest and booking keeps the store consistent, and the booking reads back as its request |
| BookingService.AppendKeepsIdsUnique | src/main/java/com/karunavilla/booking_system/service/BookingService.java:89 | appending a row whose id is above every id in use keeps booking ids unique |
| BookingService.ReplaceKeepsKeys | src/main/java/com/karunavilla/booking_system/service/BookingService.java:251 | saving a row under its own id and guest keeps ids unique and every guest booked |
| BookingService.UpdatePreservesConsistency | src/main/java/com/karunavilla/booking_system/service/BookingService.java:148-254 | saving an update keeps the store consistent, and the booking reads back under its id with the proposed room's number |
| BookingService.RemoveAt | src/main/java/com/karunavilla/booking_system/service/BookingService.java:262 | the result is one row shorter and holds the rows before and after the removed one, in order |
| BookingService.RemoveAtKeepsRows | src/main/java/com/karunavilla/booking_system/service/BookingService.java:262 | every row left after a delete was a row before it |
| BookingService.RemoveAtKeepsIdsUnique | src/main/java/com/karunavilla/booking_system/service/BookingService.java:262 | deleting a row keeps the ids unique, and no remaining row has the deleted id |
| BookingService.DeleteKeepsGuests | src/main/java/com/karunavilla/booking_system/service/BookingService.java:261-267 | removing the guest exactly when its remaining count is zero keeps every booking's guest present and every guest booked |
| BookingService.DeletePreservesConsistency | src/main/java/com/karunavilla/booking_system/service/BookingService.java:256-268 | a delete keeps the store consistent |
| BookingService.CountBookingsNonZero | src/main/java/com/karunavilla/booking_system/service/BookingService.java:265 | a guest with a stored booking has a non-zero count |
| BookingService.Store.constructor | src/main/java/com/karunavilla/booking_system/service/BookingService.java:29-39 | a store over consistent tables is valid and holds them |
| BookingService.Store.CreateBooking | src/main/java/com/karunavilla/booking_system/service/BookingService.java:41-91 | errors in source order: RoomNotFound, then MissingField for a date, then RoomUnavailable, then MissingField for the rate. Otherwise exactly one new CONFIRMED booking and one new guest are added, the counters advance, rooms and flags are untouched, the booking reads back as its request, and the room is no longer offered for those dates. A failure leaves the store unchanged |
| BookingService.Store.UpdateBooking | src/main/java/com/karunavilla/booking_system/service/BookingService.java:148-254 | BookingNotFound when no booking has the id, then PlanUpdate's errors, each leaving the store unchanged. On success the guest is merged, the flags flip on a room change, the booking is replaced in place, the result is its read-back, and the invariant holds |
| BookingService.Store.SaveUpdate | src/main/java/com/karunavilla/booking_system/service/BookingService.java:153-253 | the writes of a checked update: the merged guest, the flag flip, the booking rewritten in place, and the read-back through getBookingDetailsById |
| BookingService.Store.DeleteBooking | src/main/java/com/karunavilla/booking_system/service/BookingService.java:256-268 | BookingNotFound with the store unchanged for an unknown id. Otherwise the row is removed, and its guest is removed exactly when no remaining booking references it; rooms and flags are untouched and no remaining booking has the id |
| BookingService.Store.GetAllBookingDetails | src/main/java/com/karunavilla/booking_system/service/BookingService.java:93-118 | one row per booking, in table order, each the booking's summary |
| Scenarios.AvailabilityBoundary | src/test/java/com/karunavilla/booking_system/service/BookingServiceIntegrationTest.java:70-89 | room 101 booked 30 to 31 December is offered again from 31 December, with both rooms returned |
| Scenarios.CalendarNight28 | src/test/java/com/karunavilla/booking_system/service/BookingServiceIntegrationTest.java:110-114 | on 28 December only room 102 is offered |
| Scenarios.CalendarNight29 | src/test/java/com/karunavilla/booking_system/service/BookingServiceIntegrationTest.java:116-120 | on 29 December both rooms are offered |
| Scenarios.CalendarNight30 | src/test/java/com/karunavilla/booking_system/service/BookingServiceIntegrationTest.java:122-126 | on 30 December only room 102 is offered |
| Scenarios.CalendarNight31 | src/test/java/com/karunavilla/booking_system/service/BookingServiceIntegrationTest.java:128-132 | on 31 December no room is offered |
| Scenarios.CancelledBookingDoesNotBlock | src/test/java/com/karunavilla/booking_system/service/BookingServiceIntegrationTest.java:137-169 | a CANCELLED stay leaves its room available |
| Scenarios.RoomChangeFlipsFlags | src/test/java/com/karunavilla/booking_system/service/BookingServiceTest.java:589-594 | moving a booking from 101 to 102 passes the checks, and 101 becomes AVAILABLE and 102 BOOKED |
| Scenarios.GuestOnlyUpdateFails | src/test/java/com/karunavilla/booking_system/service/BookingServiceTest.java:169-171 | an update giving only a name and an email fails with MissingField |
| Scenarios.ShiftOverlapsOnlyItself | src/main/java/com/karunavilla/booking_system/service/BookingService.java:188-194 | shifting a booking by one night passes, because only its own old dates overlap, while another booking on the new night blocks it |
| Scenarios.DeleteCountsReferences | src/test/java/com/karunavilla/booking_system/service/BookingServiceTest.java:466-511 | deleting a guest's only booking leaves a count of zero; with another booking (a CANCELLED one) the count stays at one |

## Left out

- HTTP controllers, security configuration, the application entry point and the keep-alive log task: framework glue and I/O with no booking logic.
- The Bean Validation annotations of the DTO: the controller validates the DTO only for create (`@Valid` at `BookingController.java:24`), not for update (`BookingController.java:42`), so an update can receive any DTO. The model validates nothing; every DTO field is optional, and the service's own handling of a null is modelled.
- The double-based `totalPaid` sum of `getAllBookingDetails` (lines 108-112): the model sums the advance amounts exactly, counting a null as 0. Floating-point rounding is not modelled.
- JPA persistence, cascading and the isolation of `@Transactional`: each operation is atomic and sequential. The check-then-insert race between two concurrent creates is not modelled.
- The scheduled room-status sweep: the service does not contain it. Only the query it would use, `findExpiredBookingsWithBookedRooms`, is modelled.
- The room's name, type and price, and the booking's `roomName`: no operation of the core reads them.
- Room status is not stored in `Room` but in the `RoomFlags` map, keyed by room id. `getRoomsAvailable` returns the matching rooms without their status, and the response mapper is not part of this model.
- The DTO's `totalAmount` input: the service ignores it and always computes the total.
- Identity counters: the database's identity sequences can advance on a rolled-back insert. The model advances the counters only on success.
- `getBookingDetailsById` converts an instant back to a date with `atZone(UTC).toLocalDate()`. With epoch days this is the identity.
- Status strings: the strings the code writes and tests are constructors. Any other text is an `Other...` constructor.
- `CountBookingsByGuestId`'s own contract only bounds the count. The exact meaning, occurrences of the guest id and zero exactly when unreferenced, is stated in the `CountIsOccurrences` and `CountZeroIffUnreferenced` lemmas.
- `FindRoomById` and `FindRoomByNumber` state their miss case in the `FindRoomByIdMisses` and `FindRoomByNumberMisses` lemmas rather than in their own contracts.
- Room numbers are assumed unique: `RoomKeysUnique` (part of `Consistent`, which the `Store` constructor requires) demands it, while the room table declares no unique constraint on the number. With a duplicated number `findByRoomNumber` (lines 49 and 165) would throw instead of returning a room; that error path is not modelled.
- Additional charges are assumed to carry an amount: a charge is an integer, so the NullPointerException that a null `AdditionalPay` amount causes in `BigDecimal::add` (lines 73 and 200) is not modelled.
- Every booking is assumed to hold a payments list: `payments` is a sequence, so the NullPointerException of a null list (lines 108, 137 and 206) is not modelled.
- Stored bookings are assumed to carry both dates, a nightly rate and a total, and rooms a number: `Booking.checkIn`, `checkOut`, `amountPerNight`, `totalAmount` and `Room.number` are not optional, although the entities declare no constraint on them. Every booking the service writes has all four (lines 64-75 and 237-248). Rows stored otherwise, such as the unit and integration tests' fixtures without a nightly rate, are not represented. Neither the null `nightlyRate` such a row reads back with, nor the NullPointerException a null stored total (line 113) or a null stored date (lines 169 and 174) causes, is modelled. A null room number can then never match, which is why `findByRoomNumber(null)` finds nothing.
