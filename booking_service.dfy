/**
  The booking service: availability, the read-backs, and create / update / delete of
  bookings over one store that holds the room, guest and booking tables.

  Every operation of the source runs in a transaction. The model computes the new
  tables first and assigns them only when no exception was thrown, so a failed call
  leaves the store exactly as it was.
*/
module BookingService {
  import opened Wrappers
  import opened Entities
  import opened Ledger
  import opened BookingRepository
  import opened GuestRepository

  // ---------------------------------------------------------------- availability

  /**
    No CONFIRMED booking of room `roomId` other than the one with id `exclude`
    overlaps [reqIn, reqOut): the conflict test of create (no exclusion) and of
    update (the booking's own id excluded).
  */
  ghost predicate RoomIsFree(bookings: seq<Booking>, roomId: nat, reqIn: Day, reqOut: Day, exclude: Option<nat>) {
    forall b :: b in bookings && b.roomId == roomId && Blocks(b, reqIn, reqOut) ==> exclude == Some(b.id)
  }

  /** The update's conflict list with every booking of the given id dropped (BookingService.java:189-190). */
  function ExcludingId(bs: seq<Booking>, id: nat): (r: seq<Booking>)
    ensures |r| <= |bs|
    ensures forall b :: b in r <==> b in bs && b.id != id
  {
    if |bs| == 0 then []
    else if bs[0].id == id then ExcludingId(bs[1..], id)
    else [bs[0]] + ExcludingId(bs[1..], id)
  }

  /** The create check comes to RoomIsFree: the per-room query returns nothing exactly when the room is free. */
  lemma CreateConflictTest(bookings: seq<Booking>, roomId: nat, reqIn: Day, reqOut: Day)
    ensures |FindOverlappingBookingsForRoom(bookings, roomId, reqIn, reqOut)| == 0
        <==> RoomIsFree(bookings, roomId, reqIn, reqOut, None)
  {
    var q := FindOverlappingBookingsForRoom(bookings, roomId, reqIn, reqOut);
    if |q| != 0 {
      assert q[0] in q;
    }
  }

  /**
    The update check comes to RoomIsFree with the booking's own id excluded: what is
    left of the per-room query after `removeIf` is empty exactly when no other
    booking blocks the room.
  */
  lemma UpdateConflictTest(bookings: seq<Booking>, roomId: nat, reqIn: Day, reqOut: Day, id: nat)
    ensures |ExcludingId(FindOverlappingBookingsForRoom(bookings, roomId, reqIn, reqOut), id)| == 0
        <==> RoomIsFree(bookings, roomId, reqIn, reqOut, Some(id))
  {
    var q := ExcludingId(FindOverlappingBookingsForRoom(bookings, roomId, reqIn, reqOut), id);
    if |q| != 0 {
      assert q[0] in q;
    }
  }

  /** `s` is `t` with some elements dropped, the rest in their order. */
  predicate IsSubsequence<T(==)>(s: seq<T>, t: seq<T>) {
    if |s| == 0 then true
    else if |t| == 0 then false
    else if s[0] == t[0] then IsSubsequence(s[1..], t[1..])
    else IsSubsequence(s, t[1..])
  }

  /** The room ids of every CONFIRMED booking overlapping the request, collected into a set. */
  function BlockedRoomIds(bookings: seq<Booking>, start: Day, end: Day): (ids: set<nat>)
    ensures forall rid :: rid in ids <==> !RoomIsFree(bookings, rid, start, end, None)
  {
    set b | b in FindOverlappingBookings(bookings, start, end) :: b.roomId
  }

  /** The rooms, in table order, whose id is not in the blocked set (BookingService.java:281-284). */
  function WithoutRoomIds(rooms: seq<Room>, ids: set<nat>): (r: seq<Room>)
    ensures IsSubsequence(r, rooms)
    ensures forall x :: x in r <==> x in rooms && x.id !in ids
  {
    if |rooms| == 0 then []
    else if rooms[0].id in ids then WithoutRoomIds(rooms[1..], ids)
    else [rooms[0]] + WithoutRoomIds(rooms[1..], ids)
  }

  /**
    `getRoomsAvailable`: the rooms, in findAll order, that no CONFIRMED booking
    overlapping [start, end) occupies. The rooms' display flags play no part.
  */
  function GetRoomsAvailable(rooms: seq<Room>, bookings: seq<Booking>, start: Day, end: Day): (r: seq<Room>)
    ensures IsSubsequence(r, rooms)
    ensures forall x :: x in r <==> x in rooms && RoomIsFree(bookings, x.id, start, end, None)
  {
    WithoutRoomIds(rooms, BlockedRoomIds(bookings, start, end))
  }

  /** The filter keeps every listing of a kept room: each room occurs as often as in the table, or not at all. */
  lemma {:induction false} WithoutRoomIdsMultiplicity(rooms: seq<Room>, ids: set<nat>, x: Room)
    ensures multiset(WithoutRoomIds(rooms, ids))[x] == if x.id in ids then 0 else multiset(rooms)[x]
  {
    if |rooms| != 0 {
      WithoutRoomIdsMultiplicity(rooms[1..], ids, x);
      assert rooms == [rooms[0]] + rooms[1..];
    }
  }

  /**
    Availability returns a free room as often as the table lists it and a blocked
    room not at all, so the result's length is fixed by the table too.
  */
  lemma AvailableMultiplicity(rooms: seq<Room>, bookings: seq<Booking>, start: Day, end: Day, x: Room)
    ensures multiset(GetRoomsAvailable(rooms, bookings, start, end))[x]
         == if RoomIsFree(bookings, x.id, start, end, None) then multiset(rooms)[x] else 0
  {
    WithoutRoomIdsMultiplicity(rooms, BlockedRoomIds(bookings, start, end), x);
  }

  /** Availability and the create-time conflict check agree on every room and every request. */
  lemma AvailableIffCreateWouldAccept(rooms: seq<Room>, bookings: seq<Booking>, room: Room, start: Day, end: Day)
    requires room in rooms
    ensures room in GetRoomsAvailable(rooms, bookings, start, end)
        <==> |FindOverlappingBookingsForRoom(bookings, room.id, start, end)| == 0
  {
    CreateConflictTest(bookings, room.id, start, end);
  }

  // ---------------------------------------------------------------- table integrity

  /** Rows `i` and `j` of the room table carry different ids and different numbers. */
  predicate RoomsDiffer(rooms: seq<Room>, i: nat, j: nat)
    requires i < |rooms| && j < |rooms|
  {
    rooms[i].id != rooms[j].id && rooms[i].number != rooms[j].number
  }

  /** Room ids are unique (the primary key) and so are room numbers (`findByRoomNumber` returns one room). */
  ghost predicate RoomKeysUnique(rooms: seq<Room>) {
    forall i, j :: 0 <= i < j < |rooms| ==> RoomsDiffer(rooms, i, j)
  }

  /** Rows `i` and `j` of the booking table carry different ids. */
  predicate BookingsDiffer(bookings: seq<Booking>, i: nat, j: nat)
    requires i < |bookings| && j < |bookings|
  {
    bookings[i].id != bookings[j].id
  }

  /** Booking ids are unique (the primary key). */
  ghost predicate BookingIdsUnique(bookings: seq<Booking>) {
    forall i, j :: 0 <= i < j < |bookings| ==> BookingsDiffer(bookings, i, j)
  }

  /** Any two different rows of a keyed room table differ in id and in number. */
  lemma RoomsAt(rooms: seq<Room>, i: nat, j: nat)
    requires RoomKeysUnique(rooms) && i < |rooms| && j < |rooms| && i != j
    ensures RoomsDiffer(rooms, i, j)
  {
    if j < i {
      assert RoomsDiffer(rooms, j, i);
    }
  }

  /** Any two different rows of a keyed booking table differ in id. */
  lemma BookingsAt(bookings: seq<Booking>, i: nat, j: nat)
    requires BookingIdsUnique(bookings) && i < |bookings| && j < |bookings| && i != j
    ensures BookingsDiffer(bookings, i, j)
  {
    if j < i {
      assert BookingsDiffer(bookings, j, i);
    }
  }

  /** In a keyed booking table, the row the id look-up finds is the only row with that id. */
  lemma FindByIdIsTheRow(bookings: seq<Booking>, id: nat)
    requires BookingIdsUnique(bookings)
    ensures FindById(bookings, id).Some? ==>
              forall k :: 0 <= k < |bookings| && bookings[k].id == id ==> k == FindById(bookings, id).value
    ensures FindById(bookings, id).None? ==> forall k :: 0 <= k < |bookings| ==> bookings[k].id != id
  {
    if FindById(bookings, id).Some? {
      var i := FindById(bookings, id).value;
      forall k | 0 <= k < |bookings| && bookings[k].id == id ensures k == i {
        if k != i {
          BookingsAt(bookings, k, i);
        }
      }
    } else {
      forall k | 0 <= k < |bookings| ensures bookings[k].id != id {
        assert bookings[k] in bookings;
      }
    }
  }

  /** Every booking's guest and room exist (the foreign keys). */
  ghost predicate ReferencesResolve(rooms: seq<Room>, guests: map<nat, Guest>, bookings: seq<Booking>) {
    forall k :: 0 <= k < |bookings| ==> bookings[k].guestId in guests && FindRoomById(rooms, bookings[k].roomId).Some?
  }

  /** What the database's keys and foreign keys guarantee the service. */
  ghost predicate TableIntegrity(rooms: seq<Room>, guests: map<nat, Guest>, bookings: seq<Booking>) {
    RoomKeysUnique(rooms) && BookingIdsUnique(bookings) && ReferencesResolve(rooms, guests, bookings)
  }

  /** The identity counters lie above every id in use. */
  ghost predicate BelowCounters(guests: map<nat, Guest>, bookings: seq<Booking>, nextGuestId: nat, nextBookingId: nat) {
    (forall b :: b in bookings ==> b.id < nextBookingId) && (forall g :: g in guests ==> g < nextGuestId)
  }

  /** No guest without a booking: create makes a guest per booking, delete removes a guest with its last one. */
  ghost predicate EveryGuestBooked(guests: map<nat, Guest>, bookings: seq<Booking>) {
    forall g {:trigger GuestBooked(bookings, g)} :: g in guests ==> GuestBooked(bookings, g)
  }

  /** Some booking references guest `g`. */
  predicate GuestBooked(bookings: seq<Booking>, g: nat) {
    CountBookingsByGuestId(bookings, g) > 0
  }

  /** Every booking's ledger holds at most one ADVANCE entry. */
  ghost predicate AtMostOneAdvance(bookings: seq<Booking>) {
    forall b {:trigger SingleAdvance(b)} :: b in bookings ==> SingleAdvance(b)
  }

  /** The ledger of `b` holds at most one ADVANCE entry. */
  predicate SingleAdvance(b: Booking) {
    AdvanceCount(b.payments) <= 1
  }

  /** The state the service keeps. */
  ghost predicate Consistent(rooms: seq<Room>, guests: map<nat, Guest>, bookings: seq<Booking>, nextGuestId: nat, nextBookingId: nat) {
    && TableIntegrity(rooms, guests, bookings)
    && BelowCounters(guests, bookings, nextGuestId, nextBookingId)
    && EveryGuestBooked(guests, bookings)
    && AtMostOneAdvance(bookings)
  }

  // ---------------------------------------------------------------- read-backs

  /** The guest a create request describes. */
  function GuestFromRequest(dto: BookingDto): Guest {
    Guest(dto.fullName, dto.emailId, dto.mobileNumber)
  }

  /** The guest fields of an update: each supplied one replaces the stored one. */
  function MergeGuest(g: Guest, dto: BookingDto): Guest {
    Guest(Override(dto.fullName, g.fullName), Override(dto.emailId, g.email), Override(dto.mobileNumber, g.mobileNumber))
  }

  /**
    Each guest field an update supplies replaces the stored one and each null one
    keeps it; an update that names no guest field leaves the guest as it was, and
    merging twice is merging once.
  */
  lemma MergeGuestProperties(g: Guest, dto: BookingDto)
    ensures MergeGuest(g, dto).fullName == (if dto.fullName.Some? then dto.fullName else g.fullName)
    ensures MergeGuest(g, dto).email == (if dto.emailId.Some? then dto.emailId else g.email)
    ensures MergeGuest(g, dto).mobileNumber == (if dto.mobileNumber.Some? then dto.mobileNumber else g.mobileNumber)
    ensures dto.fullName.None? && dto.emailId.None? && dto.mobileNumber.None? ==> MergeGuest(g, dto) == g
    ensures MergeGuest(MergeGuest(g, dto), dto) == MergeGuest(g, dto)
  {
  }

  /** The DTO that getBookingDetailsById builds from a booking, its guest and its room's number. */
  function Details(roomNumber: string, guest: Guest, b: Booking): BookingDto {
    var adv := FirstAdvance(b.payments);
    BookingDto(
      guest.fullName, guest.email, guest.mobileNumber,
      Some(b.checkIn), Some(b.checkOut), Some(roomNumber),
      Some(b.amountPerNight), Some(b.totalAmount), b.source,
      if adv.Some? then b.payments[adv.value].advanceAmount else None,
      if adv.Some? then b.payments[adv.value].paidBy else None,
      b.notes, None)
  }

  /**
    `getBookingDetailsById`: BookingNotFound exactly when no booking has the id;
    otherwise the DTO of that booking, read through its guest and room.
  */
  function GetBookingDetailsById(rooms: seq<Room>, guests: map<nat, Guest>, bookings: seq<Booking>, id: nat): (r: Result<BookingDto, Error>)
    requires BookingIdsUnique(bookings) && ReferencesResolve(rooms, guests, bookings)
    ensures r.Failure? <==> forall k :: 0 <= k < |bookings| ==> bookings[k].id != id
    ensures r.Failure? ==> r.error == BookingNotFound
    ensures forall k :: 0 <= k < |bookings| && bookings[k].id == id ==>
              r == Success(Details(FindRoomById(rooms, bookings[k].roomId).value.number, guests[bookings[k].guestId], bookings[k]))
  {
    FindByIdIsTheRow(bookings, id);
    match FindById(bookings, id)
    case None => Failure(BookingNotFound)
    case Some(i) =>
      var b := bookings[i];
      Success(Details(FindRoomById(rooms, b.roomId).value.number, guests[b.guestId], b))
  }

  /**
    One row of getAllBookingDetails: the booking's id, source, dates and status, its
    guest's name and number, its room's number, the paid sum of its ledger, and the stored
    total less that sum as the balance.
  */
  function Summarize(rooms: seq<Room>, guests: map<nat, Guest>, b: Booking): (row: BookingResponse)
    requires b.guestId in guests && FindRoomById(rooms, b.roomId).Some?
    ensures row.id == b.id && row.status == b.status && row.checkIn == b.checkIn && row.checkOut == b.checkOut
    ensures row.guest == guests[b.guestId].fullName && row.contactNumber == guests[b.guestId].mobileNumber
    ensures row.bookingSource == b.source
    ensures row.room == FindRoomById(rooms, b.roomId).value.number
    ensures row.totalPaid == TotalPaid(b.payments)
    ensures row.totalPaid + row.balance == b.totalAmount
  {
    var paid := TotalPaid(b.payments);
    BookingResponse(
      b.id, guests[b.guestId].fullName, b.source, FindRoomById(rooms, b.roomId).value.number,
      b.checkIn, b.checkOut, b.status, paid, b.totalAmount - paid, guests[b.guestId].mobileNumber)
  }

  // ---------------------------------------------------------------- create and update, as values

  /** The room a create request names; a null room number finds nothing. */
  function RequestedRoom(rooms: seq<Room>, dto: BookingDto): (r: Option<Room>)
    ensures r.Some? ==> r.value in rooms && dto.roomNo == Some(r.value.number)
    ensures r.None? ==> dto.roomNo.None? || forall x :: x in rooms ==> x.number != dto.roomNo.value
  {
    if dto.roomNo.None? then None
    else
      FindRoomByNumberMisses(rooms, dto.roomNo.value);
      FindRoomByNumber(rooms, dto.roomNo.value)
  }

  /** The total create stores: rate × nights plus the additional charges. */
  function CreateTotal(dto: BookingDto): Money
    requires dto.checkIn.Some? && dto.checkOut.Some? && dto.nightlyRate.Some?
  {
    StayTotal(dto.nightlyRate.value, dto.checkIn.value, dto.checkOut.value, dto.additionalCharges)
  }

  /** The booking create saves, with its ledger of one ADVANCE entry when an advance is given, else none. */
  function BookingFromRequest(id: nat, guestId: nat, roomId: nat, dto: BookingDto): (b: Booking)
    requires dto.checkIn.Some? && dto.checkOut.Some? && dto.nightlyRate.Some?
    ensures b.status == CONFIRMED && b.id == id && b.guestId == guestId && b.roomId == roomId
    ensures b.totalAmount == CreateTotal(dto)
    ensures dto.advanceAmount.None? ==> b.payments == []
    ensures dto.advanceAmount.Some? ==>
              && |b.payments| == 1 && b.payments[0].kind == ADVANCE
              && b.payments[0].advanceAmount == dto.advanceAmount
              && b.payments[0].pendingAmount == Some(CreateTotal(dto) - dto.advanceAmount.value)
              && b.payments[0].paidBy == dto.paymentMethod
    ensures AdvanceCount(b.payments) == (if dto.advanceAmount.Some? then 1 else 0)
    ensures TotalPaid(b.payments) == dto.advanceAmount.GetOr(0)
  {
    var total := CreateTotal(dto);
    var payments := if dto.advanceAmount.Some? then [NewAdvance(dto.advanceAmount.value, dto.paymentMethod, total)] else [];
    assert payments != [] ==> payments[1..] == [];
    Booking(id, guestId, roomId, dto.checkIn.value, dto.checkOut.value, dto.bookingSource, dto.internalNotes,
            dto.nightlyRate.value, total, CONFIRMED, payments)
  }

  /**
    Reading a created booking back gives the request again, except that the total is
    the computed one, the charges are not returned, and a payment method is only
    kept together with an advance.
  */
  lemma CreateReadsBack(dto: BookingDto, id: nat, guestId: nat, room: Room)
    requires dto.checkIn.Some? && dto.checkOut.Some? && dto.nightlyRate.Some?
    requires dto.roomNo == Some(room.number)
    ensures Details(room.number, GuestFromRequest(dto), BookingFromRequest(id, guestId, room.id, dto))
         == dto.(totalAmount := Some(CreateTotal(dto)),
                 paymentMethod := if dto.advanceAmount.Some? then dto.paymentMethod else None,
                 additionalCharges := None)
  {
  }

  /** Whether an update names a room other than the booking's current one (lines 164 and 180). */
  predicate NamesOtherRoom(dto: BookingDto, current: Room) {
    dto.roomNo.Some? && dto.roomNo.value != current.number
  }

  /** Whether an update runs the conflict check: it changes room or gives either date. */
  predicate ChecksConflicts(dto: BookingDto, current: Room) {
    NamesOtherRoom(dto, current) || dto.checkIn.Some? || dto.checkOut.Some?
  }

  /** The booking's current room and the room an update puts it in (the same room when none other is named). */
  datatype Move = Move(current: Room, target: Room)

  /**
    The checks `updateBooking` makes on the booking at index `i` before it writes
    anything, in the order the source meets them: another room number that no room
    has; the room or dates change and another CONFIRMED booking of the proposed room
    overlaps the proposed stay (the booking's own id discounted); the nightly rate or
    either date is null (line 196 reads all three). Otherwise the move to make.
  */
  function PlanUpdate(rooms: seq<Room>, bookings: seq<Booking>, i: nat, dto: BookingDto): (r: Result<Move, Error>)
    requires RoomKeysUnique(rooms)
    requires i < |bookings| && FindRoomById(rooms, bookings[i].roomId).Some?
    ensures var b := bookings[i];
            var current := FindRoomById(rooms, b.roomId).value;
            var target := if NamesOtherRoom(dto, current) then FindRoomByNumber(rooms, dto.roomNo.value) else Some(current);
            if target.None? then r == Failure(RoomNotFound)
            else if ChecksConflicts(dto, current)
                    && !RoomIsFree(bookings, target.value.id, dto.checkIn.GetOr(b.checkIn), dto.checkOut.GetOr(b.checkOut), Some(b.id))
            then r == Failure(RoomUnavailable)
            else if dto.nightlyRate.None? || dto.checkIn.None? || dto.checkOut.None? then r == Failure(MissingField)
            else r == Success(Move(current, target.value))
    ensures r.Success? ==>
              && r.value.target in rooms
              && (r.value.target.id != r.value.current.id <==> NamesOtherRoom(dto, r.value.current))
  {
    var b := bookings[i];
    var current := FindRoomById(rooms, b.roomId).value;
    var target := if NamesOtherRoom(dto, current) then FindRoomByNumber(rooms, dto.roomNo.value) else Some(current);
    if target.None? then Failure(RoomNotFound)
    else
      var stayIn := dto.checkIn.GetOr(b.checkIn);
      var stayOut := dto.checkOut.GetOr(b.checkOut);
      UpdateConflictTest(bookings, target.value.id, stayIn, stayOut, b.id);
      if ChecksConflicts(dto, current)
         && |ExcludingId(FindOverlappingBookingsForRoom(bookings, target.value.id, stayIn, stayOut), b.id)| != 0
      then Failure(RoomUnavailable)
      else if dto.nightlyRate.None? || dto.checkIn.None? || dto.checkOut.None? then Failure(MissingField)
      else
        DistinctNumbersDistinctIds(rooms, target.value, current);
        Success(Move(current, target.value))
  }

  /**
    The booking an update saves: room and dates as proposed, source and notes
    overridden when supplied, rate from the request, ledger amended with the total
    that includes the charges, but the stored total recomputed at line 247 as
    rate × nights alone.
  */
  function UpdatedBooking(b: Booking, roomId: nat, dto: BookingDto): (u: Booking)
    requires dto.checkIn.Some? && dto.checkOut.Some? && dto.nightlyRate.Some?
    ensures u.id == b.id && u.guestId == b.guestId && u.status == b.status && u.roomId == roomId
    ensures u.checkIn == dto.checkIn.value && u.checkOut == dto.checkOut.value
    ensures u.amountPerNight == dto.nightlyRate.value
    ensures u.totalAmount == dto.nightlyRate.value * (dto.checkOut.value - dto.checkIn.value)
    ensures u.source == Override(dto.bookingSource, b.source) && u.notes == Override(dto.internalNotes, b.notes)
    ensures u.payments == AmendAdvance(b.payments, dto.advanceAmount, dto.paymentMethod, CreateTotal(dto))
  {
    b.(roomId := roomId,
       checkIn := dto.checkIn.value,
       checkOut := dto.checkOut.value,
       source := Override(dto.bookingSource, b.source),
       notes := Override(dto.internalNotes, b.notes),
       amountPerNight := dto.nightlyRate.value,
       totalAmount := dto.nightlyRate.value * (dto.checkOut.value - dto.checkIn.value),
       payments := AmendAdvance(b.payments, dto.advanceAmount, dto.paymentMethod, CreateTotal(dto)))
  }

  /**
    The same request prices a stay differently in create and update: create stores
    the charges in the total, update drops them from the stored total while the
    ADVANCE entry's pending amount still counts them.
  */
  lemma UpdateTotalOmitsCharges(b: Booking, roomId: nat, dto: BookingDto, id: nat, guestId: nat)
    requires dto.checkIn.Some? && dto.checkOut.Some? && dto.nightlyRate.Some?
    ensures BookingFromRequest(id, guestId, roomId, dto).totalAmount
         == UpdatedBooking(b, roomId, dto).totalAmount + ChargesSum(dto.additionalCharges)
  {
  }

  /**
    Reading an updated booking back returns the dates and rate of the request, the
    room number it names, every guest field it supplies, the advance it supplies,
    and a total without the charges.
  */
  lemma UpdateReadsBack(roomNumber: string, g: Guest, b: Booking, roomId: nat, dto: BookingDto)
    requires dto.checkIn.Some? && dto.checkOut.Some? && dto.nightlyRate.Some?
    requires dto.roomNo.Some? ==> roomNumber == dto.roomNo.value
    ensures var d := Details(roomNumber, MergeGuest(g, dto), UpdatedBooking(b, roomId, dto));
            && d.checkIn == dto.checkIn && d.checkOut == dto.checkOut && d.nightlyRate == dto.nightlyRate
            && d.totalAmount == Some(dto.nightlyRate.value * (dto.checkOut.value - dto.checkIn.value))
            && (dto.roomNo.Some? ==> d.roomNo == dto.roomNo)
            && (dto.fullName.Some? ==> d.fullName == dto.fullName)
            && (dto.emailId.Some? ==> d.emailId == dto.emailId)
            && (dto.mobileNumber.Some? ==> d.mobileNumber == dto.mobileNumber)
            && (dto.advanceAmount.Some? ==> d.advanceAmount == dto.advanceAmount)
            && (dto.paymentMethod.Some? && dto.advanceAmount.Some? ==> d.paymentMethod == dto.paymentMethod)
            && d.additionalCharges.None?
  {
  }

  /**
    The flag flip of a room change: the old room AVAILABLE, then the new one BOOKED;
    every other room's flag as before.
  */
  function MoveRoomFlags(flags: RoomFlags, from: nat, to: nat): (r: RoomFlags)
    ensures to in r && r[to] == BOOKED
    ensures from != to ==> from in r && r[from] == AVAILABLE
    ensures forall id :: id != from && id != to ==> RoomStatusOf(r, id) == RoomStatusOf(flags, id)
  {
    flags[from := AVAILABLE][to := BOOKED]
  }

  /** In rooms with unique ids and numbers, two rooms with different numbers have different ids. */
  lemma DistinctNumbersDistinctIds(rooms: seq<Room>, x: Room, y: Room)
    requires RoomKeysUnique(rooms)
    requires x in rooms && y in rooms
    ensures x.number != y.number ==> x.id != y.id
  {
    var i :| 0 <= i < |rooms| && rooms[i] == x;
    var j :| 0 <= j < |rooms| && rooms[j] == y;
    if i != j {
      RoomsAt(rooms, i, j);
    }
  }

  /** The id look-up finds a room of the table under its own id. */
  lemma FindRoomIdOfMember(rooms: seq<Room>, x: Room)
    requires RoomKeysUnique(rooms)
    requires x in rooms
    ensures FindRoomById(rooms, x.id) == Some(x)
  {
    FindRoomByIdMisses(rooms, x.id);
    var y := FindRoomById(rooms, x.id).value;
    var i :| 0 <= i < |rooms| && rooms[i] == x;
    var j :| 0 <= j < |rooms| && rooms[j] == y;
    if i != j {
      RoomsAt(rooms, i, j);
    }
  }

  // ---------------------------------------------------------------- the transitions keep the invariant

  /**
    Saving the guest and booking of a create request keeps the store consistent, and
    the new booking reads back as its request (see CreateReadsBack).
  */
  lemma CreatePreservesConsistency(rooms: seq<Room>, guests: map<nat, Guest>, bookings: seq<Booking>,
                                   nextGuestId: nat, nextBookingId: nat, dto: BookingDto, room: Room)
    requires Consistent(rooms, guests, bookings, nextGuestId, nextBookingId)
    requires room in rooms && dto.roomNo == Some(room.number)
    requires dto.checkIn.Some? && dto.checkOut.Some? && dto.nightlyRate.Some?
    ensures nextGuestId !in guests
    ensures var b := BookingFromRequest(nextBookingId, nextGuestId, room.id, dto);
            var guests' := guests[nextGuestId := GuestFromRequest(dto)];
            && Consistent(rooms, guests', bookings + [b], nextGuestId + 1, nextBookingId + 1)
            && GetBookingDetailsById(rooms, guests', bookings + [b], nextBookingId)
               == Success(dto.(totalAmount := Some(CreateTotal(dto)),
                               paymentMethod := if dto.advanceAmount.Some? then dto.paymentMethod else None,
                               additionalCharges := None))
  {
    var b := BookingFromRequest(nextBookingId, nextGuestId, room.id, dto);
    var guests' := guests[nextGuestId := GuestFromRequest(dto)];
    var bookings' := bookings + [b];
    FindRoomIdOfMember(rooms, room);
    AppendKeepsIdsUnique(bookings, b, nextBookingId);
    assert EveryGuestBooked(guests', bookings') by {
      forall g | g in guests' ensures GuestBooked(bookings', g) {
        CountAppend(bookings, b, g);
        if g != nextGuestId {
          assert GuestBooked(bookings, g);
        }
      }
    }
    assert TableIntegrity(rooms, guests', bookings');
    assert bookings'[|bookings|] == b;
    assert b in bookings';
    CreateReadsBack(dto, nextBookingId, nextGuestId, room);
  }

  /** Appending a row whose id lies above every id in use keeps the ids unique. */
  lemma AppendKeepsIdsUnique(bookings: seq<Booking>, b: Booking, nextBookingId: nat)
    requires BookingIdsUnique(bookings)
    requires forall x :: x in bookings ==> x.id < nextBookingId
    requires b.id == nextBookingId
    ensures BookingIdsUnique(bookings + [b])
  {
    var bookings' := bookings + [b];
    forall i, j | 0 <= i < j < |bookings'| ensures BookingsDiffer(bookings', i, j) {
      assert bookings'[i] == bookings[i];
      assert bookings[i] in bookings;
      if j < |bookings| {
        assert bookings'[j] == bookings[j];
        assert BookingsDiffer(bookings, i, j);
      }
    }
  }

  /** Replacing a row by one with the same id and guest keeps the ids unique and every guest's count. */
  lemma ReplaceKeepsKeys(guests: map<nat, Guest>, bookings: seq<Booking>, i: nat, u: Booking)
    requires i < |bookings| && u.id == bookings[i].id && u.guestId == bookings[i].guestId
    requires BookingIdsUnique(bookings) && EveryGuestBooked(guests, bookings)
    ensures BookingIdsUnique(bookings[i := u])
    ensures EveryGuestBooked(guests, bookings[i := u])
  {
    var bookings' := bookings[i := u];
    forall p, q | 0 <= p < q < |bookings'| ensures BookingsDiffer(bookings', p, q) {
      assert BookingsDiffer(bookings, p, q);
    }
    forall h | h in guests ensures GuestBooked(bookings', h) {
      assert GuestBooked(bookings, h);
      CountSeesOnlyGuests(bookings, bookings', h);
    }
  }

  /**
    Saving an update (the merged guest and the updated booking in its place) keeps
    the store consistent, and the booking reads back under its id with the proposed
    room's number.
  */
  lemma UpdatePreservesConsistency(rooms: seq<Room>, guests: map<nat, Guest>, bookings: seq<Booking>,
                                   nextGuestId: nat, nextBookingId: nat, i: nat, dto: BookingDto, target: Room)
    requires Consistent(rooms, guests, bookings, nextGuestId, nextBookingId)
    requires i < |bookings| && target in rooms
    requires dto.checkIn.Some? && dto.checkOut.Some? && dto.nightlyRate.Some?
    ensures bookings[i].guestId in guests
    ensures var g := bookings[i].guestId;
            var guests' := guests[g := MergeGuest(guests[g], dto)];
            var bookings' := bookings[i := UpdatedBooking(bookings[i], target.id, dto)];
            && Consistent(rooms, guests', bookings', nextGuestId, nextBookingId)
            && GetBookingDetailsById(rooms, guests', bookings', bookings[i].id)
               == Success(Details(target.number, guests'[g], bookings'[i]))
  {
    var b := bookings[i];
    var g := b.guestId;
    var u := UpdatedBooking(b, target.id, dto);
    var guests' := guests[g := MergeGuest(guests[g], dto)];
    var bookings' := bookings[i := u];
    assert forall x :: x in bookings' ==> x == u || x in bookings by {
      forall x | x in bookings' ensures x == u || x in bookings {
        var k :| 0 <= k < |bookings'| && bookings'[k] == x;
        if k != i {
          assert bookings[k] == x;
        }
      }
    }
    assert bookings[i] in bookings;
    FindRoomIdOfMember(rooms, target);
    ReplaceKeepsKeys(guests, bookings, i, u);
    assert EveryGuestBooked(guests', bookings');
    assert AtMostOneAdvance(bookings') by {
      assert SingleAdvance(b);
      AmendAdvanceKeepsOneAdvance(b.payments, dto.advanceAmount, dto.paymentMethod, CreateTotal(dto));
    }
    assert ReferencesResolve(rooms, guests', bookings') by {
      forall k | 0 <= k < |bookings'|
        ensures bookings'[k].guestId in guests' && FindRoomById(rooms, bookings'[k].roomId).Some?
      {
        if k != i {
          assert bookings'[k] == bookings[k];
        }
      }
    }
    assert BelowCounters(guests', bookings', nextGuestId, nextBookingId);
  }

  /** The table without the row at index `i`: the rows before it, then the rows after it. */
  function RemoveAt(bookings: seq<Booking>, i: nat): (r: seq<Booking>)
    requires i < |bookings|
    ensures |r| == |bookings| - 1
    ensures forall k :: 0 <= k < |r| ==> r[k] == if k < i then bookings[k] else bookings[k + 1]
  {
    bookings[..i] + bookings[i + 1..]
  }

  /** Every row left after a removal was a row before it. */
  lemma RemoveAtKeepsRows(bookings: seq<Booking>, i: nat)
    requires i < |bookings|
    ensures forall x :: x in RemoveAt(bookings, i) ==> x in bookings
  {
    var rest := RemoveAt(bookings, i);
    forall x | x in rest ensures x in bookings {
      var k :| 0 <= k < |rest| && rest[k] == x;
      assert x == bookings[if k < i then k else k + 1];
    }
  }

  /** Removing a row of a table with distinct ids keeps the ids distinct and drops every row with the removed id. */
  lemma RemoveAtKeepsIdsUnique(bookings: seq<Booking>, i: nat)
    requires i < |bookings|
    requires BookingIdsUnique(bookings)
    ensures BookingIdsUnique(RemoveAt(bookings, i))
    ensures forall x :: x in RemoveAt(bookings, i) ==> x.id != bookings[i].id
  {
    var rest := RemoveAt(bookings, i);
    forall x | x in rest ensures x.id != bookings[i].id {
      var k :| 0 <= k < |rest| && rest[k] == x;
      var k' := if k < i then k else k + 1;
      assert x == bookings[k'];
      BookingsAt(bookings, k', i);
    }
    forall p, q | 0 <= p < q < |rest| ensures BookingsDiffer(rest, p, q) {
      var p' := if p < i then p else p + 1;
      var q' := if q < i then q else q + 1;
      assert rest[p] == bookings[p'] && rest[q] == bookings[q'];
      assert BookingsDiffer(bookings, p', q');
    }
  }

  /**
    Removing a booking, and its guest exactly when the remaining count of that guest
    is zero, leaves every remaining booking's guest in place and every guest booked.
  */
  lemma DeleteKeepsGuests(rooms: seq<Room>, guests: map<nat, Guest>, bookings: seq<Booking>, i: nat)
    requires i < |bookings|
    requires ReferencesResolve(rooms, guests, bookings) && EveryGuestBooked(guests, bookings)
    ensures var rest := RemoveAt(bookings, i);
            var g := bookings[i].guestId;
            var guests' := if CountBookingsByGuestId(rest, g) == 0 then guests - {g} else guests;
            ReferencesResolve(rooms, guests', rest) && EveryGuestBooked(guests', rest)
  {
    var rest := RemoveAt(bookings, i);
    var g := bookings[i].guestId;
    var guests' := if CountBookingsByGuestId(rest, g) == 0 then guests - {g} else guests;
    forall h | h in guests' ensures GuestBooked(rest, h) {
      assert GuestBooked(bookings, h);
      CountRemoveAt(bookings, i, h);
    }
    forall k | 0 <= k < |rest| ensures rest[k].guestId in guests' && FindRoomById(rooms, rest[k].roomId).Some? {
      assert rest[k] == bookings[if k < i then k else k + 1];
      if rest[k].guestId == g {
        CountBookingsNonZero(rest, rest[k]);
      }
    }
  }

  /**
    Removing the booking at index `i`, and its guest when no remaining booking
    references it, keeps the store consistent, and no remaining booking has its id.
  */
  lemma DeletePreservesConsistency(rooms: seq<Room>, guests: map<nat, Guest>, bookings: seq<Booking>,
                                   nextGuestId: nat, nextBookingId: nat, i: nat)
    requires Consistent(rooms, guests, bookings, nextGuestId, nextBookingId)
    requires i < |bookings|
    ensures var rest := RemoveAt(bookings, i);
            var g := bookings[i].guestId;
            && Consistent(rooms, if CountBookingsByGuestId(rest, g) == 0 then guests - {g} else guests, rest, nextGuestId, nextBookingId)
            && forall b :: b in rest ==> b.id != bookings[i].id
  {
    var rest := RemoveAt(bookings, i);
    var g := bookings[i].guestId;
    var guests' := if CountBookingsByGuestId(rest, g) == 0 then guests - {g} else guests;
    RemoveAtKeepsRows(bookings, i);
    RemoveAtKeepsIdsUnique(bookings, i);
    DeleteKeepsGuests(rooms, guests, bookings, i);
    assert BelowCounters(guests', rest, nextGuestId, nextBookingId);
    assert AtMostOneAdvance(rest);
    assert TableIntegrity(rooms, guests', rest);
  }

  /** A table that holds a booking of guest g counts g at least once. */
  lemma CountBookingsNonZero(bookings: seq<Booking>, b: Booking)
    requires b in bookings
    ensures CountBookingsByGuestId(bookings, b.guestId) > 0
  {
    CountZeroIffUnreferenced(bookings, b.guestId);
  }

  // ---------------------------------------------------------------- the store

  /** The room, guest and booking tables, and the identity counters of guests and bookings. */
  class Store {
    var rooms: seq<Room>
    var flags: RoomFlags
    var guests: map<nat, Guest>
    var bookings: seq<Booking>
    var nextGuestId: nat
    var nextBookingId: nat

    ghost predicate Valid()
      reads this
    {
      Consistent(rooms, guests, bookings, nextGuestId, nextBookingId)
    }

    constructor (rooms0: seq<Room>, flags0: RoomFlags, guests0: map<nat, Guest>, bookings0: seq<Booking>, nextGuestId0: nat, nextBookingId0: nat)
      requires Consistent(rooms0, guests0, bookings0, nextGuestId0, nextBookingId0)
      ensures Valid()
      ensures rooms == rooms0 && flags == flags0 && guests == guests0 && bookings == bookings0
      ensures nextGuestId == nextGuestId0 && nextBookingId == nextBookingId0
    {
      rooms, flags, guests, bookings := rooms0, flags0, guests0, bookings0;
      nextGuestId, nextBookingId := nextGuestId0, nextBookingId0;
    }

    /**
      `createBooking`. Errors, in the order the source meets them: the room number is
      unknown (or null); a date is null; a CONFIRMED booking of the room overlaps the
      stay; the nightly rate is null. Otherwise one new guest and one new CONFIRMED
      booking are saved, and the room is no longer available for those dates.
    */
    method CreateBooking(dto: BookingDto) returns (r: Result<Booking, Error>)
      requires Valid()
      modifies this
      ensures Valid()
      ensures rooms == old(rooms) && flags == old(flags)
      ensures r.Failure? ==> unchanged(this)
      ensures var found := RequestedRoom(old(rooms), dto);
              if found.None? then r == Failure(RoomNotFound)
              else if dto.checkIn.None? || dto.checkOut.None? then r == Failure(MissingField)
              else if !RoomIsFree(old(bookings), found.value.id, dto.checkIn.value, dto.checkOut.value, None) then r == Failure(RoomUnavailable)
              else if dto.nightlyRate.None? then r == Failure(MissingField)
              else
                && r == Success(BookingFromRequest(old(nextBookingId), old(nextGuestId), found.value.id, dto))
                && bookings == old(bookings) + [r.value]
                && old(nextGuestId) !in old(guests)
                && guests == old(guests)[old(nextGuestId) := GuestFromRequest(dto)]
                && nextGuestId == old(nextGuestId) + 1 && nextBookingId == old(nextBookingId) + 1
      ensures r.Success? ==>
                GetBookingDetailsById(rooms, guests, bookings, r.value.id)
                == Success(dto.(totalAmount := Some(r.value.totalAmount),
                                paymentMethod := if dto.advanceAmount.Some? then dto.paymentMethod else None,
                                additionalCharges := None))
      ensures r.Success? && r.value.checkIn < r.value.checkOut ==>
                forall x :: x in GetRoomsAvailable(rooms, bookings, r.value.checkIn, r.value.checkOut) ==> x.id != r.value.roomId
    {
      var found := RequestedRoom(rooms, dto);
      if found.None? {
        return Failure(RoomNotFound);
      }
      if dto.checkIn.None? || dto.checkOut.None? {
        return Failure(MissingField);
      }
      var room := found.value;
      var conflicts := FindOverlappingBookingsForRoom(bookings, room.id, dto.checkIn.value, dto.checkOut.value);
      CreateConflictTest(bookings, room.id, dto.checkIn.value, dto.checkOut.value);
      if |conflicts| != 0 {
        return Failure(RoomUnavailable);
      }
      if dto.nightlyRate.None? {
        return Failure(MissingField);
      }
      var b := BookingFromRequest(nextBookingId, nextGuestId, room.id, dto);
      CreatePreservesConsistency(rooms, guests, bookings, nextGuestId, nextBookingId, dto, room);
      guests := guests[nextGuestId := GuestFromRequest(dto)];
      bookings := bookings + [b];
      nextGuestId := nextGuestId + 1;
      nextBookingId := nextBookingId + 1;
      if b.checkIn < b.checkOut {
        assert b in bookings;
        OwnBookingConflictsWithItself(bookings, b);
      }
      r := Success(b);
    }

    /**
      `updateBooking`: BookingNotFound when no booking has the id; otherwise the
      checks of PlanUpdate, and when they pass the guest fields supplied are merged,
      the room flags flipped if the booking changes room, the booking rewritten in
      place, and the booking read back.
    */
    method UpdateBooking(id: nat, dto: BookingDto) returns (r: Result<BookingDto, Error>)
      requires Valid()
      modifies this
      ensures Valid()
      ensures rooms == old(rooms) && nextGuestId == old(nextGuestId) && nextBookingId == old(nextBookingId)
      ensures r.Failure? ==> unchanged(this)
      ensures match FindById(old(bookings), id)
              case None => r == Failure(BookingNotFound)
              case Some(i) =>
                match PlanUpdate(old(rooms), old(bookings), i, dto)
                case Failure(e) => r == Failure(e)
                case Success(m) =>
                  var g := old(bookings)[i].guestId;
                  && guests == old(guests)[g := MergeGuest(old(guests)[g], dto)]
                  && flags == (if m.target.id != m.current.id then MoveRoomFlags(old(flags), m.current.id, m.target.id) else old(flags))
                  && bookings == old(bookings)[i := UpdatedBooking(old(bookings)[i], m.target.id, dto)]
                  && r == Success(Details(m.target.number, guests[g], bookings[i]))
    {
      var found := FindById(bookings, id);
      if found.None? {
        return Failure(BookingNotFound);
      }
      var i := found.value;
      var plan := PlanUpdate(rooms, bookings, i, dto);
      if plan.Failure? {
        return Failure(plan.error);
      }
      r := SaveUpdate(i, dto, plan.value);
    }

    /**
      The writes of an update that passed its checks: the guest fields supplied are
      merged, the old room flagged AVAILABLE and the new one BOOKED when the booking
      changes room, the booking rewritten in place; then the booking is read back.
    */
    method SaveUpdate(i: nat, dto: BookingDto, m: Move) returns (r: Result<BookingDto, Error>)
      requires Valid()
      requires i < |bookings| && m.target in rooms
      requires dto.checkIn.Some? && dto.checkOut.Some? && dto.nightlyRate.Some?
      modifies this
      ensures Valid()
      ensures rooms == old(rooms) && nextGuestId == old(nextGuestId) && nextBookingId == old(nextBookingId)
      ensures var g := old(bookings)[i].guestId;
              && guests == old(guests)[g := MergeGuest(old(guests)[g], dto)]
              && flags == (if m.target.id != m.current.id then MoveRoomFlags(old(flags), m.current.id, m.target.id) else old(flags))
              && bookings == old(bookings)[i := UpdatedBooking(old(bookings)[i], m.target.id, dto)]
              && r == Success(Details(m.target.number, guests[g], bookings[i]))
    {
      var existing := bookings[i];
      var newFlags := if m.target.id != m.current.id then MoveRoomFlags(flags, m.current.id, m.target.id) else flags;
      UpdatePreservesConsistency(rooms, guests, bookings, nextGuestId, nextBookingId, i, dto, m.target);
      var newGuests := guests[existing.guestId := MergeGuest(guests[existing.guestId], dto)];
      var newBookings := bookings[i := UpdatedBooking(existing, m.target.id, dto)];
      r := GetBookingDetailsById(rooms, newGuests, newBookings, existing.id);
      flags, guests, bookings := newFlags, newGuests, newBookings;
    }

    /**
      `deleteBooking`: BookingNotFound when no booking has the id; otherwise the
      booking is removed and its guest too when no other booking references the
      guest. Room flags are not touched.
    */
    method DeleteBooking(id: nat) returns (r: Result<(), Error>)
      requires Valid()
      modifies this
      ensures Valid()
      ensures rooms == old(rooms) && flags == old(flags)
      ensures nextGuestId == old(nextGuestId) && nextBookingId == old(nextBookingId)
      ensures r.Failure? ==> unchanged(this)
      ensures match FindById(old(bookings), id)
              case None => r == Failure(BookingNotFound)
              case Some(i) =>
                var g := old(bookings)[i].guestId;
                && r == Success(())
                && bookings == RemoveAt(old(bookings), i)
                && guests == (if CountBookingsByGuestId(bookings, g) == 0 then old(guests) - {g} else old(guests))
                && (g in guests <==> exists b :: b in bookings && b.guestId == g)
      ensures r.Success? ==> forall b :: b in bookings ==> b.id != id
    {
      var found := FindById(bookings, id);
      if found.None? {
        return Failure(BookingNotFound);
      }
      var i := found.value;
      var g := bookings[i].guestId;
      var rest := RemoveAt(bookings, i);
      DeletePreservesConsistency(rooms, guests, bookings, nextGuestId, nextBookingId, i);
      CountZeroIffUnreferenced(rest, g);
      var newGuests := guests;
      if CountBookingsByGuestId(rest, g) == 0 {
        newGuests := guests - {g};
      }
      guests, bookings := newGuests, rest;
      r := Success(());
    }

    /**
      `getAllBookingDetails`: one row per booking, in table order; the paid sum is the
      ledger's advance amounts and the balance is the stored total less that sum.
    */
    method GetAllBookingDetails() returns (rows: seq<BookingResponse>)
      requires Valid()
      ensures |rows| == |bookings|
      ensures forall k :: 0 <= k < |rows| ==> rows[k] == Summarize(rooms, guests, bookings[k])
    {
      var all := bookings;
      rows := [];
      var n := 0;
      while n < |all|
        invariant 0 <= n <= |all|
        invariant |rows| == n
        invariant forall k :: 0 <= k < n ==> rows[k] == Summarize(rooms, guests, all[k])
      {
        rows := rows + [Summarize(rooms, guests, all[n])];
        n := n + 1;
      }
    }
  }
}
