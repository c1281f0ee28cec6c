/**
  The three JPQL queries of the booking repository, as filters over the booking
  table in its stored order, and the facts about them that availability and the
  conflict checks rely on.
*/
module BookingRepository {
  import opened Wrappers
  import opened Entities

  /**
    The interval test of both overlap queries: a stay [checkIn, checkOut) meets the
    requested [reqIn, reqOut) when it starts before the request ends and ends after
    the request starts. Both ends are exclusive, so stays that only touch do not meet.
  */
  predicate Overlaps(checkIn: Day, checkOut: Day, reqIn: Day, reqOut: Day) {
    checkIn < reqOut && checkOut > reqIn
  }

  /** A booking is returned by the overlap queries: it is CONFIRMED and its stay overlaps the request. */
  predicate Blocks(b: Booking, reqIn: Day, reqOut: Day) {
    b.status == CONFIRMED && Overlaps(b.checkIn, b.checkOut, reqIn, reqOut)
  }

  /** The general overlap query (BookingRepository.java:21-25): the blocking bookings, in table order. */
  function FindOverlappingBookings(bookings: seq<Booking>, reqIn: Day, reqOut: Day): (r: seq<Booking>)
    ensures |r| <= |bookings|
    ensures forall b :: b in r <==> b in bookings && Blocks(b, reqIn, reqOut)
  {
    if |bookings| == 0 then []
    else if Blocks(bookings[0], reqIn, reqOut) then [bookings[0]] + FindOverlappingBookings(bookings[1..], reqIn, reqOut)
    else FindOverlappingBookings(bookings[1..], reqIn, reqOut)
  }

  /** The per-room overlap query (BookingRepository.java:27-32); the room match compares room ids. */
  function FindOverlappingBookingsForRoom(bookings: seq<Booking>, roomId: nat, reqIn: Day, reqOut: Day): (r: seq<Booking>)
    ensures |r| <= |bookings|
    ensures forall b :: b in r <==> b in bookings && b.roomId == roomId && Blocks(b, reqIn, reqOut)
  {
    if |bookings| == 0 then []
    else if bookings[0].roomId == roomId && Blocks(bookings[0], reqIn, reqOut) then
      [bookings[0]] + FindOverlappingBookingsForRoom(bookings[1..], roomId, reqIn, reqOut)
    else FindOverlappingBookingsForRoom(bookings[1..], roomId, reqIn, reqOut)
  }

  /** `findById`: the position of the booking with this id. */
  function FindById(bookings: seq<Booking>, id: nat): (r: Option<nat>)
    ensures r.Some? ==> r.value < |bookings| && bookings[r.value].id == id
    ensures r.None? ==> forall b :: b in bookings ==> b.id != id
  {
    if |bookings| == 0 then None
    else if bookings[0].id == id then Some(0)
    else match FindById(bookings[1..], id)
      case None => None
      case Some(k) => Some(k + 1)
  }

  /** The bookings of one room, in order. */
  function OfRoom(bookings: seq<Booking>, roomId: nat): seq<Booking> {
    if |bookings| == 0 then []
    else if bookings[0].roomId == roomId then [bookings[0]] + OfRoom(bookings[1..], roomId)
    else OfRoom(bookings[1..], roomId)
  }

  /** The display flag of a booking's room, through the `JOIN b.room r`. */
  function RoomStatusOf(flags: RoomFlags, roomId: nat): Option<RoomStatus> {
    if roomId in flags then Some(flags[roomId]) else None
  }

  /**
    `findExpiredBookingsWithBookedRooms(currentTime)`: CONFIRMED bookings whose
    check-out instant lies strictly before `now` and whose room is flagged BOOKED.
  */
  function FindExpiredBookingsWithBookedRooms(bookings: seq<Booking>, flags: RoomFlags, now: Instant): (r: seq<Booking>)
    ensures |r| <= |bookings|
    ensures forall b :: b in r <==>
              && b in bookings
              && StartOfDay(b.checkOut) < now
              && b.status == CONFIRMED
              && RoomStatusOf(flags, b.roomId) == Some(BOOKED)
  {
    if |bookings| == 0 then []
    else
      var b := bookings[0];
      var rest := FindExpiredBookingsWithBookedRooms(bookings[1..], flags, now);
      if StartOfDay(b.checkOut) < now && b.status == CONFIRMED && RoomStatusOf(flags, b.roomId) == Some(BOOKED)
      then [b] + rest
      else rest
  }

  /** Night `d` lies in the stay [checkIn, checkOut). */
  predicate Occupies(checkIn: Day, checkOut: Day, d: Day) {
    checkIn <= d < checkOut
  }

  /**
    For non-empty stays the overlap test is what it is meant to be: the two stays
    share a night.
  */
  lemma OverlapsIffCommonNight(checkIn: Day, checkOut: Day, reqIn: Day, reqOut: Day)
    requires checkIn < checkOut && reqIn < reqOut
    ensures Overlaps(checkIn, checkOut, reqIn, reqOut)
        <==> exists d :: Occupies(checkIn, checkOut, d) && Occupies(reqIn, reqOut, d)
  {
    if Overlaps(checkIn, checkOut, reqIn, reqOut) {
      var d := if checkIn < reqIn then reqIn else checkIn;
      assert Occupies(checkIn, checkOut, d) && Occupies(reqIn, reqOut, d);
    }
  }

  /** The overlap test does not depend on which interval is the stored one. */
  lemma OverlapsSymmetric(in1: Day, out1: Day, in2: Day, out2: Day)
    ensures Overlaps(in1, out1, in2, out2) == Overlaps(in2, out2, in1, out1)
  {
  }

  /** A stay that ends on the day another begins does not overlap it, in either order. */
  lemma AdjacentStaysDoNotOverlap(in1: Day, out1: Day, out2: Day)
    ensures !Overlaps(in1, out1, out1, out2)
    ensures !Overlaps(out1, out2, in1, out1)
  {
  }

  /**
    Every non-empty stay overlaps itself, so a CONFIRMED booking is always among the
    conflicts for its own room and dates: an update that keeps or shifts a booking's
    dates must discount the booking's own id.
  */
  lemma OwnBookingConflictsWithItself(bookings: seq<Booking>, b: Booking)
    requires b in bookings && b.status == CONFIRMED && b.checkIn < b.checkOut
    ensures Overlaps(b.checkIn, b.checkOut, b.checkIn, b.checkOut)
    ensures b in FindOverlappingBookingsForRoom(bookings, b.roomId, b.checkIn, b.checkOut)
    ensures b in FindOverlappingBookings(bookings, b.checkIn, b.checkOut)
  {
  }

  /** A booking that is not CONFIRMED (CANCELLED, say) is never returned by either overlap query. */
  lemma UnconfirmedNeverOverlaps(bookings: seq<Booking>, b: Booking, roomId: nat, reqIn: Day, reqOut: Day)
    requires b.status != CONFIRMED
    ensures b !in FindOverlappingBookings(bookings, reqIn, reqOut)
    ensures b !in FindOverlappingBookingsForRoom(bookings, roomId, reqIn, reqOut)
  {
  }

  /** The per-room query is the general query restricted to that room, order included. */
  lemma {:induction false} ForRoomIsRestriction(bookings: seq<Booking>, roomId: nat, reqIn: Day, reqOut: Day)
    ensures FindOverlappingBookingsForRoom(bookings, roomId, reqIn, reqOut)
         == OfRoom(FindOverlappingBookings(bookings, reqIn, reqOut), roomId)
  {
    if |bookings| != 0 {
      ForRoomIsRestriction(bookings[1..], roomId, reqIn, reqOut);
      var rest := FindOverlappingBookings(bookings[1..], reqIn, reqOut);
      if Blocks(bookings[0], reqIn, reqOut) {
        assert ([bookings[0]] + rest)[1..] == rest;
      }
    }
  }

  /** For a query instant at the start of day `d`, a booking has expired when it checked out before `d`. */
  lemma ExpiredAtStartOfDay(bookings: seq<Booking>, flags: RoomFlags, b: Booking, d: Day)
    requires b in bookings && b.status == CONFIRMED && RoomStatusOf(flags, b.roomId) == Some(BOOKED)
    ensures b in FindExpiredBookingsWithBookedRooms(bookings, flags, StartOfDay(d)) <==> b.checkOut < d
  {
  }
}
