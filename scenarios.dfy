/**
  Concrete situations from the source's tests, as lemmas about the model. Days are
  epoch days: 20450 is 2025-12-28, 20452 is 2025-12-30, 20453 is 2025-12-31 and
  20454 is 2026-01-01. Room 101 has id 1, room 102 has id 2.
*/
module Scenarios {
  import opened Wrappers
  import opened Entities
  import opened BookingRepository
  import opened GuestRepository
  import opened BookingService

  const Room101 := Room(1, "101")
  const Room102 := Room(2, "102")
  const Hotel := [Room101, Room102]

  /** A booking with no source, notes, money or ledger. */
  function Stay(id: nat, guestId: nat, roomId: nat, checkIn: Day, checkOut: Day, status: BookingStatus): Booking {
    Booking(id, guestId, roomId, checkIn, checkOut, None, None, 0, 0, status, [])
  }

  /** A request that gives only the fields named. */
  function Request(checkIn: Option<Day>, checkOut: Option<Day>, roomNo: Option<string>, rate: Option<Money>): BookingDto {
    BookingDto(None, None, None, checkIn, checkOut, roomNo, rate, None, None, None, None, None, None)
  }

  lemma HotelKeysUnique()
    ensures RoomKeysUnique(Hotel)
  {
    assert RoomsDiffer(Hotel, 0, 1);
  }

  /** Availability over the two-room hotel keeps each room whose id is not blocked, in order. */
  lemma HotelWithout(ids: set<nat>)
    ensures WithoutRoomIds(Hotel, ids) == (if 1 in ids then [] else [Room101]) + (if 2 in ids then [] else [Room102])
  {
    assert Hotel[1..] == [Room102];
    assert [Room102][1..] == [];
  }

  /**
    Room 101 booked 30 to 31 December is available again from 31 December: the
    search for 31 December to 1 January returns both rooms.
  */
  lemma AvailabilityBoundary()
    ensures GetRoomsAvailable(Hotel, [Stay(1, 1, 1, 20452, 20453, CONFIRMED)], 20453, 20454) == Hotel
  {
    var bookings := [Stay(1, 1, 1, 20452, 20453, CONFIRMED)];
    assert FindOverlappingBookings(bookings, 20453, 20454) == [];
    HotelWithout(BlockedRoomIds(bookings, 20453, 20454));
  }

  /** The calendar of the multi-room test: 101 on 28, 30 and 31 December, 102 on 31 December. */
  const Calendar := [
    Stay(1, 1, 1, 20450, 20451, CONFIRMED),
    Stay(2, 2, 1, 20452, 20453, CONFIRMED),
    Stay(3, 3, 1, 20453, 20454, CONFIRMED),
    Stay(4, 4, 2, 20453, 20454, CONFIRMED)]

  /** The calendar in table order, each suffix spelled out. */
  lemma CalendarSuffixes()
    ensures Calendar[1..] == [Calendar[1], Calendar[2], Calendar[3]]
    ensures Calendar[1..][1..] == [Calendar[2], Calendar[3]]
    ensures Calendar[1..][1..][1..] == [Calendar[3]]
    ensures Calendar[1..][1..][1..][1..] == []
  {
  }

  /** On 28 December room 101 is taken and only room 102 is offered. */
  lemma CalendarNight28()
    ensures GetRoomsAvailable(Hotel, Calendar, 20450, 20451) == [Room102]
  {
    CalendarSuffixes();
    assert FindOverlappingBookings(Calendar, 20450, 20451) == [Calendar[0]];
    assert BlockedRoomIds(Calendar, 20450, 20451) == {1};
    HotelWithout({1});
  }

  /** On 29 December nothing is booked and both rooms are offered. */
  lemma CalendarNight29()
    ensures GetRoomsAvailable(Hotel, Calendar, 20451, 20452) == Hotel
  {
    CalendarSuffixes();
    assert FindOverlappingBookings(Calendar, 20451, 20452) == [];
    assert BlockedRoomIds(Calendar, 20451, 20452) == {};
    HotelWithout({});
  }

  /** On 30 December room 101 is taken and only room 102 is offered. */
  lemma CalendarNight30()
    ensures GetRoomsAvailable(Hotel, Calendar, 20452, 20453) == [Room102]
  {
    CalendarSuffixes();
    assert FindOverlappingBookings(Calendar, 20452, 20453) == [Calendar[1]];
    assert BlockedRoomIds(Calendar, 20452, 20453) == {1};
    HotelWithout({1});
  }

  /** On 31 December both rooms are taken and none is offered. */
  lemma CalendarNight31()
    ensures GetRoomsAvailable(Hotel, Calendar, 20453, 20454) == []
  {
    CalendarSuffixes();
    assert FindOverlappingBookings(Calendar, 20453, 20454) == [Calendar[2], Calendar[3]];
    assert BlockedRoomIds(Calendar, 20453, 20454) == {1, 2};
    HotelWithout({1, 2});
  }

  /** A CANCELLED stay of room 101 on 31 December leaves the room available that night. */
  lemma CancelledBookingDoesNotBlock()
    ensures Room101 in GetRoomsAvailable(Hotel, [Stay(1, 1, 1, 20453, 20454, CANCELLED)], 20453, 20454)
  {
  }

  /**
    Moving booking 1 from room 101 to room 102 passes the checks, and the flags of the
    two rooms flip: 101 becomes AVAILABLE, 102 BOOKED.
  */
  lemma RoomChangeFlipsFlags()
    ensures var bookings := [Stay(1, 1, 1, 20452, 20454, CONFIRMED)];
            PlanUpdate(Hotel, bookings, 0, Request(Some(20452), Some(20454), Some("102"), Some(100)))
            == Success(Move(Room101, Room102))
    ensures MoveRoomFlags(map[1 := BOOKED, 2 := AVAILABLE], 1, 2) == map[1 := AVAILABLE, 2 := BOOKED]
  {
    HotelKeysUnique();
    var bookings := [Stay(1, 1, 1, 20452, 20454, CONFIRMED)];
    assert FindRoomByNumber(Hotel, "102") == Some(Room102) by {
      assert Hotel[1..] == [Room102];
    }
    assert RoomIsFree(bookings, 2, 20452, 20454, Some(1));
  }

  /**
    An update that only renames the guest gives no dates and no rate, so the total
    at line 196 fails on a null and nothing is saved.
  */
  lemma GuestOnlyUpdateFails()
    ensures var dto := Request(None, None, None, None).(fullName := Some("New Guest"), emailId := Some("new@example.com"));
            PlanUpdate(Hotel, [Stay(1, 1, 1, 20452, 20454, CONFIRMED)], 0, dto) == Failure(MissingField)
  {
    HotelKeysUnique();
  }

  /**
    Shifting a booking by one night overlaps only its own old dates: the own id is
    discounted and the update goes through, while another booking of the room on
    the new night blocks it.
  */
  lemma ShiftOverlapsOnlyItself()
    ensures PlanUpdate(Hotel, [Stay(1, 1, 1, 20452, 20454, CONFIRMED)], 0, Request(Some(20453), Some(20455), None, Some(100)))
            == Success(Move(Room101, Room101))
    ensures PlanUpdate(Hotel, [Stay(1, 1, 1, 20452, 20454, CONFIRMED), Stay(2, 2, 1, 20454, 20455, CONFIRMED)], 0,
                       Request(Some(20453), Some(20455), None, Some(100)))
            == Failure(RoomUnavailable)
  {
    HotelKeysUnique();
    var one := [Stay(1, 1, 1, 20452, 20454, CONFIRMED)];
    assert RoomIsFree(one, 1, 20453, 20455, Some(1));
    var two := [Stay(1, 1, 1, 20452, 20454, CONFIRMED), Stay(2, 2, 1, 20454, 20455, CONFIRMED)];
    assert two[1] in two;
  }

  /**
    Deleting the only booking of guest 100 leaves the guest a count of zero, so the
    guest is deleted; with a second booking the count stays at one and the guest stays.
  */
  lemma DeleteCountsReferences()
    ensures CountBookingsByGuestId(RemoveAt([Stay(1, 100, 1, 20452, 20454, CONFIRMED)], 0), 100) == 0
    ensures CountBookingsByGuestId(RemoveAt([Stay(1, 100, 1, 20452, 20454, CONFIRMED), Stay(2, 100, 2, 20452, 20454, CANCELLED)], 0), 100) == 1
  {
    var two := [Stay(1, 100, 1, 20452, 20454, CONFIRMED), Stay(2, 100, 2, 20452, 20454, CANCELLED)];
    assert RemoveAt(two, 0) == [two[1]];
  }
}
