/**
  The persistent entities of the booking system (Room, Guest, Booking, Payment),
  the request/response shapes the service exchanges (BookingDTO, BookingResponseDTO),
  the errors it throws, and the two look-ups of the room table the service relies on.

  Time: a calendar date is its epoch-day number (LocalDate.toEpochDay). The source
  stores every date as the instant of its start of day in UTC, so comparing stored
  instants is comparing epoch days. Money: BigDecimal arithmetic on amounts is exact,
  so amounts are integers in the smallest currency unit.
*/
module Entities {
  import opened Wrappers

  type Day = int
  /** Seconds since 1970-01-01T00:00Z. */
  type Instant = int
  type Money = int

  const SecondsPerDay: int := 86400

  /** The instant at midnight UTC that begins day `d`, the conversion the service applies to every date (BookingService.java:52-53). */
  function StartOfDay(d: Day): Instant {
    d * SecondsPerDay
  }

  /**
    The status strings the service writes and the queries test, one constructor per
    string; the `Other...` constructor stands for any other text in the column.
  */
  datatype BookingStatus = CONFIRMED | CANCELLED | OtherBookingStatus(text: string)

  /** A room's free-text display flag: "AVAILABLE", "BOOKED", or any other text ("DIRTY", ...). */
  datatype RoomStatus = AVAILABLE | BOOKED | OtherRoomStatus(text: string)

  /**
    The status column of the room table, keyed by room id; a room without an entry
    has a null status.
  */
  type RoomFlags = map<nat, RoomStatus>

  /** A ledger entry's type: "ADVANCE" or any other text. */
  datatype PaymentKind = ADVANCE | OtherPaymentKind(text: string)

  /** A room's key columns; its status is held in RoomFlags. */
  datatype Room = Room(id: nat, number: string)

  /** A guest; the guest's id is its key in the store's guest table. */
  datatype Guest = Guest(fullName: Option<string>, email: Option<string>, mobileNumber: Option<string>)

  /** A ledger entry of a booking. */
  datatype Payment = Payment(
    kind: PaymentKind,
    advanceAmount: Option<Money>,
    pendingAmount: Option<Money>,
    paidBy: Option<string>)

  /** A booking of one room by one guest for the nights [checkIn, checkOut). */
  datatype Booking = Booking(
    id: nat,
    guestId: nat,
    roomId: nat,
    checkIn: Day,
    checkOut: Day,
    source: Option<string>,
    notes: Option<string>,
    amountPerNight: Money,
    totalAmount: Money,
    status: BookingStatus,
    payments: seq<Payment>)

  /**
    The request and read-back shape of a booking. Every field may be null.
    `additionalCharges` is read by the service but not declared by the DTO class;
    it is modelled as an optional list of the charges' amounts.
  */
  datatype BookingDto = BookingDto(
    fullName: Option<string>,
    emailId: Option<string>,
    mobileNumber: Option<string>,
    checkIn: Option<Day>,
    checkOut: Option<Day>,
    roomNo: Option<string>,
    nightlyRate: Option<Money>,
    totalAmount: Option<Money>,
    bookingSource: Option<string>,
    advanceAmount: Option<Money>,
    paymentMethod: Option<string>,
    internalNotes: Option<string>,
    additionalCharges: Option<seq<Money>>)

  /** One row of the booking list. */
  datatype BookingResponse = BookingResponse(
    id: nat,
    guest: Option<string>,
    bookingSource: Option<string>,
    room: string,
    checkIn: Day,
    checkOut: Day,
    status: BookingStatus,
    totalPaid: Money,
    balance: Money,
    contactNumber: Option<string>)

  /** The runtime exceptions of the service; MissingField is the NullPointerException of a null DTO field. */
  datatype Error = RoomNotFound | BookingNotFound | RoomUnavailable | MissingField

  /** `roomRepository.findById`-style look-up through a booking's room reference. */
  function FindRoomById(rooms: seq<Room>, id: nat): (r: Option<Room>)
    ensures r.Some? ==> r.value in rooms && r.value.id == id
  {
    if |rooms| == 0 then None
    else if rooms[0].id == id then Some(rooms[0])
    else FindRoomById(rooms[1..], id)
  }

  /** The id look-up finds nothing exactly when no room has the id. */
  lemma {:induction false} FindRoomByIdMisses(rooms: seq<Room>, id: nat)
    ensures FindRoomById(rooms, id).None? <==> forall x :: x in rooms ==> x.id != id
  {
    if |rooms| != 0 {
      FindRoomByIdMisses(rooms[1..], id);
      assert forall x :: x in rooms <==> x == rooms[0] || x in rooms[1..];
    }
  }

  /** `roomRepository.findByRoomNumber`. */
  function FindRoomByNumber(rooms: seq<Room>, number: string): (r: Option<Room>)
    ensures r.Some? ==> r.value in rooms && r.value.number == number
  {
    if |rooms| == 0 then None
    else if rooms[0].number == number then Some(rooms[0])
    else FindRoomByNumber(rooms[1..], number)
  }

  /** The number look-up finds nothing exactly when no room has the number. */
  lemma {:induction false} FindRoomByNumberMisses(rooms: seq<Room>, number: string)
    ensures FindRoomByNumber(rooms, number).None? <==> forall x :: x in rooms ==> x.number != number
  {
    if |rooms| != 0 {
      FindRoomByNumberMisses(rooms[1..], number);
      assert forall x :: x in rooms <==> x == rooms[0] || x in rooms[1..];
    }
  }
}
