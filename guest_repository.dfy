/**
  The guest repository's one query, `countBookingsByGuestId`: a COUNT over the whole
  booking table with no status filter. The service deletes a guest when it is zero.
*/
module GuestRepository {
  import opened Entities

  /** The number of bookings, of any status, whose guest has this id (GuestRepository.java:12). */
  function CountBookingsByGuestId(bookings: seq<Booking>, guestId: nat): (n: nat)
    ensures n <= |bookings|
  {
    if |bookings| == 0 then 0
    else (if bookings[0].guestId == guestId then 1 else 0) + CountBookingsByGuestId(bookings[1..], guestId)
  }

  /** The count is zero exactly when no booking references the guest. */
  lemma {:induction false} CountZeroIffUnreferenced(bookings: seq<Booking>, guestId: nat)
    ensures CountBookingsByGuestId(bookings, guestId) == 0 <==> forall b :: b in bookings ==> b.guestId != guestId
  {
    if |bookings| != 0 {
      CountZeroIffUnreferenced(bookings[1..], guestId);
      assert forall b :: b in bookings <==> b == bookings[0] || b in bookings[1..];
    }
  }

  /** The guest column of the booking table, row by row. */
  function GuestColumn(bookings: seq<Booking>): (col: seq<nat>)
    ensures |col| == |bookings|
    ensures forall k :: 0 <= k < |bookings| ==> col[k] == bookings[k].guestId
  {
    if |bookings| == 0 then [] else [bookings[0].guestId] + GuestColumn(bookings[1..])
  }

  /** The count is the number of times the guest's id occurs in the guest column. */
  lemma {:induction false} CountIsOccurrences(bookings: seq<Booking>, guestId: nat)
    ensures CountBookingsByGuestId(bookings, guestId) == multiset(GuestColumn(bookings))[guestId]
  {
    if |bookings| != 0 {
      CountIsOccurrences(bookings[1..], guestId);
      assert GuestColumn(bookings) == [bookings[0].guestId] + GuestColumn(bookings[1..]);
    }
  }

  /** The count over a concatenation is the sum of the counts. */
  lemma {:induction false} CountConcat(a: seq<Booking>, b: seq<Booking>, guestId: nat)
    ensures CountBookingsByGuestId(a + b, guestId)
         == CountBookingsByGuestId(a, guestId) + CountBookingsByGuestId(b, guestId)
  {
    if |a| != 0 {
      assert (a + b)[1..] == a[1..] + b;
      CountConcat(a[1..], b, guestId);
    } else {
      assert a + b == b;
    }
  }

  /** Saving one more booking raises its guest's count by one, whatever its status, and no other guest's. */
  lemma CountAppend(bookings: seq<Booking>, b: Booking, guestId: nat)
    ensures CountBookingsByGuestId(bookings + [b], guestId)
         == CountBookingsByGuestId(bookings, guestId) + (if b.guestId == guestId then 1 else 0)
  {
    CountConcat(bookings, [b], guestId);
    assert [b][1..] == [];
  }

  /**
    Deleting the booking at index `i` lowers the count of that booking's guest by
    exactly one and leaves every other guest's count unchanged.
  */
  lemma CountRemoveAt(bookings: seq<Booking>, i: nat, guestId: nat)
    requires i < |bookings|
    ensures CountBookingsByGuestId(bookings[..i] + bookings[i + 1..], guestId)
         == CountBookingsByGuestId(bookings, guestId) - (if bookings[i].guestId == guestId then 1 else 0)
  {
    assert bookings == bookings[..i] + ([bookings[i]] + bookings[i + 1..]);
    CountConcat(bookings[..i], [bookings[i]] + bookings[i + 1..], guestId);
    CountConcat([bookings[i]], bookings[i + 1..], guestId);
    CountConcat(bookings[..i], bookings[i + 1..], guestId);
    assert [bookings[i]][1..] == [];
  }

  /**
    The count looks at guest references only: two tables that agree on every row's
    guest (and differ, say, in status, room or dates) give every guest the same count.
    In particular CANCELLED bookings are counted like CONFIRMED ones.
  */
  lemma {:induction false} CountSeesOnlyGuests(a: seq<Booking>, b: seq<Booking>, guestId: nat)
    requires |a| == |b|
    requires forall k :: 0 <= k < |a| ==> a[k].guestId == b[k].guestId
    ensures CountBookingsByGuestId(a, guestId) == CountBookingsByGuestId(b, guestId)
  {
    if |a| != 0 {
      CountSeesOnlyGuests(a[1..], b[1..], guestId);
    }
  }
}
