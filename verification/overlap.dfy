/**
 * The two overlap queries of the booking repository and the invariant they
 * guard: no room holds two PENDING or CONFIRMED bookings whose stays share a
 * night. Stays are half-open ranges of epoch days, [checkIn, checkOut).
 */
module OverlapQueries {
  import opened Enums
  import opened Bookings
  import opened BookingRules

  /** Two half-open stays share at least one night. */
  predicate RangesOverlap(in1: int, out1: int, in2: int, out2: int)
  {
    in1 < out2 && in2 < out1
  }

  /** The shared part of the two queries' where-clause, for one stored booking. */
  predicate Blocks(b: Booking, roomId: int, checkIn: int, checkOut: int, statuses: set<BookingStatus>)
  {
    b.roomId == roomId && b.bookingStatus in statuses && b.checkInDate < checkOut && b.checkOutDate > checkIn
  }

  /** `existsOverlappingBooking`: some stored booking of the room, in one of the statuses, meets the stay. */
  predicate ExistsOverlappingBooking(bookings: map<int, Booking>, roomId: int, checkIn: int, checkOut: int,
                                     statuses: set<BookingStatus>)
  {
    exists id :: id in bookings && Blocks(bookings[id], roomId, checkIn, checkOut, statuses)
  }

  /** `existsOverlappingBookingExcludingCurrent`: the same, skipping the booking with id `bookingId`. */
  predicate ExistsOverlappingBookingExcludingCurrent(bookings: map<int, Booking>, roomId: int, bookingId: int,
                                                     checkIn: int, checkOut: int, statuses: set<BookingStatus>)
  {
    exists id :: id in bookings && bookings[id].id != bookingId && Blocks(bookings[id], roomId, checkIn, checkOut, statuses)
  }

  /** A booking holds its room: it is PENDING or CONFIRMED. */
  predicate Holds(b: Booking)
  {
    b.bookingStatus in ActiveBlockingStatuses()
  }

  /** Two bookings that both hold the same room and share a night. */
  predicate Conflict(a: Booking, b: Booking)
  {
    a.roomId == b.roomId && Holds(a) && Holds(b) && RangesOverlap(a.checkInDate, a.checkOutDate, b.checkInDate, b.checkOutDate)
  }

  /** Every booking is stored under its own id. */
  predicate KeyedById(bookings: map<int, Booking>)
  {
    forall k :: k in bookings ==> bookings[k].id == k
  }

  /** The same keys, and every booking still on the same room for the same nights. */
  predicate SameStays(before: map<int, Booking>, after: map<int, Booking>)
  {
    && after.Keys == before.Keys
    && forall k :: k in before ==>
         && after[k].roomId == before[k].roomId
         && after[k].checkInDate == before[k].checkInDate && after[k].checkOutDate == before[k].checkOutDate
  }

  /** Rewriting one booking on the same room for the same nights keeps every stay. */
  lemma RewriteKeepsStays(bookings: map<int, Booking>, key: int, b: Booking)
    requires key in bookings && b.roomId == bookings[key].roomId
    requires b.checkInDate == bookings[key].checkInDate && b.checkOutDate == bookings[key].checkOutDate
    ensures SameStays(bookings, bookings[key := b])
  {
  }

  /** The no-double-booking invariant. */
  predicate NoDoubleBooking(bookings: map<int, Booking>)
  {
    forall j, k :: j in bookings && k in bookings && j != k ==> !Conflict(bookings[j], bookings[k])
  }

  /** The where-clause is exactly "same room, holds it, shares a night". */
  lemma BlocksIsConflict(a: Booking, b: Booking)
    requires Holds(b)
    ensures Blocks(a, b.roomId, b.checkInDate, b.checkOutDate, ActiveBlockingStatuses()) <==> Conflict(a, b)
  {
  }

  lemma ConflictIsSymmetric(a: Booking, b: Booking)
    ensures Conflict(a, b) <==> Conflict(b, a)
  {
  }

  /** Back-to-back stays (one checks out the day the other checks in) never conflict. */
  lemma BackToBackStaysDoNotOverlap(b: Booking, roomId: int, checkIn: int, checkOut: int, statuses: set<BookingStatus>)
    requires b.checkOutDate == checkIn || b.checkInDate == checkOut
    requires checkIn < checkOut && b.checkInDate < b.checkOutDate
    ensures !Blocks(b, roomId, checkIn, checkOut, statuses)
  {
  }

  /** Skipping one booking can only make the answer "no" more often. */
  lemma ExcludingCurrentIsWeaker(bookings: map<int, Booking>, roomId: int, bookingId: int,
                                 checkIn: int, checkOut: int, statuses: set<BookingStatus>)
    ensures ExistsOverlappingBookingExcludingCurrent(bookings, roomId, bookingId, checkIn, checkOut, statuses)
        ==> ExistsOverlappingBooking(bookings, roomId, checkIn, checkOut, statuses)
    ensures !ExistsOverlappingBooking(bookings, roomId, checkIn, checkOut, statuses)
        ==> !ExistsOverlappingBookingExcludingCurrent(bookings, roomId, bookingId, checkIn, checkOut, statuses)
  {
  }

  /** With rows keyed by id, excluding the current id is asking the plain query about the other rows. */
  lemma ExcludingCurrentIsQueryWithoutIt(bookings: map<int, Booking>, roomId: int, bookingId: int,
                                         checkIn: int, checkOut: int, statuses: set<BookingStatus>)
    requires KeyedById(bookings)
    ensures ExistsOverlappingBookingExcludingCurrent(bookings, roomId, bookingId, checkIn, checkOut, statuses)
        <==> ExistsOverlappingBooking(bookings - {bookingId}, roomId, checkIn, checkOut, statuses)
  {
    var rest := bookings - {bookingId};
    if ExistsOverlappingBookingExcludingCurrent(bookings, roomId, bookingId, checkIn, checkOut, statuses) {
      var id :| id in bookings && bookings[id].id != bookingId && Blocks(bookings[id], roomId, checkIn, checkOut, statuses);
      assert id in rest && rest[id] == bookings[id];
    }
    if ExistsOverlappingBooking(rest, roomId, checkIn, checkOut, statuses) {
      var id :| id in rest && Blocks(rest[id], roomId, checkIn, checkOut, statuses);
      assert bookings[id].id == id != bookingId;
    }
  }

  /** Storing a new holding booking the plain query found free keeps the invariant. */
  lemma InsertKeepsNoDoubleBooking(bookings: map<int, Booking>, key: int, b: Booking)
    requires NoDoubleBooking(bookings) && key !in bookings
    requires !ExistsOverlappingBooking(bookings, b.roomId, b.checkInDate, b.checkOutDate, ActiveBlockingStatuses())
    ensures NoDoubleBooking(bookings[key := b])
  {
    var after := bookings[key := b];
    forall j, k | j in after && k in after && j != k
      ensures !Conflict(after[j], after[k])
    {
      if j == key {
        assert !Blocks(bookings[k], b.roomId, b.checkInDate, b.checkOutDate, ActiveBlockingStatuses());
      } else if k == key {
        assert !Blocks(bookings[j], b.roomId, b.checkInDate, b.checkOutDate, ActiveBlockingStatuses());
      }
    }
  }

  /**
   * Replacing a stored booking by a version that either does not hold its
   * room, or that the excluding query found free, keeps the invariant.
   */
  lemma ReplaceKeepsNoDoubleBooking(bookings: map<int, Booking>, key: int, b: Booking)
    requires NoDoubleBooking(bookings) && KeyedById(bookings) && key in bookings && b.id == key
    requires Holds(b) ==>
               !ExistsOverlappingBookingExcludingCurrent(bookings, b.roomId, key, b.checkInDate, b.checkOutDate,
                                                         ActiveBlockingStatuses())
    ensures NoDoubleBooking(bookings[key := b])
  {
    var after := bookings[key := b];
    forall j, k | j in after && k in after && j != k
      ensures !Conflict(after[j], after[k])
    {
      if j == key && Holds(b) {
        assert bookings[k].id != key;
        assert !Blocks(bookings[k], b.roomId, b.checkInDate, b.checkOutDate, ActiveBlockingStatuses());
      } else if k == key && Holds(b) {
        assert bookings[j].id != key;
        assert !Blocks(bookings[j], b.roomId, b.checkInDate, b.checkOutDate, ActiveBlockingStatuses());
      }
    }
  }

  /**
   * Replacing a stored booking by one with the same room and dates that
   * holds the room only if the old one did keeps the invariant: status and
   * payment changes never create a double booking.
   */
  lemma SameStayKeepsNoDoubleBooking(bookings: map<int, Booking>, key: int, b: Booking)
    requires NoDoubleBooking(bookings) && key in bookings
    requires b.roomId == bookings[key].roomId
    requires b.checkInDate == bookings[key].checkInDate && b.checkOutDate == bookings[key].checkOutDate
    requires Holds(b) ==> Holds(bookings[key])
    ensures NoDoubleBooking(bookings[key := b])
  {
    var after := bookings[key := b];
    forall j, k | j in after && k in after && j != k
      ensures !Conflict(after[j], after[k])
    {
      assert !Conflict(bookings[j], bookings[k]);
    }
  }
}
