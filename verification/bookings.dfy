/**
 * The booking entity: the row the bookings table stores, and the managed
 * object whose persistence hooks fill the defaulted columns.
 *
 * Dates are epoch days, instants are whole ticks of an external clock, and
 * `totalAmount` is kept in hundredths because its column has scale 2.
 */
module Bookings {
  import opened Options
  import opened Enums

  /** A stored booking: every column declared non-null holds a value. */
  datatype Booking = Booking(
    id: int,
    userId: int,
    hotelId: int,
    roomId: int,
    checkInDate: int,
    checkOutDate: int,
    numberOfGuests: int,
    totalAmount: int,
    bookingStatus: BookingStatus,
    paymentStatus: PaymentStatus,
    paymentMethod: Option<PaymentMethod>,
    paymentReference: Option<string>,
    createdAt: int,
    updatedAt: int)

  /** Largest magnitude, in hundredths, a column of precision 10 and scale 2 holds. */
  const AmountColumnBound: int := 10_000_000_000

  /** `totalAmount` fits its column: at most eight integer digits and two decimals. */
  predicate FitsAmountColumn(hundredths: int)
  {
    -AmountColumnBound < hundredths < AmountColumnBound
  }

  /**
   * What flushing a managed booking writes. The persistence provider runs
   * `@PreUpdate` only for a dirty entity: if some column differs from the
   * stored row, `updatedAt` becomes the flush time; otherwise the stored row
   * stays as it is.
   */
  function Flushed(stored: Booking, current: Booking, now: int): (r: Booking)
    ensures r.(updatedAt := current.updatedAt) == current
    ensures current == stored ==> r == stored
    ensures current != stored ==> r.updatedAt == now
  {
    if current == stored then current else current.(updatedAt := now)
  }

  /** Flushing never moves the creation time and never touches any other column. */
  lemma FlushKeepsCreatedAt(stored: Booking, current: Booking, now: int)
    requires current.createdAt == stored.createdAt
    ensures Flushed(stored, current, now).createdAt == stored.createdAt
    ensures Flushed(stored, current, now).id == current.id
  {
  }

  /**
   * The managed entity. Columns that the hooks test for `null` are
   * optional here; the others are set by the services before every save.
   */
  class BookingEntity {
    var id: int
    var userId: int
    var hotelId: int
    var roomId: int
    var checkInDate: int
    var checkOutDate: int
    var numberOfGuests: int
    var totalAmount: int
    var bookingStatus: Option<BookingStatus>
    var paymentStatus: Option<PaymentStatus>
    var paymentMethod: Option<PaymentMethod>
    var paymentReference: Option<string>
    var createdAt: Option<int>
    var updatedAt: Option<int>

    /** The no-argument constructor: references null, numbers zero. */
    constructor ()
      ensures id == 0 && userId == 0 && hotelId == 0 && roomId == 0
      ensures checkInDate == 0 && checkOutDate == 0 && numberOfGuests == 0 && totalAmount == 0
      ensures bookingStatus == None && paymentStatus == None
      ensures paymentMethod == None && paymentReference == None
      ensures createdAt == None && updatedAt == None
    {
      id, userId, hotelId, roomId := 0, 0, 0, 0;
      checkInDate, checkOutDate, numberOfGuests, totalAmount := 0, 0, 0, 0;
      bookingStatus, paymentStatus := None, None;
      paymentMethod, paymentReference := None, None;
      createdAt, updatedAt := None, None;
    }

    /** The managed copy of a stored row, as a repository lookup returns it. */
    constructor Load(b: Booking)
      ensures IsComplete() && Row() == b
    {
      id, userId, hotelId, roomId := b.id, b.userId, b.hotelId, b.roomId;
      checkInDate, checkOutDate := b.checkInDate, b.checkOutDate;
      numberOfGuests, totalAmount := b.numberOfGuests, b.totalAmount;
      bookingStatus, paymentStatus := Some(b.bookingStatus), Some(b.paymentStatus);
      paymentMethod, paymentReference := b.paymentMethod, b.paymentReference;
      createdAt, updatedAt := Some(b.createdAt), Some(b.updatedAt);
    }

    /** Every non-null column holds a value, so the entity can be written. */
    predicate IsComplete()
      reads this
    {
      bookingStatus.Some? && paymentStatus.Some? && createdAt.Some? && updatedAt.Some?
    }

    /** The row this entity is written as. */
    function Row(): Booking
      reads this
      requires IsComplete()
    {
      Booking(id, userId, hotelId, roomId, checkInDate, checkOutDate, numberOfGuests, totalAmount,
              bookingStatus.value, paymentStatus.value, paymentMethod, paymentReference,
              createdAt.value, updatedAt.value)
    }

    /** `@PrePersist`: fills each defaulted column only where it is still null. */
    method PrePersist(now: int)
      modifies this`createdAt, this`updatedAt, this`bookingStatus, this`paymentStatus
      ensures createdAt == Some(old(createdAt).GetOr(now))
      ensures updatedAt == Some(old(updatedAt).GetOr(now))
      ensures bookingStatus == Some(old(bookingStatus).GetOr(BookingStatus.Pending))
      ensures paymentStatus == Some(old(paymentStatus).GetOr(PaymentStatus.Pending))
      ensures IsComplete()
    {
      if createdAt == None {
        createdAt := Some(now);
      }
      if updatedAt == None {
        updatedAt := Some(now);
      }
      if bookingStatus == None {
        bookingStatus := Some(BookingStatus.Pending);
      }
      if paymentStatus == None {
        paymentStatus := Some(PaymentStatus.Pending);
      }
    }

    /** `@PreUpdate`: always restamps `updatedAt`; `createdAt` is never touched. */
    method PreUpdate(now: int)
      modifies this`updatedAt
      ensures updatedAt == Some(now)
    {
      updatedAt := Some(now);
    }
  }
}
