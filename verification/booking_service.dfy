/**
 * The booking service as it runs: each operation loads or creates a managed
 * `BookingEntity`, sets its fields one by one and lets the ledger insert or
 * commit it. Every method is proved to produce exactly the `Outcome` that
 * `BookingLifecycle` specifies.
 */
module BookingService {
  import opened Options
  import opened Http
  import opened Enums
  import opened Bookings
  import opened BookingRules
  import opened OverlapQueries
  import opened Persistence
  import opened BookingLifecycle

  /** `createBooking`. */
  method CreateBooking(ledger: Ledger, catalog: Catalog, request: Option<CreateRequest>, today: int, now: int)
    returns (reply: Reply)
    modifies ledger
    ensures Outcome(reply, ledger.Snapshot()) == Create(old(ledger.Snapshot()), catalog, request, today, now)
  {
    if request.None? {
      return Message(BAD_REQUEST, BodyRequired);
    }
    var q := request.value;
    if q.userId.None? || q.hotelId.None? || q.roomId.None? {
      return Message(BAD_REQUEST, IdsRequired);
    }
    if q.numberOfGuests.None? || q.numberOfGuests.value <= 0 {
      return Message(BAD_REQUEST, GuestsNotPositive);
    }
    var dateError := ValidateDates(q.checkInDate, q.checkOutDate, today);
    if dateError.Some? {
      return Message(BAD_REQUEST, dateError.value);
    }
    if q.userId.value !in catalog.users {
      return Message(NOT_FOUND, UserNotFound);
    }
    if q.hotelId.value !in catalog.hotels {
      return Message(NOT_FOUND, HotelNotFound);
    }
    if q.roomId.value !in catalog.rooms {
      return Message(NOT_FOUND, RoomNotFound);
    }
    var room := catalog.rooms[q.roomId.value];
    if room.hotelId != q.hotelId.value {
      return Message(BAD_REQUEST, RoomNotInHotel);
    }
    if !room.available {
      return Message(CONFLICT, RoomUnavailable);
    }
    var checkIn, checkOut := q.checkInDate.value, q.checkOutDate.value;
    if ExistsOverlappingBooking(ledger.bookings, q.roomId.value, checkIn, checkOut, ActiveBlockingStatuses()) {
      return Message(CONFLICT, RoomAlreadyBooked);
    }

    var nights := Nights(checkIn, checkOut);
    var totalAmount := room.price * nights;
    if !FitsAmountColumn(totalAmount) {
      // The insert fails the column's range check and the transaction rolls back.
      return Message(CONFLICT, AmountOutOfRange);
    }

    var booking := new BookingEntity();
    booking.userId := q.userId.value;
    booking.hotelId := q.hotelId.value;
    booking.roomId := q.roomId.value;
    booking.checkInDate := checkIn;
    booking.checkOutDate := checkOut;
    booking.numberOfGuests := q.numberOfGuests.value;
    booking.totalAmount := totalAmount;
    booking.bookingStatus := Some(BookingStatus.Pending);
    booking.paymentStatus := Some(PaymentStatus.Pending);

    ledger.Insert(booking, now);
    reply := Body(CREATED, booking.Row());
  }

  /** `updateBooking`. */
  method UpdateBooking(ledger: Ledger, catalog: Catalog, id: int, request: Option<UpdateRequest>, today: int, now: int)
    returns (reply: Reply)
    requires WellFormed(ledger.Snapshot()) && RoomsKnown(catalog, ledger.bookings)
    modifies ledger
    ensures Outcome(reply, ledger.Snapshot()) == Update(old(ledger.Snapshot()), catalog, id, request, today, now)
  {
    if request.None? {
      return Message(BAD_REQUEST, BodyRequired);
    }
    var q := request.value;
    var found := ledger.FindBooking(id);
    if found.None? {
      return Message(NOT_FOUND, BookingNotFound);
    }
    var booking := new BookingEntity.Load(found.value);
    if IsTerminalStatus(booking.bookingStatus.value) {
      return Message(CONFLICT, BookingClosed);
    }

    var nextCheckIn := if q.checkInDate.Some? then q.checkInDate.value else booking.checkInDate;
    var nextCheckOut := if q.checkOutDate.Some? then q.checkOutDate.value else booking.checkOutDate;
    var dateError := ValidateDates(Some(nextCheckIn), Some(nextCheckOut), today);
    if dateError.Some? {
      return Message(BAD_REQUEST, dateError.value);
    }
    if q.numberOfGuests.Some? && q.numberOfGuests.value <= 0 {
      return Message(BAD_REQUEST, GuestsNotPositive);
    }
    if ExistsOverlappingBookingExcludingCurrent(ledger.bookings, booking.roomId, booking.id, nextCheckIn, nextCheckOut,
                                                ActiveBlockingStatuses()) {
      return Message(CONFLICT, RoomAlreadyBooked);
    }

    booking.checkInDate := nextCheckIn;
    booking.checkOutDate := nextCheckOut;
    if q.numberOfGuests.Some? {
      booking.numberOfGuests := q.numberOfGuests.value;
    }
    var nights := Nights(nextCheckIn, nextCheckOut);
    booking.totalAmount := catalog.rooms[booking.roomId].price * nights;
    if !FitsAmountColumn(booking.totalAmount) {
      // The flush at commit fails the column's range check and the transaction rolls back.
      return Message(CONFLICT, AmountOutOfRange);
    }

    // The response is built from the managed entity before the commit flushes it.
    reply := Body(OK, booking.Row());
    ledger.Commit(booking, now);
  }

  /** `updateBookingStatus`. */
  method UpdateBookingStatus(ledger: Ledger, id: int, request: Option<StatusRequest>, now: int) returns (reply: Reply)
    requires WellFormed(ledger.Snapshot())
    modifies ledger
    ensures Outcome(reply, ledger.Snapshot()) == UpdateStatus(old(ledger.Snapshot()), id, request, now)
  {
    if request.None? {
      return Message(BAD_REQUEST, BodyRequired);
    }
    var q := request.value;
    if q.bookingStatus.None? && q.paymentStatus.None? {
      return Message(BAD_REQUEST, StatusFieldRequired);
    }
    var found := ledger.FindBooking(id);
    if found.None? {
      return Message(NOT_FOUND, BookingNotFound);
    }
    var booking := new BookingEntity.Load(found.value);

    if q.paymentStatus.Some? {
      booking.paymentStatus := q.paymentStatus;
      if q.paymentStatus.value == PaymentStatus.Success && booking.bookingStatus.value == BookingStatus.Pending {
        booking.bookingStatus := Some(BookingStatus.Confirmed);
      }
      if q.paymentStatus.value == PaymentStatus.Refunded && booking.bookingStatus.value == BookingStatus.Confirmed {
        booking.bookingStatus := Some(BookingStatus.Cancelled);
      }
    }
    assert booking.Row() == ApplyPaymentStatus(found.value, q.paymentStatus);
    if q.bookingStatus.Some? {
      var nextStatus := q.bookingStatus.value;
      if !IsValidStatusTransition(booking.bookingStatus.value, nextStatus) {
        reply := Message(BAD_REQUEST, InvalidTransition(booking.bookingStatus.value, nextStatus));
        // The transaction still commits the payment change made above.
        ledger.Commit(booking, now);
        return;
      }
      booking.bookingStatus := Some(nextStatus);
    }

    reply := Body(OK, booking.Row());
    ledger.Commit(booking, now);
  }

  /** `cancelBooking`. */
  method CancelBooking(ledger: Ledger, id: int, now: int) returns (reply: Reply)
    requires WellFormed(ledger.Snapshot())
    modifies ledger
    ensures Outcome(reply, ledger.Snapshot()) == Cancel(old(ledger.Snapshot()), id, now)
  {
    var found := ledger.FindBooking(id);
    if found.None? {
      return Message(NOT_FOUND, BookingNotFound);
    }
    var booking := new BookingEntity.Load(found.value);
    if booking.bookingStatus.value == BookingStatus.Cancelled {
      return Message(OK, AlreadyCancelled);
    }
    if booking.bookingStatus.value == BookingStatus.Completed || booking.bookingStatus.value == BookingStatus.NoShow {
      return Message(CONFLICT, CannotCancel);
    }

    booking.bookingStatus := Some(BookingStatus.Cancelled);
    if booking.paymentStatus.value == PaymentStatus.Success {
      booking.paymentStatus := Some(PaymentStatus.Refunded);
    }

    reply := Body(OK, booking.Row());
    ledger.Commit(booking, now);
  }
}
