/**
 * What the four booking operations do to the tables and what they answer:
 * create, update (dates and guests), manual status change and cancel. Each
 * is a function from the tables before the call to an `Outcome`, the reply
 * and the tables after the transaction commits. The imperative service in
 * `BookingService` is proved to compute exactly these outcomes.
 */
module BookingLifecycle {
  import opened Options
  import opened Http
  import opened Enums
  import opened Bookings
  import opened BookingRules
  import opened OverlapQueries
  import opened Persistence

  /** The parts of a room the booking service reads: its hotel, nightly price (hundredths) and availability flag. */
  datatype Room = Room(hotelId: int, price: int, available: bool)

  /** The users, hotels and rooms tables, which the booking service only reads. */
  datatype Catalog = Catalog(users: set<int>, hotels: set<int>, rooms: map<int, Room>)

  /** Every booking's room exists (the room foreign key). */
  predicate RoomsKnown(catalog: Catalog, bookings: map<int, Booking>)
  {
    forall k :: k in bookings ==> bookings[k].roomId in catalog.rooms
  }

  datatype CreateRequest = CreateRequest(
    userId: Option<int>,
    hotelId: Option<int>,
    roomId: Option<int>,
    checkInDate: Option<int>,
    checkOutDate: Option<int>,
    numberOfGuests: Option<int>)

  datatype UpdateRequest = UpdateRequest(
    checkInDate: Option<int>,
    checkOutDate: Option<int>,
    numberOfGuests: Option<int>)

  datatype StatusRequest = StatusRequest(
    bookingStatus: Option<BookingStatus>,
    paymentStatus: Option<PaymentStatus>)

  /** A response: a booking body, or a status with the reason the message text gives. */
  datatype Reply =
    | Body(status: int, booking: Booking)
    | Message(status: int, reason: Reason)

  /** The reply and the tables once the call's transaction has committed. */
  datatype Outcome = Outcome(reply: Reply, state: State)

  function Refuse(s: State, status: int, reason: Reason): Outcome
  {
    Outcome(Message(status, reason), s)
  }

  // ---------------------------------------------------------------- create

  /** Every check `createBooking` makes before it asks whether the room is free. */
  predicate CreateChecksBeforeOverlap(catalog: Catalog, q: CreateRequest, today: int)
  {
    && q.userId.Some? && q.hotelId.Some? && q.roomId.Some?
    && q.numberOfGuests.Some? && q.numberOfGuests.value > 0
    && q.checkInDate.Some? && q.checkOutDate.Some? && today <= q.checkInDate.value < q.checkOutDate.value
    && q.userId.value in catalog.users && q.hotelId.value in catalog.hotels && q.roomId.value in catalog.rooms
    && catalog.rooms[q.roomId.value].hotelId == q.hotelId.value
    && catalog.rooms[q.roomId.value].available
  }

  /**
   * Everything `createBooking` checks, stated as one condition, together with
   * the database's range check on the amount it inserts.
   */
  predicate CreateAllowed(s: State, catalog: Catalog, q: CreateRequest, today: int)
  {
    && CreateChecksBeforeOverlap(catalog, q, today)
    && !ExistsOverlappingBooking(s.bookings, q.roomId.value, q.checkInDate.value, q.checkOutDate.value,
                                 ActiveBlockingStatuses())
    && FitsAmountColumn(StayAmount(catalog.rooms[q.roomId.value].price, q.checkInDate.value, q.checkOutDate.value))
  }

  /**
   * `createBooking`: the checks in the order the service makes them, then one
   * insert. An amount too wide for its column fails the insert; the
   * transaction rolls back and the exception handler answers 409.
   */
  function Create(s: State, catalog: Catalog, request: Option<CreateRequest>, today: int, now: int): Outcome
  {
    if request.None? then Refuse(s, BAD_REQUEST, BodyRequired)
    else
      var q := request.value;
      if q.userId.None? || q.hotelId.None? || q.roomId.None? then Refuse(s, BAD_REQUEST, IdsRequired)
      else if q.numberOfGuests.None? || q.numberOfGuests.value <= 0 then Refuse(s, BAD_REQUEST, GuestsNotPositive)
      else if ValidateDates(q.checkInDate, q.checkOutDate, today).Some? then
        Refuse(s, BAD_REQUEST, ValidateDates(q.checkInDate, q.checkOutDate, today).value)
      else if q.userId.value !in catalog.users then Refuse(s, NOT_FOUND, UserNotFound)
      else if q.hotelId.value !in catalog.hotels then Refuse(s, NOT_FOUND, HotelNotFound)
      else if q.roomId.value !in catalog.rooms then Refuse(s, NOT_FOUND, RoomNotFound)
      else
        var room := catalog.rooms[q.roomId.value];
        if room.hotelId != q.hotelId.value then Refuse(s, BAD_REQUEST, RoomNotInHotel)
        else if !room.available then Refuse(s, CONFLICT, RoomUnavailable)
        else if ExistsOverlappingBooking(s.bookings, q.roomId.value, q.checkInDate.value, q.checkOutDate.value,
                                         ActiveBlockingStatuses()) then
          Refuse(s, CONFLICT, RoomAlreadyBooked)
        else if !FitsAmountColumn(StayAmount(room.price, q.checkInDate.value, q.checkOutDate.value)) then
          Refuse(s, CONFLICT, AmountOutOfRange)
        else
          var b := Booking(s.nextBookingId, q.userId.value, q.hotelId.value, q.roomId.value,
                           q.checkInDate.value, q.checkOutDate.value, q.numberOfGuests.value,
                           StayAmount(room.price, q.checkInDate.value, q.checkOutDate.value),
                           BookingStatus.Pending, PaymentStatus.Pending, None, None, now, now);
          Outcome(Body(CREATED, b), s.(bookings := s.bookings[s.nextBookingId := b],
                                      nextBookingId := s.nextBookingId + 1))
  }

  /**
   * A create succeeds exactly when every check passes and the amount fits its
   * column; an amount that does not fit is the data-integrity 409; otherwise
   * nothing is written.
   */
  lemma CreateSucceedsExactlyWhenAllowed(s: State, catalog: Catalog, request: Option<CreateRequest>, today: int, now: int)
    ensures Create(s, catalog, request, today, now).reply.status == CREATED
        <==> request.Some? && CreateAllowed(s, catalog, request.value, today)
    ensures request.Some? && CreateChecksBeforeOverlap(catalog, request.value, today)
        && !ExistsOverlappingBooking(s.bookings, request.value.roomId.value, request.value.checkInDate.value,
                                     request.value.checkOutDate.value, ActiveBlockingStatuses())
        && !CreateAllowed(s, catalog, request.value, today)
        ==> Create(s, catalog, request, today, now).reply == Message(CONFLICT, AmountOutOfRange)
    ensures Create(s, catalog, request, today, now).reply.status != CREATED
        ==> Create(s, catalog, request, today, now).state == s
  {
  }

  /**
   * A successful create stores one new row under the next id: the requested
   * stay, price times nights, both statuses PENDING, no payment data, both
   * instants the insert time. No other row and no transaction changes.
   */
  lemma CreateStoresPendingBooking(s: State, catalog: Catalog, q: CreateRequest, today: int, now: int)
    requires CreateAllowed(s, catalog, q, today)
    ensures var o := Create(s, catalog, Some(q), today, now);
      && o.reply.Body?
      && var b := o.reply.booking;
      && o.state.bookings == s.bookings[s.nextBookingId := b]
      && o.state.transactions == s.transactions
      && o.state.nextBookingId == s.nextBookingId + 1
      && b.id == s.nextBookingId && b.userId == q.userId.value && b.hotelId == q.hotelId.value
      && b.roomId == q.roomId.value && b.checkInDate == q.checkInDate.value && b.checkOutDate == q.checkOutDate.value
      && b.numberOfGuests == q.numberOfGuests.value
      && b.totalAmount == catalog.rooms[q.roomId.value].price * (q.checkOutDate.value - q.checkInDate.value)
      && b.bookingStatus == BookingStatus.Pending && b.paymentStatus == PaymentStatus.Pending
      && b.paymentMethod == None && b.paymentReference == None
      && b.createdAt == now && b.updatedAt == now
  {
  }

  /**
   * A PENDING or CONFIRMED booking of the room that shares a night means a
   * refusal and no write; once every earlier check passes, that refusal is
   * the 409 "already booked".
   */
  lemma CreateRefusesOverlap(s: State, catalog: Catalog, q: CreateRequest, today: int, now: int)
    requires q.roomId.Some? && q.checkInDate.Some? && q.checkOutDate.Some?
    requires ExistsOverlappingBooking(s.bookings, q.roomId.value, q.checkInDate.value, q.checkOutDate.value,
                                      ActiveBlockingStatuses())
    ensures Create(s, catalog, Some(q), today, now).reply.Message?
    ensures Create(s, catalog, Some(q), today, now).state == s
    ensures CreateChecksBeforeOverlap(catalog, q, today)
        ==> Create(s, catalog, Some(q), today, now).reply == Message(CONFLICT, RoomAlreadyBooked)
  {
  }

  /** Creates keep the tables well formed, every room known and no room double booked. */
  lemma CreatePreservesValid(s: State, catalog: Catalog, request: Option<CreateRequest>, today: int, now: int)
    requires Valid(s) && RoomsKnown(catalog, s.bookings)
    ensures Valid(Create(s, catalog, request, today, now).state)
    ensures RoomsKnown(catalog, Create(s, catalog, request, today, now).state.bookings)
  {
    var o := Create(s, catalog, request, today, now);
    if o.reply.status == CREATED {
      var b := o.reply.booking;
      assert s.nextBookingId !in s.bookings;
      InsertKeepsNoDoubleBooking(s.bookings, s.nextBookingId, b);
      assert o.state.bookings == s.bookings[s.nextBookingId := b];
      assert KeyedById(o.state.bookings);
      assert forall k :: k in o.state.bookings ==> 1 <= k < o.state.nextBookingId;
    }
  }

  // ---------------------------------------------------------------- update

  /**
   * `updateBooking`: omitted dates and guests keep their stored values, the
   * new stay is validated and checked against every other booking of the
   * room, and the amount is recomputed from the room's price. An amount too
   * wide for its column fails the flush at commit; the transaction rolls back
   * and the exception handler answers 409.
   */
  function Update(s: State, catalog: Catalog, id: int, request: Option<UpdateRequest>, today: int, now: int): Outcome
    requires RoomsKnown(catalog, s.bookings)
  {
    if request.None? then Refuse(s, BAD_REQUEST, BodyRequired)
    else if id !in s.bookings then Refuse(s, NOT_FOUND, BookingNotFound)
    else
      var q := request.value;
      var b := s.bookings[id];
      if IsTerminalStatus(b.bookingStatus) then Refuse(s, CONFLICT, BookingClosed)
      else
        var checkIn := q.checkInDate.GetOr(b.checkInDate);
        var checkOut := q.checkOutDate.GetOr(b.checkOutDate);
        if ValidateDates(Some(checkIn), Some(checkOut), today).Some? then
          Refuse(s, BAD_REQUEST, ValidateDates(Some(checkIn), Some(checkOut), today).value)
        else if q.numberOfGuests.Some? && q.numberOfGuests.value <= 0 then Refuse(s, BAD_REQUEST, GuestsNotPositive)
        else if ExistsOverlappingBookingExcludingCurrent(s.bookings, b.roomId, b.id, checkIn, checkOut,
                                                         ActiveBlockingStatuses()) then
          Refuse(s, CONFLICT, RoomAlreadyBooked)
        else if !FitsAmountColumn(StayAmount(catalog.rooms[b.roomId].price, checkIn, checkOut)) then
          Refuse(s, CONFLICT, AmountOutOfRange)
        else
          var u := b.(checkInDate := checkIn, checkOutDate := checkOut,
                      numberOfGuests := q.numberOfGuests.GetOr(b.numberOfGuests),
                      totalAmount := StayAmount(catalog.rooms[b.roomId].price, checkIn, checkOut));
          Outcome(Body(OK, u), s.(bookings := s.bookings[id := Flushed(b, u, now)]))
  }

  /**
   * A successful update of an open booking changes only its dates, guests,
   * amount and `updatedAt`; omitted fields keep their stored values; an
   * unknown id gets 404 and a closed booking 409; once the new stay passes
   * the date and guest checks, the "already booked" 409 comes exactly when
   * another booking holds the room on a shared night, and success exactly
   * when no other booking does and the new amount fits its column; failures
   * write nothing.
   */
  lemma UpdateChangesOnlyTheStay(s: State, catalog: Catalog, id: int, q: UpdateRequest, today: int, now: int)
    requires Valid(s) && RoomsKnown(catalog, s.bookings)
    ensures var o := Update(s, catalog, id, Some(q), today, now);
      o.reply.status != OK ==> o.state == s
    ensures id !in s.bookings ==> Update(s, catalog, id, Some(q), today, now).reply == Message(NOT_FOUND, BookingNotFound)
    ensures id in s.bookings && IsTerminalStatus(s.bookings[id].bookingStatus) ==>
              Update(s, catalog, id, Some(q), today, now).reply == Message(CONFLICT, BookingClosed)
    ensures id in s.bookings && !IsTerminalStatus(s.bookings[id].bookingStatus) ==>
      var b := s.bookings[id];
      var checkIn, checkOut := q.checkInDate.GetOr(b.checkInDate), q.checkOutDate.GetOr(b.checkOutDate);
      ValidateDates(Some(checkIn), Some(checkOut), today).None? && (q.numberOfGuests.Some? ==> q.numberOfGuests.value > 0)
      ==>
        && (Update(s, catalog, id, Some(q), today, now).reply == Message(CONFLICT, RoomAlreadyBooked) <==>
              ExistsOverlappingBookingExcludingCurrent(s.bookings, b.roomId, id, checkIn, checkOut, ActiveBlockingStatuses()))
        && (Update(s, catalog, id, Some(q), today, now).reply.status == OK <==>
              && !ExistsOverlappingBookingExcludingCurrent(s.bookings, b.roomId, id, checkIn, checkOut, ActiveBlockingStatuses())
              && FitsAmountColumn(StayAmount(catalog.rooms[b.roomId].price, checkIn, checkOut)))
    ensures var o := Update(s, catalog, id, Some(q), today, now);
      o.reply.status == OK ==>
        && id in s.bookings && !IsTerminalStatus(s.bookings[id].bookingStatus)
        && var b, u := s.bookings[id], o.reply.booking;
        && u.checkInDate == q.checkInDate.GetOr(b.checkInDate)
        && u.checkOutDate == q.checkOutDate.GetOr(b.checkOutDate)
        && u.numberOfGuests == q.numberOfGuests.GetOr(b.numberOfGuests)
        && u.totalAmount == catalog.rooms[b.roomId].price * (u.checkOutDate - u.checkInDate)
        && u.(checkInDate := b.checkInDate, checkOutDate := b.checkOutDate, numberOfGuests := b.numberOfGuests,
              totalAmount := b.totalAmount) == b
        && o.state.bookings == s.bookings[id := Flushed(b, u, now)]
        && o.state.transactions == s.transactions
  {
  }

  /**
   * A booking alone on its room never conflicts with itself: it can move to
   * any valid future stay whose amount fits the column.
   */
  lemma UpdateIgnoresItself(s: State, catalog: Catalog, id: int, q: UpdateRequest, today: int, now: int)
    requires Valid(s) && RoomsKnown(catalog, s.bookings)
    requires id in s.bookings && s.bookings == map[id := s.bookings[id]] && !IsTerminalStatus(s.bookings[id].bookingStatus)
    requires ValidateDates(Some(q.checkInDate.GetOr(s.bookings[id].checkInDate)),
                           Some(q.checkOutDate.GetOr(s.bookings[id].checkOutDate)), today).None?
    requires q.numberOfGuests.Some? ==> q.numberOfGuests.value > 0
    ensures Update(s, catalog, id, Some(q), today, now).reply != Message(CONFLICT, RoomAlreadyBooked)
    ensures Update(s, catalog, id, Some(q), today, now).reply.status == OK
        <==> FitsAmountColumn(StayAmount(catalog.rooms[s.bookings[id].roomId].price,
                                         q.checkInDate.GetOr(s.bookings[id].checkInDate),
                                         q.checkOutDate.GetOr(s.bookings[id].checkOutDate)))
  {
  }

  lemma UpdatePreservesValid(s: State, catalog: Catalog, id: int, request: Option<UpdateRequest>, today: int, now: int)
    requires Valid(s) && RoomsKnown(catalog, s.bookings)
    ensures Valid(Update(s, catalog, id, request, today, now).state)
    ensures RoomsKnown(catalog, Update(s, catalog, id, request, today, now).state.bookings)
  {
    var o := Update(s, catalog, id, request, today, now);
    if o.reply.status == OK {
      var b := s.bookings[id];
      var u := o.reply.booking;
      var f := Flushed(b, u, now);
      assert f.id == id && f.roomId == b.roomId;
      assert f.checkInDate == u.checkInDate && f.checkOutDate == u.checkOutDate;
      ReplaceKeepsNoDoubleBooking(s.bookings, id, f);
    }
  }

  // ---------------------------------------------------------------- status

  /**
   * The payment part of `updateBookingStatus`: the new payment status is
   * written first; SUCCESS promotes a PENDING booking to CONFIRMED and
   * REFUNDED demotes a CONFIRMED one to CANCELLED.
   */
  function ApplyPaymentStatus(b: Booking, p: Option<PaymentStatus>): (r: Booking)
    ensures r.(bookingStatus := b.bookingStatus, paymentStatus := b.paymentStatus) == b
    ensures p.None? ==> r == b
    ensures p.Some? ==> r.paymentStatus == p.value
    ensures r.bookingStatus != b.bookingStatus <==>
              || (p == Some(PaymentStatus.Success) && b.bookingStatus == BookingStatus.Pending)
              || (p == Some(PaymentStatus.Refunded) && b.bookingStatus == BookingStatus.Confirmed)
    ensures r.bookingStatus != b.bookingStatus ==> IsValidStatusTransition(b.bookingStatus, r.bookingStatus)
  {
    if p.None? then b
    else
      var paid := b.(paymentStatus := p.value);
      var promoted :=
        if p.value == PaymentStatus.Success && paid.bookingStatus == BookingStatus.Pending
        then paid.(bookingStatus := BookingStatus.Confirmed) else paid;
      if p.value == PaymentStatus.Refunded && promoted.bookingStatus == BookingStatus.Confirmed
      then promoted.(bookingStatus := BookingStatus.Cancelled) else promoted
  }

  /**
   * `updateBookingStatus`. The payment status is applied before the
   * requested booking status is checked, and the booking is a managed entity
   * inside the transaction: a refused transition (400) still commits the
   * payment change and any automatic promotion or demotion.
   */
  function UpdateStatus(s: State, id: int, request: Option<StatusRequest>, now: int): Outcome
  {
    if request.None? then Refuse(s, BAD_REQUEST, BodyRequired)
    else
      var q := request.value;
      if q.bookingStatus.None? && q.paymentStatus.None? then Refuse(s, BAD_REQUEST, StatusFieldRequired)
      else if id !in s.bookings then Refuse(s, NOT_FOUND, BookingNotFound)
      else
        var b := s.bookings[id];
        var paid := ApplyPaymentStatus(b, q.paymentStatus);
        if q.bookingStatus.Some? && !IsValidStatusTransition(paid.bookingStatus, q.bookingStatus.value) then
          Outcome(Message(BAD_REQUEST, InvalidTransition(paid.bookingStatus, q.bookingStatus.value)),
                  s.(bookings := s.bookings[id := Flushed(b, paid, now)]))
        else
          var u := if q.bookingStatus.Some? then paid.(bookingStatus := q.bookingStatus.value) else paid;
          Outcome(Body(OK, u), s.(bookings := s.bookings[id := Flushed(b, u, now)]))
  }

  /**
   * What a status change answers and stores. A request without body or
   * without either field gets 400 and an unknown id 404, with nothing
   * written. Otherwise the payment status is applied first, with its
   * automatic promotion or demotion, and the requested booking status is
   * checked against the result: 400 exactly when that transition is not
   * allowed, and then the payment change alone is stored; otherwise 200 with
   * the requested status (or the automatic one when none is requested)
   * stored. No other booking and no transaction changes.
   */
  lemma UpdateStatusOutcome(s: State, id: int, request: Option<StatusRequest>, now: int)
    ensures request.None? ==> UpdateStatus(s, id, request, now) == Outcome(Message(BAD_REQUEST, BodyRequired), s)
    ensures request.Some? && request.value.bookingStatus.None? && request.value.paymentStatus.None? ==>
              UpdateStatus(s, id, request, now) == Outcome(Message(BAD_REQUEST, StatusFieldRequired), s)
    ensures request.Some? && (request.value.bookingStatus.Some? || request.value.paymentStatus.Some?) &&
            id !in s.bookings ==>
              UpdateStatus(s, id, request, now) == Outcome(Message(NOT_FOUND, BookingNotFound), s)
    ensures request.Some? && (request.value.bookingStatus.Some? || request.value.paymentStatus.Some?) &&
            id in s.bookings ==>
      var o, q, b := UpdateStatus(s, id, request, now), request.value, s.bookings[id];
      var paid := ApplyPaymentStatus(b, q.paymentStatus);
      var u := paid.(bookingStatus := q.bookingStatus.GetOr(paid.bookingStatus));
      && o.state.transactions == s.transactions && o.state.nextBookingId == s.nextBookingId
      && (o.reply.status == BAD_REQUEST <==>
            q.bookingStatus.Some? && !IsValidStatusTransition(paid.bookingStatus, q.bookingStatus.value))
      && (o.reply.status == BAD_REQUEST ==> o.state.bookings == s.bookings[id := Flushed(b, paid, now)])
      && (o.reply.status != BAD_REQUEST ==>
            o.reply == Body(OK, u) && o.state.bookings == s.bookings[id := Flushed(b, u, now)])
  {
  }

  /**
   * A refused transition is not a no-op. On a PENDING booking, payment
   * SUCCESS together with booking status PENDING answers 400 (the payment has
   * already promoted the booking to CONFIRMED, and CONFIRMED cannot go back),
   * yet the stored booking is now CONFIRMED and paid.
   */
  lemma RefusedTransitionStillCommitsPayment(s: State, id: int, now: int)
    requires Valid(s) && id in s.bookings && s.bookings[id].bookingStatus == BookingStatus.Pending
    ensures var o := UpdateStatus(s, id, Some(StatusRequest(Some(BookingStatus.Pending), Some(PaymentStatus.Success))), now);
      && o.reply == Message(BAD_REQUEST, InvalidTransition(BookingStatus.Confirmed, BookingStatus.Pending))
      && o.state.bookings[id].bookingStatus == BookingStatus.Confirmed
      && o.state.bookings[id].paymentStatus == PaymentStatus.Success
      && o.state.bookings[id].updatedAt == now
  {
  }

  /** Status changes touch only the one booking's statuses (and `updatedAt`); a 404 or missing field writes nothing. */
  lemma UpdateStatusTouchesOnlyStatuses(s: State, id: int, request: Option<StatusRequest>, now: int)
    ensures var o := UpdateStatus(s, id, request, now);
      o.reply.status == OK || o.state == s || (
        && o.reply.status == BAD_REQUEST && request.Some? && request.value.bookingStatus.Some?
        && request.value.paymentStatus.Some? && id in s.bookings)
    ensures var o := UpdateStatus(s, id, request, now);
      o.state.transactions == s.transactions && o.state.nextBookingId == s.nextBookingId
      && o.state.bookings.Keys == s.bookings.Keys
      && forall k :: k in s.bookings ==>
           o.state.bookings[k].(bookingStatus := s.bookings[k].bookingStatus,
                                paymentStatus := s.bookings[k].paymentStatus,
                                updatedAt := s.bookings[k].updatedAt) == s.bookings[k]
  {
    var o := UpdateStatus(s, id, request, now);
    if request.Some? && id in s.bookings && (request.value.bookingStatus.Some? || request.value.paymentStatus.Some?) {
      var b := s.bookings[id];
      var paid := ApplyPaymentStatus(b, request.value.paymentStatus);
      if request.value.paymentStatus.None? {
        assert paid == b;
        if o.reply.status != OK {
          assert Flushed(b, paid, now) == b;
          assert s.bookings[id := b] == s.bookings;
        }
      }
    }
  }

  /** A booking whose status no longer holds its room never holds it again after a status change. */
  lemma UpdateStatusNeverReactivates(s: State, id: int, request: Option<StatusRequest>, now: int)
    requires id in s.bookings && !Holds(s.bookings[id])
    ensures var o := UpdateStatus(s, id, request, now);
      id in o.state.bookings && !Holds(o.state.bookings[id])
  {
    var b := s.bookings[id];
    ActiveIsExactlyNonTerminal(b.bookingStatus);
  }

  lemma UpdateStatusPreservesValid(s: State, id: int, request: Option<StatusRequest>, now: int)
    requires Valid(s)
    ensures Valid(UpdateStatus(s, id, request, now).state)
  {
    var o := UpdateStatus(s, id, request, now);
    if request.Some? && id in s.bookings && o.state != s {
      var b := s.bookings[id];
      var f := o.state.bookings[id];
      UpdateStatusTouchesOnlyStatuses(s, id, request, now);
      if Holds(f) && !Holds(b) {
        UpdateStatusNeverReactivates(s, id, request, now);
      }
      assert o.state.bookings == s.bookings[id := f];
      SameStayKeepsNoDoubleBooking(s.bookings, id, f);
    }
  }

  // ---------------------------------------------------------------- cancel

  /**
   * `cancelBooking`: idempotent on a CANCELLED booking (200 and no write),
   * refused for COMPLETED and NO_SHOW, otherwise CANCELLED with a SUCCESS
   * payment turned into REFUNDED.
   */
  function Cancel(s: State, id: int, now: int): Outcome
  {
    if id !in s.bookings then Refuse(s, NOT_FOUND, BookingNotFound)
    else
      var b := s.bookings[id];
      if b.bookingStatus == BookingStatus.Cancelled then Refuse(s, OK, AlreadyCancelled)
      else if b.bookingStatus == BookingStatus.Completed || b.bookingStatus == BookingStatus.NoShow then
        Refuse(s, CONFLICT, CannotCancel)
      else
        var u := b.(bookingStatus := BookingStatus.Cancelled,
                    paymentStatus := if b.paymentStatus == PaymentStatus.Success then PaymentStatus.Refunded
                                     else b.paymentStatus);
        Outcome(Body(OK, u), s.(bookings := s.bookings[id := Flushed(b, u, now)]))
  }

  /**
   * Cancel either releases the room (the booking ends CANCELLED, a paid one
   * REFUNDED, any other payment status kept) or writes nothing at all: 404
   * for an unknown id, 200 for a booking already cancelled, 409 for a
   * completed or no-show one; cancelling twice is the same as cancelling once.
   */
  lemma CancelReleasesTheRoom(s: State, id: int, now: int, later: int)
    requires Valid(s)
    ensures id !in s.bookings ==> Cancel(s, id, now) == Outcome(Message(NOT_FOUND, BookingNotFound), s)
    ensures id in s.bookings && s.bookings[id].bookingStatus == BookingStatus.Cancelled ==>
              Cancel(s, id, now) == Outcome(Message(OK, AlreadyCancelled), s)
    ensures id in s.bookings && s.bookings[id].bookingStatus in {BookingStatus.Completed, BookingStatus.NoShow} ==>
              Cancel(s, id, now) == Outcome(Message(CONFLICT, CannotCancel), s)
    ensures id in s.bookings ==>
      var o := Cancel(s, id, now);
      && (o.state == s <==> o.reply.Message?)
      && (s.bookings[id].bookingStatus in {BookingStatus.Pending, BookingStatus.Confirmed}
          <==> o.reply.Body?)
      && (o.reply.Body? ==>
            && o.state.bookings[id].bookingStatus == BookingStatus.Cancelled
            && !Holds(o.state.bookings[id])
            && o.state.bookings[id].paymentStatus ==
                 (if s.bookings[id].paymentStatus == PaymentStatus.Success then PaymentStatus.Refunded
                  else s.bookings[id].paymentStatus))
    ensures var o := Cancel(s, id, now);
      o.reply.Body? ==> Cancel(o.state, id, later) == Outcome(Message(OK, AlreadyCancelled), o.state)
  {
    if id in s.bookings {
      var b := s.bookings[id];
      ActiveIsExactlyNonTerminal(b.bookingStatus);
    }
  }

  lemma CancelPreservesValid(s: State, id: int, now: int)
    requires Valid(s)
    ensures Valid(Cancel(s, id, now).state)
  {
    var o := Cancel(s, id, now);
    if o.reply.Body? {
      SameStayKeepsNoDoubleBooking(s.bookings, id, o.state.bookings[id]);
    }
  }
}
