/**
 * The pure rules of the booking service: date validation, the statuses that
 * hold a room, terminal statuses, the manual transition table and the price
 * of a stay.
 */
module BookingRules {
  import opened Options
  import opened Enums

  /** Why a booking request is refused, or the note an idempotent cancel answers with. */
  datatype Reason =
    | BodyRequired
    | IdsRequired
    | GuestsNotPositive
    | DatesRequired
    | CheckInInPast
    | CheckOutNotAfterCheckIn
    | UserNotFound
    | HotelNotFound
    | RoomNotFound
    | RoomNotInHotel
    | RoomUnavailable
    | RoomAlreadyBooked
    | BookingNotFound
    | BookingClosed
    | StatusFieldRequired
    | InvalidTransition(from: BookingStatus, to: BookingStatus)
    | AlreadyCancelled
    | CannotCancel
    | AmountOutOfRange  // the write failed the amount column's range; the handler answers 409

  /** The statuses whose bookings hold their room. */
  function ActiveBlockingStatuses(): set<BookingStatus>
  {
    {BookingStatus.Pending, BookingStatus.Confirmed}
  }

  predicate IsTerminalStatus(s: BookingStatus)
  {
    s == BookingStatus.Cancelled || s == BookingStatus.Completed || s == BookingStatus.NoShow
  }

  /** Every status either holds its room or is terminal, never both. */
  lemma ActiveIsExactlyNonTerminal(s: BookingStatus)
    ensures s in ActiveBlockingStatuses() <==> !IsTerminalStatus(s)
  {
  }

  /** The manual transition table: staying put is always allowed. */
  predicate IsValidStatusTransition(current: BookingStatus, next: BookingStatus)
  {
    if current == next then true
    else
      match current
      case Pending => next == BookingStatus.Confirmed || next == BookingStatus.Cancelled
      case Confirmed => next == BookingStatus.Completed || next == BookingStatus.Cancelled || next == BookingStatus.NoShow
      case Cancelled => false
      case Completed => false
      case NoShow => false
  }

  /** The moves between distinct statuses that the table allows, listed one by one. */
  const AllowedMoves: set<(BookingStatus, BookingStatus)> := {
    (BookingStatus.Pending, BookingStatus.Confirmed),
    (BookingStatus.Pending, BookingStatus.Cancelled),
    (BookingStatus.Confirmed, BookingStatus.Completed),
    (BookingStatus.Confirmed, BookingStatus.Cancelled),
    (BookingStatus.Confirmed, BookingStatus.NoShow)
  }

  /** The predicate agrees with the listed table on every pair. */
  lemma TransitionTableIsExact(current: BookingStatus, next: BookingStatus)
    ensures IsValidStatusTransition(current, next) <==> current == next || (current, next) in AllowedMoves
  {
  }

  /** Nothing leaves CANCELLED, COMPLETED or NO_SHOW. */
  lemma TerminalStatusesAreFinal(current: BookingStatus, next: BookingStatus)
    requires IsTerminalStatus(current) && IsValidStatusTransition(current, next)
    ensures next == current
  {
  }

  /** A valid move never turns a booking that no longer holds its room into one that does. */
  lemma TransitionsNeverReactivate(current: BookingStatus, next: BookingStatus)
    requires IsValidStatusTransition(current, next) && next in ActiveBlockingStatuses()
    ensures current in ActiveBlockingStatuses()
  {
  }

  /**
   * `validateDates`, with `today` standing for the server's current date:
   * both dates present, check-in not before today, check-out strictly after
   * check-in; the first failing check decides the answer.
   */
  function ValidateDates(checkIn: Option<int>, checkOut: Option<int>, today: int): (r: Option<Reason>)
    ensures r.None? <==> checkIn.Some? && checkOut.Some? && today <= checkIn.value < checkOut.value
    ensures r == Some(DatesRequired) <==> checkIn.None? || checkOut.None?
    ensures r == Some(CheckInInPast) <==> checkIn.Some? && checkOut.Some? && checkIn.value < today
    ensures r == Some(CheckOutNotAfterCheckIn) <==>
              checkIn.Some? && checkOut.Some? && today <= checkIn.value && checkOut.value <= checkIn.value
  {
    if checkIn.None? || checkOut.None? then Some(DatesRequired)
    else if checkIn.value < today then Some(CheckInInPast)
    else if !(checkOut.value > checkIn.value) then Some(CheckOutNotAfterCheckIn)
    else None
  }

  /** `ChronoUnit.DAYS.between(checkIn, checkOut)` on epoch days. */
  function Nights(checkIn: int, checkOut: int): int
  {
    checkOut - checkIn
  }

  /** Price of a stay in hundredths: nightly price times the number of nights. */
  function StayAmount(price: int, checkIn: int, checkOut: int): int
  {
    price * Nights(checkIn, checkOut)
  }

  /** A stay of at least one night costs at least one night's price, and nothing is negative. */
  lemma StayAmountCoversOneNight(price: int, checkIn: int, checkOut: int)
    requires price >= 0 && checkIn < checkOut
    ensures price <= StayAmount(price, checkIn, checkOut)
  {
    var n := Nights(checkIn, checkOut);
    assert price * n == price + price * (n - 1);
    assert price * (n - 1) >= 0;
  }

  /** Splitting a stay at any night in between splits its price. */
  lemma StayAmountSplits(price: int, checkIn: int, middle: int, checkOut: int)
    ensures StayAmount(price, checkIn, checkOut) == StayAmount(price, checkIn, middle) + StayAmount(price, middle, checkOut)
  {
    assert Nights(checkIn, checkOut) == Nights(checkIn, middle) + Nights(middle, checkOut);
    assert price * (Nights(checkIn, middle) + Nights(middle, checkOut))
        == price * Nights(checkIn, middle) + price * Nights(middle, checkOut);
  }
}
