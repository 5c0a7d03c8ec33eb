/**
 * The payment service as it runs: it loads the booking as a managed
 * `BookingEntity` and the transaction row, sets their fields, hands the
 * state change to the notification service and lets the commit write both
 * rows back. Each method is proved to produce exactly the `PaymentOutcome`
 * that `Payments` specifies, and the verify method to append exactly the
 * notifications that outcome's notice calls for.
 */
module PaymentService {
  import opened Options
  import opened Http
  import opened Enums
  import opened Text
  import opened Bookings
  import opened Persistence
  import opened Money
  import opened HexEncoding
  import opened Notifications
  import opened Payments

  /** `createRazorpayOrder`. */
  method CreateRazorpayOrder(ledger: Ledger, config: RazorpayConfig, request: Option<OrderRequest>,
                             gateway: GatewayReply, now: int)
    returns (reply: PaymentReply)
    requires WellFormed(ledger.Snapshot())
    modifies ledger
    ensures PaymentOutcome(reply, ledger.Snapshot(), None) == CreateOrder(old(ledger.Snapshot()), config, request, gateway, now)
  {
    ghost var s0 := ledger.Snapshot();
    if request.None? || request.value.bookingId.None? {
      return Refused(BAD_REQUEST, BookingIdRequired);
    }
    if IsBlank(config.keyId) || IsBlank(config.keySecret) {
      return Refused(INTERNAL_SERVER_ERROR, KeysNotConfigured);
    }
    var id := request.value.bookingId.value;
    var found := ledger.FindBooking(id);
    if found.None? {
      return Refused(NOT_FOUND, BookingMissing);
    }
    var booking := new BookingEntity.Load(found.value);
    if IsTerminalBooking(booking.bookingStatus.value) {
      return Refused(CONFLICT, BookingClosed(booking.bookingStatus.value));
    }
    if booking.paymentStatus.value == PaymentStatus.Success {
      return Refused(CONFLICT, AlreadyPaid);
    }
    var paise := ToPaise(Decimal(booking.totalAmount, 2));
    if paise.None? {
      return Refused(INTERNAL_SERVER_ERROR, AmountNotExact);
    }
    var currency := NormalizeCurrency(config.currency);

    if gateway.GatewayError? {
      return Refused(BAD_GATEWAY, GatewayFailed);
    }
    if gateway.id.None? {
      return Refused(BAD_GATEWAY, GatewayInvalidResponse);
    }
    var orderId := gateway.id.value;

    // The unique index on the order id rejects the insert and the transaction rolls back.
    var existing := ledger.FindTransaction(orderId);
    if existing.Some? {
      return Refused(CONFLICT, DuplicateOrderId);
    }
    assert CreateOrder(s0, config, request, gateway, now) ==
             PlaceOrder(s0, id, config.keyId.value, paise.value, currency, orderId, now);
    reply := RecordOrder(ledger, booking, config.keyId.value, paise.value, currency, orderId, now);
  }

  /** The last step of `createRazorpayOrder`: insert the PENDING transaction, point the booking at the order, answer 201. */
  method RecordOrder(ledger: Ledger, booking: BookingEntity, keyId: string, paise: int, currency: string,
                     orderId: string, now: int)
    returns (reply: PaymentReply)
    requires booking.IsComplete() && booking.id in ledger.bookings && booking.Row() == ledger.bookings[booking.id]
    modifies ledger, booking
    ensures PaymentOutcome(reply, ledger.Snapshot(), None) ==
              PlaceOrder(old(ledger.Snapshot()), old(booking.id), keyId, paise, currency, orderId, now)
  {
    var tx := PaymentTransaction(booking.id, PaymentMethod.Razorpay, PaymentStatus.Pending, booking.totalAmount,
                                 currency, orderId, None, None, None, None, 0, 0);
    ledger.InsertTransaction(tx, now);

    booking.paymentMethod := Some(PaymentMethod.Razorpay);
    booking.paymentStatus := Some(PaymentStatus.Pending);
    booking.paymentReference := Some(orderId);

    reply := Order(CREATED, OrderCreated(booking.id, orderId, keyId, paise, currency, PaymentMethod.Razorpay,
                                         booking.paymentStatus.value, booking.bookingStatus.value));
    ledger.Commit(booking, now);
  }

  /** The managed booking and the transaction are the stored rows under their own keys. */
  predicate Loaded(ledger: Ledger, booking: BookingEntity, tx: PaymentTransaction)
    reads ledger, booking
  {
    && booking.IsComplete() && booking.id in ledger.bookings && booking.Row() == ledger.bookings[booking.id]
    && tx.providerOrderId in ledger.transactions && ledger.transactions[tx.providerOrderId] == tx
  }

  /** The mismatch branch of `verifyRazorpayPayment`: both rows marked FAILED, 400, and the change to announce. */
  method RecordMismatch(ledger: Ledger, booking: BookingEntity, tx: PaymentTransaction, paymentId: string,
                        signature: string, now: int)
    returns (reply: PaymentReply, notice: Option<StatusChange>)
    requires Loaded(ledger, booking, tx)
    modifies ledger, booking
    ensures PaymentOutcome(reply, ledger.Snapshot(), notice) ==
              RejectSignature(old(ledger.Snapshot()), old(booking.id), tx.providerOrderId, paymentId, signature, now)
    ensures notice.Some?
  {
    var previousBookingStatus, previousPaymentStatus := booking.bookingStatus.value, booking.paymentStatus.value;
    var failed := tx.(paymentStatus := PaymentStatus.Failed, providerPaymentId := Some(paymentId),
                      providerSignature := Some(signature), errorCode := Some(MismatchCode),
                      errorDescription := Some(MismatchDescription));
    ledger.CommitTransaction(failed, now);

    booking.paymentStatus := Some(PaymentStatus.Failed);
    notice := Some(StatusChange(booking.Row(), previousBookingStatus, previousPaymentStatus));
    ledger.Commit(booking, now);
    reply := Refused(BAD_REQUEST, InvalidSignature);
  }

  /** The booking side of a confirmed payment: RAZORPAY, SUCCESS, the payment id, and a PENDING booking confirmed. */
  method MarkBookingPaid(booking: BookingEntity, paymentId: string)
    requires booking.IsComplete()
    modifies booking`paymentMethod, booking`paymentStatus, booking`paymentReference, booking`bookingStatus
    ensures booking.IsComplete() && booking.Row() == PaidBooking(old(booking.Row()), paymentId)
  {
    booking.paymentMethod := Some(PaymentMethod.Razorpay);
    booking.paymentStatus := Some(PaymentStatus.Success);
    booking.paymentReference := Some(paymentId);
    if booking.bookingStatus.value == BookingStatus.Pending {
      booking.bookingStatus := Some(BookingStatus.Confirmed);
    }
  }

  /** The success branch of `verifyRazorpayPayment`: both rows marked SUCCESS, PENDING confirmed, 200, and the change to announce. */
  method RecordPayment(ledger: Ledger, booking: BookingEntity, tx: PaymentTransaction, paymentId: string,
                       signature: string, now: int)
    returns (reply: PaymentReply, notice: Option<StatusChange>)
    requires Loaded(ledger, booking, tx)
    modifies ledger, booking
    ensures PaymentOutcome(reply, ledger.Snapshot(), notice) ==
              AcceptPayment(old(ledger.Snapshot()), old(booking.id), tx.providerOrderId, paymentId, signature, now)
    ensures notice.Some?
  {
    var previousBookingStatus, previousPaymentStatus := booking.bookingStatus.value, booking.paymentStatus.value;
    var paid := tx.(paymentStatus := PaymentStatus.Success, providerPaymentId := Some(paymentId),
                    providerSignature := Some(signature), errorCode := None, errorDescription := None);
    ledger.CommitTransaction(paid, now);

    MarkBookingPaid(booking, paymentId);
    notice := Some(StatusChange(booking.Row(), previousBookingStatus, previousPaymentStatus));
    ledger.Commit(booking, now);
    reply := Verification(OK, VerifyResult(booking.id, tx.providerOrderId, paymentId, booking.paymentStatus.value,
                                           booking.bookingStatus.value, false));
  }

  /** `verifyRazorpayPayment`; `email` is the booking owner's address, `delivers` the mail server's answers. */
  method VerifyRazorpayPayment(ledger: Ledger, center: NotificationCenter, config: RazorpayConfig,
                               request: Option<VerifyRequest>, hmac: Hmac, email: Option<string>, delivers: Mailer,
                               now: int)
    returns (reply: PaymentReply, notice: Option<StatusChange>)
    requires WellFormed(ledger.Snapshot()) && center.Valid()
    modifies ledger, center`records
    ensures PaymentOutcome(reply, ledger.Snapshot(), notice) == Verify(old(ledger.Snapshot()), config, request, hmac, now)
    ensures center.Valid()
    ensures notice.None? ==> center.records == old(center.records)
    ensures notice.Some? ==>
              center.records == old(center.records) +
                StateChangeRecords(notice.value, email, center.emailEnabled, delivers, |old(center.records)| + 1, now)
  {
    ghost var before := center.records;
    notice := None;
    if request.None? {
      return Refused(BAD_REQUEST, BodyRequired), notice;
    }
    var q := request.value;
    if q.bookingId.None? || IsBlank(q.razorpayOrderId) || IsBlank(q.razorpayPaymentId) || IsBlank(q.razorpaySignature) {
      return Refused(BAD_REQUEST, FieldsRequired), notice;
    }
    if IsBlank(config.keySecret) {
      return Refused(INTERNAL_SERVER_ERROR, SecretNotConfigured), notice;
    }
    var orderId, paymentId, signature := q.razorpayOrderId.value, q.razorpayPaymentId.value, q.razorpaySignature.value;
    var id := q.bookingId.value;
    var found := ledger.FindBooking(id);
    if found.None? {
      return Refused(NOT_FOUND, BookingMissing), notice;
    }
    var booking := new BookingEntity.Load(found.value);
    var foundTx := ledger.FindTransaction(orderId);
    if foundTx.None? || foundTx.value.bookingId != booking.id {
      return Refused(NOT_FOUND, OrderNotFound), notice;
    }
    var tx := foundTx.value;
    if tx.paymentStatus == PaymentStatus.Success && tx.providerPaymentId == Some(paymentId) {
      reply := Verification(OK, VerifyResult(booking.id, orderId, paymentId, booking.paymentStatus.value,
                                             booking.bookingStatus.value, true));
      return reply, notice;
    }

    reply, notice := SettleVerification(ledger, center, booking, tx, config, q, hmac, email, delivers, now);
  }

  /**
   * The signature check of `verifyRazorpayPayment` once the booking and its
   * order are loaded and the order is not a replay: compute the expected
   * hex HMAC, compare, and record the failure or the payment.
   */
  method CheckSignature(ledger: Ledger, booking: BookingEntity, tx: PaymentTransaction, config: RazorpayConfig,
                        q: VerifyRequest, hmac: Hmac, now: int)
    returns (reply: PaymentReply, notice: Option<StatusChange>)
    requires WellFormed(ledger.Snapshot())
    requires VerifyReachesTransaction(ledger.Snapshot(), config, q) && !AlreadyVerified(ledger.Snapshot(), q)
    requires booking.IsComplete() && booking.Row() == ledger.bookings[q.bookingId.value]
    requires tx == ledger.transactions[q.razorpayOrderId.value]
    modifies ledger, booking
    ensures PaymentOutcome(reply, ledger.Snapshot(), notice) == Verify(old(ledger.Snapshot()), config, Some(q), hmac, now)
    ensures notice.Some?
  {
    var orderId, paymentId, signature := q.razorpayOrderId.value, q.razorpayPaymentId.value, q.razorpaySignature.value;
    var expected := HexOf(hmac(orderId + "|" + paymentId, config.keySecret.value));
    assert booking.id == q.bookingId.value && tx.providerOrderId == orderId;
    assert Loaded(ledger, booking, tx);
    if expected != signature {
      reply, notice := RecordMismatch(ledger, booking, tx, paymentId, signature, now);
    } else {
      reply, notice := RecordPayment(ledger, booking, tx, paymentId, signature, now);
    }
    VerifyDispatch(old(ledger.Snapshot()), config, q, hmac, now);
  }

  /** The signature check, then the announcement of the state change it records. */
  method SettleVerification(ledger: Ledger, center: NotificationCenter, booking: BookingEntity, tx: PaymentTransaction,
                            config: RazorpayConfig, q: VerifyRequest, hmac: Hmac, email: Option<string>,
                            delivers: Mailer, now: int)
    returns (reply: PaymentReply, notice: Option<StatusChange>)
    requires WellFormed(ledger.Snapshot()) && center.Valid()
    requires VerifyReachesTransaction(ledger.Snapshot(), config, q) && !AlreadyVerified(ledger.Snapshot(), q)
    requires booking.IsComplete() && booking.Row() == ledger.bookings[q.bookingId.value]
    requires tx == ledger.transactions[q.razorpayOrderId.value]
    modifies ledger, center`records, booking
    ensures PaymentOutcome(reply, ledger.Snapshot(), notice) == Verify(old(ledger.Snapshot()), config, Some(q), hmac, now)
    ensures center.Valid() && notice.Some?
    ensures center.records == old(center.records) + StateChangeRecords(notice.value, email, center.emailEnabled, delivers,
                                                                       |old(center.records)| + 1, now)
  {
    reply, notice := CheckSignature(ledger, booking, tx, config, q, hmac, now);
    center.SendBookingStateChange(notice.value, email, delivers, now);
  }
}
