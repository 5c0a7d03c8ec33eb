/**
 * Payment reconciliation: creating a gateway order for a booking and
 * verifying the payment the customer made against it. Each operation is a
 * function from the tables before the call to a `PaymentOutcome`: the reply,
 * the tables once the transaction commits, and the state change passed to
 * the notification service, if any.
 *
 * The gateway call is an input (`GatewayReply`); HMAC-SHA256 is an
 * uninterpreted function from (data, secret) to the digest bytes.
 */
module Payments {
  import opened Options
  import opened Http
  import opened Enums
  import opened Text
  import opened Bookings
  import BookingRules
  import opened OverlapQueries
  import opened Persistence
  import opened Money
  import opened HexEncoding
  import opened Notifications

  /** `app.payment.razorpay.*`: the key pair and the configured currency. */
  datatype RazorpayConfig = RazorpayConfig(keyId: Option<string>, keySecret: Option<string>, currency: Option<string>)

  /** HMAC-SHA256 of `data` under `secret`, as the digest's bytes. */
  type Hmac = (string, string) -> seq<JavaByte>

  /** What the order call produced: an exception, or a body whose `id` may be missing. */
  datatype GatewayReply =
    | GatewayError
    | GatewayAnswered(id: Option<string>)

  datatype OrderRequest = OrderRequest(bookingId: Option<int>)

  datatype VerifyRequest = VerifyRequest(
    bookingId: Option<int>,
    razorpayOrderId: Option<string>,
    razorpayPaymentId: Option<string>,
    razorpaySignature: Option<string>)

  /** Why a payment call was refused; each stands for the message text the service answers with. */
  datatype Refusal =
    | BookingIdRequired
    | KeysNotConfigured
    | BookingMissing
    | BookingClosed(status: BookingStatus)
    | AlreadyPaid
    | AmountNotExact
    | GatewayFailed
    | GatewayInvalidResponse
    | DuplicateOrderId
    | BodyRequired
    | FieldsRequired
    | SecretNotConfigured
    | OrderNotFound
    | InvalidSignature

  datatype OrderCreated = OrderCreated(
    bookingId: int,
    orderId: string,
    keyId: string,
    amountInPaise: int,
    currency: string,
    paymentMethod: PaymentMethod,
    paymentStatus: PaymentStatus,
    bookingStatus: BookingStatus)

  /** The verify response; `alreadyVerified` tells the replay answer from a fresh success. */
  datatype VerifyResult = VerifyResult(
    bookingId: int,
    razorpayOrderId: string,
    razorpayPaymentId: string,
    paymentStatus: PaymentStatus,
    bookingStatus: BookingStatus,
    alreadyVerified: bool)

  datatype PaymentReply =
    | Order(status: int, order: OrderCreated)
    | Verification(status: int, result: VerifyResult)
    | Refused(status: int, refusal: Refusal)

  datatype PaymentOutcome = PaymentOutcome(reply: PaymentReply, state: State, notice: Option<StatusChange>)

  function Refuse(s: State, status: int, refusal: Refusal): PaymentOutcome
  {
    PaymentOutcome(Refused(status, refusal), s, None)
  }

  // ---------------------------------------------------------------- helpers

  const DefaultCurrency: string := "INR"
  const MismatchCode: string := "SIGNATURE_MISMATCH"
  const MismatchDescription: string := "Razorpay signature verification failed"

  /**
   * `normalizeCurrency`: a blank setting means INR; otherwise the trimmed
   * code in upper case. The result is never blank, carries no lower-case
   * letter and has nothing strippable at either end.
   */
  function NormalizeCurrency(currency: Option<string>): (r: string)
    ensures r != [] && !IsTrimmable(r[0]) && !IsTrimmable(r[|r| - 1])
    ensures forall i :: 0 <= i < |r| ==> !('a' <= r[i] <= 'z')
    ensures IsBlank(currency) ==> r == DefaultCurrency
  {
    if IsBlank(currency) then
      assert DefaultCurrency == ['I', 'N', 'R'];
      DefaultCurrency
    else
      var t := Trim(currency.value);
      NotBlankTrimsToSomething(currency.value);
      ToUpperIdempotent(t);
      ToUpperKeepsTrimmed(t);
      ToUpper(t)
  }

  /** The normalized code is never blank, so it is never replaced by the default a second time. */
  lemma NormalizedCurrencyIsNotBlank(currency: Option<string>)
    ensures !IsBlank(Some(NormalizeCurrency(currency)))
  {
    var r := NormalizeCurrency(currency);
    assert !IsTrimmable(r[0]);
  }

  /** Normalizing a normalized code changes nothing. */
  lemma NormalizeCurrencyIsIdempotent(currency: Option<string>)
    ensures NormalizeCurrency(Some(NormalizeCurrency(currency))) == NormalizeCurrency(currency)
  {
    var r := NormalizeCurrency(currency);
    NormalizedCurrencyIsNotBlank(currency);
    TrimKeepsTrimmed(r);
    assert NormalizeCurrency(Some(r)) == ToUpper(r);
    if IsBlank(currency) {
      assert r == ['I', 'N', 'R'];
      assert ToUpper(r) == r;
    } else {
      var t := Trim(currency.value);
      ToUpperIdempotent(t);
      assert r == ToUpper(t);
    }
  }

  /** A booking that payments may no longer touch (`isTerminalBooking`). */
  predicate IsTerminalBooking(status: BookingStatus)
  {
    status == BookingStatus.Cancelled || status == BookingStatus.Completed || status == BookingStatus.NoShow
  }

  /** The payment service's terminal statuses are the booking service's. */
  lemma TerminalBookingIsTerminalStatus(status: BookingStatus)
    ensures IsTerminalBooking(status) <==> BookingRules.IsTerminalStatus(status)
    ensures !IsTerminalBooking(status) <==> status in BookingRules.ActiveBlockingStatuses()
  {
    BookingRules.ActiveIsExactlyNonTerminal(status);
  }

  /** `hmacSha256Hex(orderId + "|" + paymentId, secret)`. */
  function ExpectedSignature(orderId: string, paymentId: string, secret: string, hmac: Hmac): string
  {
    Hex(hmac(orderId + "|" + paymentId, secret))
  }

  /** A signature matches when it is, character for character, the hex of the expected digest. */
  predicate SignatureMatches(orderId: string, paymentId: string, signature: string, secret: string, hmac: Hmac)
  {
    ExpectedSignature(orderId, paymentId, secret, hmac) == signature
  }

  /** Comparing hex strings compares digests: a matching signature decodes to exactly the expected digest. */
  lemma SignatureMatchIsDigestMatch(orderId: string, paymentId: string, signature: string, secret: string, hmac: Hmac)
    requires |signature| % 2 == 0 && forall i :: 0 <= i < |signature| ==> IsHexDigit(signature[i])
    ensures SignatureMatches(orderId, paymentId, signature, secret, hmac)
        <==> Hex(Unhex(signature)) == signature && Unhex(signature) == hmac(orderId + "|" + paymentId, secret)
  {
    var digest := hmac(orderId + "|" + paymentId, secret);
    UnhexHex(digest);
    if Hex(Unhex(signature)) == signature && Unhex(signature) == digest {
      assert Hex(digest) == signature;
    }
  }

  // ---------------------------------------------------------------- order creation

  /** Every check `createRazorpayOrder` makes before it calls the gateway. */
  predicate OrderChecksPass(s: State, config: RazorpayConfig, request: Option<OrderRequest>)
  {
    && request.Some? && request.value.bookingId.Some?
    && !IsBlank(config.keyId) && !IsBlank(config.keySecret)
    && request.value.bookingId.value in s.bookings
    && var b := s.bookings[request.value.bookingId.value];
    && !IsTerminalBooking(b.bookingStatus)
    && b.paymentStatus != PaymentStatus.Success
    && ToPaise(Decimal(b.totalAmount, 2)).Some?
  }

  /** The booking's payment columns once an order is placed for it; nothing else moves. */
  function AwaitingOrder(b: Booking, orderId: string): (r: Booking)
    ensures r.paymentMethod == Some(PaymentMethod.Razorpay) && r.paymentStatus == PaymentStatus.Pending
    ensures r.paymentReference == Some(orderId)
    ensures r.(paymentMethod := b.paymentMethod, paymentStatus := b.paymentStatus, paymentReference := b.paymentReference) == b
  {
    b.(paymentMethod := Some(PaymentMethod.Razorpay), paymentStatus := PaymentStatus.Pending,
       paymentReference := Some(orderId))
  }

  /** The new PENDING transaction row of an order, stamped at `now` when it is inserted. */
  function PendingTransaction(b: Booking, currency: string, orderId: string, now: int): (tx: PaymentTransaction)
    ensures tx.paymentStatus == PaymentStatus.Pending && tx.providerOrderId == orderId
    ensures tx.bookingId == b.id && tx.amount == b.totalAmount && tx.currency == currency
    ensures tx.providerPaymentId.None? && tx.providerSignature.None?
    ensures tx.errorCode.None? && tx.errorDescription.None?
  {
    PaymentTransaction(b.id, PaymentMethod.Razorpay, PaymentStatus.Pending, b.totalAmount, currency, orderId,
                       None, None, None, None, now, now)
  }

  /** The last step of a successful `createRazorpayOrder`: insert the transaction, update the booking, answer 201. */
  function PlaceOrder(s: State, id: int, keyId: string, paise: int, currency: string, orderId: string, now: int)
    : PaymentOutcome
    requires id in s.bookings
  {
    var b := s.bookings[id];
    var current := AwaitingOrder(b, orderId);
    var order := OrderCreated(b.id, orderId, keyId, paise, currency, PaymentMethod.Razorpay,
                              current.paymentStatus, current.bookingStatus);
    PaymentOutcome(Order(CREATED, order),
                   s.(bookings := s.bookings[id := Flushed(b, current, now)],
                      transactions := s.transactions[orderId := PendingTransaction(b, currency, orderId, now)]),
                   None)
  }

  /**
   * `createRazorpayOrder`. A duplicate order id violates the unique index on
   * `provider_order_id` when the transaction row is inserted; the whole
   * transaction rolls back and the conflict handler answers 409.
   */
  function CreateOrder(s: State, config: RazorpayConfig, request: Option<OrderRequest>, gateway: GatewayReply,
                       now: int): PaymentOutcome
  {
    if request.None? || request.value.bookingId.None? then Refuse(s, BAD_REQUEST, BookingIdRequired)
    else if IsBlank(config.keyId) || IsBlank(config.keySecret) then Refuse(s, INTERNAL_SERVER_ERROR, KeysNotConfigured)
    else
      var id := request.value.bookingId.value;
      if id !in s.bookings then Refuse(s, NOT_FOUND, BookingMissing)
      else
        var b := s.bookings[id];
        if IsTerminalBooking(b.bookingStatus) then Refuse(s, CONFLICT, BookingClosed(b.bookingStatus))
        else if b.paymentStatus == PaymentStatus.Success then Refuse(s, CONFLICT, AlreadyPaid)
        else
          var paise := ToPaise(Decimal(b.totalAmount, 2));
          if paise.None? then Refuse(s, INTERNAL_SERVER_ERROR, AmountNotExact)
          else
            match gateway
            case GatewayError => Refuse(s, BAD_GATEWAY, GatewayFailed)
            case GatewayAnswered(None) => Refuse(s, BAD_GATEWAY, GatewayInvalidResponse)
            case GatewayAnswered(Some(orderId)) =>
              if orderId in s.transactions then Refuse(s, CONFLICT, DuplicateOrderId)
              else PlaceOrder(s, id, config.keyId.value, paise.value, NormalizeCurrency(config.currency), orderId, now)
  }

  /**
   * An order is created exactly when every check passes and the gateway
   * returned an order id not yet on file; every other answer leaves the
   * tables as they were. No order call notifies anyone.
   */
  lemma CreateOrderSucceedsExactlyWhenAllowed(s: State, config: RazorpayConfig, request: Option<OrderRequest>,
                                              gateway: GatewayReply, now: int)
    ensures var o := CreateOrder(s, config, request, gateway, now);
      && (o.reply.status == CREATED <==>
            OrderChecksPass(s, config, request) && gateway.GatewayAnswered? && gateway.id.Some?
            && gateway.id.value !in s.transactions)
      && (o.reply.status != CREATED ==> o.state == s && o.reply.Refused?)
      && o.notice.None?
  {
    var o := CreateOrder(s, config, request, gateway, now);
    if OrderChecksPass(s, config, request) {
      var id := request.value.bookingId.value;
      var b := s.bookings[id];
      var paise := ToPaise(Decimal(b.totalAmount, 2));
      if gateway.GatewayAnswered? && gateway.id.Some? && gateway.id.value !in s.transactions {
        assert o == PlaceOrder(s, id, config.keyId.value, paise.value, NormalizeCurrency(config.currency),
                               gateway.id.value, now);
      } else {
        assert o.reply.Refused? && o.state == s;
      }
    } else {
      assert o.reply.Refused? && o.state == s;
    }
  }

  /** Once every check passes, a failed or empty gateway answer is a 502 and nothing is written. */
  lemma CreateOrderReportsGatewayFailure(s: State, config: RazorpayConfig, request: Option<OrderRequest>,
                                         gateway: GatewayReply, now: int)
    requires OrderChecksPass(s, config, request)
    requires gateway.GatewayError? || gateway.id.None?
    ensures CreateOrder(s, config, request, gateway, now) ==
              Refuse(s, BAD_GATEWAY, if gateway.GatewayError? then GatewayFailed else GatewayInvalidResponse)
  {
  }

  /** A booking that is closed or already paid gets a 409 and no order. */
  lemma CreateOrderRefusesClosedOrPaidBooking(s: State, config: RazorpayConfig, id: int, gateway: GatewayReply, now: int)
    requires !IsBlank(config.keyId) && !IsBlank(config.keySecret) && id in s.bookings
    requires IsTerminalBooking(s.bookings[id].bookingStatus) || s.bookings[id].paymentStatus == PaymentStatus.Success
    ensures var o := CreateOrder(s, config, Some(OrderRequest(Some(id))), gateway, now);
      o.reply.status == CONFLICT && o.state == s
  {
  }

  /**
   * A created order: one PENDING transaction for the booking's full amount
   * under the gateway's order id, and the booking's payment columns set to
   * RAZORPAY / PENDING / that order id. The booking status, the stay and
   * every other row are kept. For a stored amount the reply's minor-unit
   * count is the amount in hundredths.
   */
  lemma CreateOrderRecordsPendingOrder(s: State, config: RazorpayConfig, id: int, orderId: string, now: int)
    requires OrderChecksPass(s, config, Some(OrderRequest(Some(id)))) && orderId !in s.transactions
    ensures var o := CreateOrder(s, config, Some(OrderRequest(Some(id))), GatewayAnswered(Some(orderId)), now);
      var b := s.bookings[id];
      && o.reply.Order? && o.reply.status == CREATED
      && o.reply.order.orderId == orderId && o.reply.order.bookingStatus == b.bookingStatus
      && o.reply.order.currency == NormalizeCurrency(config.currency)
      && (FitsAmountColumn(b.totalAmount) ==> o.reply.order.amountInPaise == b.totalAmount)
      && o.state.transactions == s.transactions[orderId := PendingTransaction(b, o.reply.order.currency, orderId, now)]
      && o.state.bookings == s.bookings[id := o.state.bookings[id]]
      && var after := o.state.bookings[id];
      && after.paymentStatus == PaymentStatus.Pending && after.paymentReference == Some(orderId)
      && after.paymentMethod == Some(PaymentMethod.Razorpay)
      && after.(paymentMethod := b.paymentMethod, paymentStatus := b.paymentStatus,
                paymentReference := b.paymentReference, updatedAt := b.updatedAt) == b
  {
    var b := s.bookings[id];
    var paise := ToPaise(Decimal(b.totalAmount, 2));
    var currency := NormalizeCurrency(config.currency);
    var o := CreateOrder(s, config, Some(OrderRequest(Some(id))), GatewayAnswered(Some(orderId)), now);
    assert o == PlaceOrder(s, id, config.keyId.value, paise.value, currency, orderId, now);
    if FitsAmountColumn(b.totalAmount) {
      ToPaiseOfStoredAmount(b.totalAmount);
    }
  }

  lemma CreateOrderPreservesValid(s: State, config: RazorpayConfig, request: Option<OrderRequest>, gateway: GatewayReply,
                                  now: int)
    requires Valid(s)
    ensures Valid(CreateOrder(s, config, request, gateway, now).state)
  {
    CreateOrderSucceedsExactlyWhenAllowed(s, config, request, gateway, now);
    if CreateOrder(s, config, request, gateway, now).reply.status == CREATED {
      var id, orderId := request.value.bookingId.value, gateway.id.value;
      var b := s.bookings[id];
      var currency := NormalizeCurrency(config.currency);
      CreateOrderRecordsPendingOrder(s, config, id, orderId, now);
      RewriteRowsKeepsValid(s, id, Flushed(b, AwaitingOrder(b, orderId), now), orderId,
                            PendingTransaction(b, currency, orderId, now));
    }
  }

  /** Placing an order moves no booking: the same rows, rooms and nights, and the same next id. */
  lemma CreateOrderKeepsStays(s: State, config: RazorpayConfig, request: Option<OrderRequest>, gateway: GatewayReply,
                              now: int)
    ensures var t := CreateOrder(s, config, request, gateway, now).state;
      SameStays(s.bookings, t.bookings) && t.nextBookingId == s.nextBookingId
  {
    CreateOrderSucceedsExactlyWhenAllowed(s, config, request, gateway, now);
    if CreateOrder(s, config, request, gateway, now).reply.status == CREATED {
      CreateOrderRecordsPendingOrder(s, config, request.value.bookingId.value, gateway.id.value, now);
    }
  }

  // ---------------------------------------------------------------- verification

  /** The checks `verifyRazorpayPayment` makes before it looks at the signature. */
  predicate VerifyReachesTransaction(s: State, config: RazorpayConfig, q: VerifyRequest)
  {
    && q.bookingId.Some? && !IsBlank(q.razorpayOrderId) && !IsBlank(q.razorpayPaymentId)
    && !IsBlank(q.razorpaySignature) && !IsBlank(config.keySecret)
    && q.bookingId.value in s.bookings
    && q.razorpayOrderId.value in s.transactions
    && s.transactions[q.razorpayOrderId.value].bookingId == s.bookings[q.bookingId.value].id
  }

  /** The replay case: the order is already paid with this very payment id. */
  predicate AlreadyVerified(s: State, q: VerifyRequest)
    requires q.razorpayOrderId.Some? && q.razorpayOrderId.value in s.transactions
  {
    var tx := s.transactions[q.razorpayOrderId.value];
    tx.paymentStatus == PaymentStatus.Success && tx.providerPaymentId == q.razorpayPaymentId
  }

  /** The booking status after a confirmed payment: only PENDING moves, to CONFIRMED. */
  function PromotedStatus(status: BookingStatus): (r: BookingStatus)
    ensures r == BookingStatus.Confirmed <==> status == BookingStatus.Pending || status == BookingStatus.Confirmed
    ensures status != BookingStatus.Pending ==> r == status
  {
    if status == BookingStatus.Pending then BookingStatus.Confirmed else status
  }

  /** The transaction row after a signature mismatch. */
  function RejectedTransaction(tx: PaymentTransaction, paymentId: string, signature: string): (r: PaymentTransaction)
    ensures r.paymentStatus == PaymentStatus.Failed
    ensures r.providerPaymentId == Some(paymentId) && r.providerSignature == Some(signature)
    ensures r.errorCode == Some(MismatchCode) && r.errorDescription == Some(MismatchDescription)
    ensures r.(paymentStatus := tx.paymentStatus, providerPaymentId := tx.providerPaymentId,
               providerSignature := tx.providerSignature, errorCode := tx.errorCode,
               errorDescription := tx.errorDescription) == tx
  {
    tx.(paymentStatus := PaymentStatus.Failed, providerPaymentId := Some(paymentId), providerSignature := Some(signature),
        errorCode := Some(MismatchCode), errorDescription := Some(MismatchDescription))
  }

  /** The transaction row after a confirmed payment. */
  function PaidTransaction(tx: PaymentTransaction, paymentId: string, signature: string): (r: PaymentTransaction)
    ensures r.paymentStatus == PaymentStatus.Success
    ensures r.providerPaymentId == Some(paymentId) && r.providerSignature == Some(signature)
    ensures r.errorCode.None? && r.errorDescription.None?
    ensures r.(paymentStatus := tx.paymentStatus, providerPaymentId := tx.providerPaymentId,
               providerSignature := tx.providerSignature, errorCode := tx.errorCode,
               errorDescription := tx.errorDescription) == tx
  {
    tx.(paymentStatus := PaymentStatus.Success, providerPaymentId := Some(paymentId), providerSignature := Some(signature),
        errorCode := None, errorDescription := None)
  }

  /** The booking after a confirmed payment. */
  function PaidBooking(b: Booking, paymentId: string): (r: Booking)
    ensures r.paymentMethod == Some(PaymentMethod.Razorpay) && r.paymentStatus == PaymentStatus.Success
    ensures r.paymentReference == Some(paymentId) && r.bookingStatus == PromotedStatus(b.bookingStatus)
    ensures r.(paymentMethod := b.paymentMethod, paymentStatus := b.paymentStatus, paymentReference := b.paymentReference,
               bookingStatus := b.bookingStatus) == b
  {
    b.(paymentMethod := Some(PaymentMethod.Razorpay), paymentStatus := PaymentStatus.Success,
       paymentReference := Some(paymentId), bookingStatus := PromotedStatus(b.bookingStatus))
  }

  /** The mismatch branch: both rows marked FAILED, 400, and the state change announced. */
  function RejectSignature(s: State, id: int, orderId: string, paymentId: string, signature: string, now: int)
    : PaymentOutcome
    requires id in s.bookings && orderId in s.transactions
  {
    var b, tx := s.bookings[id], s.transactions[orderId];
    var current := b.(paymentStatus := PaymentStatus.Failed);
    PaymentOutcome(Refused(BAD_REQUEST, InvalidSignature),
                   s.(bookings := s.bookings[id := Flushed(b, current, now)],
                      transactions := s.transactions[orderId := FlushedTransaction(tx, RejectedTransaction(tx, paymentId, signature), now)]),
                   Some(StatusChange(current, b.bookingStatus, b.paymentStatus)))
  }

  /** The success branch: both rows marked SUCCESS, a PENDING booking confirmed, 200, and the state change announced. */
  function AcceptPayment(s: State, id: int, orderId: string, paymentId: string, signature: string, now: int)
    : PaymentOutcome
    requires id in s.bookings && orderId in s.transactions
  {
    var b, tx := s.bookings[id], s.transactions[orderId];
    var current := PaidBooking(b, paymentId);
    PaymentOutcome(Verification(OK, VerifyResult(b.id, orderId, paymentId, current.paymentStatus, current.bookingStatus,
                                                 false)),
                   s.(bookings := s.bookings[id := Flushed(b, current, now)],
                      transactions := s.transactions[orderId := FlushedTransaction(tx, PaidTransaction(tx, paymentId, signature), now)]),
                   Some(StatusChange(current, b.bookingStatus, b.paymentStatus)))
  }

  /** `verifyRazorpayPayment`. */
  function Verify(s: State, config: RazorpayConfig, request: Option<VerifyRequest>, hmac: Hmac, now: int): PaymentOutcome
  {
    if request.None? then Refuse(s, BAD_REQUEST, BodyRequired)
    else
      var q := request.value;
      if q.bookingId.None? || IsBlank(q.razorpayOrderId) || IsBlank(q.razorpayPaymentId) || IsBlank(q.razorpaySignature) then
        Refuse(s, BAD_REQUEST, FieldsRequired)
      else if IsBlank(config.keySecret) then Refuse(s, INTERNAL_SERVER_ERROR, SecretNotConfigured)
      else
        var id := q.bookingId.value;
        var orderId, paymentId, signature := q.razorpayOrderId.value, q.razorpayPaymentId.value, q.razorpaySignature.value;
        if id !in s.bookings then Refuse(s, NOT_FOUND, BookingMissing)
        else
          var b := s.bookings[id];
          if orderId !in s.transactions || s.transactions[orderId].bookingId != b.id then Refuse(s, NOT_FOUND, OrderNotFound)
          else
            var tx := s.transactions[orderId];
            if tx.paymentStatus == PaymentStatus.Success && tx.providerPaymentId == Some(paymentId) then
              PaymentOutcome(Verification(OK, VerifyResult(b.id, orderId, paymentId, b.paymentStatus, b.bookingStatus, true)),
                             s, None)
            else if !SignatureMatches(orderId, paymentId, signature, config.keySecret.value, hmac) then
              RejectSignature(s, id, orderId, paymentId, signature, now)
            else
              AcceptPayment(s, id, orderId, paymentId, signature, now)
  }

  /** Past the checks and the replay test, the signature alone picks the branch. */
  lemma VerifyDispatch(s: State, config: RazorpayConfig, q: VerifyRequest, hmac: Hmac, now: int)
    requires VerifyReachesTransaction(s, config, q) && !AlreadyVerified(s, q)
    ensures var id, orderId, paymentId, signature := q.bookingId.value, q.razorpayOrderId.value, q.razorpayPaymentId.value,
                                                     q.razorpaySignature.value;
      Verify(s, config, Some(q), hmac, now) ==
        if SignatureMatches(orderId, paymentId, signature, config.keySecret.value, hmac)
        then AcceptPayment(s, id, orderId, paymentId, signature, now)
        else RejectSignature(s, id, orderId, paymentId, signature, now)
  {
    var orderId, paymentId, signature := q.razorpayOrderId.value, q.razorpayPaymentId.value, q.razorpaySignature.value;
    if SignatureMatches(orderId, paymentId, signature, config.keySecret.value, hmac) {
      VerifyAccepts(s, config, q, hmac, now);
    } else {
      VerifyRejects(s, config, q, hmac, now);
    }
  }

  /** A new, matching signature for a reachable order: the success branch. */
  lemma VerifyAccepts(s: State, config: RazorpayConfig, q: VerifyRequest, hmac: Hmac, now: int)
    requires VerifyReachesTransaction(s, config, q) && !AlreadyVerified(s, q)
    requires SignatureMatches(q.razorpayOrderId.value, q.razorpayPaymentId.value, q.razorpaySignature.value,
                              config.keySecret.value, hmac)
    ensures Verify(s, config, Some(q), hmac, now) ==
              AcceptPayment(s, q.bookingId.value, q.razorpayOrderId.value, q.razorpayPaymentId.value,
                            q.razorpaySignature.value, now)
  {
  }

  /** A new signature that does not match, for a reachable order: the mismatch branch. */
  lemma VerifyRejects(s: State, config: RazorpayConfig, q: VerifyRequest, hmac: Hmac, now: int)
    requires VerifyReachesTransaction(s, config, q) && !AlreadyVerified(s, q)
    requires !SignatureMatches(q.razorpayOrderId.value, q.razorpayPaymentId.value, q.razorpaySignature.value,
                               config.keySecret.value, hmac)
    ensures Verify(s, config, Some(q), hmac, now) ==
              RejectSignature(s, q.bookingId.value, q.razorpayOrderId.value, q.razorpayPaymentId.value,
                              q.razorpaySignature.value, now)
  {
  }

  /** Missing fields, a missing secret, an unknown booking or an order of another booking: refused, nothing written. */
  lemma VerifyRefusalsWriteNothing(s: State, config: RazorpayConfig, request: Option<VerifyRequest>, hmac: Hmac, now: int)
    ensures var o := Verify(s, config, request, hmac, now);
      && (o.state != s || o.notice.Some? ==> request.Some? && VerifyReachesTransaction(s, config, request.value))
      && (request.Some? && !VerifyReachesTransaction(s, config, request.value) ==>
            o.reply.Refused? && o.reply.status in {BAD_REQUEST, INTERNAL_SERVER_ERROR, NOT_FOUND})
  {
  }

  /**
   * The replay short-circuit: an order already paid with this payment id
   * answers 200 with the booking's current statuses, writes nothing and
   * notifies nobody, whatever signature is sent.
   */
  lemma VerifyReplayIsNoOp(s: State, config: RazorpayConfig, q: VerifyRequest, hmac: Hmac, now: int)
    requires VerifyReachesTransaction(s, config, q) && AlreadyVerified(s, q)
    ensures var o := Verify(s, config, Some(q), hmac, now);
      var b := s.bookings[q.bookingId.value];
      && o.state == s && o.notice.None?
      && o.reply == Verification(OK, VerifyResult(b.id, q.razorpayOrderId.value, q.razorpayPaymentId.value,
                                                  b.paymentStatus, b.bookingStatus, true))
  {
  }

  /**
   * A signature that does not match: 400; the transaction becomes FAILED
   * with the submitted payment id and signature and the mismatch error; the
   * booking's payment status becomes FAILED and nothing else of it moves;
   * the notice carries the statuses from before the call.
   */
  lemma VerifyMismatchMarksFailed(s: State, config: RazorpayConfig, q: VerifyRequest, hmac: Hmac, now: int)
    requires VerifyReachesTransaction(s, config, q) && !AlreadyVerified(s, q)
    requires !SignatureMatches(q.razorpayOrderId.value, q.razorpayPaymentId.value, q.razorpaySignature.value,
                               config.keySecret.value, hmac)
    ensures var o := Verify(s, config, Some(q), hmac, now);
      var id, orderId := q.bookingId.value, q.razorpayOrderId.value;
      var b := s.bookings[id];
      && o.reply == Refused(BAD_REQUEST, InvalidSignature)
      && o.state.transactions == s.transactions[orderId := o.state.transactions[orderId]]
      && o.state.transactions[orderId].(updatedAt := 0) ==
           RejectedTransaction(s.transactions[orderId], q.razorpayPaymentId.value, q.razorpaySignature.value).(updatedAt := 0)
      && o.state.bookings == s.bookings[id := o.state.bookings[id]]
      && o.state.bookings[id].(updatedAt := 0) == b.(paymentStatus := PaymentStatus.Failed, updatedAt := 0)
      && o.notice == Some(StatusChange(b.(paymentStatus := PaymentStatus.Failed), b.bookingStatus, b.paymentStatus))
      && o.state.nextBookingId == s.nextBookingId
  {
    var id, orderId, paymentId, signature := q.bookingId.value, q.razorpayOrderId.value, q.razorpayPaymentId.value,
                                             q.razorpaySignature.value;
    assert Verify(s, config, Some(q), hmac, now) == RejectSignature(s, id, orderId, paymentId, signature, now);
  }

  /**
   * A matching signature: 200; the transaction becomes SUCCESS with the
   * payment id and signature and no error; the booking is paid by RAZORPAY
   * with the payment id as reference, and only a PENDING booking is
   * promoted to CONFIRMED. The notice carries the previous statuses.
   */
  lemma VerifyMatchMarksPaid(s: State, config: RazorpayConfig, q: VerifyRequest, hmac: Hmac, now: int)
    requires VerifyReachesTransaction(s, config, q) && !AlreadyVerified(s, q)
    requires SignatureMatches(q.razorpayOrderId.value, q.razorpayPaymentId.value, q.razorpaySignature.value,
                              config.keySecret.value, hmac)
    ensures var o := Verify(s, config, Some(q), hmac, now);
      var id, orderId := q.bookingId.value, q.razorpayOrderId.value;
      var b := s.bookings[id];
      var after := o.state.bookings[id];
      && o.reply.Verification? && o.reply.status == OK && !o.reply.result.alreadyVerified
      && o.reply.result.paymentStatus == PaymentStatus.Success
      && o.reply.result.bookingStatus == after.bookingStatus
      && o.state.transactions == s.transactions[orderId := o.state.transactions[orderId]]
      && o.state.transactions[orderId].(updatedAt := 0) ==
           PaidTransaction(s.transactions[orderId], q.razorpayPaymentId.value, q.razorpaySignature.value).(updatedAt := 0)
      && o.state.bookings == s.bookings[id := after]
      && after.paymentStatus == PaymentStatus.Success && after.paymentReference == q.razorpayPaymentId
      && after.paymentMethod == Some(PaymentMethod.Razorpay)
      && after.bookingStatus == PromotedStatus(b.bookingStatus)
      && after.(paymentMethod := b.paymentMethod, paymentStatus := b.paymentStatus, paymentReference := b.paymentReference,
                bookingStatus := b.bookingStatus, updatedAt := b.updatedAt) == b
      && o.notice.Some? && o.notice.value.previousBookingStatus == b.bookingStatus
      && o.notice.value.previousPaymentStatus == b.paymentStatus
  {
    var id, orderId, paymentId, signature := q.bookingId.value, q.razorpayOrderId.value, q.razorpayPaymentId.value,
                                             q.razorpaySignature.value;
    assert Verify(s, config, Some(q), hmac, now) == AcceptPayment(s, id, orderId, paymentId, signature, now);
  }

  /**
   * Verifying twice is verifying once: after a call that confirmed a
   * payment, the same call again changes nothing and notifies nobody.
   */
  lemma VerifyIsIdempotent(s: State, config: RazorpayConfig, q: VerifyRequest, hmac: Hmac, now: int, later: int)
    requires Verify(s, config, Some(q), hmac, now).reply.Verification?
    ensures var first := Verify(s, config, Some(q), hmac, now);
      var second := Verify(first.state, config, Some(q), hmac, later);
      second.state == first.state && second.notice.None? && second.reply.Verification?
      && second.reply.result.alreadyVerified
  {
    VerifyRefusalsWriteNothing(s, config, Some(q), hmac, now);
    assert VerifyReachesTransaction(s, config, q);
    var first := Verify(s, config, Some(q), hmac, now);
    if !AlreadyVerified(s, q) {
      VerifyMatchMarksPaid(s, config, q, hmac, now);
      assert VerifyReachesTransaction(first.state, config, q);
      assert AlreadyVerified(first.state, q);
      VerifyReplayIsNoOp(first.state, config, q, hmac, later);
    } else {
      VerifyReplayIsNoOp(s, config, q, hmac, now);
      VerifyReplayIsNoOp(s, config, q, hmac, later);
    }
  }

  /**
   * Only PENDING is promoted, so a booking cancelled after its order was
   * created ends up CANCELLED with payment SUCCESS once the customer pays.
   */
  lemma VerifyPaysCancelledBooking(s: State, config: RazorpayConfig, q: VerifyRequest, hmac: Hmac, now: int)
    requires VerifyReachesTransaction(s, config, q) && !AlreadyVerified(s, q)
    requires s.bookings[q.bookingId.value].bookingStatus == BookingStatus.Cancelled
    requires SignatureMatches(q.razorpayOrderId.value, q.razorpayPaymentId.value, q.razorpaySignature.value,
                              config.keySecret.value, hmac)
    ensures var after := Verify(s, config, Some(q), hmac, now).state.bookings[q.bookingId.value];
      after.bookingStatus == BookingStatus.Cancelled && after.paymentStatus == PaymentStatus.Success
  {
    VerifyMatchMarksPaid(s, config, q, hmac, now);
  }

  /**
   * A wrong signature for a new payment id on an order that was already
   * paid turns that order and the booking's payment status to FAILED.
   */
  lemma ForgedVerifyFailsPaidOrder(s: State, config: RazorpayConfig, q: VerifyRequest, hmac: Hmac, now: int)
    requires VerifyReachesTransaction(s, config, q)
    requires s.transactions[q.razorpayOrderId.value].paymentStatus == PaymentStatus.Success
    requires s.transactions[q.razorpayOrderId.value].providerPaymentId != q.razorpayPaymentId
    requires !SignatureMatches(q.razorpayOrderId.value, q.razorpayPaymentId.value, q.razorpaySignature.value,
                               config.keySecret.value, hmac)
    ensures var o := Verify(s, config, Some(q), hmac, now);
      && o.state.transactions[q.razorpayOrderId.value].paymentStatus == PaymentStatus.Failed
      && o.state.bookings[q.bookingId.value].paymentStatus == PaymentStatus.Failed
  {
    VerifyMismatchMarksFailed(s, config, q, hmac, now);
  }

  /** Recording a payment rewrites one booking in place and one order, so the tables stay valid. */
  lemma AcceptPaymentKeepsValid(s: State, id: int, orderId: string, paymentId: string, signature: string, now: int)
    requires Valid(s) && id in s.bookings && orderId in s.transactions
    ensures Valid(AcceptPayment(s, id, orderId, paymentId, signature, now).state)
  {
    var b, tx := s.bookings[id], s.transactions[orderId];
    RewriteRowsKeepsValid(s, id, Flushed(b, PaidBooking(b, paymentId), now), orderId,
                          FlushedTransaction(tx, PaidTransaction(tx, paymentId, signature), now));
  }

  /** Recording a mismatch rewrites one booking in place and one order, so the tables stay valid. */
  lemma RejectSignatureKeepsValid(s: State, id: int, orderId: string, paymentId: string, signature: string, now: int)
    requires Valid(s) && id in s.bookings && orderId in s.transactions
    ensures Valid(RejectSignature(s, id, orderId, paymentId, signature, now).state)
  {
    var b, tx := s.bookings[id], s.transactions[orderId];
    RewriteRowsKeepsValid(s, id, Flushed(b, b.(paymentStatus := PaymentStatus.Failed), now), orderId,
                          FlushedTransaction(tx, RejectedTransaction(tx, paymentId, signature), now));
  }

  lemma VerifyPreservesValid(s: State, config: RazorpayConfig, request: Option<VerifyRequest>, hmac: Hmac, now: int)
    requires Valid(s)
    ensures Valid(Verify(s, config, request, hmac, now).state)
  {
    if request.None? || !VerifyReachesTransaction(s, config, request.value) {
      VerifyRefusalsWriteNothing(s, config, request, hmac, now);
    } else if AlreadyVerified(s, request.value) {
      VerifyReplayIsNoOp(s, config, request.value, hmac, now);
    } else {
      var q := request.value;
      var id, orderId := q.bookingId.value, q.razorpayOrderId.value;
      VerifyDispatch(s, config, q, hmac, now);
      AcceptPaymentKeepsValid(s, id, orderId, q.razorpayPaymentId.value, q.razorpaySignature.value, now);
      RejectSignatureKeepsValid(s, id, orderId, q.razorpayPaymentId.value, q.razorpaySignature.value, now);
    }
  }

  /** Verifying a payment moves no booking: the same rows, rooms and nights, and the same next id. */
  lemma VerifyKeepsStays(s: State, config: RazorpayConfig, request: Option<VerifyRequest>, hmac: Hmac, now: int)
    ensures var t := Verify(s, config, request, hmac, now).state;
      SameStays(s.bookings, t.bookings) && t.nextBookingId == s.nextBookingId
  {
    if request.None? || !VerifyReachesTransaction(s, config, request.value) {
      VerifyRefusalsWriteNothing(s, config, request, hmac, now);
    } else if AlreadyVerified(s, request.value) {
      VerifyReplayIsNoOp(s, config, request.value, hmac, now);
    } else {
      var q := request.value;
      var id, orderId, paymentId, signature := q.bookingId.value, q.razorpayOrderId.value, q.razorpayPaymentId.value,
                                               q.razorpaySignature.value;
      var b := s.bookings[id];
      VerifyDispatch(s, config, q, hmac, now);
      if SignatureMatches(orderId, paymentId, signature, config.keySecret.value, hmac) {
        RewriteKeepsStays(s.bookings, id, Flushed(b, PaidBooking(b, paymentId), now));
      } else {
        RewriteKeepsStays(s.bookings, id, Flushed(b, b.(paymentStatus := PaymentStatus.Failed), now));
      }
    }
  }
}
