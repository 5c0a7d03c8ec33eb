/**
 * The reservation engine as a whole: any sequence of booking and payment
 * calls, each one run to completion before the next (the services' own
 * transactions, serialized), starting from empty tables.
 *
 * The headline property: however the calls are interleaved and whatever
 * they answer, no two PENDING or CONFIRMED bookings of the same room ever
 * share a night, and every booking's room exists.
 */
module Reservations {
  import opened Options
  import opened Text
  import opened Enums
  import opened Bookings
  import opened BookingRules
  import opened OverlapQueries
  import opened Persistence
  import opened BookingLifecycle
  import Payments

  /** One service call with its inputs, including the clock and the outside world's answers. */
  datatype Call =
    | CreateCall(create: Option<CreateRequest>, today: int, now: int)
    | UpdateCall(id: int, update: Option<UpdateRequest>, today: int, now: int)
    | StatusCall(id: int, status: Option<StatusRequest>, now: int)
    | CancelCall(id: int, now: int)
    | OrderCall(config: Payments.RazorpayConfig, order: Option<Payments.OrderRequest>, gateway: Payments.GatewayReply,
                now: int)
    | VerifyCall(config: Payments.RazorpayConfig, verify: Option<Payments.VerifyRequest>, hmac: Payments.Hmac, now: int)

  /** The invariant the engine keeps. */
  predicate Consistent(catalog: Catalog, s: State)
  {
    Valid(s) && RoomsKnown(catalog, s.bookings)
  }

  /** Rewriting bookings without adding, removing or moving any keeps every room known. */
  lemma RoomsStayKnown(catalog: Catalog, before: map<int, Booking>, after: map<int, Booking>)
    requires RoomsKnown(catalog, before)
    requires SameStays(before, after)
    ensures RoomsKnown(catalog, after)
  {
  }

  /** The tables after one call. */
  function After(catalog: Catalog, s: State, call: Call): State
    requires RoomsKnown(catalog, s.bookings)
  {
    match call
    case CreateCall(_, _, _) => AfterCreate(catalog, s, call)
    case UpdateCall(_, _, _, _) => AfterUpdate(catalog, s, call)
    case StatusCall(_, _, _) => AfterStatus(s, call)
    case CancelCall(_, _) => AfterCancel(s, call)
    case OrderCall(_, _, _, _) => AfterOrder(s, call)
    case VerifyCall(_, _, _, _) => AfterVerify(s, call)
  }

  // The effect of each kind of call, defined only for that kind.

  function AfterCreate(catalog: Catalog, s: State, call: Call): State
    requires call.CreateCall?
  {
    Create(s, catalog, call.create, call.today, call.now).state
  }

  function AfterUpdate(catalog: Catalog, s: State, call: Call): State
    requires call.UpdateCall? && RoomsKnown(catalog, s.bookings)
  {
    Update(s, catalog, call.id, call.update, call.today, call.now).state
  }

  function AfterStatus(s: State, call: Call): State
    requires call.StatusCall?
  {
    UpdateStatus(s, call.id, call.status, call.now).state
  }

  function AfterCancel(s: State, call: Call): State
    requires call.CancelCall?
  {
    Cancel(s, call.id, call.now).state
  }

  function AfterOrder(s: State, call: Call): State
    requires call.OrderCall?
  {
    Payments.CreateOrder(s, call.config, call.order, call.gateway, call.now).state
  }

  function AfterVerify(s: State, call: Call): State
    requires call.VerifyCall?
  {
    Payments.Verify(s, call.config, call.verify, call.hmac, call.now).state
  }

  /** Every call keeps the tables consistent. */
  lemma {:induction false} AfterKeepsConsistent(catalog: Catalog, s: State, call: Call)
    requires Consistent(catalog, s)
    ensures Consistent(catalog, After(catalog, s, call))
  {
    var t := After(catalog, s, call);
    match call
    case CreateCall(q, today, now) =>
      CreatePreservesValid(s, catalog, q, today, now);
    case UpdateCall(id, q, today, now) =>
      UpdatePreservesValid(s, catalog, id, q, today, now);
    case StatusCall(id, q, now) =>
      UpdateStatusPreservesValid(s, id, q, now);
      UpdateStatusTouchesOnlyStatuses(s, id, q, now);
      RoomsStayKnown(catalog, s.bookings, t.bookings);
    case CancelCall(id, now) =>
      CancelPreservesValid(s, id, now);
      RoomsStayKnown(catalog, s.bookings, t.bookings);
    case OrderCall(config, q, gateway, now) =>
      Payments.CreateOrderPreservesValid(s, config, q, gateway, now);
      Payments.CreateOrderKeepsStays(s, config, q, gateway, now);
      RoomsStayKnown(catalog, s.bookings, t.bookings);
    case VerifyCall(config, q, hmac, now) =>
      Payments.VerifyPreservesValid(s, config, q, hmac, now);
      Payments.VerifyKeepsStays(s, config, q, hmac, now);
      RoomsStayKnown(catalog, s.bookings, t.bookings);
  }

  /** The tables after one call, with the invariant carried along. */
  function Step(catalog: Catalog, s: State, call: Call): (t: State)
    requires Consistent(catalog, s)
    ensures Consistent(catalog, t)
  {
    AfterKeepsConsistent(catalog, s, call);
    After(catalog, s, call)
  }

  /** A step is the call's own effect. */
  lemma {:induction false} StepIsAfter(catalog: Catalog, s: State, call: Call)
    requires Consistent(catalog, s)
    ensures Step(catalog, s, call) == After(catalog, s, call)
  {
  }

  /** The tables after a sequence of calls, first call first. */
  function Run(catalog: Catalog, s: State, calls: seq<Call>): (t: State)
    requires Consistent(catalog, s)
    ensures Consistent(catalog, t)
    decreases |calls|
  {
    if calls == [] then s else Run(catalog, Step(catalog, s, calls[0]), calls[1..])
  }

  /** Running calls one batch after another is running them all. */
  lemma {:induction false} RunAppend(catalog: Catalog, s: State, first: seq<Call>, rest: seq<Call>)
    requires Consistent(catalog, s)
    ensures Run(catalog, s, first + rest) == Run(catalog, Run(catalog, s, first), rest)
    decreases |first|
  {
    if first != [] {
      var next := Step(catalog, s, first[0]);
      assert (first + rest)[0] == first[0] && (first + rest)[1..] == first[1..] + rest;
      assert Run(catalog, s, first + rest) == Run(catalog, next, first[1..] + rest);
      assert Run(catalog, s, first) == Run(catalog, next, first[1..]);
      RunAppend(catalog, next, first[1..], rest);
    } else {
      assert first + rest == rest;
    }
  }

  /**
   * From empty tables, any sequence of calls leaves no two bookings that
   * hold the same room on a shared night, and every booked room exists.
   */
  lemma NoDoubleBookingEver(catalog: Catalog, calls: seq<Call>)
    ensures var t := Run(catalog, Empty(), calls);
      && NoDoubleBooking(t.bookings)
      && RoomsKnown(catalog, t.bookings)
      && forall j, k :: j in t.bookings && k in t.bookings && j != k
           && t.bookings[j].roomId == t.bookings[k].roomId
           && Holds(t.bookings[j]) && Holds(t.bookings[k])
           ==> !RangesOverlap(t.bookings[j].checkInDate, t.bookings[j].checkOutDate,
                              t.bookings[k].checkInDate, t.bookings[k].checkOutDate)
  {
  }

  /** A call order in which the customer pays after the booking was cancelled. */
  function PayAfterCancel(id: int, config: Payments.RazorpayConfig, orderId: string, paymentId: string, signature: string,
                          hmac: Payments.Hmac, now: int): seq<Call>
  {
    [ OrderCall(config, Some(Payments.OrderRequest(Some(id))), Payments.GatewayAnswered(Some(orderId)), now),
      CancelCall(id, now + 1),
      VerifyCall(config, Some(Payments.VerifyRequest(Some(id), Some(orderId), Some(paymentId), Some(signature))), hmac,
                 now + 2) ]
  }

  /** Three calls in a row. */
  lemma RunThree(catalog: Catalog, s: State, a: Call, b: Call, c: Call)
    requires Consistent(catalog, s)
    ensures Run(catalog, s, [a, b, c]) == Step(catalog, Step(catalog, Step(catalog, s, a), b), c)
  {
    var s1 := Step(catalog, s, a);
    var s2 := Step(catalog, s1, b);
    assert [a, b, c][1..] == [b, c] && [b, c][1..] == [c] && [c][1..] == [];
    assert Run(catalog, s2, [c]) == Run(catalog, Step(catalog, s2, c), []);
  }

  /** An order call is `CreateOrder`. */
  lemma OrderStep(catalog: Catalog, s: State, config: Payments.RazorpayConfig, q: Option<Payments.OrderRequest>,
                   gateway: Payments.GatewayReply, now: int)
    requires RoomsKnown(catalog, s.bookings)
    ensures After(catalog, s, OrderCall(config, q, gateway, now)) == Payments.CreateOrder(s, config, q, gateway, now).state
  {
    var call := OrderCall(config, q, gateway, now);
    assert call.config == config && call.order == q && call.gateway == gateway && call.now == now;
    assert After(catalog, s, call) == AfterOrder(s, call);
  }

  /** A cancel call is `Cancel`. */
  lemma CancelStep(catalog: Catalog, s: State, id: int, now: int)
    requires RoomsKnown(catalog, s.bookings)
    ensures After(catalog, s, CancelCall(id, now)) == Cancel(s, id, now).state
  {
    var call := CancelCall(id, now);
    assert call.id == id && call.now == now;
    assert After(catalog, s, call) == AfterCancel(s, call);
  }

  /** A verify call is `Verify`. */
  lemma VerifyStep(catalog: Catalog, s: State, config: Payments.RazorpayConfig, q: Option<Payments.VerifyRequest>,
                    hmac: Payments.Hmac, now: int)
    requires RoomsKnown(catalog, s.bookings)
    ensures After(catalog, s, VerifyCall(config, q, hmac, now)) == Payments.Verify(s, config, q, hmac, now).state
  {
    var call := VerifyCall(config, q, hmac, now);
    assert call.config == config && call.verify == q && call.hmac == hmac && call.now == now;
    assert After(catalog, s, call) == AfterVerify(s, call);
  }

  /** After an order for a held booking, the booking and its PENDING order are on file under the booking's id. */
  lemma OrderLeavesPendingTransaction(s: State, config: Payments.RazorpayConfig, id: int, orderId: string, now: int)
    requires Valid(s)
    requires Payments.OrderChecksPass(s, config, Some(Payments.OrderRequest(Some(id)))) && orderId !in s.transactions
    ensures var t := Payments.CreateOrder(s, config, Some(Payments.OrderRequest(Some(id))),
                                          Payments.GatewayAnswered(Some(orderId)), now).state;
      && Valid(t) && id in t.bookings && t.bookings[id].id == id
      && t.bookings[id].bookingStatus in {BookingStatus.Pending, BookingStatus.Confirmed}
      && t.bookings[id].paymentStatus == PaymentStatus.Pending
      && orderId in t.transactions && t.transactions[orderId].bookingId == id
      && t.transactions[orderId].paymentStatus == PaymentStatus.Pending
  {
    Payments.CreateOrderRecordsPendingOrder(s, config, id, orderId, now);
    Payments.CreateOrderPreservesValid(s, config, Some(Payments.OrderRequest(Some(id))),
                                       Payments.GatewayAnswered(Some(orderId)), now);
    Payments.TerminalBookingIsTerminalStatus(s.bookings[id].bookingStatus);
  }

  /** Cancelling that booking leaves the order untouched and the booking CANCELLED. */
  lemma CancelLeavesOrder(s: State, id: int, orderId: string, now: int)
    requires Valid(s) && id in s.bookings && s.bookings[id].id == id
    requires s.bookings[id].bookingStatus in {BookingStatus.Pending, BookingStatus.Confirmed}
    requires orderId in s.transactions && s.transactions[orderId].bookingId == id
    requires s.transactions[orderId].paymentStatus == PaymentStatus.Pending
    ensures var t := Cancel(s, id, now).state;
      && id in t.bookings && t.bookings[id].id == id && t.bookings[id].bookingStatus == BookingStatus.Cancelled
      && t.transactions == s.transactions
  {
    CancelReleasesTheRoom(s, id, now, now);
  }

  /**
   * Order, cancel, then pay: the booking ends CANCELLED with its payment
   * SUCCESS, because verification promotes only PENDING bookings and never
   * looks at a cancelled one.
   */
  lemma CancelledBookingCanEndUpPaid(catalog: Catalog, s: State, id: int, config: Payments.RazorpayConfig,
                                     orderId: string, paymentId: string, signature: string, hmac: Payments.Hmac,
                                     now: int)
    requires Consistent(catalog, s)
    requires Payments.OrderChecksPass(s, config, Some(Payments.OrderRequest(Some(id)))) && orderId !in s.transactions
    requires !IsBlank(Some(orderId)) && !IsBlank(Some(paymentId)) && !IsBlank(Some(signature))
    requires Payments.SignatureMatches(orderId, paymentId, signature, config.keySecret.value, hmac)
    ensures var t := Run(catalog, s, PayAfterCancel(id, config, orderId, paymentId, signature, hmac, now));
      id in t.bookings && t.bookings[id].bookingStatus == BookingStatus.Cancelled
      && t.bookings[id].paymentStatus == PaymentStatus.Success
  {
    var calls := PayAfterCancel(id, config, orderId, paymentId, signature, hmac, now);
    RunThree(catalog, s, calls[0], calls[1], calls[2]);
    assert calls == [calls[0], calls[1], calls[2]];
    PaidAfterCancel(catalog, s, id, config, orderId, paymentId, signature, hmac, now);
  }

  /** The three steps of `PayAfterCancel`, one at a time. */
  lemma PaidAfterCancel(catalog: Catalog, s: State, id: int, config: Payments.RazorpayConfig,
                        orderId: string, paymentId: string, signature: string, hmac: Payments.Hmac, now: int)
    requires Consistent(catalog, s)
    requires Payments.OrderChecksPass(s, config, Some(Payments.OrderRequest(Some(id)))) && orderId !in s.transactions
    requires !IsBlank(Some(orderId)) && !IsBlank(Some(paymentId)) && !IsBlank(Some(signature))
    requires Payments.SignatureMatches(orderId, paymentId, signature, config.keySecret.value, hmac)
    ensures var calls := PayAfterCancel(id, config, orderId, paymentId, signature, hmac, now);
      var t := Step(catalog, Step(catalog, Step(catalog, s, calls[0]), calls[1]), calls[2]);
      id in t.bookings && t.bookings[id].bookingStatus == BookingStatus.Cancelled
      && t.bookings[id].paymentStatus == PaymentStatus.Success
  {
    var calls := PayAfterCancel(id, config, orderId, paymentId, signature, hmac, now);
    var s1 := Step(catalog, s, calls[0]);
    StepIsAfter(catalog, s, calls[0]);
    OrderStep(catalog, s, config, Some(Payments.OrderRequest(Some(id))), Payments.GatewayAnswered(Some(orderId)), now);
    OrderLeavesPendingTransaction(s, config, id, orderId, now);
    var s2 := Step(catalog, s1, calls[1]);
    StepIsAfter(catalog, s1, calls[1]);
    CancelStep(catalog, s1, id, now + 1);
    CancelLeavesOrder(s1, id, orderId, now + 1);
    var q := Payments.VerifyRequest(Some(id), Some(orderId), Some(paymentId), Some(signature));
    assert Payments.VerifyReachesTransaction(s2, config, q);
    StepIsAfter(catalog, s2, calls[2]);
    VerifyStep(catalog, s2, config, Some(q), hmac, now + 2);
    Payments.VerifyPaysCancelledBooking(s2, config, q, hmac, now + 2);
  }

  /**
   * A created order leaves its booking open to another order: the booking is
   * still open and unpaid, and the only new row is the PENDING transaction.
   */
  lemma OrderLeavesBookingOrderable(s: State, config: Payments.RazorpayConfig, id: int, orderId: string, now: int)
    requires Valid(s)
    requires Payments.OrderChecksPass(s, config, Some(Payments.OrderRequest(Some(id)))) && orderId !in s.transactions
    ensures var t := Payments.CreateOrder(s, config, Some(Payments.OrderRequest(Some(id))),
                                          Payments.GatewayAnswered(Some(orderId)), now).state;
      && Valid(t) && t.bookings[id].id == s.bookings[id].id
      && Payments.OrderChecksPass(t, config, Some(Payments.OrderRequest(Some(id))))
      && t.transactions == s.transactions[orderId := t.transactions[orderId]]
      && t.transactions[orderId].bookingId == s.bookings[id].id
      && t.transactions[orderId].paymentStatus == PaymentStatus.Pending
      && t.transactions[orderId].amount == s.bookings[id].totalAmount
      && t.bookings[id].totalAmount == s.bookings[id].totalAmount
  {
    Payments.CreateOrderRecordsPendingOrder(s, config, id, orderId, now);
    Payments.CreateOrderPreservesValid(s, config, Some(Payments.OrderRequest(Some(id))),
                                       Payments.GatewayAnswered(Some(orderId)), now);
  }

  /**
   * A correctly signed verification of a PENDING order marks that order and
   * its booking SUCCESS and leaves every other transaction as it was.
   */
  lemma VerifyPaysPendingOrder(s: State, config: Payments.RazorpayConfig, q: Payments.VerifyRequest, hmac: Payments.Hmac,
                               now: int)
    requires Payments.VerifyReachesTransaction(s, config, q)
    requires s.transactions[q.razorpayOrderId.value].paymentStatus == PaymentStatus.Pending
    requires Payments.SignatureMatches(q.razorpayOrderId.value, q.razorpayPaymentId.value, q.razorpaySignature.value,
                                       config.keySecret.value, hmac)
    ensures var t := Payments.Verify(s, config, Some(q), hmac, now).state;
      var id, orderId := q.bookingId.value, q.razorpayOrderId.value;
      && orderId in t.transactions && id in t.bookings
      && t.transactions == s.transactions[orderId := t.transactions[orderId]]
      && t.transactions[orderId].paymentStatus == PaymentStatus.Success
      && t.transactions[orderId].bookingId == s.transactions[orderId].bookingId
      && t.transactions[orderId].amount == s.transactions[orderId].amount
      && t.bookings == s.bookings[id := t.bookings[id]]
      && t.bookings[id].id == s.bookings[id].id && t.bookings[id].paymentStatus == PaymentStatus.Success
  {
    assert !Payments.AlreadyVerified(s, q);
    Payments.VerifyAccepts(s, config, q, hmac, now);
    AcceptPaymentPays(s, q.bookingId.value, q.razorpayOrderId.value, q.razorpayPaymentId.value,
                      q.razorpaySignature.value, now);
  }

  /** The success branch writes SUCCESS on the order and on its booking, and nothing else. */
  lemma AcceptPaymentPays(s: State, id: int, orderId: string, paymentId: string, signature: string, now: int)
    requires id in s.bookings && orderId in s.transactions
    ensures var t := Payments.AcceptPayment(s, id, orderId, paymentId, signature, now).state;
      && t.transactions == s.transactions[orderId := t.transactions[orderId]]
      && t.transactions[orderId].paymentStatus == PaymentStatus.Success
      && t.transactions[orderId].bookingId == s.transactions[orderId].bookingId
      && t.transactions[orderId].amount == s.transactions[orderId].amount
      && t.bookings == s.bookings[id := t.bookings[id]]
      && t.bookings[id].id == s.bookings[id].id && t.bookings[id].paymentStatus == PaymentStatus.Success
  {
  }

  /** A call order in which two orders are placed for one booking and then both are paid. */
  function PayTwice(id: int, config: Payments.RazorpayConfig, first: Payments.VerifyRequest,
                    second: Payments.VerifyRequest, hmac: Payments.Hmac, now: int): seq<Call>
    requires first.razorpayOrderId.Some? && second.razorpayOrderId.Some?
  {
    [ OrderCall(config, Some(Payments.OrderRequest(Some(id))), Payments.GatewayAnswered(first.razorpayOrderId), now),
      OrderCall(config, Some(Payments.OrderRequest(Some(id))), Payments.GatewayAnswered(second.razorpayOrderId), now + 1),
      VerifyCall(config, Some(first), hmac, now + 2),
      VerifyCall(config, Some(second), hmac, now + 3) ]
  }

  /** Four calls in a row. */
  lemma RunFour(catalog: Catalog, s: State, a: Call, b: Call, c: Call, d: Call)
    requires Consistent(catalog, s)
    ensures Run(catalog, s, [a, b, c, d]) == Step(catalog, Step(catalog, Step(catalog, Step(catalog, s, a), b), c), d)
  {
    var s1 := Step(catalog, s, a);
    assert [a, b, c, d][1..] == [b, c, d];
    RunThree(catalog, s1, b, c, d);
  }

  /** What a payment of `PayTwice` must carry: the booking, its own order, and a correct signature. */
  predicate PaysOrder(config: Payments.RazorpayConfig, id: int, q: Payments.VerifyRequest, hmac: Payments.Hmac)
  {
    && q.bookingId == Some(id) && !IsBlank(q.razorpayOrderId) && !IsBlank(q.razorpayPaymentId)
    && !IsBlank(q.razorpaySignature) && !IsBlank(config.keySecret)
    && Payments.SignatureMatches(q.razorpayOrderId.value, q.razorpayPaymentId.value, q.razorpaySignature.value,
                                 config.keySecret.value, hmac)
  }

  /**
   * One booking paid twice: two orders placed while the booking is unpaid,
   * then both verified with correct signatures, leave two SUCCESS
   * transactions for the same booking, each for its full amount.
   */
  lemma BookingPaidTwice(catalog: Catalog, s: State, id: int, config: Payments.RazorpayConfig,
                         first: Payments.VerifyRequest, second: Payments.VerifyRequest, hmac: Payments.Hmac, now: int)
    requires Consistent(catalog, s)
    requires Payments.OrderChecksPass(s, config, Some(Payments.OrderRequest(Some(id))))
    requires PaysOrder(config, id, first, hmac) && PaysOrder(config, id, second, hmac)
    requires first.razorpayOrderId != second.razorpayOrderId
    requires first.razorpayOrderId.value !in s.transactions && second.razorpayOrderId.value !in s.transactions
    ensures var t := Run(catalog, s, PayTwice(id, config, first, second, hmac, now));
      var a, b := first.razorpayOrderId.value, second.razorpayOrderId.value;
      && id in t.bookings && t.bookings[id].paymentStatus == PaymentStatus.Success
      && a in t.transactions && t.transactions[a].bookingId == id
      && t.transactions[a].paymentStatus == PaymentStatus.Success
      && b in t.transactions && t.transactions[b].bookingId == id
      && t.transactions[b].paymentStatus == PaymentStatus.Success
      && t.transactions[a].amount == t.transactions[b].amount == s.bookings[id].totalAmount
  {
    var calls := PayTwice(id, config, first, second, hmac, now);
    RunFour(catalog, s, calls[0], calls[1], calls[2], calls[3]);
    assert calls == [calls[0], calls[1], calls[2], calls[3]];
    TwoOrderSteps(catalog, s, id, config, first.razorpayOrderId.value, second.razorpayOrderId.value, now);
    var s2 := Step(catalog, Step(catalog, s, calls[0]), calls[1]);
    TwoVerifySteps(catalog, s2, id, config, first, second, hmac, now + 2);
  }

  /** The two orders of `PayTwice`: both on file as PENDING transactions of the booking. */
  lemma TwoOrderSteps(catalog: Catalog, s: State, id: int, config: Payments.RazorpayConfig, a: string, b: string,
                      now: int)
    requires Consistent(catalog, s)
    requires Payments.OrderChecksPass(s, config, Some(Payments.OrderRequest(Some(id))))
    requires a != b && a !in s.transactions && b !in s.transactions
    ensures var order := Some(Payments.OrderRequest(Some(id)));
      var s2 := Step(catalog, Step(catalog, s, OrderCall(config, order, Payments.GatewayAnswered(Some(a)), now)),
                     OrderCall(config, order, Payments.GatewayAnswered(Some(b)), now + 1));
      && id in s2.bookings && s2.bookings[id].id == id
      && a in s2.transactions && s2.transactions[a].bookingId == id
      && s2.transactions[a].paymentStatus == PaymentStatus.Pending
      && b in s2.transactions && s2.transactions[b].bookingId == id
      && s2.transactions[b].paymentStatus == PaymentStatus.Pending
      && s2.transactions[a].amount == s2.transactions[b].amount == s.bookings[id].totalAmount
  {
    var order := Some(Payments.OrderRequest(Some(id)));
    var callA := OrderCall(config, order, Payments.GatewayAnswered(Some(a)), now);
    var callB := OrderCall(config, order, Payments.GatewayAnswered(Some(b)), now + 1);
    var s1 := Step(catalog, s, callA);
    StepIsAfter(catalog, s, callA);
    OrderStep(catalog, s, config, order, Payments.GatewayAnswered(Some(a)), now);
    OrderLeavesBookingOrderable(s, config, id, a, now);
    StepIsAfter(catalog, s1, callB);
    OrderStep(catalog, s1, config, order, Payments.GatewayAnswered(Some(b)), now + 1);
    OrderLeavesBookingOrderable(s1, config, id, b, now + 1);
  }

  /** The two payments of `PayTwice`, each against its own PENDING order of the booking. */
  lemma TwoVerifySteps(catalog: Catalog, s: State, id: int, config: Payments.RazorpayConfig,
                       first: Payments.VerifyRequest, second: Payments.VerifyRequest, hmac: Payments.Hmac, now: int)
    requires Consistent(catalog, s)
    requires PaysOrder(config, id, first, hmac) && PaysOrder(config, id, second, hmac)
    requires first.razorpayOrderId != second.razorpayOrderId
    requires id in s.bookings && s.bookings[id].id == id
    requires var a, b := first.razorpayOrderId.value, second.razorpayOrderId.value;
      && a in s.transactions && s.transactions[a].bookingId == id
      && s.transactions[a].paymentStatus == PaymentStatus.Pending
      && b in s.transactions && s.transactions[b].bookingId == id
      && s.transactions[b].paymentStatus == PaymentStatus.Pending
    ensures var t := Step(catalog, Step(catalog, s, VerifyCall(config, Some(first), hmac, now)),
                          VerifyCall(config, Some(second), hmac, now + 1));
      var a, b := first.razorpayOrderId.value, second.razorpayOrderId.value;
      && id in t.bookings && t.bookings[id].paymentStatus == PaymentStatus.Success
      && a in t.transactions && t.transactions[a].bookingId == id
      && t.transactions[a].paymentStatus == PaymentStatus.Success
      && b in t.transactions && t.transactions[b].bookingId == id
      && t.transactions[b].paymentStatus == PaymentStatus.Success
      && t.transactions[a].amount == s.transactions[a].amount && t.transactions[b].amount == s.transactions[b].amount
  {
    var callA := VerifyCall(config, Some(first), hmac, now);
    var callB := VerifyCall(config, Some(second), hmac, now + 1);
    var s1 := Step(catalog, s, callA);
    StepIsAfter(catalog, s, callA);
    VerifyStep(catalog, s, config, Some(first), hmac, now);
    VerifyPaysPendingOrder(s, config, first, hmac, now);
    StepIsAfter(catalog, s1, callB);
    VerifyStep(catalog, s1, config, Some(second), hmac, now + 1);
    VerifyPaysPendingOrder(s1, config, second, hmac, now + 1);
  }
}
