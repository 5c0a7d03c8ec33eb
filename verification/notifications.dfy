/**
 * The notification service: which notifications a booking or payment
 * change dispatches, the IN_APP and EMAIL records each dispatch stores, and
 * the read flags a user can set.
 *
 * The mail server is not modelled: `delivers(to, subject, body)` says
 * whether sending that mail returns normally (`false`: it throws).
 * `emailEnabled` is the configuration flag.
 */
module Notifications {
  import opened Options
  import opened Enums
  import opened Text
  import opened Bookings

  datatype NotificationType =
    | BookingCreated
    | BookingUpdated
    | BookingCancelled
    | BookingStatusChanged
    | PaymentSuccess
    | PaymentFailed

  datatype Channel = InApp | Email

  datatype DeliveryStatus = Sent | Failed

  /**
   * The outcome of `sendNotificationEmail(email, fname, subject, title,
   * message)` as the dispatcher calls it, seen through the recipient's email,
   * the prefixed subject and the message: true when it returns, false when it
   * throws. The first name and the bare title, which only shape the mail's
   * text, are not passed on.
   */
  type Mailer = (string, string, string) -> bool

  /** A stored notification; `id` is its identity value. */
  datatype Notification = Notification(
    id: int,
    userId: int,
    notificationType: NotificationType,
    channel: Channel,
    deliveryStatus: DeliveryStatus,
    title: string,
    message: string,
    referenceType: string,
    referenceId: int,
    isRead: bool,
    createdAt: int,
    readAt: Option<int>)

  /** The arguments of one `dispatch` call. */
  datatype Dispatch = Dispatch(notificationType: NotificationType, title: string, message: string)

  /** A booking after a change, with its statuses from before the change. */
  datatype StatusChange = StatusChange(
    booking: Booking,
    previousBookingStatus: BookingStatus,
    previousPaymentStatus: PaymentStatus)

  /** The enum constant names, as string concatenation writes them. */
  function BookingStatusName(s: BookingStatus): string
  {
    match s
    case Pending => "PENDING"
    case Confirmed => "CONFIRMED"
    case Cancelled => "CANCELLED"
    case Completed => "COMPLETED"
    case NoShow => "NO_SHOW"
  }

  function Types(ds: seq<Dispatch>): (r: seq<NotificationType>)
    ensures |r| == |ds| && forall i :: 0 <= i < |ds| ==> r[i] == ds[i].notificationType
  {
    seq(|ds|, i requires 0 <= i < |ds| => ds[i].notificationType)
  }

  // ---------------------------------------------------------------- what is dispatched

  /** The fixed parts of the notification messages. */
  const BookingRef: string := "Booking #"
  const CreatedText: string := " is created and waiting for payment confirmation."
  const UpdatedText: string := " details have been updated."
  const CancelledText: string := " has been cancelled."
  const StatusFromText: string := " status changed from "
  const PaymentRef: string := "Payment completed for booking #"
  const PaymentSuccessText: string := ". Your booking is confirmed."
  const PaymentFailedRef: string := "Payment failed for booking #"
  const PaymentFailedText: string := ". Please retry payment."
  const StatusToText: string := " to "
  const FullStop: string := "."

  /** The notification titles. */
  const CreatedTitle: string := "Booking created"
  const UpdatedTitle: string := "Booking updated"
  const CancelledTitle: string := "Booking cancelled"
  const StatusChangedTitle: string := "Booking status changed"
  const PaymentSuccessTitle: string := "Payment successful"
  const PaymentFailedTitle: string := "Payment failed"

  function CreatedDispatch(b: Booking): Dispatch
  {
    Dispatch(BookingCreated, CreatedTitle, BookingRef + IntToString(b.id) + CreatedText)
  }

  function UpdatedDispatch(b: Booking): Dispatch
  {
    Dispatch(BookingUpdated, UpdatedTitle, BookingRef + IntToString(b.id) + UpdatedText)
  }

  function CancelledDispatch(b: Booking): Dispatch
  {
    Dispatch(BookingCancelled, CancelledTitle, BookingRef + IntToString(b.id) + CancelledText)
  }

  function StatusChangedDispatch(c: StatusChange): Dispatch
  {
    Dispatch(BookingStatusChanged, StatusChangedTitle,
             BookingRef + IntToString(c.booking.id) + StatusFromText
             + BookingStatusName(c.previousBookingStatus) + StatusToText + BookingStatusName(c.booking.bookingStatus) + FullStop)
  }

  function PaymentSuccessDispatch(b: Booking): Dispatch
  {
    Dispatch(PaymentSuccess, PaymentSuccessTitle, PaymentRef + IntToString(b.id) + PaymentSuccessText)
  }

  function PaymentFailedDispatch(b: Booking): Dispatch
  {
    Dispatch(PaymentFailed, PaymentFailedTitle, PaymentFailedRef + IntToString(b.id) + PaymentFailedText)
  }

  /** The status notification of a state change, if any. */
  function StatusDispatches(c: StatusChange): (r: seq<Dispatch>)
    ensures Types(r) == if c.booking.bookingStatus != c.previousBookingStatus then [BookingStatusChanged] else []
  {
    if c.booking.bookingStatus != c.previousBookingStatus then [StatusChangedDispatch(c)] else []
  }

  /** The payment notification of a state change, if any. */
  function PaymentDispatches(c: StatusChange): (r: seq<Dispatch>)
    ensures Types(r) ==
              if c.booking.paymentStatus == c.previousPaymentStatus then []
              else if c.booking.paymentStatus == PaymentStatus.Success then [PaymentSuccess]
              else if c.booking.paymentStatus == PaymentStatus.Failed then [PaymentFailed]
              else []
  {
    if c.booking.paymentStatus == c.previousPaymentStatus then []
    else if c.booking.paymentStatus == PaymentStatus.Success then [PaymentSuccessDispatch(c.booking)]
    else if c.booking.paymentStatus == PaymentStatus.Failed then [PaymentFailedDispatch(c.booking)]
    else []
  }

  /**
   * `sendBookingStateChangeNotifications`: a status notification when the
   * booking status moved, then a payment notification when the payment
   * status moved to SUCCESS or to FAILED; moves to PENDING or REFUNDED are
   * silent.
   */
  function StateChangeDispatches(c: StatusChange): (r: seq<Dispatch>)
    ensures |r| <= 2
    ensures BookingStatusChanged in Types(r) <==> c.booking.bookingStatus != c.previousBookingStatus
    ensures BookingStatusChanged in Types(r) ==> r[0].notificationType == BookingStatusChanged
    ensures PaymentSuccess in Types(r) <==>
              c.booking.paymentStatus != c.previousPaymentStatus && c.booking.paymentStatus == PaymentStatus.Success
    ensures PaymentFailed in Types(r) <==>
              c.booking.paymentStatus != c.previousPaymentStatus && c.booking.paymentStatus == PaymentStatus.Failed
    ensures forall t :: t in Types(r) ==> t in {BookingStatusChanged, PaymentSuccess, PaymentFailed}
    ensures forall i, j :: 0 <= i < j < |r| ==> r[i].notificationType != r[j].notificationType
  {
    assert Types(StatusDispatches(c) + PaymentDispatches(c)) == Types(StatusDispatches(c)) + Types(PaymentDispatches(c));
    StatusDispatches(c) + PaymentDispatches(c)
  }

  // ---------------------------------------------------------------- what is stored

  /** `createAndStoreNotification` for a booking: every stored notification starts unread. */
  function Stored(id: int, b: Booking, t: NotificationType, channel: Channel, status: DeliveryStatus,
                  title: string, message: string, now: int): Notification
  {
    Notification(id, b.userId, t, channel, status, title, message, ReferenceType, b.id, false, now, None)
  }

  /** The reference type of every booking notification. */
  const ReferenceType: string := "BOOKING"

  /** What every mail subject starts with. */
  const SubjectPrefix: string := "StayBooking: "

  /** The mail subject of a dispatch. */
  function Subject(d: Dispatch): string
  {
    SubjectPrefix + d.title
  }

  /** Whether the mail of a dispatch to a known address goes out. */
  predicate Delivered(d: Dispatch, email: Option<string>, delivers: Mailer)
    requires email.Some?
  {
    delivers(email.value, Subject(d), d.message)
  }

  /** The message of an EMAIL record that was never sent for want of an address. */
  const NoAddressMessage: string := "Email delivery failed because no email address is available."

  /** The message of an EMAIL record whose send threw. */
  const SendFailedMessage: string := "Email delivery failed. Please check in-app notifications."

  /**
   * The records one `dispatch` stores, the first with identity `firstId`:
   * always one IN_APP record marked SENT; then, only when email is both
   * requested and enabled, one EMAIL record, FAILED without a send attempt
   * when the address is blank, SENT when the send returns, FAILED when it
   * throws.
   */
  function DispatchRecords(d: Dispatch, b: Booking, email: Option<string>, sendEmail: bool, emailEnabled: bool,
                           delivers: Mailer, firstId: int, now: int): seq<Notification>
  {
    var inApp := Stored(firstId, b, d.notificationType, InApp, Sent, d.title, d.message, now);
    if !sendEmail || !emailEnabled then [inApp]
    else if IsBlank(email) then
      [inApp, Stored(firstId + 1, b, d.notificationType, Email, DeliveryStatus.Failed, d.title,
                     NoAddressMessage, now)]
    else if Delivered(d, email, delivers) then
      [inApp, Stored(firstId + 1, b, d.notificationType, Email, Sent, d.title, d.message, now)]
    else
      [inApp, Stored(firstId + 1, b, d.notificationType, Email, DeliveryStatus.Failed, d.title,
                     SendFailedMessage, now)]
  }

  /** A stored record of dispatch `d` about booking `b` with identity `id`: the dispatch's type and title, the booking's user, unread. */
  predicate RecordOf(n: Notification, id: int, d: Dispatch, b: Booking)
  {
    && n.id == id && n.notificationType == d.notificationType && n.title == d.title
    && n.userId == b.userId && n.referenceId == b.id && !n.isRead && n.readAt == None
  }

  /**
   * What one `dispatch` stores: an IN_APP record marked SENT, and a second,
   * EMAIL, record exactly when email is requested and enabled, SENT exactly
   * when the address is not blank and the send returns; all numbered on from
   * `firstId`, of the dispatch's type and title, for the booking's user and
   * the booking, unread.
   */
  lemma {:induction false} DispatchRecordsShape(d: Dispatch, b: Booking, email: Option<string>, sendEmail: bool,
                                                emailEnabled: bool, delivers: Mailer, firstId: int, now: int)
    ensures var r := DispatchRecords(d, b, email, sendEmail, emailEnabled, delivers, firstId, now);
      && 1 <= |r| <= 2
      && r[0].channel == InApp && r[0].deliveryStatus == Sent && r[0].message == d.message
      && (|r| == 2 <==> sendEmail && emailEnabled)
      && (|r| == 2 ==> r[1].channel == Email && (r[1].deliveryStatus == Sent <==> !IsBlank(email) && Delivered(d, email, delivers)))
      && RecordOf(r[0], firstId, d, b)
      && (|r| == 2 ==> RecordOf(r[1], firstId + 1, d, b))
  {
  }

  /** How many records one dispatch with email requested stores. */
  function PerDispatch(emailEnabled: bool): nat
  {
    if emailEnabled then 2 else 1
  }

  /** The records a run of dispatches stores, in order. */
  function RecordsOf(ds: seq<Dispatch>, b: Booking, email: Option<string>, emailEnabled: bool,
                     delivers: Mailer, firstId: int, now: int): seq<Notification>
    decreases |ds|
  {
    if ds == [] then []
    else
      DispatchRecords(ds[0], b, email, true, emailEnabled, delivers, firstId, now)
      + RecordsOf(ds[1..], b, email, emailEnabled, delivers, firstId + PerDispatch(emailEnabled), now)
  }

  /** A run of dispatches stores the first dispatch's records, then those of the rest numbered on. */
  lemma {:induction false} RecordsOfCons(ds: seq<Dispatch>, b: Booking, email: Option<string>, emailEnabled: bool,
                                         delivers: Mailer, firstId: int, now: int)
    requires ds != []
    ensures var first := DispatchRecords(ds[0], b, email, true, emailEnabled, delivers, firstId, now);
      RecordsOf(ds, b, email, emailEnabled, delivers, firstId, now)
        == first + RecordsOf(ds[1..], b, email, emailEnabled, delivers, firstId + PerDispatch(emailEnabled), now)
  {
  }

  /** Number of IN_APP records. */
  function InAppCount(rs: seq<Notification>): nat
  {
    if rs == [] then 0 else (if rs[0].channel == InApp then 1 else 0) + InAppCount(rs[1..])
  }

  lemma {:induction false} InAppCountAppend(a: seq<Notification>, b: seq<Notification>)
    ensures InAppCount(a + b) == InAppCount(a) + InAppCount(b)
    decreases |a|
  {
    if a == [] {
      assert a + b == b;
    } else {
      assert (a + b)[1..] == a[1..] + b;
      InAppCountAppend(a[1..], b);
    }
  }

  /** One dispatch stores exactly one IN_APP record. */
  lemma {:induction false} OneDispatchOneInApp(d: Dispatch, b: Booking, email: Option<string>, sendEmail: bool,
                                               emailEnabled: bool, delivers: Mailer, firstId: int, now: int)
    ensures InAppCount(DispatchRecords(d, b, email, sendEmail, emailEnabled, delivers, firstId, now)) == 1
  {
    var r := DispatchRecords(d, b, email, sendEmail, emailEnabled, delivers, firstId, now);
    var tail := r[1..];
    if |r| == 2 {
      assert tail[0] == r[1] && tail[1..] == [];
      assert InAppCount(tail) == 0;
    } else {
      assert tail == [];
    }
  }

  /**
   * A run of dispatches stores exactly one IN_APP record per dispatch and,
   * with email enabled, one EMAIL record beside each.
   */
  lemma {:induction false} OneInAppRecordPerDispatch(ds: seq<Dispatch>, b: Booking, email: Option<string>,
                                                     emailEnabled: bool, delivers: Mailer, firstId: int, now: int)
    ensures InAppCount(RecordsOf(ds, b, email, emailEnabled, delivers, firstId, now)) == |ds|
    ensures |RecordsOf(ds, b, email, emailEnabled, delivers, firstId, now)| == (if emailEnabled then 2 else 1) * |ds|
    decreases |ds|
  {
    if ds != [] {
      var first := DispatchRecords(ds[0], b, email, true, emailEnabled, delivers, firstId, now);
      var rest := RecordsOf(ds[1..], b, email, emailEnabled, delivers, firstId + PerDispatch(emailEnabled), now);
      RecordsOfCons(ds, b, email, emailEnabled, delivers, firstId, now);
      DispatchRecordsShape(ds[0], b, email, true, emailEnabled, delivers, firstId, now);
      OneDispatchOneInApp(ds[0], b, email, true, emailEnabled, delivers, firstId, now);
      OneInAppRecordPerDispatch(ds[1..], b, email, emailEnabled, delivers, firstId + PerDispatch(emailEnabled), now);
      InAppCountAppend(first, rest);
    }
  }

  /** Records numbered consecutively from `firstId`, all of user `userId` and all unread. */
  predicate FreshRun(rs: seq<Notification>, firstId: int, userId: int)
  {
    forall i :: 0 <= i < |rs| ==> !rs[i].isRead && rs[i].id == firstId + i && rs[i].userId == userId
  }

  /** Records stored by a run of dispatches have consecutive identities, belong to the booking's user and are unread. */
  lemma {:induction false} DispatchedRecordsAreUnread(ds: seq<Dispatch>, b: Booking, email: Option<string>,
                                                      emailEnabled: bool, delivers: Mailer, firstId: int, now: int)
    ensures FreshRun(RecordsOf(ds, b, email, emailEnabled, delivers, firstId, now), firstId, b.userId)
    decreases |ds|
  {
    if ds != [] {
      var first := DispatchRecords(ds[0], b, email, true, emailEnabled, delivers, firstId, now);
      var rest := RecordsOf(ds[1..], b, email, emailEnabled, delivers, firstId + PerDispatch(emailEnabled), now);
      RecordsOfCons(ds, b, email, emailEnabled, delivers, firstId, now);
      DispatchRecordsShape(ds[0], b, email, true, emailEnabled, delivers, firstId, now);
      DispatchedRecordsAreUnread(ds[1..], b, email, emailEnabled, delivers, firstId + PerDispatch(emailEnabled), now);
      forall i | 0 <= i < |first|
        ensures !first[i].isRead && first[i].id == firstId + i && first[i].userId == b.userId
      {
        assert RecordOf(first[i], firstId + i, ds[0], b);
      }
      FreshRunAppend(first, rest, firstId, b.userId);
    }
  }

  // ---------------------------------------------------------------- read flags

  /** Marking one notification read: only an unread one changes, stamped with the time. */
  function MarkedRead(n: Notification, now: int): (r: Notification)
    ensures r.isRead
    ensures n.isRead ==> r == n
    ensures !n.isRead ==> r == n.(isRead := true, readAt := Some(now))
  {
    if n.isRead then n else n.(isRead := true, readAt := Some(now))
  }

  /** Marking twice, at any two times, is marking once. */
  lemma MarkedReadIdempotent(n: Notification, now: int, later: int)
    ensures MarkedRead(MarkedRead(n, now), later) == MarkedRead(n, now)
  {
  }

  /** 1 when the notification is an unread one of the user. */
  function UnreadOf(n: Notification, userId: int): nat
  {
    if n.userId == userId && !n.isRead then 1 else 0
  }

  /** `countByUserIdAndIsReadFalse`. */
  function CountUnread(rs: seq<Notification>, userId: int): (r: nat)
    ensures r <= |rs|
  {
    if rs == [] then 0 else CountUnread(rs[..|rs| - 1], userId) + UnreadOf(rs[|rs| - 1], userId)
  }

  /** Replacing one record changes the user's unread count by that record's own contribution only. */
  lemma {:induction false} CountUnreadUpdate(rs: seq<Notification>, i: int, n: Notification, userId: int)
    requires 0 <= i < |rs|
    ensures CountUnread(rs[i := n], userId) == CountUnread(rs, userId) - UnreadOf(rs[i], userId) + UnreadOf(n, userId)
    decreases |rs|
  {
    var last := |rs| - 1;
    assert rs[i := n][..last] == if i == last then rs[..last] else rs[..last][i := n];
    if i < last {
      CountUnreadUpdate(rs[..last], i, n, userId);
    }
  }

  /** The `markAllRead` update: every unread notification of the user becomes read at `now`. */
  function AllMarkedRead(rs: seq<Notification>, userId: int, now: int): (r: seq<Notification>)
    ensures |r| == |rs|
    ensures forall i :: 0 <= i < |rs| ==> r[i] == if rs[i].userId == userId then MarkedRead(rs[i], now) else rs[i]
  {
    seq(|rs|, i requires 0 <= i < |rs| => if rs[i].userId == userId then MarkedRead(rs[i], now) else rs[i])
  }

  /** After marking all, the user has nothing unread and every other user's count is unchanged. */
  lemma {:induction false} AllMarkedReadClearsOnlyTheUser(rs: seq<Notification>, userId: int, other: int, now: int)
    requires other != userId
    ensures CountUnread(AllMarkedRead(rs, userId, now), userId) == 0
    ensures CountUnread(AllMarkedRead(rs, userId, now), other) == CountUnread(rs, other)
    decreases |rs|
  {
    if rs != [] {
      var r := AllMarkedRead(rs, userId, now);
      var last := |rs| - 1;
      assert r[..last] == AllMarkedRead(rs[..last], userId, now);
      AllMarkedReadClearsOnlyTheUser(rs[..last], userId, other, now);
    }
  }

  // ---------------------------------------------------------------- the store

  /** The notifications table; identities are handed out from 1 in insertion order. */
  class NotificationCenter {
    var records: seq<Notification>
    const emailEnabled: bool

    predicate Valid()
      reads this
    {
      forall i :: 0 <= i < |records| ==> records[i].id == i + 1
    }

    constructor (emailEnabled: bool)
      ensures Valid() && records == [] && this.emailEnabled == emailEnabled
    {
      records := [];
      this.emailEnabled := emailEnabled;
    }

    /** `createAndStoreNotification`: one new unread record, stamped by `@PrePersist`. */
    method CreateAndStore(b: Booking, t: NotificationType, channel: Channel, status: DeliveryStatus,
                          title: string, message: string, now: int)
      requires Valid()
      modifies this`records
      ensures Valid()
      ensures records == old(records) + [Stored(|old(records)| + 1, b, t, channel, status, title, message, now)]
    {
      records := records + [Stored(|records| + 1, b, t, channel, status, title, message, now)];
    }

    /** `dispatch`. */
    method DispatchTo(b: Booking, d: Dispatch, email: Option<string>, sendEmail: bool, delivers: Mailer, now: int)
      requires Valid()
      modifies this`records
      ensures Valid()
      ensures records == old(records) + DispatchRecords(d, b, email, sendEmail, emailEnabled, delivers,
                                                        |old(records)| + 1, now)
    {
      CreateAndStore(b, d.notificationType, InApp, Sent, d.title, d.message, now);
      if !sendEmail || !emailEnabled {
        return;
      }
      if IsBlank(email) {
        CreateAndStore(b, d.notificationType, Email, DeliveryStatus.Failed, d.title,
                       NoAddressMessage, now);
        return;
      }
      if Delivered(d, email, delivers) {
        CreateAndStore(b, d.notificationType, Email, Sent, d.title, d.message, now);
      } else {
        CreateAndStore(b, d.notificationType, Email, DeliveryStatus.Failed, d.title,
                       SendFailedMessage, now);
      }
    }

    method SendBookingCreated(b: Booking, email: Option<string>, delivers: Mailer, now: int)
      requires Valid()
      modifies this`records
      ensures Valid()
      ensures records == old(records) + DispatchRecords(CreatedDispatch(b), b, email, true, emailEnabled, delivers,
                                                        |old(records)| + 1, now)
    {
      DispatchTo(b, CreatedDispatch(b), email, true, delivers, now);
    }

    method SendBookingUpdated(b: Booking, email: Option<string>, delivers: Mailer, now: int)
      requires Valid()
      modifies this`records
      ensures Valid()
      ensures records == old(records) + DispatchRecords(UpdatedDispatch(b), b, email, true, emailEnabled, delivers,
                                                        |old(records)| + 1, now)
    {
      DispatchTo(b, UpdatedDispatch(b), email, true, delivers, now);
    }

    method SendBookingCancelled(b: Booking, email: Option<string>, delivers: Mailer, now: int)
      requires Valid()
      modifies this`records
      ensures Valid()
      ensures records == old(records) + DispatchRecords(CancelledDispatch(b), b, email, true, emailEnabled, delivers,
                                                        |old(records)| + 1, now)
    {
      DispatchTo(b, CancelledDispatch(b), email, true, delivers, now);
    }

    /** The status half of `sendBookingStateChangeNotifications`. */
    method SendStatusChange(c: StatusChange, email: Option<string>, delivers: Mailer, now: int)
      requires Valid()
      modifies this`records
      ensures Valid()
      ensures records == old(records) + RecordsOf(StatusDispatches(c), c.booking, email, emailEnabled, delivers,
                                                  |old(records)| + 1, now)
    {
      if c.booking.bookingStatus != c.previousBookingStatus {
        DispatchTo(c.booking, StatusChangedDispatch(c), email, true, delivers, now);
        RecordsOfOne(StatusChangedDispatch(c), c.booking, email, emailEnabled, delivers, |old(records)| + 1, now);
      }
    }

    /** The payment half of `sendBookingStateChangeNotifications`. */
    method SendPaymentChange(c: StatusChange, email: Option<string>, delivers: Mailer, now: int)
      requires Valid()
      modifies this`records
      ensures Valid()
      ensures records == old(records) + RecordsOf(PaymentDispatches(c), c.booking, email, emailEnabled, delivers,
                                                  |old(records)| + 1, now)
    {
      var b := c.booking;
      if b.paymentStatus != c.previousPaymentStatus && b.paymentStatus == PaymentStatus.Success {
        DispatchTo(b, PaymentSuccessDispatch(b), email, true, delivers, now);
        RecordsOfOne(PaymentSuccessDispatch(b), b, email, emailEnabled, delivers, |old(records)| + 1, now);
      } else if b.paymentStatus != c.previousPaymentStatus && b.paymentStatus == PaymentStatus.Failed {
        DispatchTo(b, PaymentFailedDispatch(b), email, true, delivers, now);
        RecordsOfOne(PaymentFailedDispatch(b), b, email, emailEnabled, delivers, |old(records)| + 1, now);
      }
    }

    /** The payment half sent after the status half has appended its records to `start`. */
    method FinishStateChange(c: StatusChange, email: Option<string>, delivers: Mailer, now: int,
                             ghost start: seq<Notification>)
      requires Valid()
      requires records == start + RecordsOf(StatusDispatches(c), c.booking, email, emailEnabled, delivers,
                                            |start| + 1, now)
      modifies this`records
      ensures Valid()
      ensures records == start + StateChangeRecords(c, email, emailEnabled, delivers, |start| + 1, now)
    {
      ghost var mid := records;
      SendPaymentChange(c, email, delivers, now);
      AppendStateChange(start, mid, records, c, email, emailEnabled, delivers, now);
    }

    /** `sendBookingStateChangeNotifications`: the status dispatch first, then the payment one. */
    method SendBookingStateChange(c: StatusChange, email: Option<string>, delivers: Mailer, now: int)
      requires Valid()
      modifies this`records
      ensures Valid()
      ensures records == old(records) + StateChangeRecords(c, email, emailEnabled, delivers, |old(records)| + 1, now)
    {
      ghost var start := records;
      SendStatusChange(c, email, delivers, now);
      FinishStateChange(c, email, delivers, now, start);
    }

    /**
     * `markMyNotificationAsRead`: the user's own notification with that id
     * is marked read if it was unread and returned; `None` is the 404 for an
     * unknown id or another user's notification.
     */
    method MarkAsRead(notificationId: int, userId: int, now: int) returns (r: Option<Notification>)
      requires Valid()
      modifies this`records
      ensures Valid()
      ensures r.None? <==> !(1 <= notificationId <= |old(records)| && old(records)[notificationId - 1].userId == userId)
      ensures r.None? ==> records == old(records)
      ensures r.Some? ==>
                && records == old(records)[notificationId - 1 := MarkedRead(old(records)[notificationId - 1], now)]
                && r.value == records[notificationId - 1]
    {
      if !(1 <= notificationId <= |records| && records[notificationId - 1].userId == userId) {
        return None;
      }
      var i := notificationId - 1;
      var n := records[i];
      if !n.isRead {
        n := n.(isRead := true, readAt := Some(now));
        records := records[i := n];
      }
      r := Some(n);
    }

    /** `markAllMyNotificationsAsRead`: one bulk update; the answer is the number of rows it changed. */
    method MarkAllAsRead(userId: int, now: int) returns (updated: int)
      requires Valid()
      modifies this`records
      ensures Valid()
      ensures records == AllMarkedRead(old(records), userId, now)
      ensures updated == CountUnread(old(records), userId)
    {
      updated := CountUnread(records, userId);
      records := AllMarkedRead(records, userId, now);
    }

    /** `getMyUnreadCount`. */
    method UnreadCount(userId: int) returns (count: int)
      ensures count == CountUnread(records, userId)
    {
      count := CountUnread(records, userId);
    }
  }

  /** A run of one dispatch stores what that dispatch stores. */
  lemma {:induction false} RecordsOfOne(d: Dispatch, b: Booking, email: Option<string>, emailEnabled: bool,
                                        delivers: Mailer, firstId: int, now: int)
    ensures RecordsOf([d], b, email, emailEnabled, delivers, firstId, now)
         == DispatchRecords(d, b, email, true, emailEnabled, delivers, firstId, now)
  {
    var first := DispatchRecords(d, b, email, true, emailEnabled, delivers, firstId, now);
    assert [d][1..] == [];
    assert RecordsOf([d][1..], b, email, emailEnabled, delivers, firstId + PerDispatch(emailEnabled), now) == [];
    assert first + [] == first;
  }

  /** The records `sendBookingStateChangeNotifications` stores: those of the status dispatch, then those of the payment one. */
  function StateChangeRecords(c: StatusChange, email: Option<string>, emailEnabled: bool, delivers: Mailer,
                              firstId: int, now: int): seq<Notification>
  {
    TwoRunsOf(StatusDispatches(c), PaymentDispatches(c), c.booking, email, emailEnabled, delivers, firstId, now)
  }

  /** The records of one run of dispatches followed by those of a second run, numbered on. */
  function TwoRunsOf(first: seq<Dispatch>, second: seq<Dispatch>, b: Booking, email: Option<string>, emailEnabled: bool,
                     delivers: Mailer, firstId: int, now: int): seq<Notification>
  {
    var head := RecordsOf(first, b, email, emailEnabled, delivers, firstId, now);
    head + RecordsOf(second, b, email, emailEnabled, delivers, firstId + |head|, now)
  }

  lemma {:induction false} FreshRunAppend(a: seq<Notification>, b: seq<Notification>, firstId: int, userId: int)
    requires FreshRun(a, firstId, userId) && FreshRun(b, firstId + |a|, userId)
    ensures FreshRun(a + b, firstId, userId)
  {
    forall i | 0 <= i < |a + b|
      ensures !(a + b)[i].isRead && (a + b)[i].id == firstId + i && (a + b)[i].userId == userId
    {
      if i >= |a| {
        assert (a + b)[i] == b[i - |a|];
      }
    }
  }

  /**
   * A state change stores one IN_APP record per notification it dispatches,
   * numbered on from `firstId`, all for the booking's user and all unread.
   */
  lemma {:induction false} StateChangeRecordsShape(c: StatusChange, email: Option<string>, emailEnabled: bool,
                                                   delivers: Mailer, firstId: int, now: int)
    ensures InAppCount(StateChangeRecords(c, email, emailEnabled, delivers, firstId, now)) == |StateChangeDispatches(c)|
    ensures FreshRun(StateChangeRecords(c, email, emailEnabled, delivers, firstId, now), firstId, c.booking.userId)
  {
    StateChangeDispatchesSplit(c);
    StateChangeRecordsAreTwoRuns(c, email, emailEnabled, delivers, firstId, now);
    TwoDispatchRuns(StatusDispatches(c), PaymentDispatches(c), c.booking, email, emailEnabled, delivers, firstId, now);
  }

  /** Two runs of dispatches, the second numbered on from the first, store one fresh run with one IN_APP record each. */
  lemma {:induction false} TwoDispatchRuns(first: seq<Dispatch>, second: seq<Dispatch>, b: Booking,
                                           email: Option<string>, emailEnabled: bool, delivers: Mailer,
                                           firstId: int, now: int)
    ensures var rs := TwoRunsOf(first, second, b, email, emailEnabled, delivers, firstId, now);
      InAppCount(rs) == |first| + |second| && FreshRun(rs, firstId, b.userId)
  {
    var head := RecordsOf(first, b, email, emailEnabled, delivers, firstId, now);
    var rest := RecordsOf(second, b, email, emailEnabled, delivers, firstId + |head|, now);
    OneInAppRecordPerDispatch(first, b, email, emailEnabled, delivers, firstId, now);
    OneInAppRecordPerDispatch(second, b, email, emailEnabled, delivers, firstId + |head|, now);
    DispatchedRecordsAreUnread(first, b, email, emailEnabled, delivers, firstId, now);
    DispatchedRecordsAreUnread(second, b, email, emailEnabled, delivers, firstId + |head|, now);
    TwoRunsShape(head, rest, |first|, |second|, firstId, b.userId);
    TwoRunsOfUnfold(first, second, b, email, emailEnabled, delivers, firstId, now);
  }

  /** A state change stores the records of its status run, then those of its payment run. */
  lemma {:induction false} StateChangeRecordsAreTwoRuns(c: StatusChange, email: Option<string>, emailEnabled: bool,
                                                        delivers: Mailer, firstId: int, now: int)
    ensures StateChangeRecords(c, email, emailEnabled, delivers, firstId, now)
         == TwoRunsOf(StatusDispatches(c), PaymentDispatches(c), c.booking, email, emailEnabled, delivers, firstId, now)
  {
  }

  /** Two runs of dispatches store the first run's records, then the second's numbered on. */
  lemma {:induction false} TwoRunsOfUnfold(first: seq<Dispatch>, second: seq<Dispatch>, b: Booking, email: Option<string>,
                                           emailEnabled: bool, delivers: Mailer, firstId: int, now: int)
    ensures var head := RecordsOf(first, b, email, emailEnabled, delivers, firstId, now);
      TwoRunsOf(first, second, b, email, emailEnabled, delivers, firstId, now)
        == head + RecordsOf(second, b, email, emailEnabled, delivers, firstId + |head|, now)
  {
  }

  /** Appending the status records and then the payment records appends the state change's records. */
  lemma {:induction false} AppendStateChange(start: seq<Notification>, mid: seq<Notification>, end: seq<Notification>,
                                             c: StatusChange, email: Option<string>, emailEnabled: bool,
                                             delivers: Mailer, now: int)
    requires mid == start + RecordsOf(StatusDispatches(c), c.booking, email, emailEnabled, delivers, |start| + 1, now)
    requires end == mid + RecordsOf(PaymentDispatches(c), c.booking, email, emailEnabled, delivers, |mid| + 1, now)
    ensures end == start + StateChangeRecords(c, email, emailEnabled, delivers, |start| + 1, now)
  {
    StateChangeRecordsAreTwoRuns(c, email, emailEnabled, delivers, |start| + 1, now);
    AppendTwoRuns(start, mid, end, StatusDispatches(c), PaymentDispatches(c), c.booking, email, emailEnabled,
                  delivers, now);
  }

  /** Appending two runs one after the other appends both runs together. */
  lemma {:induction false} AppendTwoRuns(start: seq<Notification>, mid: seq<Notification>, end: seq<Notification>,
                                         first: seq<Dispatch>, second: seq<Dispatch>, b: Booking,
                                         email: Option<string>, emailEnabled: bool, delivers: Mailer, now: int)
    requires mid == start + RecordsOf(first, b, email, emailEnabled, delivers, |start| + 1, now)
    requires end == mid + RecordsOf(second, b, email, emailEnabled, delivers, |mid| + 1, now)
    ensures end == start + TwoRunsOf(first, second, b, email, emailEnabled, delivers, |start| + 1, now)
  {
    var head := RecordsOf(first, b, email, emailEnabled, delivers, |start| + 1, now);
    var rest := RecordsOf(second, b, email, emailEnabled, delivers, |mid| + 1, now);
    assert |mid| + 1 == |start| + 1 + |head|;
    TwoRunsOfUnfold(first, second, b, email, emailEnabled, delivers, |start| + 1, now);
    AppendIsAssociative(start, head, rest);
  }

  /** A state change dispatches its status notification, if any, then its payment notification, if any. */
  lemma {:induction false} StateChangeDispatchesSplit(c: StatusChange)
    ensures StateChangeDispatches(c) == StatusDispatches(c) + PaymentDispatches(c)
  {
  }

  /** Two fresh runs, the second numbered on from the first, make one fresh run with both IN_APP counts. */
  lemma {:induction false} TwoRunsShape(head: seq<Notification>, rest: seq<Notification>, m: nat, n: nat,
                                        firstId: int, userId: int)
    requires InAppCount(head) == m && InAppCount(rest) == n
    requires FreshRun(head, firstId, userId) && FreshRun(rest, firstId + |head|, userId)
    ensures InAppCount(head + rest) == m + n && FreshRun(head + rest, firstId, userId)
  {
    InAppCountAppend(head, rest);
    FreshRunAppend(head, rest, firstId, userId);
  }

  lemma AppendIsAssociative<T>(a: seq<T>, b: seq<T>, c: seq<T>)
    ensures a + (b + c) == (a + b) + c && |a + b| == |a| + |b|
  {
  }

  /** Reading a notification lowers its owner's unread count by one if it was unread, and never raises any count. */
  lemma {:induction false} MarkAsReadLowersUnreadByOne(rs: seq<Notification>, i: int, userId: int, now: int)
    requires 0 <= i < |rs|
    ensures CountUnread(rs[i := MarkedRead(rs[i], now)], userId) ==
              CountUnread(rs, userId) - (if rs[i].userId == userId && !rs[i].isRead then 1 else 0)
  {
    CountUnreadUpdate(rs, i, MarkedRead(rs[i], now), userId);
  }
}
