/**
 * The two tables the booking and payment services write, as one value
 * (`State`) and as the object the services change in place (`Ledger`).
 *
 * Bookings are keyed by their generated id; payment transactions by their
 * `providerOrderId`, which the schema declares unique.
 */
module Persistence {
  import opened Options
  import opened Enums
  import opened Bookings
  import opened OverlapQueries

  /** A stored payment transaction: one gateway order of one booking. */
  datatype PaymentTransaction = PaymentTransaction(
    bookingId: int,
    paymentMethod: PaymentMethod,
    paymentStatus: PaymentStatus,
    amount: int,
    currency: string,
    providerOrderId: string,
    providerPaymentId: Option<string>,
    providerSignature: Option<string>,
    errorCode: Option<string>,
    errorDescription: Option<string>,
    createdAt: int,
    updatedAt: int)

  /**
   * What flushing a managed transaction writes: as for bookings, `@PreUpdate`
   * restamps `updatedAt` only when some column changed.
   */
  function FlushedTransaction(stored: PaymentTransaction, current: PaymentTransaction, now: int): (r: PaymentTransaction)
    ensures r.(updatedAt := current.updatedAt) == current
    ensures current == stored ==> r == stored
    ensures current != stored ==> r.updatedAt == now
  {
    if current == stored then current else current.(updatedAt := now)
  }

  datatype State = State(
    bookings: map<int, Booking>,
    transactions: map<string, PaymentTransaction>,
    nextBookingId: int)

  /**
   * The database's own guarantees: every booking is stored under its id,
   * identity values are positive and below the next one to be handed out,
   * every transaction is stored under its unique order id and references an
   * existing booking.
   */
  predicate WellFormed(s: State)
  {
    && KeyedById(s.bookings)
    && 1 <= s.nextBookingId
    && (forall k :: k in s.bookings ==> 1 <= k < s.nextBookingId)
    && (forall o :: o in s.transactions ==>
          s.transactions[o].providerOrderId == o && s.transactions[o].bookingId in s.bookings)
  }

  /** The tables are well formed, no room is double booked and every amount fits its column. */
  predicate Valid(s: State)
  {
    WellFormed(s) && NoDoubleBooking(s.bookings) && AmountsFit(s.bookings)
  }

  /** Every stored amount fits the `total_amount` column; the database refuses any other write. */
  predicate AmountsFit(bookings: map<int, Booking>)
  {
    forall k :: k in bookings ==> FitsAmountColumn(bookings[k].totalAmount)
  }

  /** Empty tables; identity columns start at 1. */
  function Empty(): (s: State)
    ensures Valid(s) && s.bookings == map[] && s.transactions == map[]
  {
    State(map[], map[], 1)
  }

  /**
   * Rewriting one booking without moving its stay, changing its amount or
   * reactivating it, and writing one transaction under its own order id for
   * an existing booking, keeps the tables valid.
   */
  lemma RewriteRowsKeepsValid(s: State, id: int, b: Booking, orderId: string, tx: PaymentTransaction)
    requires Valid(s) && id in s.bookings
    requires b.id == s.bookings[id].id && b.roomId == s.bookings[id].roomId
    requires b.checkInDate == s.bookings[id].checkInDate && b.checkOutDate == s.bookings[id].checkOutDate
    requires b.totalAmount == s.bookings[id].totalAmount
    requires Holds(b) ==> Holds(s.bookings[id])
    requires tx.providerOrderId == orderId && tx.bookingId in s.bookings
    ensures Valid(s.(bookings := s.bookings[id := b], transactions := s.transactions[orderId := tx]))
  {
    SameStayKeepsNoDoubleBooking(s.bookings, id, b);
  }

  /** The bookings and payment transactions tables together with the booking identity sequence. */
  class Ledger {
    var bookings: map<int, Booking>
    var transactions: map<string, PaymentTransaction>
    var nextBookingId: int

    function Snapshot(): State
      reads this
    {
      State(bookings, transactions, nextBookingId)
    }

    constructor ()
      ensures Snapshot() == Empty()
    {
      bookings, transactions, nextBookingId := map[], map[], 1;
    }

    /** `findById`: the stored row, or nothing. */
    method FindBooking(id: int) returns (r: Option<Booking>)
      ensures r == if id in bookings then Some(bookings[id]) else None
    {
      r := if id in bookings then Some(bookings[id]) else None;
    }

    /** `findByProviderOrderId`: the stored transaction, or nothing. */
    method FindTransaction(orderId: string) returns (r: Option<PaymentTransaction>)
      ensures r == if orderId in transactions then Some(transactions[orderId]) else None
    {
      r := if orderId in transactions then Some(transactions[orderId]) else None;
    }

    /**
     * `save` of a new entity: `@PrePersist` fills the defaulted columns, the
     * identity column hands out the next id, and the row is inserted.
     */
    method Insert(e: BookingEntity, now: int)
      modifies this`bookings, this`nextBookingId
      modifies e`id, e`createdAt, e`updatedAt, e`bookingStatus, e`paymentStatus
      ensures e.IsComplete() && e.id == old(nextBookingId)
      ensures e.createdAt == Some(old(e.createdAt).GetOr(now))
      ensures e.updatedAt == Some(old(e.updatedAt).GetOr(now))
      ensures e.bookingStatus == Some(old(e.bookingStatus).GetOr(BookingStatus.Pending))
      ensures e.paymentStatus == Some(old(e.paymentStatus).GetOr(PaymentStatus.Pending))
      ensures bookings == old(bookings)[old(nextBookingId) := e.Row()]
      ensures nextBookingId == old(nextBookingId) + 1
    {
      e.PrePersist(now);
      e.id := nextBookingId;
      bookings := bookings[nextBookingId := e.Row()];
      nextBookingId := nextBookingId + 1;
    }

    /**
     * The commit of the surrounding transaction: a managed booking is
     * written back, restamped by `@PreUpdate` only if it is dirty.
     */
    method Commit(e: BookingEntity, now: int)
      requires e.IsComplete() && e.id in bookings
      modifies this`bookings, e`updatedAt
      ensures e.IsComplete()
      ensures bookings == old(bookings)[e.id := Flushed(old(bookings[e.id]), old(e.Row()), now)]
      ensures e.Row() == bookings[e.id]
    {
      var stored := bookings[e.id];
      if e.Row() != stored {
        e.PreUpdate(now);
      }
      bookings := bookings[e.id := e.Row()];
    }

    /** `save` of a new payment transaction: `@PrePersist` stamps both instants. */
    method InsertTransaction(tx: PaymentTransaction, now: int)
      modifies this`transactions
      ensures transactions == old(transactions)[tx.providerOrderId := tx.(createdAt := now, updatedAt := now)]
    {
      transactions := transactions[tx.providerOrderId := tx.(createdAt := now, updatedAt := now)];
    }

    /** Writing back a loaded transaction at commit, restamped only if it changed. */
    method CommitTransaction(tx: PaymentTransaction, now: int)
      requires tx.providerOrderId in transactions
      modifies this`transactions
      ensures transactions ==
                old(transactions)[tx.providerOrderId := FlushedTransaction(old(transactions[tx.providerOrderId]), tx, now)]
    {
      transactions := transactions[tx.providerOrderId := FlushedTransaction(transactions[tx.providerOrderId], tx, now)];
    }
  }
}
