# StayBooking reservation and payment engine in Dafny

This project models the core of StayBooking, a hotel booking service. The
model covers:

- **Booking lifecycle.** Create, update, manual status change and cancel
  over the bookings table. Creates and date changes are gated by the
  repository's half-open overlap queries. Statuses are governed by a small
  transition table.
- **Payment reconciliation.** A gateway order is created for a booking, and
  the payment the customer makes is verified by its HMAC signature. Payment
  transactions are keyed by the gateway's unique order id.
- **Notifications.** What a booking or payment state change dispatches, the
  IN_APP and EMAIL records each dispatch stores, and the read flags.
- **Password reset by one-time code.** Codes are invalidated before a new one
  is issued. Failed attempts are counted, with a lock at the maximum. A code
  can be used once.
- **Hotel photo names.** The path segment of a requested name, `..`
  rejection, the extension whitelist, the CSV settings and the upload check.

## How the model is built

Each service operation appears twice:

- **A pure function** from the tables before the call to an outcome: the
  reply and the tables once the call's transaction commits. Examples are
  `BookingLifecycle.Create`, `Payments.Verify` and `PasswordReset.ResetPassword`.
- **An imperative method** over objects that change in place:
  - `Persistence.Ledger`, the bookings and transactions tables;
  - `Bookings.BookingEntity`, the managed booking with its persistence hooks;
  - `Notifications.NotificationCenter`, the notifications table;
  - `PasswordReset.PasswordResetService`.

  Each method is proved to produce exactly the outcome its function
  specifies. Properties of the operations are lemmas about the functions.

`Reservations` composes every booking and payment call into one step
function. It proves that from empty tables, any sequence of calls leaves no
room with two PENDING or CONFIRMED bookings that share a night.

Representation choices:

- Dates are epoch days and instants are ticks of an outside clock.
- Amounts are whole hundredths, since the amount column has scale 2.
- These are parameters:
  - HMAC-SHA256, SHA-256 and the password encoder (functions);
  - `URLDecoder.decode` (a function);
  - the gateway's answer;
  - the mail server's answer;
  - the random draw;
  - the clock.

## Behaviours of the code worth knowing

The model states each of these as the code has it.

- **A cancelled booking can end up paid.** A verified payment promotes only
  a PENDING booking. So a booking cancelled after its order was created
  ends CANCELLED with payment SUCCESS (`Reservations.CancelledBookingCanEndUpPaid`).
- **One booking can be paid twice.** Creating an order refuses a closed
  booking and one whose payment is already SUCCESS, but not one that
  already has an order pending. Two orders created for a booking that is
  still unpaid can then both be verified, leaving two SUCCESS transactions
  for the full amount (`Reservations.BookingPaidTwice`).
- **Plain string comparison.** The signature is compared with
  `String.equals`, which the model states as equality of the hex strings.
- **A refused status change is not a no-op.** `updateBookingStatus` writes
  the payment status (and its automatic promotion or demotion) before it
  checks the requested transition. The 400 answer still commits those writes
  (`BookingLifecycle.RefusedTransitionStillCommitsPayment`).
- **A forged verification can fail a paid order.** A verification with a new
  payment id and a wrong signature turns an already successful transaction
  and its booking to FAILED (`Payments.ForgedVerifyFailsPaidOrder`).
- **The expiry re-check in `resetPasswordWithOtp` is dead code.** The lookup
  already selects only codes expiring after now (`PasswordReset.FoundCodeIsNeverExpired`).
- **Either the extension or the MIME type is enough.** The upload check
  accepts a file when its extension is allowed or its declared MIME type is.
  So `page.html` declared as `image/png` is accepted and stored as `.html`
  (`PhotoStorage.DeclaredTypeAdmitsAnyExtension`).
- **Replies show the pre-flush `updatedAt`.** A reply is built from the
  managed entity before the commit. The stored `updatedAt` is restamped only
  when the row is dirty.

## Model

| member | source | states |
|---|---|---|
| Bookings.Flushed | StayBooking/StayBooking/src/main/java/com/entity/Booking.java:90-93 | flushing writes the managed object's columns; an unchanged object leaves the stored row exactly as it was, a changed one gets `updatedAt` = flush time |
| Bookings.FlushKeepsCreatedAt | StayBooking/StayBooking/src/main/java/com/entity/Booking.java:90-93 | flushing never moves `createdAt` or the id |
| Bookings.BookingEntity.constructor | StayBooking/StayBooking/src/main/java/com/entity/Booking.java:21-71 | a new entity has zero ids, dates, guests and amount and null status, payment and time columns |
| Bookings.BookingEntity.Load | StayBooking/StayBooking/src/main/java/com/entity/Booking.java:24-71 | the managed copy of a stored row is complete and writes back as that same row |
| Bookings.BookingEntity.PrePersist | StayBooking/StayBooking/src/main/java/com/entity/Booking.java:73-88 | createdAt, updatedAt, bookingStatus (PENDING) and paymentStatus (PENDING) are each filled only where null, existing values kept; afterwards every non-null column holds a value |
| Bookings.BookingEntity.PreUpdate | StayBooking/StayBooking/src/main/java/com/entity/Booking.java:90-93 | updatedAt becomes the current time; nothing else, createdAt included, changes |
| Persistence.FlushedTransaction | StayBooking/StayBooking/src/main/java/com/entity/PaymentTransaction.java:77-80 | a transaction row is restamped at flush only when some column changed |
| Persistence.Empty | StayBooking/StayBooking/src/main/java/com/entity/Booking.java:24-26 | the empty tables are valid and hold no booking and no transaction |
| Persistence.RewriteRowsKeepsValid | StayBooking/StayBooking/src/main/java/com/entity/PaymentTransaction.java:45-46 | rewriting one booking in place (same stay, same amount, never reactivated) and one transaction under its unique order id keeps the tables valid and free of double bookings |
| Persistence.Ledger.constructor | StayBooking/StayBooking/src/main/java/com/entity/Booking.java:24-26 | the ledger starts as the empty tables |
| Persistence.Ledger.FindBooking | StayBooking/StayBooking/src/main/java/com/serviceImpl/BookingServiceImpl.java:164-167 | `findById` returns the stored row exactly when the id is present |
| Persistence.Ledger.FindTransaction | StayBooking/StayBooking/src/main/java/com/serviceImpl/PaymentServiceImpl.java:175 | `findByProviderOrderId` returns the stored transaction exactly when the order id is present |
| Persistence.Ledger.Insert | StayBooking/StayBooking/src/main/java/com/serviceImpl/BookingServiceImpl.java:111-122 | saving a new booking runs `@PrePersist`, hands out the next identity value and inserts exactly that row |
| Persistence.Ledger.Commit | StayBooking/StayBooking/src/main/java/com/serviceImpl/BookingServiceImpl.java:244 | a managed booking is written back at commit, restamped only if dirty, and no other row moves |
| Persistence.Ledger.InsertTransaction | StayBooking/StayBooking/src/main/java/com/serviceImpl/PaymentServiceImpl.java:121-128 | a new transaction row is stored under its order id with both instants stamped |
| Persistence.Ledger.CommitTransaction | StayBooking/StayBooking/src/main/java/com/serviceImpl/PaymentServiceImpl.java:201-206 | a loaded transaction is written back under its order id, restamped only if changed |
| BookingRules.IsTerminalStatus | StayBooking/StayBooking/src/main/java/com/serviceImpl/BookingServiceImpl.java:340-342 | CANCELLED, COMPLETED and NO_SHOW are the closed statuses |
| BookingRules.IsValidStatusTransition | StayBooking/StayBooking/src/main/java/com/serviceImpl/BookingServiceImpl.java:344-353 | staying put is always allowed; PENDING may go to CONFIRMED or CANCELLED; CONFIRMED to COMPLETED, CANCELLED or NO_SHOW; a closed status goes nowhere |
| BookingRules.ActiveIsExactlyNonTerminal | StayBooking/StayBooking/src/main/java/com/serviceImpl/BookingServiceImpl.java:336-342 | a status holds its room (PENDING, CONFIRMED) exactly when it is not terminal (CANCELLED, COMPLETED, NO_SHOW) |
| BookingRules.TransitionTableIsExact | StayBooking/StayBooking/src/main/java/com/serviceImpl/BookingServiceImpl.java:344-353 | the transition predicate allows exactly staying put plus PENDING to CONFIRMED/CANCELLED and CONFIRMED to COMPLETED/CANCELLED/NO_SHOW |
| BookingRules.TerminalStatusesAreFinal | StayBooking/StayBooking/src/main/java/com/serviceImpl/BookingServiceImpl.java:344-353 | no transition leaves CANCELLED, COMPLETED or NO_SHOW |
| BookingRules.TransitionsNeverReactivate | StayBooking/StayBooking/src/main/java/com/serviceImpl/BookingServiceImpl.java:344-353 | a valid transition into a holding status starts from a holding status |
| BookingRules.ValidateDates | StayBooking/StayBooking/src/main/java/com/serviceImpl/BookingServiceImpl.java:323-334 | accepted iff both dates are present, check-in is not before today and check-out is strictly after check-in; each refusal reason exactly when it is the first failing check |
| BookingRules.StayAmount | StayBooking/StayBooking/src/main/java/com/serviceImpl/BookingServiceImpl.java:202-203 | the room's nightly price times the number of nights between check-in and check-out |
| BookingRules.StayAmountCoversOneNight | StayBooking/StayBooking/src/main/java/com/serviceImpl/BookingServiceImpl.java:108-109 | a stay of at least one night costs at least the nightly price |
| BookingRules.StayAmountSplits | StayBooking/StayBooking/src/main/java/com/serviceImpl/BookingServiceImpl.java:202-203 | the price of a stay is the sum of the prices of its two parts split at any night |
| OverlapQueries.ExistsOverlappingBooking | StayBooking/StayBooking/src/main/java/com/repository/BookingRepository.java:17-30 | some booking of the room, in one of the given statuses, shares a night with the stay |
| OverlapQueries.ExistsOverlappingBookingExcludingCurrent | StayBooking/StayBooking/src/main/java/com/repository/BookingRepository.java:32-47 | the same question, ignoring the booking being changed |
| OverlapQueries.BlocksIsConflict | StayBooking/StayBooking/src/main/java/com/repository/BookingRepository.java:17-30 | the query's where-clause against a holding booking is exactly: same room, holds it, shares a night |
| OverlapQueries.ConflictIsSymmetric | StayBooking/StayBooking/src/main/java/com/repository/BookingRepository.java:22-23 | the overlap condition is symmetric in the two stays |
| OverlapQueries.BackToBackStaysDoNotOverlap | StayBooking/StayBooking/src/main/java/com/repository/BookingRepository.java:22-23 | a stay ending the day another begins never matches, whatever the statuses |
| OverlapQueries.ExcludingCurrentIsWeaker | StayBooking/StayBooking/src/main/java/com/repository/BookingRepository.java:32-47 | the excluding query finds a conflict only if the plain query does |
| OverlapQueries.ExcludingCurrentIsQueryWithoutIt | StayBooking/StayBooking/src/main/java/com/repository/BookingRepository.java:32-47 | with rows keyed by id, the excluding query is the plain query on the table without that booking |
| OverlapQueries.InsertKeepsNoDoubleBooking | StayBooking/StayBooking/src/main/java/com/serviceImpl/BookingServiceImpl.java:98-122 | inserting a booking the plain query found free keeps the no-double-booking invariant |
| OverlapQueries.ReplaceKeepsNoDoubleBooking | StayBooking/StayBooking/src/main/java/com/serviceImpl/BookingServiceImpl.java:185-205 | replacing a booking by one that the excluding query found free, or that does not hold its room, keeps the invariant |
| OverlapQueries.SameStayKeepsNoDoubleBooking | StayBooking/StayBooking/src/main/java/com/serviceImpl/BookingServiceImpl.java:224-244 | a rewrite that keeps room and dates and never reactivates keeps the invariant |
| BookingLifecycle.Create | StayBooking/StayBooking/src/main/java/com/serviceImpl/BookingServiceImpl.java:56-124 | the reply and tables after `createBooking`: the checks in the source's order, then a PENDING booking inserted under the next id, or a 409 with nothing written when the amount overflows its column and the insert fails; pinned down by the Create lemmas below |
| BookingLifecycle.CreateSucceedsExactlyWhenAllowed | StayBooking/StayBooking/src/main/java/com/serviceImpl/BookingServiceImpl.java:56-124 | a create answers 201 iff every check passes (guests, dates, user, hotel, room, room's hotel, availability, no overlap) and the amount fits its `total_amount` column; past every check, an amount that does not fit is the data-integrity 409; otherwise nothing is written |
| BookingLifecycle.CreateStoresPendingBooking | StayBooking/StayBooking/src/main/java/com/serviceImpl/BookingServiceImpl.java:108-122 | a successful create stores one row under the next id with the requested stay, price times nights, both statuses PENDING, no payment data, and nothing else changes |
| BookingLifecycle.CreateRefusesOverlap | StayBooking/StayBooking/src/main/java/com/serviceImpl/BookingServiceImpl.java:98-106 | an overlapping PENDING or CONFIRMED booking of the room means a refusal with no write, the 409 once every earlier check passes |
| BookingLifecycle.CreatePreservesValid | StayBooking/StayBooking/src/main/java/com/serviceImpl/BookingServiceImpl.java:56-124 | creates keep the tables well formed, every room known and no room double booked |
| BookingLifecycle.Update | StayBooking/StayBooking/src/main/java/com/serviceImpl/BookingServiceImpl.java:159-207 | the reply and tables after `updateBooking`: 400, 404 and 409 refusals, then the new stay and recomputed amount stored, or a 409 with nothing written when the amount overflows its column and the flush fails; pinned down by the Update lemmas below |
| BookingLifecycle.UpdateChangesOnlyTheStay | StayBooking/StayBooking/src/main/java/com/serviceImpl/BookingServiceImpl.java:159-207 | a successful update changes only that booking's dates, guests, amount (price times the new nights) and updatedAt, omitted fields keeping their values; an unknown id gets 404 and a closed booking 409; once dates and guests pass, the "already booked" 409 comes exactly when another booking holds the room on a shared night, and success exactly when none does and the new amount fits its column; failures write nothing |
| BookingLifecycle.UpdateIgnoresItself | StayBooking/StayBooking/src/main/java/com/serviceImpl/BookingServiceImpl.java:185-191 | a booking alone on its room never conflicts with itself: it moves to any valid stay whose amount fits its column, and to no other |
| BookingLifecycle.UpdatePreservesValid | StayBooking/StayBooking/src/main/java/com/serviceImpl/BookingServiceImpl.java:159-207 | updates keep the tables valid and every room known |
| BookingLifecycle.ApplyPaymentStatus | StayBooking/StayBooking/src/main/java/com/serviceImpl/BookingServiceImpl.java:225-233 | the payment status is written; the booking status changes only for SUCCESS on PENDING (to CONFIRMED) or REFUNDED on CONFIRMED (to CANCELLED), and that change is a valid transition |
| BookingLifecycle.UpdateStatus | StayBooking/StayBooking/src/main/java/com/serviceImpl/BookingServiceImpl.java:211-246 | the reply and tables after `updateBookingStatus`: payment status applied first, then the requested transition checked against the result |
| BookingLifecycle.UpdateStatusOutcome | StayBooking/StayBooking/src/main/java/com/serviceImpl/BookingServiceImpl.java:211-246 | 400 without a body or without either field and 404 for an unknown id, writing nothing; otherwise 400 exactly when the requested status is not reachable from the status after the payment change, which is then stored alone; else 200 with the requested (or automatic) status stored; transactions untouched |
| BookingLifecycle.RefusedTransitionStillCommitsPayment | StayBooking/StayBooking/src/main/java/com/serviceImpl/BookingServiceImpl.java:225-240 | on a PENDING booking, payment SUCCESS with status PENDING answers 400 yet commits the booking as CONFIRMED and paid |
| BookingLifecycle.UpdateStatusTouchesOnlyStatuses | StayBooking/StayBooking/src/main/java/com/serviceImpl/BookingServiceImpl.java:211-246 | a status change rewrites only that booking's statuses and updatedAt; a missing field or unknown id writes nothing |
| BookingLifecycle.UpdateStatusNeverReactivates | StayBooking/StayBooking/src/main/java/com/serviceImpl/BookingServiceImpl.java:225-242 | a booking that no longer holds its room never holds it again after a status change |
| BookingLifecycle.UpdateStatusPreservesValid | StayBooking/StayBooking/src/main/java/com/serviceImpl/BookingServiceImpl.java:211-246 | status changes keep the tables valid |
| BookingLifecycle.Cancel | StayBooking/StayBooking/src/main/java/com/serviceImpl/BookingServiceImpl.java:251-272 | the reply and tables after `cancelBooking` |
| BookingLifecycle.CancelReleasesTheRoom | StayBooking/StayBooking/src/main/java/com/serviceImpl/BookingServiceImpl.java:251-272 | cancel either ends CANCELLED with SUCCESS turned REFUNDED and any other payment kept, or writes nothing: unknown id 404, already cancelled 200, COMPLETED or NO_SHOW 409; cancelling twice is cancelling once |
| BookingLifecycle.CancelPreservesValid | StayBooking/StayBooking/src/main/java/com/serviceImpl/BookingServiceImpl.java:251-272 | cancels keep the tables valid |
| BookingService.CreateBooking | StayBooking/StayBooking/src/main/java/com/serviceImpl/BookingServiceImpl.java:56-124 | the method's reply and new tables are exactly `Create`'s outcome |
| BookingService.UpdateBooking | StayBooking/StayBooking/src/main/java/com/serviceImpl/BookingServiceImpl.java:159-207 | the method's reply and new tables are exactly `Update`'s outcome |
| BookingService.UpdateBookingStatus | StayBooking/StayBooking/src/main/java/com/serviceImpl/BookingServiceImpl.java:211-246 | the method's reply and new tables are exactly `UpdateStatus`'s outcome, whose codes and stored rows `UpdateStatusOutcome` gives |
| BookingService.CancelBooking | StayBooking/StayBooking/src/main/java/com/serviceImpl/BookingServiceImpl.java:251-272 | the method's reply and new tables are exactly `Cancel`'s outcome |
| Paging.SafePage | StayBooking/StayBooking/src/main/java/com/serviceImpl/BookingServiceImpl.java:307 | a negative page index becomes 0, any other is kept |
| Paging.SafeSize | StayBooking/StayBooking/src/main/java/com/serviceImpl/BookingServiceImpl.java:308 | the size is kept within [1, 100] and otherwise clamped to the nearer bound |
| Paging.ClampsAreIdempotentAndMonotone | StayBooking/StayBooking/src/main/java/com/serviceImpl/NotificationServiceImpl.java:107-108 | clamping twice is clamping once, and a larger size never gives a smaller page |
| Paging.NormalizeSortBy | StayBooking/StayBooking/src/main/java/com/serviceImpl/BookingServiceImpl.java:313-321 | the result is always a sortable column: the trimmed name when listed, `id` otherwise |
| Paging.NormalizeSortByIsIdempotent | StayBooking/StayBooking/src/main/java/com/serviceImpl/BookingServiceImpl.java:313-321 | normalizing a normalized column changes nothing |
| Paging.DirectionOf | StayBooking/StayBooking/src/main/java/com/serviceImpl/BookingServiceImpl.java:309 | descending iff the direction is `desc` in any letter case |
| Paging.DirectionIgnoresCase | StayBooking/StayBooking/src/main/java/com/serviceImpl/BookingServiceImpl.java:309 | `DESC` and `Desc` sort descending; no direction and `asc` sort ascending |
| Paging.BuildPageable | StayBooking/StayBooking/src/main/java/com/serviceImpl/BookingServiceImpl.java:306-311 | the page request has the clamped page and size and the given column |
| Paging.NotificationPage | StayBooking/StayBooking/src/main/java/com/serviceImpl/NotificationServiceImpl.java:107-109 | the inbox is clamped as the listings are and sorted newest first |
| Money.ToPaise | StayBooking/StayBooking/src/main/java/com/serviceImpl/PaymentServiceImpl.java:259-261 | the result is the one exact minor-unit count of the amount within the `long` range; none exactly when no such count exists |
| Money.PaiseIsUnique | StayBooking/StayBooking/src/main/java/com/serviceImpl/PaymentServiceImpl.java:259-261 | at most one count is exact for an amount |
| Money.ToPaiseOfHundredths | StayBooking/StayBooking/src/main/java/com/serviceImpl/PaymentServiceImpl.java:259-261 | an amount in hundredths converts to that same count when it fits a `long` |
| Money.ToPaiseOfStoredAmount | StayBooking/StayBooking/src/main/java/com/entity/Booking.java:49 | every amount the total_amount column can hold converts |
| Money.ToPaiseIgnoresTrailingZeros | StayBooking/StayBooking/src/main/java/com/serviceImpl/PaymentServiceImpl.java:259-261 | 12.5 and 12.50 convert alike |
| Money.ToPaiseRejectsFractionalPaise | StayBooking/StayBooking/src/main/java/com/serviceImpl/PaymentServiceImpl.java:259-261 | a thousandth of a unit fails to convert |
| Money.ToPaiseRejectsOverflow | StayBooking/StayBooking/src/main/java/com/serviceImpl/PaymentServiceImpl.java:259-261 | an amount whose count exceeds the `long` range fails to convert |
| HexEncoding.Unsigned | StayBooking/StayBooking/src/main/java/com/serviceImpl/PaymentServiceImpl.java:283 | a signed byte prints as its value modulo 256 |
| HexEncoding.HexByte | StayBooking/StayBooking/src/main/java/com/serviceImpl/PaymentServiceImpl.java:283 | `%02x` gives exactly two hex digits whose value is the unsigned byte |
| HexEncoding.Hex | StayBooking/StayBooking/src/main/java/com/serviceImpl/PaymentServiceImpl.java:281-285 | the digest is written as two hex digits per byte |
| HexEncoding.HexOf | StayBooking/StayBooking/src/main/java/com/serviceImpl/PaymentServiceImpl.java:281-285 | the builder loop produces exactly `Hex` of the digest |
| HexEncoding.UnhexHex | StayBooking/StayBooking/src/main/java/com/serviceImpl/PaymentServiceImpl.java:281-285 | reading the hex back gives the digest: the encoding loses nothing |
| HexEncoding.HexIsInjective | StayBooking/StayBooking/src/main/java/com/serviceImpl/PaymentServiceImpl.java:281-285 | two digests with the same hex are equal, so comparing signatures compares digests |
| Payments.NormalizeCurrency | StayBooking/StayBooking/src/main/java/com/serviceImpl/PaymentServiceImpl.java:263-268 | the currency is `INR` when blank, otherwise non-blank, trimmed and free of lower-case letters |
| Payments.NormalizedCurrencyIsNotBlank | StayBooking/StayBooking/src/main/java/com/serviceImpl/PaymentServiceImpl.java:263-268 | a normalized currency is never blank |
| Payments.NormalizeCurrencyIsIdempotent | StayBooking/StayBooking/src/main/java/com/serviceImpl/PaymentServiceImpl.java:263-268 | normalizing a normalized currency changes nothing |
| Payments.TerminalBookingIsTerminalStatus | StayBooking/StayBooking/src/main/java/com/serviceImpl/PaymentServiceImpl.java:255-257 | the payment service's terminal statuses are the booking service's, and the others are exactly the holding ones |
| Payments.ExpectedSignature | StayBooking/StayBooking/src/main/java/com/serviceImpl/PaymentServiceImpl.java:192-195 | the lower-case hex of the HMAC-SHA256, under the key secret, of the order id and the payment id joined by a vertical bar |
| Payments.SignatureMatchIsDigestMatch | StayBooking/StayBooking/src/main/java/com/serviceImpl/PaymentServiceImpl.java:192-200 | a well-formed signature matches iff it decodes to exactly the HMAC of order id, bar and payment id |
| Payments.AwaitingOrder | StayBooking/StayBooking/src/main/java/com/serviceImpl/PaymentServiceImpl.java:130-132 | an order sets the booking's method RAZORPAY, payment PENDING and reference the order id, and nothing else |
| Payments.PendingTransaction | StayBooking/StayBooking/src/main/java/com/serviceImpl/PaymentServiceImpl.java:121-128 | the new transaction is PENDING for the booking's full amount in the given currency, with no payment id, signature or error |
| Payments.CreateOrder | StayBooking/StayBooking/src/main/java/com/serviceImpl/PaymentServiceImpl.java:58-148 | the reply and tables after `createRazorpayOrder`; pinned down by the CreateOrder lemmas below |
| Payments.CreateOrderSucceedsExactlyWhenAllowed | StayBooking/StayBooking/src/main/java/com/serviceImpl/PaymentServiceImpl.java:58-148 | 201 iff every check passes and the gateway returned an order id not yet on file; any other answer is a refusal that writes nothing; no order notifies anyone |
| Payments.CreateOrderReportsGatewayFailure | StayBooking/StayBooking/src/main/java/com/serviceImpl/PaymentServiceImpl.java:105-117 | a gateway exception or an answer without id is a 502 with nothing written |
| Payments.CreateOrderRefusesClosedOrPaidBooking | StayBooking/StayBooking/src/main/java/com/serviceImpl/PaymentServiceImpl.java:74-81 | a CANCELLED, COMPLETED or NO_SHOW booking, or one already paid, gets 409 and no write |
| Payments.CreateOrderRecordsPendingOrder | StayBooking/StayBooking/src/main/java/com/serviceImpl/PaymentServiceImpl.java:119-147 | an order stores one PENDING transaction under the gateway's id and sets the booking's payment columns; status, stay and all other rows kept; the reply carries the amount in hundredths |
| Payments.CreateOrderPreservesValid | StayBooking/StayBooking/src/main/java/com/serviceImpl/PaymentServiceImpl.java:58-148 | order creation keeps the tables valid |
| Payments.CreateOrderKeepsStays | StayBooking/StayBooking/src/main/java/com/serviceImpl/PaymentServiceImpl.java:119-133 | order creation moves no booking's room or nights |
| Payments.PromotedStatus | StayBooking/StayBooking/src/main/java/com/serviceImpl/PaymentServiceImpl.java:226-228 | only PENDING is promoted (to CONFIRMED); every other status is kept |
| Payments.RejectedTransaction | StayBooking/StayBooking/src/main/java/com/serviceImpl/PaymentServiceImpl.java:201-205 | a mismatch marks the transaction FAILED with the submitted payment id and signature and the mismatch error, nothing else |
| Payments.PaidTransaction | StayBooking/StayBooking/src/main/java/com/serviceImpl/PaymentServiceImpl.java:216-220 | a match marks the transaction SUCCESS with the payment id and signature and clears the error, nothing else |
| Payments.PaidBooking | StayBooking/StayBooking/src/main/java/com/serviceImpl/PaymentServiceImpl.java:223-228 | a paid booking has method RAZORPAY, payment SUCCESS, the payment id as reference and its status promoted, nothing else |
| Payments.Verify | StayBooking/StayBooking/src/main/java/com/serviceImpl/PaymentServiceImpl.java:152-239 | the reply, tables and announced change after `verifyRazorpayPayment`; pinned down by the Verify lemmas below |
| Payments.VerifyDispatch | StayBooking/StayBooking/src/main/java/com/serviceImpl/PaymentServiceImpl.java:192-238 | past the checks and the replay test, the signature alone chooses success or rejection |
| Payments.VerifyRefusalsWriteNothing | StayBooking/StayBooking/src/main/java/com/serviceImpl/PaymentServiceImpl.java:153-179 | missing fields, a missing secret, an unknown booking or an order of another booking get 400, 500 or 404 and write and announce nothing |
| Payments.VerifyReplayIsNoOp | StayBooking/StayBooking/src/main/java/com/serviceImpl/PaymentServiceImpl.java:182-190 | an order already paid with this payment id answers 200 with the current statuses, writes nothing and notifies nobody, whatever signature is sent |
| Payments.VerifyMismatchMarksFailed | StayBooking/StayBooking/src/main/java/com/serviceImpl/PaymentServiceImpl.java:200-214 | a wrong signature answers 400, fails the transaction and the booking's payment, keeps the booking status, and announces the statuses from before the call |
| Payments.VerifyMatchMarksPaid | StayBooking/StayBooking/src/main/java/com/serviceImpl/PaymentServiceImpl.java:216-238 | a right signature answers 200, pays the transaction and booking, promotes only PENDING and announces the previous statuses |
| Payments.VerifyIsIdempotent | StayBooking/StayBooking/src/main/java/com/serviceImpl/PaymentServiceImpl.java:182-190 | after a successful verification the same call changes nothing and notifies nobody |
| Payments.VerifyPaysCancelledBooking | StayBooking/StayBooking/src/main/java/com/serviceImpl/PaymentServiceImpl.java:223-228 | a CANCELLED booking verified with a right signature stays CANCELLED with payment SUCCESS |
| Payments.ForgedVerifyFailsPaidOrder | StayBooking/StayBooking/src/main/java/com/serviceImpl/PaymentServiceImpl.java:182-214 | a wrong signature under a new payment id turns a paid order and its booking's payment to FAILED |
| Payments.AcceptPaymentKeepsValid | StayBooking/StayBooking/src/main/java/com/serviceImpl/PaymentServiceImpl.java:216-238 | marking a booking and its order paid keeps the tables valid: no booking moves and the order stays keyed by its id |
| Payments.RejectSignatureKeepsValid | StayBooking/StayBooking/src/main/java/com/serviceImpl/PaymentServiceImpl.java:200-214 | marking a booking and its order failed keeps the tables valid |
| Payments.VerifyPreservesValid | StayBooking/StayBooking/src/main/java/com/serviceImpl/PaymentServiceImpl.java:152-239 | verification keeps the tables valid |
| Payments.VerifyKeepsStays | StayBooking/StayBooking/src/main/java/com/serviceImpl/PaymentServiceImpl.java:152-239 | verification moves no booking's room or nights |
| PaymentService.CreateRazorpayOrder | StayBooking/StayBooking/src/main/java/com/serviceImpl/PaymentServiceImpl.java:58-148 | the method's reply and new tables are exactly `CreateOrder`'s outcome |
| PaymentService.RecordOrder | StayBooking/StayBooking/src/main/java/com/serviceImpl/PaymentServiceImpl.java:119-147 | the success tail of order creation produces exactly `PlaceOrder`'s outcome |
| PaymentService.RecordMismatch | StayBooking/StayBooking/src/main/java/com/serviceImpl/PaymentServiceImpl.java:200-214 | the mismatch branch leaves the tables exactly as `RejectSignature` does (transaction and booking payment FAILED), answers 400 and returns the change to announce |
| PaymentService.MarkBookingPaid | StayBooking/StayBooking/src/main/java/com/serviceImpl/PaymentServiceImpl.java:223-228 | the managed booking becomes RAZORPAY, SUCCESS, referenced by the payment id, and CONFIRMED if it was PENDING; nothing else of it moves |
| PaymentService.RecordPayment | StayBooking/StayBooking/src/main/java/com/serviceImpl/PaymentServiceImpl.java:216-238 | the success branch leaves the tables exactly as `AcceptPayment` does, answers 200 with the new statuses and returns the change to announce |
| PaymentService.CheckSignature | StayBooking/StayBooking/src/main/java/com/serviceImpl/PaymentServiceImpl.java:192-238 | once the booking and a not-yet-paid order of it are loaded, comparing the expected hex HMAC with the signature and recording the result produces exactly `Verify`'s outcome, with a change to announce |
| PaymentService.SettleVerification | StayBooking/StayBooking/src/main/java/com/serviceImpl/PaymentServiceImpl.java:192-239 | once the booking and a not-yet-paid order of it are loaded, comparing the expected hex HMAC and recording the result produces exactly `Verify`'s outcome and announces the change |
| PaymentService.VerifyRazorpayPayment | StayBooking/StayBooking/src/main/java/com/serviceImpl/PaymentServiceImpl.java:152-239 | the method's reply, tables and notice are exactly `Verify`'s outcome; notifications are stored only when a change is announced |
| Notifications.StatusDispatches | StayBooking/StayBooking/src/main/java/com/serviceImpl/NotificationServiceImpl.java:76-80 | a status notification exactly when the booking status moved |
| Notifications.PaymentDispatches | StayBooking/StayBooking/src/main/java/com/serviceImpl/NotificationServiceImpl.java:82-100 | PAYMENT_SUCCESS or PAYMENT_FAILED exactly when the payment status moved to that value; moves to PENDING or REFUNDED dispatch nothing |
| Notifications.StateChangeDispatches | StayBooking/StayBooking/src/main/java/com/serviceImpl/NotificationServiceImpl.java:75-101 | at most two dispatches of distinct types, the status one first, each exactly when its status moved |
| Notifications.DispatchRecords | StayBooking/StayBooking/src/main/java/com/serviceImpl/NotificationServiceImpl.java:157-216 | the records one dispatch stores: IN_APP always, then EMAIL when asked for and enabled |
| Notifications.DispatchRecordsShape | StayBooking/StayBooking/src/main/java/com/serviceImpl/NotificationServiceImpl.java:157-216 | one IN_APP SENT record, then one EMAIL record exactly when email is requested and enabled: SENT iff the address is not blank and the send returns; all numbered on, unread, for the booking's user |
| Notifications.OneDispatchOneInApp | StayBooking/StayBooking/src/main/java/com/serviceImpl/NotificationServiceImpl.java:160-173 | one dispatch stores exactly one IN_APP record |
| Notifications.OneInAppRecordPerDispatch | StayBooking/StayBooking/src/main/java/com/serviceImpl/NotificationServiceImpl.java:157-216 | a run of dispatches stores one IN_APP record per dispatch, plus one EMAIL record each when email is enabled |
| Notifications.DispatchedRecordsAreUnread | StayBooking/StayBooking/src/main/java/com/serviceImpl/NotificationServiceImpl.java:218-237 | dispatched records have consecutive identities, belong to the booking's user and start unread |
| Notifications.StateChangeRecordsShape | StayBooking/StayBooking/src/main/java/com/serviceImpl/NotificationServiceImpl.java:75-101 | a state change stores one IN_APP record per dispatch, numbered on, for the booking's user, all unread |
| Notifications.MarkedRead | StayBooking/StayBooking/src/main/java/com/serviceImpl/NotificationServiceImpl.java:133-137 | marking sets the flag and stamps readAt only on an unread notification; a read one is returned unchanged |
| Notifications.MarkedReadIdempotent | StayBooking/StayBooking/src/main/java/com/serviceImpl/NotificationServiceImpl.java:133-137 | marking twice, at any times, is marking once |
| Notifications.MarkAsReadLowersUnreadByOne | StayBooking/StayBooking/src/main/java/com/serviceImpl/NotificationServiceImpl.java:133-137 | reading a notification lowers its owner's unread count by one if it was unread and never raises a count |
| Notifications.CountUnread | StayBooking/StayBooking/src/main/java/com/repository/NotificationRepository.java:24 | the unread count never exceeds the number of records |
| Notifications.AllMarkedRead | StayBooking/StayBooking/src/main/java/com/repository/NotificationRepository.java:26-34 | the bulk update marks every unread record of the user read at the given time and leaves the rest |
| Notifications.AllMarkedReadClearsOnlyTheUser | StayBooking/StayBooking/src/main/java/com/repository/NotificationRepository.java:26-34 | afterwards the user has nothing unread and every other user's count is unchanged |
| Notifications.NotificationCenter.constructor | StayBooking/StayBooking/src/main/java/com/serviceImpl/NotificationServiceImpl.java:43-51 | the store starts empty with the configured email flag |
| Notifications.NotificationCenter.CreateAndStore | StayBooking/StayBooking/src/main/java/com/serviceImpl/NotificationServiceImpl.java:218-237 | one unread record is appended with the next identity |
| Notifications.NotificationCenter.DispatchTo | StayBooking/StayBooking/src/main/java/com/serviceImpl/NotificationServiceImpl.java:157-216 | exactly `DispatchRecords` is appended |
| Notifications.NotificationCenter.SendBookingCreated | StayBooking/StayBooking/src/main/java/com/serviceImpl/NotificationServiceImpl.java:53-58 | the BOOKING_CREATED dispatch's records are appended |
| Notifications.NotificationCenter.SendBookingUpdated | StayBooking/StayBooking/src/main/java/com/serviceImpl/NotificationServiceImpl.java:60-65 | the BOOKING_UPDATED dispatch's records are appended |
| Notifications.NotificationCenter.SendBookingCancelled | StayBooking/StayBooking/src/main/java/com/serviceImpl/NotificationServiceImpl.java:67-72 | the BOOKING_CANCELLED dispatch's records are appended |
| Notifications.NotificationCenter.SendStatusChange | StayBooking/StayBooking/src/main/java/com/serviceImpl/NotificationServiceImpl.java:76-80 | the records of the status dispatch, if any, are appended |
| Notifications.NotificationCenter.SendPaymentChange | StayBooking/StayBooking/src/main/java/com/serviceImpl/NotificationServiceImpl.java:82-100 | the records of the payment dispatch, if any, are appended |
| Notifications.NotificationCenter.FinishStateChange | StayBooking/StayBooking/src/main/java/com/serviceImpl/NotificationServiceImpl.java:82-100 | after the status records, the payment records complete exactly the state change's records |
| Notifications.NotificationCenter.SendBookingStateChange | StayBooking/StayBooking/src/main/java/com/serviceImpl/NotificationServiceImpl.java:74-101 | the status records then the payment records are appended |
| Notifications.NotificationCenter.MarkAsRead | StayBooking/StayBooking/src/main/java/com/serviceImpl/NotificationServiceImpl.java:126-140 | none (the 404) iff the id is not one of the user's notifications, with no write; otherwise that record alone is marked read and returned |
| Notifications.NotificationCenter.MarkAllAsRead | StayBooking/StayBooking/src/main/java/com/serviceImpl/NotificationServiceImpl.java:142-148 | every unread record of the user is marked read, and the answer is how many were unread |
| Notifications.NotificationCenter.UnreadCount | StayBooking/StayBooking/src/main/java/com/serviceImpl/NotificationServiceImpl.java:150-155 | the user's unread count |
| PasswordReset.EmailKey | StayBooking/StayBooking/src/main/java/com/serviceImpl/PasswordResetServiceImpl.java:64 | the lookup key is already lower case and no longer than the address |
| PasswordReset.Spent | StayBooking/StayBooking/src/main/java/com/serviceImpl/PasswordResetServiceImpl.java:170-173 | a spent code is used with usedAt = now, other fields kept |
| PasswordReset.InvalidateAll | StayBooking/StayBooking/src/main/java/com/serviceImpl/PasswordResetServiceImpl.java:167-177 | invalidation keeps the number of rows |
| PasswordReset.InvalidateSpendsExactlyTheActive | StayBooking/StayBooking/src/main/java/com/serviceImpl/PasswordResetServiceImpl.java:167-177 | afterwards the user has no usable code, and a row changed iff it was the user's usable code, now spent |
| PasswordReset.LatestActive | StayBooking/StayBooking/src/main/java/com/repository/PasswordResetOtpRepository.java:17 | the position of a usable code of the user with the latest creation time; none iff the user has no usable code |
| PasswordReset.FoundCodeIsNeverExpired | StayBooking/StayBooking/src/main/java/com/serviceImpl/PasswordResetServiceImpl.java:133-139 | the code the lookup finds is never already expired |
| PasswordReset.GenerateOtp | StayBooking/StayBooking/src/main/java/com/serviceImpl/PasswordResetServiceImpl.java:179-182 | four decimal digits whose value is 1000 plus the draw, so in [1000, 9999] |
| PasswordReset.FreshOtp | StayBooking/StayBooking/src/main/java/com/serviceImpl/PasswordResetServiceImpl.java:78-86 | the new code is unused, with no attempts, created now and expiring after the configured minutes |
| PasswordReset.IssueOtp | StayBooking/StayBooking/src/main/java/com/serviceImpl/PasswordResetServiceImpl.java:73-96 | usable codes are spent, then the new one is kept with 200 if the mail goes out, or deleted with 500 if it does not; accounts untouched |
| PasswordReset.RequestOtp | StayBooking/StayBooking/src/main/java/com/serviceImpl/PasswordResetServiceImpl.java:59-99 | the answer is always 200, 400 or 500 |
| PasswordReset.RequestOtpDoesNotRevealAccounts | StayBooking/StayBooking/src/main/java/com/serviceImpl/PasswordResetServiceImpl.java:59-99 | 400 iff the address is blank; an unregistered address gets the same 200 answer as a delivered code while nothing is stored |
| PasswordReset.RequestOtpLeavesOneUsableCode | StayBooking/StayBooking/src/main/java/com/serviceImpl/PasswordResetServiceImpl.java:73-86 | after a delivered code, the new last row is the user's only usable code and the lookup finds it |
| PasswordReset.FailedDeliveryLeavesNoUsableCode | StayBooking/StayBooking/src/main/java/com/serviceImpl/PasswordResetServiceImpl.java:89-96 | an undeliverable mail answers 500 and leaves the user no usable code |
| PasswordReset.WrongAttempt | StayBooking/StayBooking/src/main/java/com/serviceImpl/PasswordResetServiceImpl.java:143-153 | a wrong code adds one failed attempt to that code alone, spending it and answering the lock message iff the count reaches the maximum |
| PasswordReset.AcceptReset | StayBooking/StayBooking/src/main/java/com/serviceImpl/PasswordResetServiceImpl.java:156-164 | the right code sets the encoded new password, spends the code and then every other usable code of the user |
| PasswordReset.ResetRequestProblem | StayBooking/StayBooking/src/main/java/com/serviceImpl/PasswordResetServiceImpl.java:104-118 | no problem iff every field is present and non-blank, the passwords agree and the new one has at least 8 characters |
| PasswordReset.ResetPassword | StayBooking/StayBooking/src/main/java/com/serviceImpl/PasswordResetServiceImpl.java:103-165 | the answer is always 200 or 400 |
| PasswordReset.ResetChecksRequestFirst | StayBooking/StayBooking/src/main/java/com/serviceImpl/PasswordResetServiceImpl.java:104-118 | a request problem is a 400 with nothing written, whatever the tables hold |
| PasswordReset.ResetChangesOnlyTheRequestersPassword | StayBooking/StayBooking/src/main/java/com/serviceImpl/PasswordResetServiceImpl.java:156-164 | only a 200 changes a password, and then only the requester's, to the encoded new password |
| PasswordReset.WrongCodeCountsAndLocks | StayBooking/StayBooking/src/main/java/com/serviceImpl/PasswordResetServiceImpl.java:141-154 | a wrong code against the user's newest usable code counts one attempt on that code and locks it exactly at the maximum |
| PasswordReset.CodeIsSingleUse | StayBooking/StayBooking/src/main/java/com/serviceImpl/PasswordResetServiceImpl.java:126-164 | after a successful reset, the same request then or later finds no usable code and is refused with nothing written |
| PasswordReset.InvalidateKeepsAttemptsBelowMax | StayBooking/StayBooking/src/main/java/com/serviceImpl/PasswordResetServiceImpl.java:167-177 | invalidation keeps every unspent code below the attempt maximum |
| PasswordReset.IssueOtpKeepsAttemptsBelowMax | StayBooking/StayBooking/src/main/java/com/serviceImpl/PasswordResetServiceImpl.java:73-96 | issuing a code keeps every unspent code below a maximum of at least one |
| PasswordReset.RequestOtpKeepsAttemptsBelowMax | StayBooking/StayBooking/src/main/java/com/serviceImpl/PasswordResetServiceImpl.java:59-99 | asking for a code keeps every unspent code below the maximum |
| PasswordReset.WrongAttemptKeepsAttemptsBelowMax | StayBooking/StayBooking/src/main/java/com/serviceImpl/PasswordResetServiceImpl.java:143-153 | counting a wrong code keeps every unspent code below the maximum, because the code is spent when its count reaches it |
| PasswordReset.AcceptResetKeepsAttemptsBelowMax | StayBooking/StayBooking/src/main/java/com/serviceImpl/PasswordResetServiceImpl.java:156-164 | a successful reset keeps every unspent code below the maximum |
| PasswordReset.ResetKeepsAttemptsBelowMax | StayBooking/StayBooking/src/main/java/com/serviceImpl/PasswordResetServiceImpl.java:143-153 | a reset attempt keeps every unspent code below the maximum: no code can be tried more often than allowed |
| PasswordReset.RequestOtpKeepsAccounts | StayBooking/StayBooking/src/main/java/com/serviceImpl/PasswordResetServiceImpl.java:59-99 | asking for a code leaves the accounts as they were |
| PasswordReset.ResetKeepsAccountsKeyed | StayBooking/StayBooking/src/main/java/com/serviceImpl/PasswordResetServiceImpl.java:156-164 | a reset keeps every account under its own lower-cased address |
| PasswordReset.PasswordResetService.constructor | StayBooking/StayBooking/src/main/java/com/serviceImpl/PasswordResetServiceImpl.java:47-48 | the service starts with the accounts, no codes and the configuration |
| PasswordReset.PasswordResetService.InvalidateActiveOtps | StayBooking/StayBooking/src/main/java/com/serviceImpl/PasswordResetServiceImpl.java:167-177 | the loop spends exactly the codes `InvalidateAll` spends, leaving the user no usable code |
| PasswordReset.PasswordResetService.RequestPasswordResetOtp | StayBooking/StayBooking/src/main/java/com/serviceImpl/PasswordResetServiceImpl.java:59-99 | the reply and new tables are exactly `RequestOtp`'s outcome |
| PasswordReset.PasswordResetService.RecordWrongAttempt | StayBooking/StayBooking/src/main/java/com/serviceImpl/PasswordResetServiceImpl.java:142-154 | counting a wrong code updates the table and answers exactly as `WrongAttempt` says |
| PasswordReset.PasswordResetService.CompleteReset | StayBooking/StayBooking/src/main/java/com/serviceImpl/PasswordResetServiceImpl.java:156-164 | storing the new password and spending the codes leaves exactly `AcceptReset`'s tables and its 200 |
| PasswordReset.PasswordResetService.ResetPasswordWithOtp | StayBooking/StayBooking/src/main/java/com/serviceImpl/PasswordResetServiceImpl.java:103-165 | the reply and new tables are exactly `ResetPassword`'s outcome |
| PhotoStorage.ExtractExtension | StayBooking/StayBooking/src/main/java/com/serviceImpl/HotelPhotoStorageServiceImpl.java:156-167 | the result is always a dot and 2 to 5 lower-case letters or digits; when it is not the `.jpg` default it is the lower-cased suffix from the last dot |
| PhotoStorage.ExtractExtensionWithoutDot | StayBooking/StayBooking/src/main/java/com/serviceImpl/HotelPhotoStorageServiceImpl.java:169-175 | empty when there is no dot or a trailing one; otherwise the lower-cased non-empty text after the last dot, holding no dot |
| PhotoStorage.ExtensionReadersAgree | StayBooking/StayBooking/src/main/java/com/serviceImpl/HotelPhotoStorageServiceImpl.java:156-175 | the stored extension is the dot plus the checked extension when that is a valid one, `.jpg` otherwise |
| PhotoStorage.ParseCsvToLowerSet | StayBooking/StayBooking/src/main/java/com/serviceImpl/HotelPhotoStorageServiceImpl.java:177-186 | blank settings give the empty set; every member is non-empty, lower case and trimmed |
| PhotoStorage.ParseCsvToLowerSetHoldsExactlyTheItems | StayBooking/StayBooking/src/main/java/com/serviceImpl/HotelPhotoStorageServiceImpl.java:177-186 | a value is in the set iff it is a non-empty trimmed, lower-cased comma-separated item |
| PhotoStorage.ValidateFile | StayBooking/StayBooking/src/main/java/com/serviceImpl/HotelPhotoStorageServiceImpl.java:139-154 | too large iff the size exceeds the maximum; accepted iff not too large and the extension or the lower-cased MIME type is allowed |
| PhotoStorage.DeclaredTypeAdmitsAnyExtension | StayBooking/StayBooking/src/main/java/com/serviceImpl/HotelPhotoStorageServiceImpl.java:139-154 | whenever the size is within the limit and `image/png` is allowed, `page.html` declared `image/png` is accepted and stored as `.html` |
| PhotoStorage.LastSegment | StayBooking/StayBooking/src/main/java/com/serviceImpl/HotelPhotoStorageServiceImpl.java:194-197 | the kept segment holds no slash and no backslash |
| PhotoStorage.NormalizeFilename | StayBooking/StayBooking/src/main/java/com/serviceImpl/HotelPhotoStorageServiceImpl.java:188-204 | blank gives none; a kept name is the last segment of the decoded trimmed input, holding no separator and no `..` and not blank, and each such segment is kept |
| PhotoStorage.ToPhotoUrl | StayBooking/StayBooking/src/main/java/com/serviceImpl/HotelPhotoStorageServiceImpl.java:130-137 | empty iff the name is rejected; otherwise the photo prefix followed by the normalized name |
| PhotoStorage.PlainNameSurvives | StayBooking/StayBooking/src/main/java/com/serviceImpl/HotelPhotoStorageServiceImpl.java:188-204 | a name of lower-case letters, digits, `-` and `.`, not starting with a dot, with no two dots in a row and left alone by decoding, normalizes to itself |
| PhotoStorage.WideSpaceNameIsRefused | StayBooking/StayBooking/src/main/java/com/serviceImpl/HotelPhotoStorageServiceImpl.java:190-201 | a name made only of whitespace above U+0020, such as U+3000, passes `trim` unchanged but is blank by `isBlank`, so it is refused |
| PhotoStorage.StoredName | StayBooking/StayBooking/src/main/java/com/serviceImpl/HotelPhotoStorageServiceImpl.java:65-66 | a stored upload is named by the random UUID text followed by the extracted extension |
| PhotoStorage.UuidWithExtensionIsPlain | StayBooking/StayBooking/src/main/java/com/serviceImpl/HotelPhotoStorageServiceImpl.java:65-66 | a generated name is non-empty, starts with a UUID character, uses only plain characters and never has two dots in a row |
| PhotoStorage.StoredNameIsServedBack | StayBooking/StayBooking/src/main/java/com/serviceImpl/HotelPhotoStorageServiceImpl.java:65-66 | with a decoder that leaves text without `%` or `+` alone, as URL decoding does, a generated name (UUID plus extension) normalizes to itself and is served at the prefix plus that name |
| Reservations.AfterKeepsConsistent | StayBooking/StayBooking/src/main/java/com/serviceImpl/BookingServiceImpl.java:56-272 | each kind of call keeps the tables valid and every room known |
| Reservations.Step | StayBooking/StayBooking/src/main/java/com/serviceImpl/BookingServiceImpl.java:56-272 | every booking or payment call keeps the tables valid and every room known |
| Reservations.RunAppend | StayBooking/StayBooking/src/main/java/com/serviceImpl/BookingServiceImpl.java:56-272 | running two batches of calls one after the other is running them together |
| Reservations.NoDoubleBookingEver | StayBooking/StayBooking/src/main/java/com/serviceImpl/BookingServiceImpl.java:98-106 | from empty tables, after any sequence of calls, no two PENDING or CONFIRMED bookings of one room share a night and every booked room exists |
| Reservations.OrderLeavesPendingTransaction | StayBooking/StayBooking/src/main/java/com/serviceImpl/PaymentServiceImpl.java:119-133 | after an order, the booking still holds its room with payment PENDING, and its PENDING order is on file |
| Reservations.CancelLeavesOrder | StayBooking/StayBooking/src/main/java/com/serviceImpl/BookingServiceImpl.java:251-272 | cancelling that booking makes it CANCELLED and leaves the transactions alone |
| Reservations.OrderLeavesBookingOrderable | StayBooking/StayBooking/src/main/java/com/serviceImpl/PaymentServiceImpl.java:72-133 | after an order the booking still passes every order check, and the only new transaction is the PENDING one for the booking's amount |
| Reservations.VerifyPaysPendingOrder | StayBooking/StayBooking/src/main/java/com/serviceImpl/PaymentServiceImpl.java:182-229 | a correctly signed verification of a PENDING order marks that order and its booking SUCCESS, keeps the order's amount, and leaves every other row as it was |
| Reservations.AcceptPaymentPays | StayBooking/StayBooking/src/main/java/com/serviceImpl/PaymentServiceImpl.java:216-229 | the success branch writes SUCCESS on the order and its booking and rewrites no other row |
| Reservations.TwoOrderSteps | StayBooking/StayBooking/src/main/java/com/serviceImpl/PaymentServiceImpl.java:72-133 | two orders with different ids for one unpaid booking leave both on file as PENDING transactions of that booking, each for its amount |
| Reservations.TwoVerifySteps | StayBooking/StayBooking/src/main/java/com/serviceImpl/PaymentServiceImpl.java:182-229 | two correctly signed verifications, one per PENDING order of the booking, leave both orders SUCCESS and the booking paid |
| Reservations.BookingPaidTwice | StayBooking/StayBooking/src/main/java/com/serviceImpl/PaymentServiceImpl.java:72-229 | two orders placed while the booking is unpaid and then both verified leave two SUCCESS transactions of that booking, each for its full amount |
| Reservations.CancelledBookingCanEndUpPaid | StayBooking/StayBooking/src/main/java/com/serviceImpl/PaymentServiceImpl.java:226-228 | order, cancel, then a correctly signed payment ends with the booking CANCELLED and payment SUCCESS |
| Text.IsBlank | StayBooking/StayBooking/src/main/java/com/serviceImpl/PaymentServiceImpl.java:291-293 | a value is blank iff it is null or every character is one `trim` strips |

## Left out

- Concurrency. The model runs calls one after another, each to
  completion. The race between the overlap query and the insert in
  `createBooking`, and racing verifications of one order, are not modelled.
  `Reservations.NoDoubleBookingEver` holds only for serialized calls.
- Cryptography and encodings are function parameters. This covers HMAC-SHA256,
  the SHA-256 hash of a code, the password encoder, and the Base64 Basic
  authorization header. The header only goes to the gateway, whose answer
  is itself a parameter.
- The `IllegalStateException` that `hmacSha256Hex` throws when the MAC cannot
  be computed. The HMAC is a total function here.
- The gateway request body (receipt, notes, the clock reading in the
  receipt) and the HTTP call itself. Only the gateway's answer is modelled.
- SMTP delivery is a parameter. `Mailer` decides, per message, whether
  sending returns or throws.
- Clocks and randomness are parameters: today, now, the OTP draw and the UUID.
- Disk access in `saveHotelPhotos`, `deleteHotelPhotos` and `loadHotelPhoto`,
  including the `startsWith(uploadPath)` checks and the constructor's
  directory creation. Only the generated name (`PhotoStorage.StoredName`)
  and the name checks they call are modelled.
- `URLDecoder.decode` is a total function parameter. Its exception on a
  malformed escape is not modelled.
- `toLowerCase`, `toUpperCase` and `equalsIgnoreCase` act on ASCII letters
  only. The model also counts characters, not UTF-16 units, where the code
  uses `length()`.
- `getBookingById`, `getBookings` with its JPA specification, and
  `getMyNotifications`, which are listing queries. Only their paging and
  sort-column normalization is modelled (`Paging`).
- `toResponse` DTO mapping. Replies carry the statuses and identities that
  the properties need, not every DTO field.
- The user, hotel and room references of a booking are their ids. A
  transaction's surrogate `id` column is not modelled, because rows are keyed
  by the unique order id.
- A duplicate gateway order id is refused with 409 and nothing written. This
  stands for the unique index violation and the rollback, and for the
  exception handler's 409 answer.
- An amount that overflows the `total_amount` column (precision 10, scale 2)
  is refused with 409 and nothing written, by `createBooking` and
  `updateBooking` alike. This stands for the failed insert or flush, the
  rollback and the data-integrity handler's 409 answer.
- BookingLifecycle.Create: a refused insert leaves `nextBookingId` as it was.
  A database identity column may skip the value it handed out; that gap is
  not modelled.
- The `PasswordResetOtp` entity, the `PaymentStatus`, `NotificationType`,
  `NotificationChannel` and `NotificationDeliveryStatus` enums and
  `NotificationProperties` are not part of this model. Their fields and
  values are those the services use.
- The `isBefore(now)` re-check in `resetPasswordWithOtp` is omitted, because
  `PasswordReset.FoundCodeIsNeverExpired` shows it can never fire.
- PasswordReset.LatestActive: among usable codes created at the same instant, the later row is taken. The database's order for such ties is unspecified.
- Notifications.NotificationCenter.Valid: identities are taken as 1, 2, 3, … in insertion
  order, with no gaps. A database IDENTITY column promises only fresh,
  increasing values; the gaps it may leave (rolled-back inserts, cached
  blocks) are not modelled. `MarkAsRead` finds a record by identity through
  the position this numbering gives it.
- Instants are whole ticks. `LocalDateTime` nanoseconds, time zones and
  `OffsetDateTime` offsets are not modelled.
- Floating point (review averages) and the thin CRUD services are outside the
  modelled core.
