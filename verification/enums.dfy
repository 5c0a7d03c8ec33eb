/** The status and method enumerations shared by bookings and payment transactions. */
module Enums {

  /** Lifecycle of a booking. */
  datatype BookingStatus = Pending | Confirmed | Cancelled | Completed | NoShow

  /** Payment state of a booking or of one payment transaction. */
  datatype PaymentStatus = Pending | Success | Failed | Refunded

  /** The only payment method the system knows. */
  datatype PaymentMethod = Razorpay
}
