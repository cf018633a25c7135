// The rows of app/database/model.py, the Stripe side of a payment, and the whole platform state.
//
// Booking, service and seat rows are values held in the tables of `State`. A booking row carries the
// rows that hang off it by a unique foreign key: its payment, the invoices of that payment and its
// cancellations. The last two are sequences, so that inserting a second row stays visible.

module Entities {

  datatype Option<+T> = None | Some(value: T)

  /** Microseconds, the resolution of a PostgreSQL timestamp. */
  type Time = int

  /** HOLD_DURATION_MINUTES, ten minutes. */
  const HOLD: Time := 10 * 60 * 1_000_000
  const MAX_TICKETS_PER_BOOKING := 10
  const MAX_PENDING_HOLDS_PER_USER := 5

  datatype User = User(active: bool, seller: bool)

  datatype BookingMode = SlotCapacity | UnitAssigned

  datatype Service = Service(
    seller: nat,
    location: nat,
    mode: BookingMode,
    maxCapacity: Option<int>,
    basePrice: nat,
    tiers: map<nat, nat>,  // tier id to price in cents
    startTime: Time,
    endTime: Time,
    active: bool)

  datatype ItemStatus = Available | Reserved | Booked | Maintenance

  datatype Seat = Seat(service: nat, tier: nat, code: string, status: ItemStatus)

  datatype BookingStatus = Pending | Confirmed | Cancelled

  datatype PaymentStatus =
    | RequiresPaymentMethod
    | RequiresConfirmation
    | Processing
    | PaymentSucceeded
    | PaymentFailed
    | PaymentCanceled

  /** stripe_payment_intent_id: a Stripe intent, or the `free_booking_` placeholder. */
  datatype IntentRef = FreeIntent | StripeIntent(id: nat)

  datatype Invoice = Invoice(paymentId: nat, issuedAt: Time)

  datatype Payment = Payment(id: nat, intent: IntentRef, amount: nat, status: PaymentStatus, invoices: seq<Invoice>)

  datatype Booking = Booking(
    user: nat,
    service: nat,
    tier: Option<nat>,
    quantity: nat,
    total: nat,  // total_amount snapshot, in cents
    status: BookingStatus,
    createdAt: Time,
    units: seq<nat>,
    payment: Option<Payment>,
    cancellations: seq<nat>)  // refund_amount of each cancellation row
  {
    predicate Live() { status.Pending? || status.Confirmed? }

    predicate Tracks(i: nat) { payment.Some? && payment.value.intent == StripeIntent(i) }
  }

  /** Status of an intent on Stripe. Captured is `succeeded`, Voided is `canceled`. */
  datatype IntentStatus = NeedsMethod | NeedsConfirmation | NeedsAction | InProcess | Captured | Voided

  datatype Intent = Intent(booking: nat, amount: nat, status: IntentStatus)

  /** Idempotency keys of refunds: `refund_booking_<b>` and `auto_refund_<intent>`. */
  datatype RefundKey = RefundBooking(booking: nat) | AutoRefund(intent: nat)

  datatype Refund = Refund(intent: nat, amount: nat)

  type Refunds = map<RefundKey, Refund>

  datatype State = State(
    users: map<nat, User>,
    locations: map<nat, nat>,  // location id to the seller who owns it
    services: map<nat, Service>,
    seats: map<nat, Seat>,
    bookings: seq<Booking>,  // the booking id is the index: rows are never deleted
    intents: seq<Intent>,    // everything ever opened on Stripe
    refunds: Refunds,        // everything Stripe has refunded
    acked: set<nat>,         // intents whose succeeded event was answered with 200
    resuming: multiset<nat>, // pay requests between their two commits, by booking
    nextPayment: nat,
    now: Time)

  const INITIAL := State(map[], map[], map[], map[], [], [], map[], {}, multiset{}, 0, 0)

  /** HTTP status family of an answer. */
  datatype Reply =
    | Success
    | AlreadyDone         // 200 without any effect
    | Unanswered          // the request goes on after a commit
    | BadRequest          // 400
    | Unauthorized        // 401
    | Forbidden           // 403
    | NotFound            // 404
    | Conflict            // 409
    | ServerError         // 500
    | GatewayError        // 502

  predicate Acts(s: State, user: nat) {
    user in s.users && s.users[user].active
  }

  predicate HasBookings(bookings: seq<Booking>, service: nat) {
    exists b :: 0 <= b < |bookings| && bookings[b].service == service
  }

  predicate HasLiveBookings(bookings: seq<Booking>, service: nat) {
    exists b :: 0 <= b < |bookings| && bookings[b].service == service && bookings[b].Live()
  }

  /** The seat table after `unit.status = status` for every listed unit. */
  function Mark(seats: map<nat, Seat>, units: seq<nat>, status: ItemStatus): map<nat, Seat> {
    map q | q in seats :: if q in units then seats[q].(status := status) else seats[q]
  }

  predicate Distinct(xs: seq<nat>) {
    forall j, k :: 0 <= j < k < |xs| ==> xs[j] != xs[k]
  }
}
