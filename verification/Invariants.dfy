// What every committed state satisfies, as four independent predicates over parts of the state:
// bookings stay anchored to their service and user, seats match the bookings that list them,
// capacity bounds the claims on it, and payments agree with Stripe's ledger.

module Invariants {
  import opened Entities
  import opened Tally

  // ---------------------------------------------------------------- anchoring

  /** Facts about one booking's service that no handler may break, whatever the booking's status. */
  predicate BookingAnchored(bk: Booking, services: map<nat, Service>, seats: map<nat, Seat>) {
    && bk.service in services
    && bk.quantity >= 1
    && Distinct(bk.units)
    && (services[bk.service].mode.UnitAssigned? <==> bk.units != [])
    && (forall k :: 0 <= k < |bk.units| ==> bk.units[k] in seats && seats[bk.units[k]].service == bk.service)
  }

  predicate LiveAnchored(bk: Booking, services: map<nat, Service>, users: map<nat, User>) {
    bk.Live() ==>
      && bk.service in services && services[bk.service].active
      && bk.user in users && users[bk.user].active
  }

  predicate ServiceAnchored(service: Service) {
    service.mode.SlotCapacity? ==> service.maxCapacity.Some? && service.maxCapacity.value >= 1
  }

  ghost predicate Anchored(bookings: seq<Booking>, services: map<nat, Service>, seats: map<nat, Seat>,
                           users: map<nat, User>) {
    && (forall b :: 0 <= b < |bookings| ==> BookingAnchored(bookings[b], services, seats))
    && (forall b :: 0 <= b < |bookings| ==> LiveAnchored(bookings[b], services, users))
    && (forall id :: id in services ==> ServiceAnchored(services[id]))
    && (forall q :: q in seats ==> seats[q].service in services && services[seats[q].service].mode.UnitAssigned?)
  }

  // ---------------------------------------------------------------- seats

  predicate Lists(bookings: seq<Booking>, b: nat, q: nat) {
    b < |bookings| && bookings[b].Live() && q in bookings[b].units
  }

  /** The status a seat has while a booking of this status lists it. */
  function SeatStatus(status: BookingStatus): ItemStatus {
    match status
    case Pending => Reserved
    case Confirmed => Booked
    case Cancelled => Available
  }

  ghost predicate SeatsOwned(bookings: seq<Booking>, seats: map<nat, Seat>) {
    // a seat listed by a live booking exists and has that booking's status
    && (forall b: nat, q: nat :: Lists(bookings, b, q) ==>
        q in seats && seats[q].status == SeatStatus(bookings[b].status))
    // no two live bookings list the same seat
    && (forall b: nat, c: nat, q: nat :: Lists(bookings, b, q) && Lists(bookings, c, q) ==> b == c)
    // a reserved or booked seat is listed by someone
    && (forall q :: q in seats && !seats[q].status.Available? ==> exists b: nat :: Lists(bookings, b, q))
  }

  // ---------------------------------------------------------------- capacity

  predicate WithinCapacity(bookings: seq<Booking>, id: nat, service: Service, now: Time) {
    service.mode.SlotCapacity? && service.maxCapacity.Some? ==>
      Sum(Claims(id, now, None), bookings) <= service.maxCapacity.value
  }

  ghost predicate NeverOversold(bookings: seq<Booking>, services: map<nat, Service>, now: Time) {
    forall id :: id in services ==> WithinCapacity(bookings, id, services[id], now)
  }

  ghost predicate HoldsLimited(bookings: seq<Booking>, now: Time) {
    forall user: nat :: Sum(Holds(user, now), bookings) <= MAX_PENDING_HOLDS_PER_USER
  }

  // ---------------------------------------------------------------- money

  /** A booking without a payment: never confirmed, never refunded. */
  predicate UnpaidOk(bk: Booking) {
    && !bk.status.Confirmed?
    && (bk.status.Pending? ==> bk.cancellations == [])
    && (bk.cancellations == [] || bk.cancellations == [0])
  }

  /** Row coupling of a booking and its payment, Stripe aside. */
  predicate RowsCoupled(bk: Booking, p: Payment) {
    && p.amount == bk.total
    && (p.intent.FreeIntent? <==> bk.total == 0)
    && (p.status.PaymentSucceeded? ==> bk.status.Confirmed?)
    && |p.invoices| <= 1
    && |bk.cancellations| <= 1
    && (p.invoices != [] ==> p.invoices[0].paymentId == p.id)
    && (bk.status.Pending? ==> p.invoices == [] && bk.cancellations == [] && p.intent.StripeIntent?)
    && (bk.status.Confirmed? ==> |p.invoices| == 1 && bk.cancellations == [] && !p.status.PaymentCanceled?)
    && (p.intent.FreeIntent? ==> p.status == if bk.status.Confirmed? then PaymentSucceeded else PaymentCanceled)
  }

  predicate RefundedAuto(refunds: Refunds, i: nat) { AutoRefund(i) in refunds }

  /** The booking's own key returned this intent, not one its payment row tracked at another time. */
  predicate RefundedByHand(refunds: Refunds, b: nat, i: nat) {
    RefundBooking(b) in refunds && refunds[RefundBooking(b)].intent == i
  }

  predicate Returned(refunds: Refunds, b: nat, i: nat) { RefundedAuto(refunds, i) || RefundedByHand(refunds, b, i) }

  /** A booking's payment against the intent it tracks and the refunds of that intent. */
  predicate IntentCoupled(b: nat, bk: Booking, p: Payment, i: nat, intent: Intent, refunds: Refunds) {
    && intent.booking == b
    && (RefundedAuto(refunds, i) ==> p.status.PaymentCanceled? && bk.cancellations != [])
    && (RefundedByHand(refunds, b, i) ==> p.status.PaymentCanceled? && bk.cancellations == [bk.total])
  }

  predicate BookingSettles(b: nat, bk: Booking, intents: seq<Intent>, refunds: Refunds) {
    match bk.payment
    case None => UnpaidOk(bk)
    case Some(p) =>
      && RowsCoupled(bk, p)
      && (match p.intent
          case FreeIntent => true
          case StripeIntent(i) => i < |intents| && IntentCoupled(b, bk, p, i, intents[i], refunds))
  }

  /** Every intent was opened for a paid-for booking at exactly its snapshot price. */
  predicate IntentPriced(intent: Intent, bookings: seq<Booking>) {
    && intent.booking < |bookings|
    && intent.amount == bookings[intent.booking].total > 0
    && bookings[intent.booking].payment.Some?
  }

  predicate Tracked(bookings: seq<Booking>, intents: seq<Intent>, i: nat) {
    i < |intents| && intents[i].booking < |bookings| && bookings[intents[i].booking].Tracks(i)
  }

  /** A refund returns exactly what one captured intent of a cancelled booking took, under one key. */
  predicate RefundKeyed(k: RefundKey, bookings: seq<Booking>, intents: seq<Intent>, refunds: Refunds)
    requires k in refunds
  {
    var refund := refunds[k];
    && refund.intent < |intents|
    && var intent := intents[refund.intent];
       && intent.status.Captured?
       && refund.amount == intent.amount
       && intent.booking < |bookings|
       && bookings[intent.booking].status.Cancelled?
       && (match k
           case AutoRefund(i) => i == refund.intent
           case RefundBooking(b) => b == intent.booking && !RefundedAuto(refunds, refund.intent))
  }

  /** The booking has a cancellation row that says money went back. */
  predicate RefundNoted(bk: Booking) {
    bk.cancellations != [] && bk.cancellations[0] > 0
  }

  /** No event of the tracked intent has anything left to do: the booking kept the money, or counts as refunded. */
  predicate RowFinal(b: nat, bk: Booking, i: nat, refunds: Refunds) {
    bk.payment.Some? &&
    if bk.status.Confirmed? then bk.payment.value.status.PaymentSucceeded?
    else
      && bk.status.Cancelled? && bk.payment.value.status.PaymentCanceled?
      && (Returned(refunds, b, i) || RefundNoted(bk))
  }

  /** An acknowledged intent is captured, and final if its booking's payment row tracks it at all. */
  predicate AckedFinal(i: nat, bookings: seq<Booking>, intents: seq<Intent>, refunds: Refunds) {
    && i < |intents|
    && intents[i].status.Captured?
    && intents[i].booking < |bookings|
    && (Tracked(bookings, intents, i) ==> RowFinal(intents[i].booking, bookings[intents[i].booking], i, refunds))
  }

  ghost predicate Settling(bookings: seq<Booking>, intents: seq<Intent>, refunds: Refunds, acked: set<nat>) {
    && (forall b :: 0 <= b < |bookings| ==> BookingSettles(b, bookings[b], intents, refunds))
    && (forall i :: 0 <= i < |intents| ==> IntentPriced(intents[i], bookings))
    && (forall k :: k in refunds ==> RefundKeyed(k, bookings, intents, refunds))
    && (forall i :: i in acked ==> AckedFinal(i, bookings, intents, refunds))
  }

  /** A pay request goes on only for a booking with a price and a payment row. */
  predicate Resumable(bookings: seq<Booking>, b: nat) {
    b < |bookings| && bookings[b].payment.Some? && bookings[b].total > 0
  }

  ghost predicate AllResumable(bookings: seq<Booking>, resuming: multiset<nat>) {
    forall b :: b in resuming ==> Resumable(bookings, b)
  }

  predicate PaymentNumbered(bookings: seq<Booking>, b: nat, next: nat) {
    b < |bookings| && bookings[b].payment.Some? ==> bookings[b].payment.value.id < next
  }

  ghost predicate PaymentsNumbered(bookings: seq<Booking>, next: nat) {
    && (forall b :: 0 <= b < |bookings| ==> PaymentNumbered(bookings, b, next))
    && (forall b, c :: 0 <= b < c < |bookings| && bookings[b].payment.Some? && bookings[c].payment.Some?
          ==> bookings[b].payment.value.id != bookings[c].payment.value.id)
  }

  // ---------------------------------------------------------------- together

  ghost predicate Consistent(s: State) {
    && Anchored(s.bookings, s.services, s.seats, s.users)
    && SeatsOwned(s.bookings, s.seats)
    && NeverOversold(s.bookings, s.services, s.now)
    && HoldsLimited(s.bookings, s.now)
    && Settling(s.bookings, s.intents, s.refunds, s.acked)
    && PaymentsNumbered(s.bookings, s.nextPayment)
    && AllResumable(s.bookings, s.resuming)
  }
}
