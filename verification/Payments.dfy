// The settlement handlers of app/routers/payments.py, as functions of the committed state.

module Payments {
  import opened Entities
  import opened Tally
  import opened Stripe

  // ---------------------------------------------------------------- row updates

  function PutBooking(s: State, b: nat, bk: Booking): State
    requires b < |s.bookings|
  {
    s.(bookings := s.bookings[b := bk])
  }

  function PutPayment(s: State, b: nat, p: Payment): State
    requires b < |s.bookings|
  {
    PutBooking(s, b, s.bookings[b].(payment := Some(p)))
  }

  /** confirm_booking_and_invoice */
  function Confirm(s: State, b: nat): State
    requires b < |s.bookings| && s.bookings[b].payment.Some?
  {
    var bk := s.bookings[b];
    var p := bk.payment.value;
    var invoices := if p.invoices == [] then [Invoice(p.id, s.now)] else p.invoices;
    PutBooking(s, b, bk.(status := Confirmed,
                         payment := Some(p.(status := PaymentSucceeded, invoices := invoices))))
      .(seats := Mark(s.seats, bk.units, Booked))
  }

  /** The inventory check made under locks before a late confirmation. */
  predicate Fits(s: State, b: nat, emptyFits: bool)
    requires b < |s.bookings|
  {
    var bk := s.bookings[b];
    if bk.service !in s.services then false
    else if s.services[bk.service].mode.UnitAssigned? then
      (bk.units != [] || emptyFits)
      && forall k :: 0 <= k < |bk.units| ==> bk.units[k] in s.seats && s.seats[bk.units[k]].status.Reserved?
    else
      // A slot_capacity service always has a capacity (Anchored), so None is never met here.
      s.services[bk.service].maxCapacity.Some?
      && Sum(Claims(bk.service, s.now, Some(b)), s.bookings) <= s.services[bk.service].maxCapacity.value
  }

  /** The first payment row that tracks the intent. */
  function FindTracked(bookings: seq<Booking>, i: nat): (r: Option<nat>) {
    FindFrom(bookings, i, 0)
  }

  function FindFrom(bookings: seq<Booking>, i: nat, k: nat): (r: Option<nat>)
    ensures r.Some? ==> k <= r.value < |bookings| && bookings[r.value].Tracks(i)
    ensures r.None? ==> forall b :: k <= b < |bookings| ==> !bookings[b].Tracks(i)
    decreases |bookings| - k
  {
    if k >= |bookings| then None
    else if bookings[k].Tracks(i) then Some(k)
    else FindFrom(bookings, i, k + 1)
  }

  // ---------------------------------------------------------------- POST /bookings/{id}/pay

  /** Steps 6 to 9: a free booking confirms at once, any other gets a fresh intent. */
  function OpenIntent(s: State, b: nat, creates: bool): (State, Reply)
    requires b < |s.bookings|
  {
    var bk := s.bookings[b];
    if bk.total == 0 then
      if bk.payment.Some? then (Confirm(PutPayment(s, b, bk.payment.value.(amount := 0)), b), Success)
      else
        var p := Payment(s.nextPayment, FreeIntent, 0, RequiresPaymentMethod, []);
        (Confirm(PutPayment(s, b, p).(nextPayment := s.nextPayment + 1), b), Success)
    else if !creates then (s, GatewayError)
    else
      var i := |s.intents|;
      var charged := s.(intents := s.intents + [Intent(b, bk.total, NeedsMethod)]);
      if bk.payment.Some? then
        (PutPayment(charged, b, bk.payment.value.(intent := StripeIntent(i), amount := bk.total,
                                                 status := RequiresPaymentMethod)), Success)
      else
        var p := Payment(s.nextPayment, StripeIntent(i), bk.total, RequiresPaymentMethod, []);
        (PutPayment(charged, b, p).(nextPayment := s.nextPayment + 1), Success)
  }

  /**
   * Stripe says the tracked intent is canceled: the row is marked and committed, which drops the booking's
   * lock. The request then goes on to open a new intent, in a transaction of its own.
   */
  function VoidAndCommit(s: State, b: nat, p: Payment): (State, Reply)
    requires b < |s.bookings|
  {
    (PutPayment(s, b, p.(status := PaymentCanceled)).(resuming := s.resuming + multiset{b}), Unanswered)
  }

  /** The rest of such a request, on whatever the tables say by then: nothing is locked or checked again. */
  function Resume(s: State, b: nat, creates: bool): (State, Reply) {
    if b !in s.resuming || b >= |s.bookings| then (s, NotFound)
    else OpenIntent(s.(resuming := s.resuming - multiset{b}), b, creates)
  }

  /** Step 5 for an open payment: reconcile with what Stripe says. */
  function ReconcileOpen(s: State, b: nat, p: Payment, retrieves: bool): (State, Reply)
    requires b < |s.bookings| && s.bookings[b].payment == Some(p)
  {
    if p.intent.FreeIntent? then (s, Success)
    else
      match Retrieve(s.intents, p.intent.id, retrieves)
      case None => (s, Success)
      case Some(Captured) => (Confirm(s, b), Success)
      case Some(Voided) => VoidAndCommit(s, b, p)
      case Some(_) => (s, Success)
  }

  /** Step 5 for a failed payment. An exception, or a status the branch does not list, falls through. */
  function ReconcileFailed(s: State, b: nat, p: Payment, retrieves: bool, creates: bool): (State, Reply)
    requires b < |s.bookings| && s.bookings[b].payment == Some(p)
  {
    if p.intent.FreeIntent? then OpenIntent(s, b, creates)
    else
      match Retrieve(s.intents, p.intent.id, retrieves)
      case None => OpenIntent(s, b, creates)
      case Some(InProcess) => OpenIntent(s, b, creates)
      case Some(Captured) => (Confirm(s, b), Success)
      case Some(Voided) => VoidAndCommit(s, b, p)
      case Some(_) => (PutPayment(s, b, p.(status := RequiresPaymentMethod)), Success)
  }

  /** The hold's time to live as the pay handler tests it. */
  predicate Payable(bk: Booking, now: Time) {
    bk.status.Pending? && now <= bk.createdAt + HOLD
  }

  function Pay(s: State, user: nat, b: nat, retrieves: bool, creates: bool): (State, Reply) {
    if !Acts(s, user) then (s, Unauthorized)
    else if b >= |s.bookings| then (s, NotFound)
    else
      var bk := s.bookings[b];
      if bk.user != user then (s, Forbidden)
      else if !Payable(bk, s.now) then (s, BadRequest)
      else
        match bk.payment
        case None => OpenIntent(s, b, creates)
        case Some(p) =>
          match p.status
          case PaymentSucceeded => (s, BadRequest)
          case PaymentFailed => ReconcileFailed(s, b, p, retrieves, creates)
          case PaymentCanceled => OpenIntent(s, b, creates)
          case _ => ReconcileOpen(s, b, p, retrieves)
  }

  // ---------------------------------------------------------------- requests that land inside a transaction

  /**
   * From `s` to `t` a transaction that has the booking's lock wrote the payment row it had read, and `k` requests
   * were going on meanwhile. They take no lock, so they can commit between its read and its write.
   */
  predicate Splits(s: State, t: State, b: nat, k: nat) {
    && k >= 1 && s.resuming[b] >= k && t.resuming[b] >= k
    && b < |s.bookings| && b < |t.bookings|
    && s.bookings[b].payment.Some? && t.bookings[b].payment.Some?
    && var p, q := s.bookings[b].payment.value, t.bookings[b].payment.value;
       q.intent != p.intent || q.status != p.status
  }

  /** The transaction opened an intent of its own: it wrote every column the requests wrote. */
  predicate Opened(s: State, t: State, b: nat)
    requires b < |s.bookings| && b < |t.bookings|
    requires s.bookings[b].payment.Some? && t.bookings[b].payment.Some?
  {
    t.bookings[b].payment.value.intent != s.bookings[b].payment.value.intent
  }

  /**
   * What is left when `k` requests, each with an intent that Stripe created, landed inside: their columns where the
   * transaction wrote none, and its columns, which it wrote last, where it did.
   */
  function Land(s: State, t: State, b: nat, k: nat): State
    requires Splits(s, t, b, k)
  {
    var bk := t.bookings[b];
    var created := t.(intents := t.intents + seq(k, _ => Intent(b, bk.total, NeedsMethod)),
                      resuming := t.resuming[b := t.resuming[b] - k]);
    if Opened(s, t, b) then created
    else PutPayment(created, b, bk.payment.value.(intent := StripeIntent(|t.intents| + k - 1), amount := bk.total))
  }

  // ---------------------------------------------------------------- POST /webhook/stripe

  function Acknowledge(s: State, i: nat): State {
    s.(acked := s.acked + {i})
  }

  /** Refund under `auto_refund_<intent>` and cancel; seats still reserved for a pending booking are freed. */
  function AutoRefundAndCancel(s: State, b: nat, i: nat): State
    requires b < |s.bookings| && s.bookings[b].payment.Some?
  {
    var bk := s.bookings[b];
    var p := bk.payment.value;
    var rows := if bk.cancellations == [] then [p.amount] else bk.cancellations;
    PutBooking(s, b, bk.(status := Cancelled,
                         payment := Some(p.(status := PaymentCanceled)),
                         cancellations := rows))
      .(refunds := CreateRefund(s.refunds, AutoRefund(i), i, p.amount),
        seats := if bk.status.Pending? then FreeReserved(s.seats, bk.units) else s.seats)
  }

  /** Only a unit that is still RESERVED goes back to AVAILABLE. */
  function FreeReserved(seats: map<nat, Seat>, units: seq<nat>): map<nat, Seat> {
    map q | q in seats ::
      if q in units && seats[q].status.Reserved? then seats[q].(status := Available) else seats[q]
  }

  /** payment_intent.succeeded for a captured intent; any 200 answer is an acknowledgement. */
  function Succeeded(s: State, i: nat, refunds: bool): (State, Reply) {
    match FindTracked(s.bookings, i)
    case None => (Acknowledge(s, i), AlreadyDone)
    case Some(b) =>
      var bk := s.bookings[b];
      var p := bk.payment.value;
      if bk.status.Confirmed? then
        (Acknowledge(if p.status.PaymentSucceeded? then s
                     else PutPayment(s, b, p.(status := PaymentSucceeded)), i), AlreadyDone)
      else if p.status.PaymentSucceeded? then (Acknowledge(s, i), AlreadyDone)
      else if p.status.PaymentCanceled? && bk.cancellations != [] && bk.cancellations[0] > 0 then
        (Acknowledge(s, i), AlreadyDone)
      else if bk.status.Pending? && Fits(s, b, false) then (Acknowledge(Confirm(s, b), i), Success)
      else if !refunds then (s, ServerError)
      else (Acknowledge(AutoRefundAndCancel(s, b, i), i), Success)
  }

  /** payment_intent.payment_failed */
  function Failed(s: State, i: nat): (State, Reply) {
    match FindTracked(s.bookings, i)
    case None => (s, AlreadyDone)
    case Some(b) =>
      var p := s.bookings[b].payment.value;
      if p.status.PaymentSucceeded? || p.status.PaymentCanceled? then (s, AlreadyDone)
      else (PutPayment(s, b, p.(status := PaymentFailed)), Success)
  }

  /** A succeeded event exists only for a captured intent. */
  datatype Event = SucceededEvent(refunds: bool) | FailedEvent

  function Deliver(s: State, i: nat, e: Event): (State, Reply) {
    match e
    case FailedEvent => Failed(s, i)
    case SucceededEvent(refunds) =>
      if i < |s.intents| && s.intents[i].status.Captured? then Succeeded(s, i, refunds) else (s, BadRequest)
  }

  // ---------------------------------------------------------------- POST /bookings/{id}/cancel

  /** Status, seats and the audit row, after the money part. */
  function Withdraw(s: State, b: nat, refunded: nat): State
    requires b < |s.bookings|
  {
    var bk := s.bookings[b];
    PutBooking(s, b, bk.(status := Cancelled, cancellations := bk.cancellations + [refunded]))
      .(seats := Mark(s.seats, bk.units, Available))
  }

  function CancelConfirmed(s: State, b: nat, refunds: bool): (State, Reply)
    requires b < |s.bookings|
  {
    var bk := s.bookings[b];
    if bk.payment.None? || !bk.payment.value.status.PaymentSucceeded? then (Withdraw(s, b, 0), Success)
    else
      var p := bk.payment.value;
      if p.amount > 0 && p.intent.StripeIntent? then
        if !RefundAccepted(s.intents, p.intent.id, refunds) then (s, GatewayError)
        else
          var paidBack := s.(refunds := CreateRefund(s.refunds, RefundBooking(b), p.intent.id, p.amount));
          (Withdraw(PutPayment(paidBack, b, p.(status := PaymentCanceled)), b, p.amount), Success)
      else (Withdraw(PutPayment(s, b, p.(status := PaymentCanceled)), b, p.amount), Success)
  }

  function CancelPending(s: State, b: nat, reply: CancelReply): (State, Reply)
    requires b < |s.bookings|
  {
    var bk := s.bookings[b];
    if bk.payment.Some? && bk.payment.value.intent.StripeIntent?
       && !bk.payment.value.status.PaymentCanceled? && !bk.payment.value.status.PaymentSucceeded? then
      var p := bk.payment.value;
      var (intents, answer) := CancelIntent(s.intents, p.intent.id, reply);
      if answer.Done? then
        (Withdraw(PutPayment(s.(intents := intents), b, p.(status := PaymentCanceled)), b, 0), Success)
      else (Withdraw(s, b, 0), Success)
    else (Withdraw(s, b, 0), Success)
  }

  function Cancel(s: State, user: nat, admin: bool, b: nat, reply: CancelReply, refunds: bool): (State, Reply) {
    if !Acts(s, user) then (s, Unauthorized)
    else if b >= |s.bookings| then (s, NotFound)
    else
      var bk := s.bookings[b];
      if bk.user != user && !admin then (s, Forbidden)
      else if bk.status.Cancelled? then (s, BadRequest)
      else if bk.service in s.services && s.now >= s.services[bk.service].startTime then (s, BadRequest)
      else if bk.status.Confirmed? then CancelConfirmed(s, b, refunds)
      else CancelPending(s, b, reply)
  }
}
