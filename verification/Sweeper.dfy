// released_expired_holds of app/core/tasks.py: one candidate at a time, each in its own transaction.

module Sweeper {
  import opened Entities
  import opened Tally
  import opened Stripe
  import opened Payments

  /** What Stripe would answer while one candidate is handled. */
  datatype Answers = Answers(cancel: CancelReply, retrieves: bool, refunds: bool)

  predicate Expired(bk: Booking, threshold: Time) {
    bk.status.Pending? && bk.createdAt <= threshold
  }

  /** What the cancel call and, after a refusal, the retrieve call established. */
  datatype Verdict = IsCanceled | IsSucceeded | Unknown

  function Ask(s: State, i: nat, answers: Answers): (seq<Intent>, Verdict) {
    var (intents, reply) := CancelIntent(s.intents, i, answers.cancel);
    match reply
    case Done => (intents, IsCanceled)
    case Unreachable => (s.intents, Unknown)
    case Refused =>
      match Retrieve(s.intents, i, answers.retrieves)
      case Some(Voided) => (s.intents, IsCanceled)
      case Some(Captured) => (s.intents, IsSucceeded)
      case _ => (s.intents, Unknown)
  }

  /** Cancelled, and every listed seat AVAILABLE whatever it was. */
  function Release(s: State, b: nat): State
    requires b < |s.bookings|
  {
    PutBooking(s, b, s.bookings[b].(status := Cancelled))
      .(seats := Mark(s.seats, s.bookings[b].units, Available))
  }

  /** Refund first, then the audit row, then the release. */
  function RefundAndRelease(s: State, b: nat, i: nat, p: Payment): State
    requires b < |s.bookings|
  {
    var bk := s.bookings[b];
    var rows := if bk.cancellations == [] then [p.amount] else bk.cancellations;
    var settled := PutBooking(s, b, bk.(payment := Some(p.(status := PaymentCanceled)), cancellations := rows))
                     .(refunds := CreateRefund(s.refunds, AutoRefund(i), i, p.amount));
    Release(settled, b)
  }

  function SweepIntent(s: State, b: nat, i: nat, answers: Answers): State
    requires b < |s.bookings| && s.bookings[b].payment.Some?
  {
    var p := s.bookings[b].payment.value;
    var (intents, verdict) := Ask(s, i, answers);
    match verdict
    case Unknown => s
    case IsCanceled => Release(PutPayment(s.(intents := intents), b, p.(status := PaymentCanceled)), b)
    case IsSucceeded =>
      if Fits(s, b, true) then Confirm(s, b)
      else if !answers.refunds then s
      else RefundAndRelease(s, b, i, p)
  }

  /** One pass of the loop body: lock, recheck, ask Stripe, then confirm, refund, release or skip. */
  function SweepOne(s: State, b: nat, threshold: Time, answers: Answers): State {
    if b >= |s.bookings| || !Expired(s.bookings[b], threshold) then s
    else
      match s.bookings[b].payment
      case None => Release(s, b)
      case Some(p) =>
        if p.intent.FreeIntent? || p.status.PaymentCanceled? then Release(s, b)
        else if p.status.PaymentSucceeded? then s
        else SweepIntent(s, b, p.intent.id, answers)
  }

  /** Candidate ids: pending and at or past the threshold, in table order. */
  function Candidates(bookings: seq<Booking>, threshold: Time): seq<nat> {
    if bookings == [] then []
    else
      var last := |bookings| - 1;
      Candidates(bookings[..last], threshold) + (if Expired(bookings[last], threshold) then [last] else [])
  }
}
