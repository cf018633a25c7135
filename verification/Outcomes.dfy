// What each handler on a booking does, told from the rows, the answers of Stripe and the clock alone: for every
// consistent state the exact condition of each outcome, and the whole state it leaves.

module Outcomes {
  import opened Entities
  import opened Stripe
  import opened Reservations
  import opened Payments
  import opened Sweeper
  import opened Invariants
  import opened RowProofs
  import opened HandlerProofs
  import opened Counting

  // ---------------------------------------------------------------- what can become of a booking

  /** The listed seats now have this status; nothing else about seats changes. */
  predicate Reseated(seats: map<nat, Seat>, seats': map<nat, Seat>, units: seq<nat>, status: ItemStatus) {
    && seats'.Keys == seats.Keys
    && forall q :: q in seats ==> seats'[q] == if q in units then seats[q].(status := status) else seats[q]
  }

  /** Confirmed and paid, with its first invoice and its seats booked; nothing else changes. */
  predicate Sold(s: State, s': State, b: nat)
    requires b < |s.bookings| && s.bookings[b].payment.Some?
  {
    var bk := s.bookings[b];
    var p := bk.payment.value;
    && s' == s.(bookings := s.bookings[b := bk.(status := Confirmed,
                  payment := Some(p.(status := PaymentSucceeded, invoices := [Invoice(p.id, s.now)])))],
                seats := s'.seats)
    && Reseated(s.seats, s'.seats, bk.units, Booked)
  }

  /** Cancelled because there is no room: the whole price goes back under the intent's own key. */
  predicate Repaid(s: State, s': State, b: nat, i: nat)
    requires b < |s.bookings| && s.bookings[b].payment.Some?
  {
    var bk := s.bookings[b];
    && AutoRefund(i) !in s.refunds
    && s' == s.(bookings := s.bookings[b := bk.(status := Cancelled, cancellations := [bk.total],
                  payment := Some(bk.payment.value.(status := PaymentCanceled)))],
                refunds := s.refunds[AutoRefund(i) := Refund(i, bk.total)])
  }

  /** Cancelled, with every seat available again, this payment row and these cancellation rows. */
  predicate Given(s: State, s': State, b: nat, payment: Option<Payment>, rows: seq<nat>)
    requires b < |s.bookings|
  {
    var bk := s.bookings[b];
    && s' == s.(bookings := s.bookings[b := bk.(status := Cancelled, payment := payment, cancellations := rows)],
                seats := s'.seats)
    && Reseated(s.seats, s'.seats, bk.units, Available)
  }

  function Canceled(payment: Option<Payment>): Option<Payment> {
    if payment.Some? then Some(payment.value.(status := PaymentCanceled)) else None
  }

  /** Stripe's ledger with this intent canceled. */
  function Void(s: State, i: nat): State
    requires i < |s.intents|
  {
    s.(intents := s.intents[i := s.intents[i].(status := Voided)])
  }

  lemma ConfirmSells(s: State, b: nat)
    requires b < |s.bookings| && s.bookings[b].payment.Some? && s.bookings[b].payment.value.invoices == []
    ensures Sold(s, Confirm(s, b), b)
  {}

  lemma WithdrawGives(s: State, b: nat, p: Payment, amount: nat)
    requires b < |s.bookings| && s.bookings[b].cancellations == []
    ensures Given(s, Withdraw(s, b, amount), b, s.bookings[b].payment, [amount])
    ensures Given(s, Withdraw(PutPayment(s, b, p), b, amount), b, Some(p), [amount])
  {
    assert [] + [amount] == [amount];
  }

  lemma ReleaseGives(s: State, b: nat, p: Payment)
    requires b < |s.bookings| && s.bookings[b].cancellations == []
    ensures Given(s, Release(s, b), b, s.bookings[b].payment, [])
    ensures Given(s, Release(PutPayment(s, b, p), b), b, Some(p), [])
  {}

  lemma RefundRepays(s: State, b: nat, i: nat, p: Payment)
    requires b < |s.bookings| && s.bookings[b].payment == Some(p) && p.amount == s.bookings[b].total
    requires s.bookings[b].cancellations == [] && s.bookings[b].units == [] && AutoRefund(i) !in s.refunds
    ensures Repaid(s, RefundAndRelease(s, b, i, p), b, i)
  {
    assert Mark(s.seats, [], Available) == s.seats;
  }

  /** What a consistent platform says about a pending booking that tracks an intent. */
  lemma PendingRow(s: State, b: nat)
    requires Consistent(s) && b < |s.bookings| && s.bookings[b].status.Pending?
    ensures var bk := s.bookings[b];
            bk.cancellations == [] && bk.service in s.services && (bk.payment.Some? ==>
              var p := bk.payment.value;
              && p.invoices == [] && p.intent.StripeIntent? && p.amount == bk.total > 0 && !p.status.PaymentSucceeded?
              && p.intent.id < |s.intents| && s.intents[p.intent.id].booking == b
              && AutoRefund(p.intent.id) !in s.refunds && p.intent.id !in s.acked)
  {
    var bk := s.bookings[b];
    assert BookingSettles(b, bk, s.intents, s.refunds) && BookingAnchored(bk, s.services, s.seats);
    if bk.payment.Some? {
      var i := bk.payment.value.intent.id;
      assert i in s.acked ==> AckedFinal(i, s.bookings, s.intents, s.refunds);
    }
  }

  /** Seats are listed by bookings of seated events only. */
  lemma NoSeatsWithoutRoom(s: State, b: nat)
    requires b < |s.bookings| && !Room(s, b)
    ensures s.bookings[b].units == []
  {}

  // ---------------------------------------------------------------- POST /webhook/stripe

  lemma OwnTracks(s: State, i: nat, b: nat)
    requires Consistent(s) && b < |s.bookings| && i < |s.intents| && s.bookings[b].Tracks(i)
    ensures FindTracked(s.bookings, i) == Some(b)
  {
    FoundIsOwn(s, i);
    assert BookingSettles(b, s.bookings[b], s.intents, s.refunds);
  }

  /**
   * The money for a pending hold arrives: it is sold if there is room, else repaid, and left alone, to be
   * delivered again, if the refund fails.
   */
  lemma PaidHoldSettles(s: State, b: nat, i: nat, refunds: bool)
    requires Consistent(s) && b < |s.bookings| && s.bookings[b].status.Pending? && s.bookings[b].Tracks(i)
    requires i < |s.intents| && s.intents[i].status.Captured?
    ensures var (s', reply) := Deliver(s, i, SucceededEvent(refunds));
            if Room(s, b) then
              reply.Success? && s'.acked == s.acked + {i} && Sold(s, s'.(acked := s.acked), b)
            else if refunds then
              reply.Success? && s'.acked == s.acked + {i} && Repaid(s, s'.(acked := s.acked), b, i)
            else reply.ServerError? && s' == s
  {
    PendingRow(s, b);
    OwnTracks(s, i, b);
    FitsIsRoom(s, b, false);
    if Room(s, b) {
      ConfirmSells(s, b);
    } else {
      NoSeatsWithoutRoom(s, b);
      assert FreeReserved(s.seats, []) == s.seats;
    }
  }

  /** The event of a booking that is already confirmed, or counts as refunded, only sets the payment right. */
  lemma PaidAgainIsNoted(s: State, b: nat, i: nat, refunds: bool)
    requires Consistent(s) && b < |s.bookings| && s.bookings[b].Tracks(i)
    requires i < |s.intents| && s.intents[i].status.Captured?
    ensures var (s', reply) := Deliver(s, i, SucceededEvent(refunds));
            var bk := s.bookings[b];
            var p := bk.payment.value;
            && (bk.status.Confirmed? ==>
                  reply.AlreadyDone? && s' == s.(acked := s.acked + {i},
                    bookings := s.bookings[b := bk.(payment := Some(p.(status := PaymentSucceeded)))]))
            && (bk.status.Cancelled? && p.status.PaymentCanceled? && bk.cancellations != []
                && bk.cancellations[0] > 0 ==>
                  reply.AlreadyDone? && s' == s.(acked := s.acked + {i}))
  {
    OwnTracks(s, i, b);
    assert BookingSettles(b, s.bookings[b], s.intents, s.refunds);
    if s.bookings[b].status.Confirmed? && s.bookings[b].payment.value.status.PaymentSucceeded? {
      assert s.bookings[b := s.bookings[b].(payment := Some(s.bookings[b].payment.value))] == s.bookings;
    }
  }

  /** Money for a cancelled booking that counts as unrefunded goes back, once, and touches nobody's seats. */
  lemma PaidTooLateIsRepaid(s: State, b: nat, i: nat, refunds: bool)
    requires Consistent(s) && b < |s.bookings| && s.bookings[b].status.Cancelled? && s.bookings[b].Tracks(i)
    requires i < |s.intents| && s.intents[i].status.Captured?
    requires !(s.bookings[b].payment.value.status.PaymentCanceled? && RefundNoted(s.bookings[b]))
    ensures var (s', reply) := Deliver(s, i, SucceededEvent(refunds));
            var bk := s.bookings[b];
            if refunds then
              && reply.Success?
              && s' == s.(acked := s.acked + {i},
                   bookings := s.bookings[b := bk.(payment := Canceled(bk.payment),
                     cancellations := if bk.cancellations == [] then [bk.total] else bk.cancellations)],
                   refunds := s'.refunds)
              && s'.refunds == s.refunds[AutoRefund(i) := Refund(i, bk.total)]
            else reply.ServerError? && s' == s
  {
    OwnTracks(s, i, b);
    assert BookingSettles(b, s.bookings[b], s.intents, s.refunds);
    assert IntentPriced(s.intents[i], s.bookings);
    if AutoRefund(i) in s.refunds {
      assert RefundKeyed(AutoRefund(i), s.bookings, s.intents, s.refunds);
      assert s.refunds[AutoRefund(i) := Refund(i, s.bookings[b].total)] == s.refunds;
    }
  }

  /** Events without a booking of their own: acknowledged if the money is there, refused if it is not. */
  lemma StrayEvents(s: State, i: nat, refunds: bool)
    ensures !(i < |s.intents| && s.intents[i].status.Captured?) ==>
              Deliver(s, i, SucceededEvent(refunds)) == (s, BadRequest)
    ensures (forall b :: 0 <= b < |s.bookings| ==> !s.bookings[b].Tracks(i)) ==>
              && (i < |s.intents| && s.intents[i].status.Captured? ==>
                    Deliver(s, i, SucceededEvent(refunds)) == (s.(acked := s.acked + {i}), AlreadyDone))
              && Deliver(s, i, FailedEvent) == (s, AlreadyDone)
  {}

  /** A declined card marks the payment FAILED, unless it has succeeded or was canceled; the hold stays. */
  lemma DeclinedIsRecorded(s: State, b: nat, i: nat)
    requires Consistent(s) && b < |s.bookings| && s.bookings[b].Tracks(i) && i < |s.intents|
    ensures var p := s.bookings[b].payment.value;
            Deliver(s, i, FailedEvent) ==
              if p.status.PaymentSucceeded? || p.status.PaymentCanceled? then (s, AlreadyDone)
              else
                var bk := s.bookings[b].(payment := Some(p.(status := PaymentFailed)));
                (s.(bookings := s.bookings[b := bk]), Success)
  {
    OwnTracks(s, i, b);
  }

  // ---------------------------------------------------------------- POST /bookings/{id}/cancel

  /** Who may cancel what, and until when. */
  predicate MayCancel(s: State, user: nat, admin: bool, b: nat) {
    && user in s.users && s.users[user].active
    && b < |s.bookings| && !s.bookings[b].status.Cancelled?
    && (s.bookings[b].user == user || admin)
    && (s.bookings[b].service in s.services ==> s.now < s.services[s.bookings[b].service].startTime)
  }

  /**
   * Cancelling a hold always succeeds. Its intent is canceled on Stripe, and its payment row marked, if the row is
   * not marked yet and Stripe does it; otherwise both stay as they are.
   */
  lemma CancelledHold(s: State, user: nat, admin: bool, b: nat, reply: CancelReply, refunds: bool)
    requires Consistent(s) && MayCancel(s, user, admin, b) && s.bookings[b].status.Pending?
    ensures var (s', answer) := Cancel(s, user, admin, b, reply, refunds);
            var bk := s.bookings[b];
            && answer.Success?
            && if bk.payment.Some? && !bk.payment.value.status.PaymentCanceled? && reply.Done?
                  && bk.payment.value.intent.StripeIntent? && bk.payment.value.intent.id < |s.intents|
                  && !s.intents[bk.payment.value.intent.id].status.Captured?
               then Given(Void(s, bk.payment.value.intent.id), s', b, Canceled(bk.payment), [0])
               else Given(s, s', b, bk.payment, [0])
  {
    PendingRow(s, b);
    var bk := s.bookings[b];
    assert Cancel(s, user, admin, b, reply, refunds) == CancelPending(s, b, reply);
    if bk.payment.Some? {
      WithdrawnHold(s, b, bk.payment.value, reply);
    } else {
      WithdrawGives(s, b, Payment(0, FreeIntent, 0, Processing, []), 0);
    }
  }

  lemma WithdrawnHold(s: State, b: nat, p: Payment, reply: CancelReply)
    requires b < |s.bookings| && s.bookings[b].payment == Some(p) && s.bookings[b].cancellations == []
    requires p.intent.StripeIntent? && p.intent.id < |s.intents| && !p.status.PaymentSucceeded?
    ensures var (s', answer) := CancelPending(s, b, reply);
            && answer.Success?
            && if !p.status.PaymentCanceled? && reply.Done? && !s.intents[p.intent.id].status.Captured?
               then Given(Void(s, p.intent.id), s', b, Canceled(Some(p)), [0])
               else Given(s, s', b, Some(p), [0])
  {
    WithdrawGives(s, b, p, 0);
    WithdrawGives(Void(s, p.intent.id), b, p.(status := PaymentCanceled), 0);
  }

  /**
   * Cancelling a sale returns the money first and does nothing at all if that fails. A free booking, and one whose
   * payment is not SUCCEEDED, is cancelled without a refund.
   */
  lemma CancelledSale(s: State, user: nat, admin: bool, b: nat, reply: CancelReply, refunds: bool)
    requires Consistent(s) && MayCancel(s, user, admin, b) && s.bookings[b].status.Confirmed?
    ensures s.bookings[b].payment.Some?
    ensures var (s', answer) := Cancel(s, user, admin, b, reply, refunds);
            var bk := s.bookings[b];
            var p := bk.payment.value;
            if !p.status.PaymentSucceeded? then answer.Success? && Given(s, s', b, bk.payment, [0])
            else if p.intent.FreeIntent? then answer.Success? && Given(s, s', b, Canceled(bk.payment), [0])
            else if refunds && p.intent.id < |s.intents| && s.intents[p.intent.id].status.Captured? then
              && answer.Success? && RefundBooking(b) !in s.refunds
              && Given(s.(refunds := s.refunds[RefundBooking(b) := Refund(p.intent.id, bk.total)]), s', b,
                       Canceled(bk.payment), [bk.total])
            else answer.GatewayError? && s' == s
  {
    assert BookingSettles(b, s.bookings[b], s.intents, s.refunds);
    LiveIsUnrefunded(s.bookings, b, s.intents, s.refunds);
    var bk := s.bookings[b];
    var p := bk.payment.value.(status := PaymentCanceled);
    WithdrawGives(s, b, p, 0);
    if p.intent.StripeIntent? {
      WithdrawGives(s.(refunds := s.refunds[RefundBooking(b) := Refund(p.intent.id, bk.total)]), b, p, bk.total);
    }
  }

  lemma CancelRefused(s: State, user: nat, admin: bool, b: nat, reply: CancelReply, refunds: bool)
    requires !MayCancel(s, user, admin, b)
    ensures var (s', answer) := Cancel(s, user, admin, b, reply, refunds);
            && s' == s
            && answer == if !(user in s.users && s.users[user].active) then Unauthorized
                         else if b >= |s.bookings| then NotFound
                         else if s.bookings[b].user != user && !admin then Forbidden else BadRequest
  {}

  // ---------------------------------------------------------------- the hold sweeper

  /** Stripe neither canceled the intent nor said, after a refusal, that it is canceled or captured. */
  predicate NoVerdict(status: IntentStatus, answers: Answers) {
    && !(answers.cancel.Done? && !status.Captured?)
    && (answers.cancel.Unreachable? || !answers.retrieves || !(status.Voided? || status.Captured?))
  }

  /** A candidate without an intent to settle is released. */
  lemma SweptWithoutIntent(s: State, b: nat, threshold: Time, answers: Answers)
    requires Consistent(s) && b < |s.bookings| && s.bookings[b].status.Pending? && s.bookings[b].createdAt <= threshold
    requires s.bookings[b].payment.Some? ==> s.bookings[b].payment.value.status.PaymentCanceled?
    ensures Given(s, SweepOne(s, b, threshold, answers), b, s.bookings[b].payment, [])
  {
    PendingRow(s, b);
  }

  /**
   * A candidate with an open intent: canceled by this call, it is released; refused, it is released if the intent
   * is canceled already, sold or repaid if it was captured, and left alone in any other case.
   */
  lemma SweptWithIntent(s: State, b: nat, i: nat, threshold: Time, answers: Answers)
    requires Consistent(s) && b < |s.bookings| && s.bookings[b].status.Pending? && s.bookings[b].createdAt <= threshold
    requires s.bookings[b].Tracks(i) && !s.bookings[b].payment.value.status.PaymentCanceled?
    ensures i < |s.intents|
    ensures var s' := SweepOne(s, b, threshold, answers);
            var status := s.intents[i].status;
            if answers.cancel.Done? && !status.Captured? then
              Given(Void(s, i), s', b, Canceled(s.bookings[b].payment), [])
            else if NoVerdict(status, answers) then s' == s
            else if status.Voided? then Given(s, s', b, Canceled(s.bookings[b].payment), [])
            else if Room(s, b) then Sold(s, s', b)
            else if answers.refunds then Repaid(s, s', b, i)
            else s' == s
  {
    PendingRow(s, b);
    if s.intents[i].status.Captured? {
      SweptAfterCapture(s, b, i, threshold, answers);
    } else {
      var p := s.bookings[b].payment.value.(status := PaymentCanceled);
      ReleaseGives(s, b, p);
      ReleaseGives(Void(s, i), b, p);
    }
  }

  lemma SweptAfterCapture(s: State, b: nat, i: nat, threshold: Time, answers: Answers)
    requires Consistent(s) && b < |s.bookings| && s.bookings[b].status.Pending? && s.bookings[b].createdAt <= threshold
    requires s.bookings[b].Tracks(i) && !s.bookings[b].payment.value.status.PaymentCanceled?
    requires i < |s.intents| && s.intents[i].status.Captured?
    ensures var s' := SweepOne(s, b, threshold, answers);
            if answers.cancel.Unreachable? || !answers.retrieves then s' == s
            else if Room(s, b) then Sold(s, s', b)
            else if answers.refunds then Repaid(s, s', b, i)
            else s' == s
  {
    PendingRow(s, b);
    FitsIsRoom(s, b, true);
    if Room(s, b) {
      ConfirmSells(s, b);
    } else {
      NoSeatsWithoutRoom(s, b);
      RefundRepays(s, b, i, s.bookings[b].payment.value);
    }
  }

  /** A booking that is no longer pending, or not old enough, is left alone. */
  lemma NotSwept(s: State, b: nat, threshold: Time, answers: Answers)
    requires b < |s.bookings| ==> !s.bookings[b].status.Pending? || s.bookings[b].createdAt > threshold
    ensures SweepOne(s, b, threshold, answers) == s
  {}
}
