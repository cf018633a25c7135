// What a payment row's status promises about its booking and its intent, and exactly which steps break the
// promise: requests that go on after their first commit, and requests that land inside a transaction.

module Coupling {
  import opened Entities
  import opened Stripe
  import opened Reservations
  import opened Payments
  import opened Sweeper
  import opened Invariants
  import opened RowProofs
  import opened HandlerProofs
  import opened Runs
  import opened Stranding

  /** A confirmed booking's payment says so. */
  predicate Coupled(bk: Booking) {
    bk.status.Confirmed? ==> bk.payment.Some? && bk.payment.value.status.PaymentSucceeded?
  }

  /** Released by the sweeper: cancelled without a cancellation row. */
  predicate Swept(bk: Booking) { bk.status.Cancelled? && bk.cancellations == [] }

  /** Marked CANCELED by a pay request. */
  predicate Marked(bk: Booking) {
    bk.status.Pending? && bk.payment.Some? && bk.payment.value.status.PaymentCanceled?
  }

  /** The code counts on the intent being void, and it is. */
  predicate MarkedVoid(bk: Booking, intents: seq<Intent>) {
    (Marked(bk) || Swept(bk)) && bk.payment.Some? && bk.payment.value.intent.StripeIntent? ==>
      bk.payment.value.intent.id < |intents| && intents[bk.payment.value.intent.id].status.Voided?
  }

  /** SUCCEEDED means that the tracked intent took the money, a noted refund that it gave it back. */
  predicate Backed(b: nat, bk: Booking, intents: seq<Intent>, refunds: Refunds) {
    bk.payment.Some? && bk.payment.value.intent.StripeIntent? ==>
      var p := bk.payment.value;
      && (p.status.PaymentSucceeded? ==> p.intent.id < |intents| && intents[p.intent.id].status.Captured?)
      && (p.status.PaymentCanceled? && RefundNoted(bk) ==> Returned(refunds, b, p.intent.id))
  }

  /** A paid booking whose intent took the money stays confirmed, or that money is returned. */
  predicate PaidStays(b: nat, bk: Booking, bk': Booking, intents: seq<Intent>, refunds: Refunds) {
    && bk.status.Confirmed? && bk.payment.Some? && bk.payment.value.status.PaymentSucceeded?
    && bk.payment.value.intent.StripeIntent? && bk.payment.value.intent.id < |intents|
    && intents[bk.payment.value.intent.id].status.Captured?
    ==> bk'.status.Confirmed? || RefundedByHand(refunds, b, bk.payment.value.intent.id)
  }

  ghost predicate AllCoupled(s: State) {
    forall b :: 0 <= b < |s.bookings| ==> Coupled(s.bookings[b])
  }

  ghost predicate AllMarkedVoid(s: State) {
    forall b :: 0 <= b < |s.bookings| ==> MarkedVoid(s.bookings[b], s.intents)
  }

  ghost predicate AllBacked(s: State) {
    forall b :: 0 <= b < |s.bookings| ==> Backed(b, s.bookings[b], s.intents, s.refunds)
  }

  // ---------------------------------------------------------------- the steps that break them

  /** A pay request goes on, and creates its intent, after the booking was confirmed. */
  predicate ReopensConfirmed(s: State, step: Step) {
    GoesOnAfter(s, Core(step), Confirmed)
  }

  /** The rest of a pay request runs, and creates its intent, on a booking with this status. */
  predicate GoesOnAfter(s: State, step: Step, status: BookingStatus) {
    Reopens(s, step) && s.bookings[step.booking].status == status
  }

  /** Requests land inside a transaction that did not open an intent of its own; the row as it wrote it. */
  predicate LandsUnder(s: State, step: Step) {
    Lands(s, step) && !Opened(s, Perform(s, step.locked), step.at)
  }

  function WrittenRow(s: State, step: Step): Booking
    requires Lands(s, step)
  {
    Perform(s, step.locked).bookings[step.at]
  }

  /**
   * A pay request goes on after the sweeper released the booking, or lands inside the transaction that marks or
   * releases it.
   */
  predicate Mismarks(s: State, step: Step) {
    || GoesOnAfterSweep(s, Core(step))
    || (LandsUnder(s, step) && (Marked(WrittenRow(s, step)) || Swept(WrittenRow(s, step))))
  }

  predicate GoesOnAfterSweep(s: State, step: Step) {
    Reopens(s, step) && Swept(s.bookings[step.booking])
  }

  /** Requests land inside the transaction that confirms the booking or notes a refund. */
  predicate Unbacks(s: State, step: Step) {
    && LandsUnder(s, step)
    && var bk := WrittenRow(s, step);
       bk.payment.value.status.PaymentSucceeded? || (bk.payment.value.status.PaymentCanceled? && RefundNoted(bk))
  }

  // ---------------------------------------------------------------- what every other step keeps

  predicate RowSteady(s: State, s': State, b: nat)
    requires b < |s.bookings| && b < |s'.bookings|
  {
    var bk, bk' := s.bookings[b], s'.bookings[b];
    && (Coupled(bk) ==> Coupled(bk'))
    && (MarkedVoid(bk, s.intents) ==> MarkedVoid(bk', s'.intents))
    && (Backed(b, bk, s.intents, s.refunds) ==> Backed(b, bk', s'.intents, s'.refunds))
    && PaidStays(b, bk, bk', s.intents, s'.refunds)
    && (!bk.status.Pending? ==> !bk'.status.Pending?)
  }

  /** Void stays void, captured stays captured, and refunds stay. */
  ghost predicate LedgerKept(s: State, s': State) {
    && s.now <= s'.now
    && |s.intents| <= |s'.intents|
    && (forall i :: 0 <= i < |s.intents| && s.intents[i].status.Voided? ==> s'.intents[i].status.Voided?)
    && (forall i :: 0 <= i < |s.intents| && s.intents[i].status.Captured? ==> s'.intents[i].status.Captured?)
    && (forall k :: k in s.refunds ==> k in s'.refunds && s'.refunds[k] == s.refunds[k])
  }

  /** No row breaks a promise it kept or returns to PENDING, and new rows are new holds. */
  ghost predicate Steady(s: State, s': State) {
    && s.now <= s'.now
    && |s.bookings| <= |s'.bookings|
    && (forall b :: 0 <= b < |s.bookings| ==> RowSteady(s, s', b))
    && (forall b :: |s.bookings| <= b < |s'.bookings| ==> NewHoldRow(s'.bookings[b], s.now))
  }

  predicate NewHoldRow(bk: Booking, now: Time) {
    bk.status.Pending? && bk.payment.None? && bk.createdAt >= now
  }

  lemma SameSteady(s: State, s': State)
    requires s'.bookings == s.bookings && LedgerKept(s, s')
    ensures Steady(s, s')
  {}

  lemma RowIsSteady(s: State, s': State, b: nat, bk: Booking)
    requires b < |s.bookings| && s'.bookings == s.bookings[b := bk]
    requires LedgerKept(s, s') && RowSteady(s, s', b)
    ensures Steady(s, s')
  {
    forall c | 0 <= c < |s.bookings| ensures RowSteady(s, s', c) {}
  }

  lemma OpenIntentSteady(s: State, b: nat, creates: bool)
    requires Consistent(s) && b < |s.bookings| && s.bookings[b].status.Pending?
    ensures Steady(s, OpenIntent(s, b, creates).0)
  {
    if s.bookings[b].total == 0 {
      var s' := OpenIntent(s, b, creates).0;
      assert s'.bookings == s.bookings[b := s'.bookings[b]];
      RowIsSteady(s, s', b, s'.bookings[b]);
    } else if creates {
      FreshShape(s, b);
      RowIsSteady(s, OpenIntent(s, b, true).0, b, FreshRow(s, b));
    } else {
      SameSteady(s, s);
    }
  }

  lemma ConfirmSteady(s: State, b: nat)
    requires b < |s.bookings| && s.bookings[b].payment.Some? && !s.bookings[b].status.Cancelled?
    requires var p := s.bookings[b].payment.value;
             p.intent.StripeIntent? ==> p.intent.id < |s.intents| && s.intents[p.intent.id].status.Captured?
    ensures Steady(s, Confirm(s, b))
  {
    RowIsSteady(s, Confirm(s, b), b, Confirm(s, b).bookings[b]);
  }

  /** Another status of the same payment. */
  lemma StatusSteady(s: State, b: nat, p: Payment, status: PaymentStatus)
    requires b < |s.bookings| && s.bookings[b].payment == Some(p)
    requires !s.bookings[b].status.Confirmed? || status.PaymentSucceeded? || !p.status.PaymentSucceeded?
    requires !status.PaymentCanceled? && !Swept(s.bookings[b])
    requires status.PaymentSucceeded? ==>
               p.intent.StripeIntent? && p.intent.id < |s.intents| && s.intents[p.intent.id].status.Captured?
    ensures Steady(s, PutPayment(s, b, p.(status := status)))
  {
    RowIsSteady(s, PutPayment(s, b, p.(status := status)), b, s.bookings[b].(payment := Some(p.(status := status))));
  }

  lemma VoidAndCommitSteady(s: State, b: nat, p: Payment)
    requires b < |s.bookings| && s.bookings[b].payment == Some(p)
    requires s.bookings[b].status.Pending? && s.bookings[b].cancellations == []
    requires p.intent.StripeIntent? && p.intent.id < |s.intents| && s.intents[p.intent.id].status.Voided?
    ensures Steady(s, VoidAndCommit(s, b, p).0)
  {
    var bk := s.bookings[b].(payment := Some(p.(status := PaymentCanceled)));
    RowIsSteady(s, VoidAndCommit(s, b, p).0, b, bk);
  }

  lemma ReconcileOpenSteady(s: State, b: nat, p: Payment, retrieves: bool)
    requires Consistent(s) && b < |s.bookings| && s.bookings[b].status.Pending? && s.bookings[b].payment == Some(p)
    ensures Steady(s, ReconcileOpen(s, b, p, retrieves).0)
  {
    SameSteady(s, s);
    PendingPayment(s, b, p);
    match Retrieve(s.intents, p.intent.id, retrieves)
    case Some(Captured) => ConfirmSteady(s, b);
    case Some(Voided) => VoidAndCommitSteady(s, b, p);
    case _ =>
  }

  lemma ReconcileFailedSteady(s: State, b: nat, p: Payment, retrieves: bool, creates: bool)
    requires Consistent(s) && b < |s.bookings| && s.bookings[b].status.Pending? && s.bookings[b].payment == Some(p)
    ensures Steady(s, ReconcileFailed(s, b, p, retrieves, creates).0)
  {
    PendingPayment(s, b, p);
    match Retrieve(s.intents, p.intent.id, retrieves)
    case None => OpenIntentSteady(s, b, creates);
    case Some(InProcess) => OpenIntentSteady(s, b, creates);
    case Some(Captured) => ConfirmSteady(s, b);
    case Some(Voided) => VoidAndCommitSteady(s, b, p);
    case Some(_) => StatusSteady(s, b, p, RequiresPaymentMethod);
  }

  lemma PaySteady(s: State, user: nat, b: nat, retrieves: bool, creates: bool)
    requires Consistent(s)
    ensures Steady(s, Pay(s, user, b, retrieves, creates).0)
  {
    SameSteady(s, s);
    PayCases(s, user, b, retrieves, creates);
    if b < |s.bookings| && Payable(s.bookings[b], s.now) {
      OpenIntentSteady(s, b, creates);
      if s.bookings[b].payment.Some? {
        ReconcileOpenSteady(s, b, s.bookings[b].payment.value, retrieves);
        ReconcileFailedSteady(s, b, s.bookings[b].payment.value, retrieves, creates);
      }
    }
  }

  lemma FailedSteady(s: State, i: nat)
    ensures Steady(s, Failed(s, i).0)
  {
    SameSteady(s, s);
    var found := FindTracked(s.bookings, i);
    if found.Some? {
      var b := found.value;
      var p := s.bookings[b].payment.value;
      if !p.status.PaymentSucceeded? && !p.status.PaymentCanceled? {
        RowIsSteady(s, Failed(s, i).0, b, s.bookings[b].(payment := Some(p.(status := PaymentFailed))));
      }
    }
  }

  lemma AcknowledgeSteady(s: State, s': State, i: nat)
    requires Steady(s, s')
    ensures Steady(s, Acknowledge(s', i))
  {
    forall b | 0 <= b < |s.bookings| ensures RowSteady(s, Acknowledge(s', i), b) {
      assert RowSteady(s, s', b);
    }
  }

  lemma AutoRefundSteady(s: State, b: nat, i: nat)
    requires b < |s.bookings| && s.bookings[b].Tracks(i) && !s.bookings[b].status.Confirmed?
    ensures Steady(s, AutoRefundAndCancel(s, b, i))
  {
    AutoRefundShape(s, b, i);
    RowIsSteady(s, AutoRefundAndCancel(s, b, i), b, AutoRefunded(s.bookings[b]));
  }

  lemma SucceededSteady(s: State, i: nat, refunds: bool)
    requires Consistent(s) && i < |s.intents| && s.intents[i].status.Captured?
    ensures Steady(s, Succeeded(s, i, refunds).0)
  {
    SameSteady(s, s);
    AcknowledgeSteady(s, s, i);
    SucceededCases(s, i, refunds);
    var found := FindTracked(s.bookings, i);
    if found.Some? {
      TrackedSucceededSteady(s, i, refunds, found.value);
    }
  }

  lemma TrackedSucceededSteady(s: State, i: nat, refunds: bool, b: nat)
    requires i < |s.intents| && s.intents[i].status.Captured? && b < |s.bookings| && s.bookings[b].Tracks(i)
    ensures s.bookings[b].status.Confirmed? ==>
              Steady(s, Acknowledge(PutPayment(s, b, s.bookings[b].payment.value.(status := PaymentSucceeded)), i))
    ensures s.bookings[b].status.Pending? ==> Steady(s, Acknowledge(Confirm(s, b), i))
    ensures !s.bookings[b].status.Confirmed? ==> Steady(s, Acknowledge(AutoRefundAndCancel(s, b, i), i))
  {
    var p := s.bookings[b].payment.value;
    if s.bookings[b].status.Confirmed? {
      StatusSteady(s, b, p, PaymentSucceeded);
      AcknowledgeSteady(s, PutPayment(s, b, p.(status := PaymentSucceeded)), i);
    } else {
      AutoRefundSteady(s, b, i);
      AcknowledgeSteady(s, AutoRefundAndCancel(s, b, i), i);
    }
    if s.bookings[b].status.Pending? {
      ConfirmSteady(s, b);
      AcknowledgeSteady(s, Confirm(s, b), i);
    }
  }

  /** A cancellation without a refund of a booking whose payment has not succeeded. */
  lemma WithdrawSteady(s: State, s': State, b: nat)
    requires b < |s.bookings| == |s'.bookings| && s'.bookings == s.bookings[b := s'.bookings[b]] && LedgerKept(s, s')
    requires s.bookings[b].cancellations == [] && s'.bookings[b].status.Cancelled?
    requires s'.bookings[b].cancellations == [0]
    requires s.bookings[b].payment.Some? <==> s'.bookings[b].payment.Some?
    requires s.bookings[b].payment.Some? ==>
               && !s.bookings[b].payment.value.status.PaymentSucceeded?
               && !s'.bookings[b].payment.value.status.PaymentSucceeded?
    ensures Steady(s, s')
  {
    RowIsSteady(s, s', b, s'.bookings[b]);
  }

  lemma CancelPendingSteady(s: State, b: nat, reply: CancelReply)
    requires Consistent(s) && b < |s.bookings| && s.bookings[b].status.Pending?
    ensures Steady(s, CancelPending(s, b, reply).0)
  {
    assert BookingSettles(b, s.bookings[b], s.intents, s.refunds);
    CancelPendingCases(s, b, reply);
    WithdrawSteady(s, Withdraw(s, b, 0), b);
    if s.bookings[b].payment.Some? && s.bookings[b].payment.value.intent.StripeIntent? {
      VoidedWithdrawSteady(s, b, s.bookings[b].payment.value, reply);
    }
  }

  lemma CancelPendingCases(s: State, b: nat, reply: CancelReply)
    requires b < |s.bookings|
    ensures var s' := CancelPending(s, b, reply).0;
      || s' == Withdraw(s, b, 0)
      || (&& s.bookings[b].payment.Some? && s.bookings[b].payment.value.intent.StripeIntent?
          && s' == VoidedWithdraw(s, b, s.bookings[b].payment.value, reply))
  {}

  function VoidedWithdraw(s: State, b: nat, p: Payment, reply: CancelReply): State
    requires b < |s.bookings| && p.intent.StripeIntent?
  {
    var intents := CancelIntent(s.intents, p.intent.id, reply).0;
    Withdraw(PutPayment(s.(intents := intents), b, p.(status := PaymentCanceled)), b, 0)
  }

  lemma VoidedWithdrawSteady(s: State, b: nat, p: Payment, reply: CancelReply)
    requires Consistent(s) && b < |s.bookings| && s.bookings[b].status.Pending?
    requires s.bookings[b].payment == Some(p) && p.intent.StripeIntent?
    ensures Steady(s, VoidedWithdraw(s, b, p, reply))
  {
    var s' := VoidedWithdraw(s, b, p, reply);
    assert BookingSettles(b, s.bookings[b], s.intents, s.refunds);
    var bk := s.bookings[b].(status := Cancelled, payment := Some(p.(status := PaymentCanceled)),
                               cancellations := s.bookings[b].cancellations + [0]);
    assert s.bookings[b].cancellations + [0] == [0];
    assert s'.bookings == s.bookings[b := bk];
    WithdrawSteady(s, s', b);
  }

  lemma CancelConfirmedSteady(s: State, b: nat, refunds: bool)
    requires Consistent(s) && b < |s.bookings| && s.bookings[b].status.Confirmed?
    ensures Steady(s, CancelConfirmed(s, b, refunds).0)
  {
    SameSteady(s, s);
    assert BookingSettles(b, s.bookings[b], s.intents, s.refunds);
    var p := s.bookings[b].payment.value;
    if !p.status.PaymentSucceeded? {
      WithdrawSteady(s, Withdraw(s, b, 0), b);
    } else if CancelConfirmed(s, b, refunds).1.Success? {
      HandRefundSteady(s, b, p, refunds);
    }
  }

  lemma HandRefundSteady(s: State, b: nat, p: Payment, refunds: bool)
    requires Consistent(s) && b < |s.bookings| && s.bookings[b].status.Confirmed?
    requires s.bookings[b].payment == Some(p) && p.status.PaymentSucceeded? && CancelConfirmed(s, b, refunds).1.Success?
    ensures Steady(s, CancelConfirmed(s, b, refunds).0)
  {
    var s' := CancelConfirmed(s, b, refunds).0;
    assert BookingSettles(b, s.bookings[b], s.intents, s.refunds);
    LiveIsUnrefunded(s.bookings, b, s.intents, s.refunds);
    HandRefundShape(s, b, p, refunds, s');
    RowIsSteady(s, s', b, HandRefunded(s.bookings[b], p));
  }

  lemma CancelSteady(s: State, user: nat, admin: bool, b: nat, reply: CancelReply, refunds: bool)
    requires Consistent(s)
    ensures Steady(s, Cancel(s, user, admin, b, reply, refunds).0)
  {
    SameSteady(s, s);
    if b < |s.bookings| {
      if s.bookings[b].status.Confirmed? {
        CancelConfirmedSteady(s, b, refunds);
      } else if s.bookings[b].status.Pending? {
        CancelPendingSteady(s, b, reply);
      }
    }
  }

  /** The sweeper releases a pending booking, if it has a payment then with CANCELED on it. */
  lemma ReleaseSteady(s: State, s': State, b: nat)
    requires b < |s.bookings| == |s'.bookings| && s'.bookings == s.bookings[b := s'.bookings[b]] && LedgerKept(s, s')
    requires s.bookings[b].status.Pending? && s'.bookings[b].status.Cancelled? && s'.bookings[b].cancellations == []
    requires s'.bookings[b].payment.Some? ==> !s'.bookings[b].payment.value.status.PaymentSucceeded?
    requires MarkedVoid(s.bookings[b], s.intents) ==> MarkedVoid(s'.bookings[b], s'.intents)
    ensures Steady(s, s')
  {
    RowIsSteady(s, s', b, s'.bookings[b]);
  }

  lemma SweepIntentSteady(s: State, b: nat, p: Payment, answers: Answers)
    requires Consistent(s)
    requires b < |s.bookings| && s.bookings[b].status.Pending? && s.bookings[b].payment == Some(p)
    requires p.intent.StripeIntent?
    ensures Steady(s, SweepIntent(s, b, p.intent.id, answers))
  {
    PendingPayment(s, b, p);
    SameSteady(s, s);
    var (intents, verdict) := Ask(s, p.intent.id, answers);
    match verdict
    case Unknown =>
    case IsCanceled => VoidedReleaseSteady(s, b, p, intents);
    case IsSucceeded =>
      ConfirmSteady(s, b);
      AutoRefundSteady(s, b, p.intent.id);
      SweeperRefundIsAutoRefund(s, b, p.intent.id, p);
  }

  lemma VoidedReleaseSteady(s: State, b: nat, p: Payment, intents: seq<Intent>)
    requires Consistent(s)
    requires b < |s.bookings| && s.bookings[b].status.Pending? && s.bookings[b].payment == Some(p)
    requires p.intent.StripeIntent? && p.intent.id < |s.intents| && !s.intents[p.intent.id].status.Captured?
    requires intents == s.intents[p.intent.id := s.intents[p.intent.id].(status := Voided)]
    ensures Steady(s, Release(PutPayment(s.(intents := intents), b, p.(status := PaymentCanceled)), b))
  {
    VoidedReleaseRow(s, b, p, intents);
    assert BookingSettles(b, s.bookings[b], s.intents, s.refunds);
    ReleaseSteady(s, Release(PutPayment(s.(intents := intents), b, p.(status := PaymentCanceled)), b), b);
  }

  lemma SweepSteady(s: State, b: nat, threshold: Time, answers: Answers)
    requires Consistent(s)
    ensures Steady(s, SweepOne(s, b, threshold, answers))
  {
    SameSteady(s, s);
    if b < |s.bookings| && Expired(s.bookings[b], threshold) {
      assert BookingSettles(b, s.bookings[b], s.intents, s.refunds);
      if s.bookings[b].payment.None? {
        ReleaseSteady(s, Release(s, b), b);
      } else {
        var p := s.bookings[b].payment.value;
        PendingPayment(s, b, p);
        if p.status.PaymentCanceled? {
          ReleaseSteady(s, Release(s, b), b);
        } else {
          SweepIntentSteady(s, b, p, answers);
        }
      }
    }
  }

  lemma BookSteady(s: State, user: nat, order: Order)
    ensures Steady(s, CreateBooking(s, user, order).0)
  {
    SameSteady(s, s);
    if CreateBooking(s, user, order).1.Success? {
      assert CreateBooking(s, user, order).0.bookings == s.bookings + [NewHold(s, user, order)];
    }
  }

  lemma CatalogueSteady(s: State, step: Step)
    requires IsCatalogue(step) || step.Tick?
    ensures Steady(s, Perform(s, step))
  {
    CatalogueQuiet(s, step);
    CatalogueForward(s, step);
    SameSteady(s, Perform(s, step));
  }

  lemma CatalogueForward(s: State, step: Step)
    requires IsCatalogue(step) || step.Tick?
    ensures s.now <= Perform(s, step).now
  {}

  /** Every transaction that does not go on after a first commit is steady. */
  lemma PerformSteady(s: State, step: Step)
    requires Consistent(s) && !step.ResumePay?
    ensures Steady(s, Perform(s, step))
  {
    if IsPayment(step) {
      PaymentSteady(s, step);
    } else if IsCatalogue(step) || step.Tick? {
      CatalogueSteady(s, step);
    } else if step.StripeMoves? {
      StripeSteady(s, step.intent, step.status);
    } else {
      BookingSteady(s, step);
    }
  }

  lemma StripeSteady(s: State, i: nat, status: IntentStatus)
    ensures Steady(s, Perform(s, StripeMoves(i, status)))
  {
    SameSteady(s, Perform(s, StripeMoves(i, status)));
  }

  lemma PaymentSteady(s: State, step: Step)
    requires Consistent(s) && (step.PayFor? || step.Webhook?)
    ensures Steady(s, Perform(s, step))
  {
    match step
    case PayFor(user, b, retrieves, creates) => PaySteady(s, user, b, retrieves, creates);
    case Webhook(i, event) => DeliverSteady(s, i, event);
  }

  lemma BookingSteady(s: State, step: Step)
    requires Consistent(s) && (step.Book? || step.CancelOrder? || step.SweepCandidate? || step.Interrupted?)
    ensures Steady(s, Perform(s, step))
  {
    SameSteady(s, s);
    match step
    case Book(user, order) => BookSteady(s, user, order);
    case CancelOrder(user, admin, b, reply, refunds) => CancelSteady(s, user, admin, b, reply, refunds);
    case SweepCandidate(b, threshold, answers) => SweepSteady(s, b, threshold, answers);
    case _ =>
  }

  lemma DeliverSteady(s: State, i: nat, e: Event)
    requires Consistent(s)
    ensures Steady(s, Deliver(s, i, e).0)
  {
    SameSteady(s, s);
    match e
    case FailedEvent => FailedSteady(s, i);
    case SucceededEvent(refunds) =>
      if i < |s.intents| && s.intents[i].status.Captured? {
        SucceededSteady(s, i, refunds);
      }
  }

  // ---------------------------------------------------------------- what going on does

  /** Going on changes one row, and only its payment. */
  lemma ResumeRow(s: State, b: nat, creates: bool)
    requires Consistent(s)
    ensures var s' := Resume(s, b, creates).0;
      if Reopens(s, ResumePay(b, creates))
      then s'.bookings == s.bookings[b := FreshRow(s, b)] && s'.intents == s.intents
           + [Intent(b, s.bookings[b].total, NeedsMethod)]
      else s'.bookings == s.bookings && s'.intents == s.intents
    ensures Resume(s, b, creates).0.now == s.now
  {
    if b in s.resuming {
      assert Resumable(s.bookings, b);
      FreshShape(s.(resuming := s.resuming - multiset{b}), b);
    }
  }

  /** What the rest of a pay request does to the three promises. */
  lemma ResumeBreaks(s: State, b: nat, creates: bool)
    requires Consistent(s)
    ensures var s' := Resume(s, b, creates).0;
            var step := ResumePay(b, creates);
            && (AllCoupled(s) ==> (AllCoupled(s') <==> !GoesOnAfter(s, step, Confirmed)))
            && (AllMarkedVoid(s) ==> (AllMarkedVoid(s') <==> !GoesOnAfterSweep(s, step)))
            && (AllBacked(s) ==> AllBacked(s'))
  {
    ResumeRow(s, b, creates);
    ResumeRefunds(s, b, creates);
    var s' := Resume(s, b, creates).0;
    if Reopens(s, ResumePay(b, creates)) {
      assert GoesOnAfter(s, ResumePay(b, creates), Confirmed) ==> !Coupled(s'.bookings[b]);
      assert Swept(s.bookings[b]) ==> !MarkedVoid(s'.bookings[b], s'.intents);
      RowPromises(s, s', b, FreshRow(s, b));
    }
  }

  lemma ResumeRefunds(s: State, b: nat, creates: bool)
    ensures Resume(s, b, creates).0.refunds == s.refunds
  {}

  /** Promises of a table in which one row changed. */
  lemma RowPromises(s: State, s': State, b: nat, bk: Booking)
    requires b < |s.bookings| && s'.bookings == s.bookings[b := bk] && LedgerKept(s, s')
    ensures AllCoupled(s) && Coupled(bk) ==> AllCoupled(s')
    ensures AllMarkedVoid(s) && MarkedVoid(bk, s'.intents) ==> AllMarkedVoid(s')
    ensures AllBacked(s) && Backed(b, bk, s'.intents, s'.refunds) ==> AllBacked(s')
  {
    forall c | 0 <= c < |s'.bookings| && c != b
      ensures Coupled(s.bookings[c]) ==> Coupled(s'.bookings[c])
      ensures MarkedVoid(s.bookings[c], s.intents) ==> MarkedVoid(s'.bookings[c], s'.intents)
      ensures Backed(c, s.bookings[c], s.intents, s.refunds) ==> Backed(c, s'.bookings[c], s'.intents, s'.refunds)
    {}
  }

  lemma SteadyKeepsAll(s: State, s': State)
    requires Steady(s, s')
    ensures AllCoupled(s) ==> AllCoupled(s')
    ensures AllMarkedVoid(s) ==> AllMarkedVoid(s')
    ensures AllBacked(s) ==> AllBacked(s')
  {
    forall b | 0 <= b < |s'.bookings|
      ensures AllCoupled(s) ==> Coupled(s'.bookings[b])
      ensures AllMarkedVoid(s) ==> MarkedVoid(s'.bookings[b], s'.intents)
      ensures AllBacked(s) ==> Backed(b, s'.bookings[b], s'.intents, s'.refunds)
    {
      if b < |s.bookings| {
        assert RowSteady(s, s', b);
      } else {
        assert NewHoldRow(s'.bookings[b], s.now);
      }
    }
  }

  /** What requests that land inside a transaction do to the promises it left. */
  lemma LandBreaks(s: State, t: State, b: nat, k: nat)
    requires Consistent(t) && Splits(s, t, b, k)
    ensures var f := Land(s, t, b, k); var bk := t.bookings[b];
            && (AllCoupled(t) ==> AllCoupled(f))
            && (AllMarkedVoid(t) ==> (AllMarkedVoid(f) <==> Opened(s, t, b) || !(Marked(bk) || Swept(bk))))
            && (AllBacked(t) ==> (AllBacked(f) <==> Opened(s, t, b) || !NeedsBacking(bk)))
  {
    LandShape(s, t, b, k);
    if Opened(s, t, b) {
      var f := Land(s, t, b, k);
      assert t.bookings[b := t.bookings[b]] == t.bookings;
      RowPromises(t, f, b, t.bookings[b]);
    } else {
      LandUnderBreaks(t, b, k, Land(s, t, b, k));
    }
  }

  lemma LandUnderBreaks(t: State, b: nat, k: nat, f: State)
    requires Consistent(t) && Resumable(t.bookings, b) && k >= 1
    requires f.bookings == t.bookings[b := LandedRow(t, b, k)] && f.intents == LandedIntents(t, b, k)
    requires f.refunds == t.refunds && f.now == t.now
    ensures var bk := t.bookings[b];
            && (AllCoupled(t) ==> AllCoupled(f))
            && (AllMarkedVoid(t) ==> (AllMarkedVoid(f) <==> !(Marked(bk) || Swept(bk))))
            && (AllBacked(t) ==> (AllBacked(f) <==> !NeedsBacking(bk)))
  {
    LandedIsClean(t, b, k);
    LandedPromises(t, b, k);
    RowPromises(t, f, b, LandedRow(t, b, k));
    assert f.bookings[b] == LandedRow(t, b, k);
  }

  /** The row now points at an intent that is neither void nor captured nor refunded. */
  lemma LandedPromises(t: State, b: nat, k: nat)
    requires b < |t.bookings| && t.bookings[b].payment.Some? && k >= 1 && !Returned(t.refunds, b, |t.intents| + k - 1)
    ensures var bk, row := t.bookings[b], LandedRow(t, b, k);
            && (Coupled(bk) ==> Coupled(row))
            && (MarkedVoid(row, LandedIntents(t, b, k)) <==> !(Marked(bk) || Swept(bk)))
            && (Backed(b, row, LandedIntents(t, b, k), t.refunds) <==> !NeedsBacking(bk))
  {}

  predicate NeedsBacking(bk: Booking) {
    bk.payment.Some?
        && (bk.payment.value.status.PaymentSucceeded? || (bk.payment.value.status.PaymentCanceled? && RefundNoted(bk)))
  }

  lemma PerformBreaks(s: State, step: Step)
    requires Consistent(s)
    ensures var t := Perform(s, step);
            && (AllCoupled(s) ==> (AllCoupled(t) <==> !GoesOnAfter(s, step, Confirmed)))
            && (AllMarkedVoid(s) ==> (AllMarkedVoid(t) <==> !GoesOnAfterSweep(s, step)))
            && (AllBacked(s) ==> AllBacked(t))
  {
    if step.ResumePay? {
      ResumeBreaks(s, step.booking, step.creates);
    } else {
      PerformSteady(s, step);
      SteadyKeepsAll(s, Perform(s, step));
    }
  }

  // ---------------------------------------------------------------- exactly, for one step

  /**
   * A step leaves a confirmed booking's payment without saying so if and only if it goes on after the
   * confirmation.
   */
  lemma UncouplesExactly(s: State, step: Step)
    requires Consistent(s) && AllCoupled(s)
    ensures AllCoupled(Apply(s, step)) <==> !ReopensConfirmed(s, step)
  {
    PerformBreaks(s, Core(step));
    if Lands(s, step) {
      PerformKeeps(s, step.locked);
      LandBreaks(s, Perform(s, step.locked), step.at, step.requests);
    }
  }

  /** What the code counts on as void is not void after a step if and only if it mismarks. */
  lemma MismarksExactly(s: State, step: Step)
    requires Consistent(s) && AllMarkedVoid(s)
    ensures AllMarkedVoid(Apply(s, step)) <==> !Mismarks(s, step)
  {
    PerformBreaks(s, Core(step));
    if Lands(s, step) {
      PerformKeeps(s, step.locked);
      LandBreaks(s, Perform(s, step.locked), step.at, step.requests);
    }
  }

  /** A payment says SUCCEEDED, or a refund is noted, without the tracked intent bearing it out, if and only if so. */
  lemma UnbacksExactly(s: State, step: Step)
    requires Consistent(s) && AllBacked(s)
    ensures AllBacked(Apply(s, step)) <==> !Unbacks(s, step)
  {
    PerformBreaks(s, Core(step));
    if Lands(s, step) {
      PerformKeeps(s, step.locked);
      LandBreaks(s, Perform(s, step.locked), step.at, step.requests);
    }
  }

  // ---------------------------------------------------------------- exactly, along runs

  /**
   * Along a run every confirmed booking has a succeeded payment if and only if no pay request goes on after a
   * confirmation.
   */
  lemma {:induction false} AlwaysCoupledIff(steps: seq<Step>)
    ensures Always(AllCoupled, steps) <==> Never(ReopensConfirmed, steps)
  {
    forall s, step | Consistent(s) && AllCoupled(s) ensures AllCoupled(Apply(s, step)) <==> !ReopensConfirmed(s, step) {
      UncouplesExactly(s, step);
    }
    AlwaysIffNever(AllCoupled, ReopensConfirmed, steps);
  }

  /** Along a run what the code marked or released as void is void if and only if no step mismarks. */
  lemma {:induction false} AlwaysMarkedVoidIff(steps: seq<Step>)
    ensures Always(AllMarkedVoid, steps) <==> Never(Mismarks, steps)
  {
    forall s, step | Consistent(s) && AllMarkedVoid(s)
      ensures AllMarkedVoid(Apply(s, step)) <==> !Mismarks(s, step)
    {
      MismarksExactly(s, step);
    }
    AlwaysIffNever(AllMarkedVoid, Mismarks, steps);
  }

  /** Along a run payments and refunds are borne out by the tracked intents if and only if no step unbacks one. */
  lemma {:induction false} AlwaysBackedIff(steps: seq<Step>)
    ensures Always(AllBacked, steps) <==> Never(Unbacks, steps)
  {
    forall s, step | Consistent(s) && AllBacked(s) ensures AllBacked(Apply(s, step)) <==> !Unbacks(s, step) {
      UnbacksExactly(s, step);
    }
    AlwaysIffNever(AllBacked, Unbacks, steps);
  }

  /** A pending booking whose payment row says CANCELED tracks a void intent, on every run without a mismark. */
  lemma {:induction false} CanceledPaymentIsVoid(steps: seq<Step>, b: nat)
    requires Never(Mismarks, steps)
    requires b < |Run(steps).bookings| && Marked(Run(steps).bookings[b])
    ensures var s := Run(steps);
            exists i :: 0 <= i < |s.intents| && s.bookings[b].Tracks(i) && s.intents[i].status.Voided?
  {
    AlwaysMarkedVoidIff(steps);
    RunConsistent(steps);
    var s := Run(steps);
    PendingPayment(s, b, s.bookings[b].payment.value);
    assert MarkedVoid(s.bookings[b], s.intents);
    assert s.bookings[b].Tracks(s.bookings[b].payment.value.intent.id);
  }

  // ---------------------------------------------------------------- runs on which nothing is stranded

  /** Going on after a confirmation always strands the intent that paid for it. */
  lemma ReopeningConfirmedStrands(s: State, step: Step)
    requires Consistent(s) && AllCoupled(s) && AllBacked(s) && ReopensConfirmed(s, step)
    ensures TakesStrandingBranch(s, step)
  {
    var b := Core(step).booking;
    assert BookingSettles(b, s.bookings[b], s.intents, s.refunds);
    assert Coupled(s.bookings[b]) && Backed(b, s.bookings[b], s.intents, s.refunds) && Resumable(s.bookings, b);
    assert ResumesOver(s, Core(step), s.bookings[b].payment.value.intent.id);
    assert Strands(s, step, s.bookings[b].payment.value.intent.id);
  }

  /** Landing inside a confirmation or a refund always strands the intent it is about. */
  lemma UnbackingStrands(s: State, step: Step)
    requires Consistent(s) && AllBacked(s) && Unbacks(s, step)
    ensures TakesStrandingBranch(s, step)
  {
    var t := Perform(s, step.locked);
    var b := step.at;
    PerformBreaks(s, step.locked);
    PerformKeeps(s, step.locked);
    assert BookingSettles(b, t.bookings[b], t.intents, t.refunds) && Backed(b, t.bookings[b], t.intents, t.refunds);
    var i := t.bookings[b].payment.value.intent.id;
    BackedIsCaptured(t, b, i);
    assert LandedOver(s, t, b, step.requests, i);
    assert Strands(s, step, i);
  }

  lemma BackedIsCaptured(t: State, b: nat, i: nat)
    requires Consistent(t) && b < |t.bookings| && t.bookings[b].Tracks(i) && NeedsBacking(t.bookings[b])
    requires Backed(b, t.bookings[b], t.intents, t.refunds)
    ensures i < |t.intents| && t.intents[i].status.Captured?
  {
    assert AutoRefund(i) in t.refunds ==> RefundKeyed(AutoRefund(i), t.bookings, t.intents, t.refunds);
    assert RefundBooking(b) in t.refunds ==> RefundKeyed(RefundBooking(b), t.bookings, t.intents, t.refunds);
  }

  /** So a run on which nothing is stranded keeps confirmations coupled, and payments and refunds backed. */
  lemma {:induction false} UnstrandedIsCoupled(steps: seq<Step>)
    requires NoStrandingStep(steps)
    ensures AllCoupled(Run(steps)) && AllBacked(Run(steps))
  {
    if steps != [] {
      var before, last := Run(steps[..|steps| - 1]), steps[|steps| - 1];
      UnstrandedIsCoupled(steps[..|steps| - 1]);
      RunConsistent(steps[..|steps| - 1]);
      UncouplesExactly(before, last);
      UnbacksExactly(before, last);
      if ReopensConfirmed(before, last) {
        ReopeningConfirmedStrands(before, last);
      }
      if Unbacks(before, last) {
        UnbackingStrands(before, last);
      }
    }
  }

  // ---------------------------------------------------------------- intents for bookings that are not pending

  /** Some intent is new, and its booking was no longer pending before the step. */
  ghost predicate OpensLate(s: State, s': State) {
    exists i :: |s.intents| <= i < |s'.intents| && LateIntent(s, s'.intents[i])
  }

  predicate LateIntent(s: State, intent: Intent) {
    intent.booking < |s.bookings| && !s.bookings[intent.booking].status.Pending?
  }

  /** A pay request goes on, or lands, when the booking is no longer pending. */
  predicate ComesLate(s: State, step: Step) {
    || (Reopens(s, Core(step)) && !s.bookings[Core(step).booking].status.Pending?)
    || (Lands(s, step) && !s.bookings[step.at].status.Pending?)
  }

  /** An intent is opened for a booking that is no longer pending if and only if a pay request comes too late. */
  lemma OpensLateExactly(s: State, step: Step)
    requires Consistent(s)
    ensures OpensLate(s, Apply(s, step)) <==> ComesLate(s, step)
  {
    PerformOpensLate(s, Core(step));
    if Lands(s, step) {
      LandOpensLate(s, Perform(s, step.locked), step.at, step.requests);
    }
  }

  lemma LandOpensLate(s: State, t: State, b: nat, k: nat)
    requires Splits(s, t, b, k) && |s.intents| <= |t.intents|
    ensures OpensLate(s, Land(s, t, b, k)) <==> OpensLate(s, t) || !s.bookings[b].status.Pending?
  {
    LandShape(s, t, b, k);
    var f := Land(s, t, b, k);
    assert f.intents[|t.intents|].booking == b;
    if OpensLate(s, t) {
      var i :| |s.intents| <= i < |t.intents| && LateIntent(s, t.intents[i]);
      assert f.intents[i] == t.intents[i];
    }
    if OpensLate(s, f) {
      var i :| |s.intents| <= i < |f.intents| && LateIntent(s, f.intents[i]);
      assert i < |t.intents| ==> t.intents[i] == f.intents[i];
    }
  }

  lemma PerformOpensLate(s: State, step: Step)
    requires Consistent(s)
    ensures |s.intents| <= |Perform(s, step).intents|
    ensures OpensLate(s, Perform(s, step)) <==> Reopens(s, step) && !s.bookings[step.booking].status.Pending?
  {
    if step.ResumePay? {
      ResumeOpensLate(s, step.booking, step.creates);
    } else if step.PayFor? {
      PayOpensInTime(s, step.user, step.booking, step.retrieves, step.creates);
    } else {
      OthersSameTracking(s, step);
    }
  }

  lemma ResumeOpensLate(s: State, b: nat, creates: bool)
    requires Consistent(s)
    ensures |s.intents| <= |Resume(s, b, creates).0.intents|
    ensures OpensLate(s, Resume(s, b, creates).0) <==>
              Reopens(s, ResumePay(b, creates)) && !s.bookings[b].status.Pending?
  {
    ResumeRow(s, b, creates);
    if Reopens(s, ResumePay(b, creates)) {
      assert Resume(s, b, creates).0.intents[|s.intents|].booking == b;
    }
  }

  /** At most one intent more, and then for this booking. */
  predicate OpensFor(s: State, s': State, b: nat) {
    |s.intents| <= |s'.intents| && forall i :: |s.intents| <= i < |s'.intents| ==> s'.intents[i].booking == b
  }

  lemma OpenIntentOpensFor(s: State, b: nat, creates: bool)
    requires b < |s.bookings|
    ensures OpensFor(s, OpenIntent(s, b, creates).0, b)
  {}

  lemma PayOpensInTime(s: State, user: nat, b: nat, retrieves: bool, creates: bool)
    ensures var s' := Pay(s, user, b, retrieves, creates).0;
      s'.intents == s.intents || (b < |s.bookings| && s.bookings[b].status.Pending? && OpensFor(s, s', b))
  {
    if b < |s.bookings| && Payable(s.bookings[b], s.now) {
      OpenIntentOpensFor(s, b, creates);
      if s.bookings[b].payment.Some? {
        ReconcileOpensFor(s, b, s.bookings[b].payment.value, retrieves, creates);
      }
    }
  }

  lemma ReconcileOpensFor(s: State, b: nat, p: Payment, retrieves: bool, creates: bool)
    requires b < |s.bookings| && s.bookings[b].payment == Some(p)
    ensures ReconcileOpen(s, b, p, retrieves).0.intents == s.intents
    ensures OpensFor(s, ReconcileFailed(s, b, p, retrieves, creates).0, b)
  {
    OpenIntentOpensFor(s, b, creates);
  }
}
