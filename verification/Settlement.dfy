// Where captured money ends up: kept by one confirmed booking, or returned once and in full. The one answer of
// the webhook that acknowledges money without either is characterised exactly.

module Settlement {
  import opened Entities
  import opened Stripe
  import opened Payments
  import opened Sweeper
  import opened Invariants
  import opened RowProofs
  import opened HandlerProofs
  import opened Runs
  import opened Stranding
  import opened Coupling

  /** Every refund Stripe made of this intent, under whatever key. */
  function RefundKeys(s: State, i: nat): set<RefundKey> {
    set k | k in s.refunds && s.refunds[k].intent == i
  }

  /** The money stays: confirmed booking, succeeded payment, one invoice, no refund. */
  predicate Kept(s: State, i: nat) {
    && Tracked(s.bookings, s.intents, i)
    && var bk := s.bookings[s.intents[i].booking];
       && bk.status.Confirmed?
       && bk.payment.value.status.PaymentSucceeded?
       && |bk.payment.value.invoices| == 1
       && RefundKeys(s, i) == {}
  }

  /** The money went back: cancelled booking, exactly one refund across both key families, to the cent. */
  ghost predicate PaidBack(s: State, i: nat) {
    && i < |s.intents| && s.intents[i].booking < |s.bookings|
    && s.bookings[s.intents[i].booking].status.Cancelled?
    && exists k :: k in s.refunds && RefundKeys(s, i) == {k} && s.refunds[k] == Refund(i, s.intents[i].amount)
  }

  lemma RefundKeysOf(s: State, i: nat)
    requires Consistent(s) && i < |s.intents|
    ensures var b := s.intents[i].booking;
            RefundKeys(s, i) == (if RefundedAuto(s.refunds, i) then {AutoRefund(i)} else {})
                              + (if RefundedByHand(s.refunds, b, i) then {RefundBooking(b)} else {})
  {
    forall k | k in s.refunds
      ensures s.refunds[k].intent == i <==>
                k == AutoRefund(i) || (k == RefundBooking(s.intents[i].booking) && s.refunds[k].intent == i)
    {
      assert RefundKeyed(k, s.bookings, s.intents, s.refunds);
    }
  }

  /** The two families never both return an intent. */
  lemma OneRefundEach(s: State, i: nat)
    requires Consistent(s) && i < |s.intents|
    ensures !(RefundedAuto(s.refunds, i) && RefundedByHand(s.refunds, s.intents[i].booking, i))
    ensures Returned(s.refunds, s.intents[i].booking, i) ==>
              s.intents[i].status.Captured? && s.intents[i].booking < |s.bookings|
                  && s.bookings[s.intents[i].booking].status.Cancelled?
  {
    var b := s.intents[i].booking;
    assert RefundBooking(b) in s.refunds ==> RefundKeyed(RefundBooking(b), s.bookings, s.intents, s.refunds);
    assert AutoRefund(i) in s.refunds ==> RefundKeyed(AutoRefund(i), s.bookings, s.intents, s.refunds);
  }

  // ---------------------------------------------------------------- conservation

  /** The acknowledged intent is kept or was returned, if its booking's payment row tracks it. */
  predicate AckedSettled(s: State, i: nat) {
    Tracked(s.bookings, s.intents, i) ==> RowSettled(s, s.intents[i].booking, i)
  }

  predicate RowSettled(s: State, b: nat, i: nat)
    requires b < |s.bookings|
  {
    var bk := s.bookings[b];
    && bk.payment.Some?
    && if bk.status.Confirmed? then bk.payment.value.status.PaymentSucceeded?
       else bk.status.Cancelled? && Returned(s.refunds, b, i)
  }

  ghost predicate AllSettled(s: State) {
    forall i :: i in s.acked ==> AckedSettled(s, i)
  }

  /** Settled in exactly one of the two ways. */
  lemma SettledIsKeptOrPaidBack(s: State, i: nat)
    requires Consistent(s) && i in s.acked && Tracked(s.bookings, s.intents, i)
    ensures RowSettled(s, s.intents[i].booking, i) <==> Kept(s, i) || PaidBack(s, i)
    ensures !(Kept(s, i) && PaidBack(s, i))
  {
    var b := s.intents[i].booking;
    assert AckedFinal(i, s.bookings, s.intents, s.refunds);
    assert BookingSettles(b, s.bookings[b], s.intents, s.refunds);
    RefundKeysOf(s, i);
    OneRefundEach(s, i);
    if Returned(s.refunds, b, i) {
      var k := if RefundedAuto(s.refunds, i) then AutoRefund(i) else RefundBooking(b);
      assert k in s.refunds && RefundKeys(s, i) == {k};
      assert RefundKeyed(k, s.bookings, s.intents, s.refunds);
    }
  }

  /**
   * The webhook answers that the money of this intent was refunded already, because the booking's row says
   * CANCELED and a refund is noted, but what was refunded is another intent.
   */
  predicate ShortChanges(s: State, step: Step, i: nat) {
    && step.Webhook? && step.intent == i && step.event.SucceededEvent?
    && i < |s.intents| && s.intents[i].status.Captured? && i !in s.acked
    && Tracked(s.bookings, s.intents, i)
    && var b := s.intents[i].booking;
       var bk := s.bookings[b];
       && !bk.status.Confirmed? && bk.payment.value.status.PaymentCanceled? && RefundNoted(bk)
       && !Returned(s.refunds, b, i)
  }

  ghost predicate ShortChangesSomeone(s: State, step: Step) {
    exists i: nat :: ShortChanges(s, Core(step), i)
  }

  /** What was settled before a transaction is settled after it. */
  lemma SettledStays(s: State, step: Step, i: nat)
    requires Consistent(s) && i in s.acked && AckedSettled(s, i)
    ensures AckedSettled(Perform(s, step), i)
  {
    var t := Perform(s, step);
    PerformKeeps(s, step);
    PerformExtends(s, step);
    assert AckedFinal(i, s.bookings, s.intents, s.refunds) && IntentKept(s.intents[i], t.intents[i]);
    if Tracked(t.bookings, t.intents, i) {
      assert AckedFinal(i, t.bookings, t.intents, t.refunds);
      if step.ResumePay? {
        ResumeRow(s, step.booking, step.creates);
        ResumeRefunds(s, step.booking, step.creates);
      } else {
        SteadySettled(s, t, step, i);
      }
    }
  }

  lemma SteadySettled(s: State, t: State, step: Step, i: nat)
    requires Consistent(s) && i in s.acked && AckedSettled(s, i) && !step.ResumePay? && t == Perform(s, step)
    requires Consistent(t) && Extends(s, t) && Tracked(t.bookings, t.intents, i)
    requires AckedFinal(i, s.bookings, s.intents, s.refunds) && AckedFinal(i, t.bookings, t.intents, t.refunds)
    requires IntentKept(s.intents[i], t.intents[i])
    ensures RowSettled(t, t.intents[i].booking, i)
  {
    var b := s.intents[i].booking;
    AckedWasTracked(s, t, step, i);
    assert OrderKept(s.bookings[b], t.bookings[b]);
    PerformSteady(s, step);
    assert RowSteady(s, t, b);
    OneRefundEach(t, i);
  }

  /** An intent that exists is not tracked anew by a transaction that does not go on after a first commit. */
  lemma AckedWasTracked(s: State, t: State, step: Step, i: nat)
    requires Consistent(s) && !step.ResumePay? && t == Perform(s, step) && i < |s.intents|
    requires Tracked(t.bookings, t.intents, i) && Extends(s, t) && IntentKept(s.intents[i], t.intents[i])
    ensures Tracked(s.bookings, s.intents, i)
  {
    if !step.PayFor? {
      OthersSameTracking(s, step);
      SameTrackingSame(s, t, i);
    } else {
      PayTracksNothingOld(s, step.user, step.booking, step.retrieves, step.creates, i);
    }
  }

  lemma PayTracksNothingOld(s: State, user: nat, b: nat, retrieves: bool, creates: bool, i: nat)
    requires Consistent(s) && i < |s.intents|
    requires var t := Pay(s, user, b, retrieves, creates).0; Tracked(t.bookings, t.intents, i)
    ensures Tracked(s.bookings, s.intents, i)
  {
    var c := s.intents[i].booking;
    assert IntentPriced(s.intents[i], s.bookings);
    PayOpens(s, user, b, retrieves, creates, c);
    PayExtends(s, user, b, retrieves, creates);
    assert IntentKept(s.intents[i], Pay(s, user, b, retrieves, creates).0.intents[i]);
  }

  /** Requests that land change what the row tracks, and nothing about intents it still tracks. */
  lemma LandSettled(s: State, t: State, b: nat, k: nat, i: nat)
    requires Consistent(t) && Splits(s, t, b, k) && i in t.acked
    ensures AckedSettled(t, i) ==> AckedSettled(Land(s, t, b, k), i)
    ensures !Opened(s, t, b) && t.bookings[b].Tracks(i) ==> AckedSettled(Land(s, t, b, k), i)
    ensures !(!Opened(s, t, b) && t.bookings[b].Tracks(i)) ==>
              (AckedSettled(Land(s, t, b, k), i) <==> AckedSettled(t, i))
  {
    LandShape(s, t, b, k);
    assert AckedFinal(i, t.bookings, t.intents, t.refunds);
    assert IntentPriced(t.intents[i], t.bookings);
    assert BookingSettles(b, t.bookings[b], t.intents, t.refunds);
  }

  /** What one transaction acknowledges anew, and how it leaves it. */
  lemma NewlyAcked(s: State, step: Step, i: nat)
    requires Consistent(s) && i in Perform(s, step).acked && i !in s.acked
    ensures AckedSettled(Perform(s, step), i) <==> !ShortChanges(s, step, i)
    ensures step.Webhook? && step.intent == i && step.event.SucceededEvent?
  {
    OnlyWebhooksAck(s, step);
    var t := Perform(s, step);
    PerformKeeps(s, step);
    assert AckedFinal(i, t.bookings, t.intents, t.refunds);
    SucceededSettles(s, i, step.event.refunds);
  }

  lemma OnlyWebhooksAck(s: State, step: Step)
    ensures step.Webhook? && step.event.SucceededEvent? ==> Perform(s, step).acked <= s.acked + {step.intent}
    ensures !(step.Webhook? && step.event.SucceededEvent?) ==> Perform(s, step).acked == s.acked
  {
    if IsCatalogue(step) || step.Tick? {
      CatalogueQuiet(s, step);
    } else if step.PayFor? {
      PayAcksNothing(s, step.user, step.booking, step.retrieves, step.creates);
    } else {
      OthersAckNothing(s, step);
    }
  }

  lemma OpenIntentAcksNothing(s: State, b: nat, creates: bool)
    requires b < |s.bookings|
    ensures OpenIntent(s, b, creates).0.acked == s.acked
  {}

  lemma ReconcileAcksNothing(s: State, b: nat, p: Payment, retrieves: bool, creates: bool)
    requires b < |s.bookings| && s.bookings[b].payment == Some(p)
    ensures ReconcileOpen(s, b, p, retrieves).0.acked == s.acked
    ensures ReconcileFailed(s, b, p, retrieves, creates).0.acked == s.acked
  {
    OpenIntentAcksNothing(s, b, creates);
    ReconcileFailedCases(s, b, p, retrieves, creates);
  }

  lemma PayAcksNothing(s: State, user: nat, b: nat, retrieves: bool, creates: bool)
    ensures Pay(s, user, b, retrieves, creates).0.acked == s.acked
  {
    PayCases(s, user, b, retrieves, creates);
    if b < |s.bookings| {
      OpenIntentAcksNothing(s, b, creates);
      if s.bookings[b].payment.Some? {
        ReconcileAcksNothing(s, b, s.bookings[b].payment.value, retrieves, creates);
      }
    }
  }

  lemma OthersAckNothing(s: State, step: Step)
    requires !IsCatalogue(step) && !step.Tick? && !step.PayFor?
    ensures step.Webhook? && step.event.SucceededEvent? ==> Perform(s, step).acked <= s.acked + {step.intent}
    ensures !(step.Webhook? && step.event.SucceededEvent?) ==> Perform(s, step).acked == s.acked
  {
    match step
    case CancelOrder(user, admin, b, reply, refunds) => CancelAcksNothing(s, user, admin, b, reply, refunds);
    case SweepCandidate(b, threshold, answers) => SweepAcksNothing(s, b, threshold, answers);
    case Webhook(i, event) => DeliverAcks(s, i, event);
    case _ =>
  }

  lemma DeliverAcks(s: State, i: nat, e: Event)
    ensures e.SucceededEvent? ==> Deliver(s, i, e).0.acked <= s.acked + {i}
    ensures e.FailedEvent? ==> Deliver(s, i, e).0.acked == s.acked
  {}

  lemma CancelAcksNothing(s: State, user: nat, admin: bool, b: nat, reply: CancelReply, refunds: bool)
    ensures Cancel(s, user, admin, b, reply, refunds).0.acked == s.acked
  {
    if b < |s.bookings| {
      CancelPendingCases(s, b, reply);
    }
  }

  lemma SweepAcksNothing(s: State, b: nat, threshold: Time, answers: Answers)
    ensures SweepOne(s, b, threshold, answers).acked == s.acked
  {
    if b < |s.bookings| && s.bookings[b].payment.Some? && s.bookings[b].payment.value.intent.StripeIntent? {
      SweepIntentAcksNothing(s, b, s.bookings[b].payment.value, answers);
    }
  }

  lemma SweepIntentAcksNothing(s: State, b: nat, p: Payment, answers: Answers)
    requires b < |s.bookings| && s.bookings[b].payment == Some(p) && p.intent.StripeIntent?
    ensures SweepIntent(s, b, p.intent.id, answers).acked == s.acked
  {
    var (intents, verdict) := Ask(s, p.intent.id, answers);
    match verdict
    case Unknown =>
    case IsCanceled => VoidedReleaseRow(s, b, p, intents);
    case IsSucceeded => RefundReleaseRow(s, b, p.intent.id, p);
  }

  lemma SucceededSettles(s: State, i: nat, refunds: bool)
    requires Consistent(s) && i < |s.intents| && s.intents[i].status.Captured? && i !in s.acked
    requires i in Succeeded(s, i, refunds).0.acked
    ensures AckedSettled(Succeeded(s, i, refunds).0, i) <==> !ShortChanges(s, Webhook(i, SucceededEvent(refunds)), i)
  {
    FoundIsOwn(s, i);
    assert IntentPriced(s.intents[i], s.bookings);
    if Tracked(s.bookings, s.intents, i) {
      TrackedSucceededSettles(s, i, refunds, s.intents[i].booking);
    }
  }

  lemma TrackedSucceededSettles(s: State, i: nat, refunds: bool, b: nat)
    requires i < |s.intents| && s.intents[i].status.Captured? && i !in s.acked && s.intents[i].booking == b
    requires b < |s.bookings| && s.bookings[b].Tracks(i) && FindTracked(s.bookings, i) == Some(b)
    requires BookingSettles(b, s.bookings[b], s.intents, s.refunds)
    requires i in Succeeded(s, i, refunds).0.acked
    ensures AckedSettled(Succeeded(s, i, refunds).0, i) <==> !ShortChanges(s, Webhook(i, SucceededEvent(refunds)), i)
  {
    SucceededCases(s, i, refunds);
  }

  /** A step acknowledges money that is neither kept nor returned if and only if it short-changes somebody. */
  lemma ShortChangesExactly(s: State, step: Step)
    requires Consistent(s) && AllSettled(s)
    ensures AllSettled(Apply(s, step)) <==> !ShortChangesSomeone(s, step)
  {
    var t := Perform(s, Core(step));
    PerformKeeps(s, Core(step));
    PerformExtends(s, Core(step));
    forall i | i in t.acked ensures AckedSettled(t, i) <==> !ShortChanges(s, Core(step), i) {
      if i in s.acked {
        SettledStays(s, Core(step), i);
      } else {
        NewlyAcked(s, Core(step), i);
      }
    }
    ShortChangedIsAcked(s, Core(step));
    if Lands(s, step) {
      LandingSettles(s, step);
    }
  }

  lemma ShortChangedIsAcked(s: State, step: Step)
    requires Consistent(s)
    ensures forall i: nat :: ShortChanges(s, step, i) ==>
              i in Perform(s, step).acked && Perform(s, step).bookings == s.bookings
  {
    forall i: nat | ShortChanges(s, step, i)
      ensures i in Perform(s, step).acked && Perform(s, step).bookings == s.bookings
    {
      FoundIsOwn(s, i);
    }
  }

  /** An answer that changes no row lets nothing land inside. */
  lemma LandingSettles(s: State, step: Step)
    requires Lands(s, step) && Consistent(s) && Consistent(Perform(s, step.locked))
    requires forall i :: i in Perform(s, step.locked).acked ==>
               (AckedSettled(Perform(s, step.locked), i) <==> !ShortChanges(s, step.locked, i))
    requires forall i: nat :: ShortChanges(s, step.locked, i) ==> Perform(s, step.locked).bookings == s.bookings
    ensures AllSettled(Apply(s, step)) && !ShortChangesSomeone(s, step)
  {
    var t := Perform(s, step.locked);
    forall i | i in t.acked ensures AckedSettled(Apply(s, step), i) {
      assert !ShortChanges(s, step.locked, i);
      LandSettled(s, t, step.at, step.requests, i);
    }
    LandShape(s, t, step.at, step.requests);
  }

  /** Along a run everything acknowledged is settled if and only if no answer short-changes anybody. */
  lemma {:induction false} AlwaysSettledIff(steps: seq<Step>)
    ensures Always(AllSettled, steps) <==> Never(ShortChangesSomeone, steps)
  {
    forall s, step | Consistent(s) && AllSettled(s)
      ensures AllSettled(Apply(s, step)) <==> !ShortChangesSomeone(s, step)
    {
      ShortChangesExactly(s, step);
    }
    AlwaysIffNever(AllSettled, ShortChangesSomeone, steps);
  }

  /**
   * Conservation: on every run on which no answer short-changes anybody, an acknowledged capture that its
   * booking's payment row still tracks is settled, in exactly one of the two ways.
   */
  lemma {:induction false} SettlementConservation(steps: seq<Step>, i: nat)
    requires Never(ShortChangesSomeone, steps) && i in Run(steps).acked
    ensures var s := Run(steps);
            && i < |s.intents| && s.intents[i].status.Captured?
            && (Tracked(s.bookings, s.intents, i) ==> Kept(s, i) != PaidBack(s, i))
  {
    var s := Run(steps);
    AlwaysSettledIff(steps);
    RunConsistent(steps);
    assert AckedFinal(i, s.bookings, s.intents, s.refunds) && AckedSettled(s, i);
    if Tracked(s.bookings, s.intents, i) {
      SettledIsKeptOrPaidBack(s, i);
    }
  }

  /** Nobody is short-changed where refunds are backed. */
  lemma BackedShortChangesNobody(s: State, step: Step)
    requires Consistent(s) && AllBacked(s)
    ensures !ShortChangesSomeone(s, step)
  {
    forall i: nat ensures !ShortChanges(s, Core(step), i) {
      if i < |s.intents| && s.intents[i].booking < |s.bookings| {
        assert Backed(s.intents[i].booking, s.bookings[s.intents[i].booking], s.intents, s.refunds);
      }
    }
  }

  lemma {:induction false} UnstrandedShortChangesNobody(steps: seq<Step>)
    requires NoStrandingStep(steps)
    ensures Never(ShortChangesSomeone, steps)
  {
    if steps != [] {
      var last := |steps| - 1;
      UnstrandedShortChangesNobody(steps[..last]);
      UnstrandedIsCoupled(steps[..last]);
      RunConsistent(steps[..last]);
      BackedShortChangesNobody(Run(steps[..last]), steps[last]);
    }
  }

  /** On every run on which nothing is stranded each acknowledged capture is settled. */
  lemma {:induction false} AllSettledWithoutStranding(steps: seq<Step>, i: nat)
    requires NoStrandingStep(steps) && i in Run(steps).acked
    ensures Kept(Run(steps), i) || PaidBack(Run(steps), i)
  {
    NeverStrandedIff(steps);
    UnstrandedShortChangesNobody(steps);
    SettlementConservation(steps, i);
    assert !Stranded(Run(steps), i);
  }

  /** Stripe's own books, acknowledged or not: at most one refund, only of captured money, never another amount. */
  lemma {:induction false} RefundsNeverExceedCaptures(steps: seq<Step>, i: nat)
    requires i < |Run(steps).intents|
    ensures var s := Run(steps);
            && |RefundKeys(s, i)| <= 1
            && (RefundKeys(s, i) != {} ==> s.intents[i].status.Captured?)
            && forall k :: k in RefundKeys(s, i) ==> s.refunds[k].amount == s.intents[i].amount
  {
    var s := Run(steps);
    RunConsistent(steps);
    RefundKeysOf(s, i);
    OneRefundEach(s, i);
    forall k | k in RefundKeys(s, i) ensures s.refunds[k].amount == s.intents[i].amount {
      assert RefundKeyed(k, s.bookings, s.intents, s.refunds);
    }
  }
}
