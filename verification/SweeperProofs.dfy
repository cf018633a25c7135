// The sweep among everything else. Each candidate is a transaction of its own, so payments, webhooks,
// cancels and new holds commit between candidates. What leaves PENDING never returns to it, every step
// that takes a booking out of PENDING is known, and the sweep leaves exactly the candidates that Stripe
// gave no usable answer for.

module SweeperProofs {
  import opened Entities
  import opened Reservations
  import opened Payments
  import opened Stripe
  import opened Sweeper
  import opened Invariants
  import opened RowProofs
  import opened HandlerProofs
  import opened Counting
  import opened Outcomes
  import opened Purchases
  import opened Runs
  import opened Stranding
  import opened Coupling

  // ---------------------------------------------------------------- one candidate

  /** Stripe gives no verdict on the candidate's open intent, or there is no room and the refund it needs fails. */
  predicate Stuck(s: State, b: nat, answers: Answers)
    requires b < |s.bookings|
  {
    && s.bookings[b].payment.Some?
    && var p := s.bookings[b].payment.value;
       && p.intent.StripeIntent? && !p.status.PaymentCanceled? && p.intent.id < |s.intents|
       && var status := s.intents[p.intent.id].status;
          NoVerdict(status, answers) || (status.Captured? && !Room(s, b) && !answers.refunds)
  }

  /** An expired candidate stays pending if and only if it is stuck, and no other row changes. */
  lemma SweepResolves(s: State, b: nat, threshold: Time, answers: Answers)
    requires Consistent(s) && b < |s.bookings| && Expired(s.bookings[b], threshold)
    ensures var s' := SweepOne(s, b, threshold, answers);
            && |s'.bookings| == |s.bookings| && s'.now == s.now
            && (s'.bookings[b].status.Pending? <==> Stuck(s, b, answers))
            && forall c :: 0 <= c < |s.bookings| && c != b ==> s'.bookings[c] == s.bookings[c]
  {
    PendingRow(s, b);
    if s.bookings[b].payment.None? || s.bookings[b].payment.value.status.PaymentCanceled? {
      SweptWithoutIntent(s, b, threshold, answers);
    } else {
      SweptWithIntent(s, b, s.bookings[b].payment.value.intent.id, threshold, answers);
    }
  }

  // ---------------------------------------------------------------- leaving PENDING

  /** The payment attempt finds its intent captured, or nothing to pay. */
  predicate PaysNow(s: State, bk: Booking, retrieves: bool) {
    match bk.payment
    case None => bk.total == 0
    case Some(p) =>
      retrieves && !p.status.PaymentCanceled? && p.intent.StripeIntent? && p.intent.id < |s.intents|
          && s.intents[p.intent.id].status.Captured?
  }

  /** The guards under which a step takes a pending booking out of PENDING. */
  predicate Takes(s: State, step: Step, b: nat) {
    && b < |s.bookings| && s.bookings[b].status.Pending?
    && var bk := s.bookings[b];
       match Core(step)
       case PayFor(user, c, retrieves, _) =>
         c == b && MayPay(s, user, b) && PaysNow(s, bk, retrieves)
       case Webhook(i, event) =>
         && event.SucceededEvent? && bk.Tracks(i) && i < |s.intents| && s.intents[i].status.Captured?
         && (Room(s, b) || event.refunds)
       case CancelOrder(user, admin, c, _, _) =>
         c == b && MayCancel(s, user, admin, b)
       case SweepCandidate(c, threshold, answers) =>
         c == b && threshold <= s.now - HOLD && bk.createdAt <= threshold && !Stuck(s, b, answers)
       case _ => false
  }

  lemma OpenIntentStatus(s: State, c: nat, creates: bool)
    requires c < |s.bookings|
    ensures var s' := OpenIntent(s, c, creates).0;
            && |s'.bookings| == |s.bookings|
            && s'.bookings[c].status == (if s.bookings[c].total == 0 then Confirmed else s.bookings[c].status)
            && forall b :: 0 <= b < |s.bookings| && b != c ==> s'.bookings[b] == s.bookings[b]
  {
    if s.bookings[c].total > 0 && creates {
      FreshShape(s, c);
    }
  }

  /** A payment attempt on a pending booking touches one row, which leaves PENDING only if it pays. */
  predicate PaidOrPending(s: State, s': State, c: nat, retrieves: bool)
    requires c < |s.bookings|
  {
    && |s'.bookings| == |s.bookings|
    && (s'.bookings[c].status.Pending? <==> !PaysNow(s, s.bookings[c], retrieves))
    && forall b :: 0 <= b < |s.bookings| && b != c ==> s'.bookings[b] == s.bookings[b]
  }

  lemma OpenStatus(s: State, c: nat, p: Payment, retrieves: bool)
    requires Consistent(s) && !p.status.PaymentCanceled? && c < |s.bookings| && s.bookings[c].status.Pending?
    requires s.bookings[c].payment == Some(p)
    ensures PaidOrPending(s, ReconcileOpen(s, c, p, retrieves).0, c, retrieves)
  {
    PendingPayment(s, c, p);
  }

  lemma ConfirmStatus(s: State, c: nat, retrieves: bool)
    requires c < |s.bookings| && s.bookings[c].payment.Some? && PaysNow(s, s.bookings[c], retrieves)
    ensures PaidOrPending(s, Confirm(s, c), c, retrieves)
  {}

  lemma PutStatus(s: State, c: nat, p: Payment, retrieves: bool)
    requires c < |s.bookings| && s.bookings[c].status.Pending? && !PaysNow(s, s.bookings[c], retrieves)
    ensures PaidOrPending(s, PutPayment(s, c, p), c, retrieves)
  {}

  lemma FailedStatus(s: State, c: nat, p: Payment, retrieves: bool, creates: bool)
    requires Consistent(s) && !p.status.PaymentCanceled? && c < |s.bookings| && s.bookings[c].status.Pending?
    requires s.bookings[c].payment == Some(p)
    ensures PaidOrPending(s, ReconcileFailed(s, c, p, retrieves, creates).0, c, retrieves)
  {
    PendingPayment(s, c, p);
    match Retrieve(s.intents, p.intent.id, retrieves)
    case None => UnpaidOpenStatus(s, c, p, retrieves, creates);
    case Some(InProcess) => UnpaidOpenStatus(s, c, p, retrieves, creates);
    case Some(Captured) => ConfirmStatus(s, c, retrieves);
    case Some(Voided) => PutStatus(s, c, p.(status := PaymentCanceled), retrieves);
    case Some(_) => PutStatus(s, c, p.(status := RequiresPaymentMethod), retrieves);
  }

  lemma UnpaidOpenStatus(s: State, c: nat, p: Payment, retrieves: bool, creates: bool)
    requires Consistent(s) && c < |s.bookings| && s.bookings[c].status.Pending? && s.bookings[c].payment == Some(p)
    requires !PaysNow(s, s.bookings[c], retrieves)
    ensures PaidOrPending(s, OpenIntent(s, c, creates).0, c, retrieves)
  {
    assert BookingSettles(c, s.bookings[c], s.intents, s.refunds);
    OpenIntentStatus(s, c, creates);
  }

  lemma NewStatus(s: State, c: nat, retrieves: bool, creates: bool)
    requires Consistent(s) && c < |s.bookings| && s.bookings[c].status.Pending?
    requires s.bookings[c].payment.Some? ==> s.bookings[c].payment.value.status.PaymentCanceled?
    ensures PaidOrPending(s, OpenIntent(s, c, creates).0, c, retrieves)
  {
    if s.bookings[c].payment.Some? {
      PendingPayment(s, c, s.bookings[c].payment.value);
    }
    assert BookingSettles(c, s.bookings[c], s.intents, s.refunds);
    OpenIntentStatus(s, c, creates);
  }

  lemma PayTakes(s: State, user: nat, c: nat, retrieves: bool, creates: bool, b: nat)
    requires Consistent(s) && b < |s.bookings| && s.bookings[b].status.Pending?
    ensures var s' := Pay(s, user, c, retrieves, creates).0;
            b < |s'.bookings| && (s'.bookings[b].status.Pending? <==> !Takes(s, PayFor(user, c, retrieves, creates), b))
  {
    PayCases(s, user, c, retrieves, creates);
    if c < |s.bookings| && Acts(s, user) && s.bookings[c].user == user && Payable(s.bookings[c], s.now) {
      PayStatus(s, user, c, retrieves, creates);
    }
  }

  lemma PayStatus(s: State, user: nat, c: nat, retrieves: bool, creates: bool)
    requires Consistent(s)
    requires c < |s.bookings| && Acts(s, user) && s.bookings[c].user == user && Payable(s.bookings[c], s.now)
    ensures PaidOrPending(s, Pay(s, user, c, retrieves, creates).0, c, retrieves)
  {
    match s.bookings[c].payment
    case None => NewStatus(s, c, retrieves, creates);
    case Some(p) =>
      PendingPayment(s, c, p);
      match p.status
      case PaymentFailed => FailedStatus(s, c, p, retrieves, creates);
      case PaymentCanceled => NewStatus(s, c, retrieves, creates);
      case _ => OpenStatus(s, c, p, retrieves);
  }

  lemma SucceededTakes(s: State, i: nat, refunds: bool, b: nat)
    requires Consistent(s) && b < |s.bookings| && s.bookings[b].status.Pending?
    requires i < |s.intents| && s.intents[i].status.Captured?
    ensures var s' := Succeeded(s, i, refunds).0;
            b < |s'.bookings| && (s'.bookings[b].status.Pending? <==> !Takes(s, Webhook(i, SucceededEvent(refunds)), b))
  {
    if s.bookings[b].Tracks(i) {
      OwnTakes(s, i, refunds, b);
    } else {
      FoundIsOwn(s, i);
      OthersUnchanged(s, i, refunds, b);
    }
  }

  lemma OwnTakes(s: State, i: nat, refunds: bool, b: nat)
    requires Consistent(s) && b < |s.bookings| && s.bookings[b].status.Pending? && s.bookings[b].Tracks(i)
    requires i < |s.intents| && s.intents[i].status.Captured?
    ensures var s' := Succeeded(s, i, refunds).0;
            b < |s'.bookings| && (s'.bookings[b].status.Pending? <==> !Room(s, b) && !refunds)
  {
    PaidHoldSettles(s, b, i, refunds);
  }

  /** The event of an intent touches only the row that tracks it. */
  lemma OthersUnchanged(s: State, i: nat, refunds: bool, b: nat)
    requires b < |s.bookings| && FindTracked(s.bookings, i) != Some(b)
    ensures var s' := Succeeded(s, i, refunds).0; b < |s'.bookings| && s'.bookings[b] == s.bookings[b]
  {
    SucceededCases(s, i, refunds);
  }

  lemma WebhookTakes(s: State, i: nat, e: Event, b: nat)
    requires Consistent(s) && b < |s.bookings| && s.bookings[b].status.Pending?
    ensures var s' := Deliver(s, i, e).0; b < |s'.bookings| && (s'.bookings[b].status.Pending? <==>
            !Takes(s, Webhook(i, e), b))
  {
    match e
    case FailedEvent =>
    case SucceededEvent(refunds) =>
      if i < |s.intents| && s.intents[i].status.Captured? {
        SucceededTakes(s, i, refunds, b);
      }
  }

  lemma CancelPendingStatus(s: State, c: nat, reply: CancelReply)
    requires c < |s.bookings|
    ensures var s' := CancelPending(s, c, reply).0;
            && |s'.bookings| == |s.bookings| && s'.bookings[c].status.Cancelled?
            && forall b :: 0 <= b < |s.bookings| && b != c ==> s'.bookings[b] == s.bookings[b]
  {}

  lemma CancelConfirmedOthers(s: State, c: nat, refunds: bool, b: nat)
    requires c < |s.bookings| && b < |s.bookings| && b != c
    ensures var s' := CancelConfirmed(s, c, refunds).0; b < |s'.bookings| && s'.bookings[b] == s.bookings[b]
  {}

  lemma CancelTakes(s: State, user: nat, admin: bool, c: nat, reply: CancelReply, refunds: bool, b: nat)
    requires b < |s.bookings| && s.bookings[b].status.Pending?
    ensures var s' := Cancel(s, user, admin, c, reply, refunds).0;
            b < |s'.bookings| && (s'.bookings[b].status.Pending? <==>
                !Takes(s, CancelOrder(user, admin, c, reply, refunds), b))
  {
    if c < |s.bookings| {
      CancelPendingStatus(s, c, reply);
      if c != b {
        CancelConfirmedOthers(s, c, refunds, b);
      }
    }
  }

  lemma SweepTakes(s: State, c: nat, threshold: Time, answers: Answers, b: nat)
    requires Consistent(s) && b < |s.bookings| && s.bookings[b].status.Pending?
    ensures var s' := Perform(s, SweepCandidate(c, threshold, answers));
            b < |s'.bookings| && (s'.bookings[b].status.Pending? <==>
                !Takes(s, SweepCandidate(c, threshold, answers), b))
  {
    if c == b {
      OwnTurn(s, threshold, answers, b);
    } else {
      OthersTurn(s, c, threshold, answers, b);
    }
  }

  lemma OwnTurn(s: State, threshold: Time, answers: Answers, b: nat)
    requires Consistent(s) && b < |s.bookings| && s.bookings[b].status.Pending?
    ensures var s' := Perform(s, SweepCandidate(b, threshold, answers));
            b < |s'.bookings| && (s'.bookings[b].status.Pending? <==>
                !Takes(s, SweepCandidate(b, threshold, answers), b))
  {
    if s.bookings[b].createdAt <= threshold {
      SweepResolves(s, b, threshold, answers);
    }
  }

  lemma OthersTurn(s: State, c: nat, threshold: Time, answers: Answers, b: nat)
    requires Consistent(s) && b < |s.bookings| && c != b
    ensures var s' := Perform(s, SweepCandidate(c, threshold, answers));
            b < |s'.bookings| && s'.bookings[b] == s.bookings[b]
  {
    if c >= |s.bookings| || !s.bookings[c].status.Pending? || s.bookings[c].createdAt > threshold {
      NotSwept(s, c, threshold, answers);
    } else {
      SweepResolves(s, c, threshold, answers);
    }
  }

  /** A step takes a booking out of PENDING exactly under those guards, whatever lands inside it. */
  lemma TakesExactly(s: State, step: Step, b: nat)
    requires Consistent(s) && b < |s.bookings| && s.bookings[b].status.Pending?
    ensures b < |Apply(s, step).bookings|
    ensures Apply(s, step).bookings[b].status.Pending? <==> !Takes(s, step, b)
  {
    TakesByCore(s, step, b);
    if !Core(step).Interrupted? {
      PerformTakes(s, Core(step), b);
    }
    if Lands(s, step) {
      LandShape(s, Perform(s, step.locked), step.at, step.requests);
    }
  }

  lemma TakesByCore(s: State, step: Step, b: nat)
    ensures !Core(step).Interrupted? ==> Takes(s, step, b) == Takes(s, Core(step), b)
    ensures Core(step).Interrupted? ==> !Takes(s, step, b) && Perform(s, Core(step)) == s && !Lands(s, step)
  {}

  lemma PerformTakes(s: State, step: Step, b: nat)
    requires Consistent(s) && b < |s.bookings| && s.bookings[b].status.Pending? && !step.Interrupted?
    ensures b < |Perform(s, step).bookings|
    ensures Perform(s, step).bookings[b].status.Pending? <==> !Takes(s, step, b)
  {
    match step
    case PayFor(_, _, _, _) => PaymentTakes(s, step, b);
    case ResumePay(_, _) => PaymentTakes(s, step, b);
    case Webhook(_, _) => PaymentTakes(s, step, b);
    case CancelOrder(user, admin, c, reply, refunds) => CancelTakes(s, user, admin, c, reply, refunds, b);
    case SweepCandidate(c, threshold, answers) => SweepTakes(s, c, threshold, answers, b);
    case _ => StepLeaves(s, step, b);
  }

  lemma PaymentTakes(s: State, step: Step, b: nat)
    requires Consistent(s) && b < |s.bookings| && s.bookings[b].status.Pending? && IsPayment(step)
    ensures b < |Perform(s, step).bookings| && (Perform(s, step).bookings[b].status.Pending? <==> !Takes(s, step, b))
  {
    match step
    case PayFor(user, c, retrieves, creates) => PayTakes(s, user, c, retrieves, creates, b);
    case ResumePay(c, creates) => ResumeRow(s, c, creates);
    case Webhook(i, event) => WebhookTakes(s, i, event, b);
  }

  lemma StepLeaves(s: State, step: Step, b: nat)
    requires b < |s.bookings|
    requires IsCatalogue(step) || step.Tick? || step.Book? || step.StripeMoves?
    ensures b < |Perform(s, step).bookings| && Perform(s, step).bookings[b] == s.bookings[b]
  {
    if step.Book? && step.order.quantity >= 1 && CreateBooking(s, step.user, step.order).1.Success? {
      assert Perform(s, step).bookings == s.bookings + [NewHold(s, step.user, step.order)];
    }
  }

  // ---------------------------------------------------------------- over runs

  /** The clock goes forward, new rows are new holds, and what left PENDING stays out. */
  ghost predicate Onward(s: State, s': State) {
    && s.now <= s'.now
    && |s.bookings| <= |s'.bookings|
    && (forall b :: 0 <= b < |s.bookings| ==> s'.bookings[b].createdAt == s.bookings[b].createdAt)
    && (forall b :: 0 <= b < |s.bookings| && !s.bookings[b].status.Pending? ==> !s'.bookings[b].status.Pending?)
    && (forall b :: |s.bookings| <= b < |s'.bookings| ==> s'.bookings[b].createdAt >= s.now)
  }

  lemma StepOnward(s: State, step: Step)
    requires Consistent(s)
    ensures Onward(s, Apply(s, step))
  {
    PerformOnward(s, Core(step));
    if Lands(s, step) {
      LandShape(s, Perform(s, step.locked), step.at, step.requests);
    }
  }

  lemma PerformOnward(s: State, step: Step)
    requires Consistent(s)
    ensures Onward(s, Perform(s, step))
  {
    var t := Perform(s, step);
    PerformExtends(s, step);
    forall b | 0 <= b < |s.bookings| ensures t.bookings[b].createdAt == s.bookings[b].createdAt {
      assert OrderKept(s.bookings[b], t.bookings[b]);
    }
    if step.ResumePay? {
      ResumeRow(s, step.booking, step.creates);
    } else {
      PerformSteady(s, step);
      forall b | 0 <= b < |s.bookings| && !s.bookings[b].status.Pending? ensures !t.bookings[b].status.Pending? {
        assert RowSteady(s, t, b);
      }
      forall b | |s.bookings| <= b < |t.bookings| ensures t.bookings[b].createdAt >= s.now {
        assert NewHoldRow(t.bookings[b], s.now);
      }
    }
  }

  lemma OnwardTrans(a: State, b: State, c: State)
    requires Onward(a, b) && Onward(b, c)
    ensures Onward(a, c)
  {}

  /** What has left PENDING never returns to it, on any run. */
  lemma {:induction false} NeverPendingAgain(s: State, steps: seq<Step>)
    requires Consistent(s)
    ensures Onward(s, RunFrom(s, steps))
    decreases |steps|
  {
    if steps != [] {
      var last := |steps| - 1;
      NeverPendingAgain(s, steps[..last]);
      RunFromConsistent(s, steps[..last]);
      StepOnward(RunFrom(s, steps[..last]), steps[last]);
      OnwardTrans(s, RunFrom(s, steps[..last]), RunFrom(s, steps));
    }
  }

  /** Step k of the run takes the booking out of PENDING. */
  predicate TakenAt(s: State, steps: seq<Step>, k: nat, b: nat)
    requires k < |steps|
  {
    Takes(RunFrom(s, steps[..k]), steps[k], b)
  }

  /** No step of the run takes the booking out of PENDING. */
  ghost predicate Untaken(s: State, steps: seq<Step>, b: nat) {
    forall k :: 0 <= k < |steps| ==> !TakenAt(s, steps, k, b)
  }

  lemma TakenAtPrefix(s: State, steps: seq<Step>, last: nat, k: nat, b: nat)
    requires k < last <= |steps|
    ensures TakenAt(s, steps[..last], k, b) == TakenAt(s, steps, k, b)
  {
    assert steps[..last][..k] == steps[..k];
  }

  lemma UntakenPrefix(s: State, steps: seq<Step>, b: nat, last: nat)
    requires Untaken(s, steps, b) && last <= |steps|
    ensures Untaken(s, steps[..last], b)
  {
    forall k | 0 <= k < last ensures !TakenAt(s, steps[..last], k, b) {
      TakenAtPrefix(s, steps, last, k, b);
    }
  }

  /** What a run takes is taken by its last step or before it. */
  lemma TakenLastOrBefore(s: State, steps: seq<Step>, b: nat, last: nat)
    requires last + 1 == |steps| && !Untaken(s, steps, b)
    ensures TakenAt(s, steps, last, b) || !Untaken(s, steps[..last], b)
  {
    var k :| 0 <= k < |steps| && TakenAt(s, steps, k, b);
    if k == last {
      assert TakenAt(s, steps, last, b);
    } else {
      TakenAtPrefix(s, steps, last, k, b);
    }
  }

  /** A pending booking is still pending at the end of a run if and only if no step takes it. */
  lemma {:induction false} PendingIffUntaken(s: State, steps: seq<Step>, b: nat)
    requires Consistent(s) && b < |s.bookings| && s.bookings[b].status.Pending?
    ensures b < |RunFrom(s, steps).bookings|
    ensures RunFrom(s, steps).bookings[b].status.Pending? <==> Untaken(s, steps, b)
    decreases |steps|
  {
    if steps != [] {
      var last := |steps| - 1;
      var before := RunFrom(s, steps[..last]);
      PendingIffUntaken(s, steps[..last], b);
      RunFromConsistent(s, steps[..last]);
      StepOnward(before, steps[last]);
      if before.bookings[b].status.Pending? {
        TakesExactly(before, steps[last], b);
      }
      if Untaken(s, steps, b) {
        UntakenPrefix(s, steps, b, last);
        assert !TakenAt(s, steps, last, b);
      } else {
        TakenLastOrBefore(s, steps, b, last);
      }
    }
  }

  // ---------------------------------------------------------------- the whole sweep

  lemma {:induction false} CandidatesExact(bookings: seq<Booking>, threshold: Time)
    ensures forall b: nat :: b in Candidates(bookings, threshold) <==> b < |bookings| && Expired(bookings[b], threshold)
    ensures Distinct(Candidates(bookings, threshold))
  {
    if bookings != [] {
      var last := |bookings| - 1;
      CandidatesExact(bookings[..last], threshold);
      var earlier := Candidates(bookings[..last], threshold);
      assert forall b: nat :: b < last ==> bookings[..last][b] == bookings[b];
      assert forall k :: 0 <= k < |earlier| ==> earlier[k] in earlier;
      assert Candidates(bookings, threshold) == earlier + (if Expired(bookings[last], threshold) then [last] else []);
    }
  }

  /** `steps[t]` is the turn of candidate `b` in the sweep with this threshold. */
  predicate Turn(steps: seq<Step>, t: nat, b: nat, threshold: Time) {
    && t < |steps|
    && var core := Core(steps[t]);
       core.SweepCandidate? && core.booking == b && core.threshold == threshold
  }

  /** No step but the candidate's own turn takes it. */
  ghost predicate UntakenByOthers(s: State, steps: seq<Step>, b: nat, t: nat) {
    forall k :: 0 <= k < |steps| && k != t ==> !TakenAt(s, steps, k, b)
  }

  /**
   * The candidate's turn, whatever other steps run before and after it: a booking pending at or past the
   * threshold when the sweep starts is still pending at the end if and only if it was stuck at its turn and
   * no other step took it.
   */
  lemma TurnDecides(s: State, steps: seq<Step>, threshold: Time, b: nat, t: nat)
    requires Consistent(s) && threshold <= s.now - HOLD
    requires b < |s.bookings| && Expired(s.bookings[b], threshold) && Turn(steps, t, b, threshold)
    ensures b < |RunFrom(s, steps[..t]).bookings| && b < |RunFrom(s, steps).bookings|
    ensures Expired(RunFrom(s, steps).bookings[b], threshold) <==>
              Stuck(RunFrom(s, steps[..t]), b, Core(steps[t]).answers) && UntakenByOthers(s, steps, b, t)
  {
    var turn := RunFrom(s, steps[..t]);
    NeverPendingAgain(s, steps[..t]);
    NeverPendingAgain(s, steps);
    PendingIffUntaken(s, steps, b);
    PendingIffUntaken(s, steps[..t], b);
    if turn.bookings[b].status.Pending? {
      TurnTakes(turn, steps[t], b);
      assert TakenAt(s, steps, t, b) <==> !Stuck(turn, b, Core(steps[t]).answers);
    } else {
      TakenBefore(s, steps, b, t);
    }
  }

  /** At its turn a pending candidate is taken unless it is stuck. */
  lemma TurnTakes(s: State, step: Step, b: nat)
    requires Core(step).SweepCandidate? && Core(step).booking == b && Core(step).threshold <= s.now - HOLD
    requires b < |s.bookings| && Expired(s.bookings[b], Core(step).threshold)
    ensures Takes(s, step, b) <==> !Stuck(s, b, Core(step).answers)
  {}

  /** A booking that is no longer pending at its turn was taken by an earlier step. */
  lemma TakenBefore(s: State, steps: seq<Step>, b: nat, t: nat)
    requires t < |steps| && !Untaken(s, steps[..t], b)
    ensures !UntakenByOthers(s, steps, b, t)
  {
    var k :| 0 <= k < t && TakenAt(s, steps[..t], k, b);
    TakenAtPrefix(s, steps, t, k, b);
  }

  /**
   * After a sweep, and whatever ran meanwhile, what is pending at or past the threshold is exactly the
   * candidates no step took: no new hold and no booking that had left PENDING is among them.
   */
  lemma SweepExact(s: State, steps: seq<Step>, threshold: Time, b: nat)
    requires Consistent(s) && threshold <= s.now - HOLD
    requires b < |RunFrom(s, steps).bookings|
    ensures Expired(RunFrom(s, steps).bookings[b], threshold) <==>
              b in Candidates(s.bookings, threshold) && Untaken(s, steps, b)
  {
    CandidatesExact(s.bookings, threshold);
    NeverPendingAgain(s, steps);
    if b < |s.bookings| && s.bookings[b].status.Pending? {
      PendingIffUntaken(s, steps, b);
    }
  }

  /** Every candidate has a turn at which Stripe gives a verdict, and a refund that is needed goes through. */
  ghost predicate Definite(s: State, steps: seq<Step>, threshold: Time) {
    forall b :: b in Candidates(s.bookings, threshold) ==> exists t: nat :: Resolved(s, steps, threshold, b, t)
  }

  ghost predicate Resolved(s: State, steps: seq<Step>, threshold: Time, b: nat, t: nat) {
    && Turn(steps, t, b, threshold) && Core(steps[t]).answers.refunds
    && var turn := RunFrom(s, steps[..t]);
       && b < |turn.bookings|
       && (turn.bookings[b].payment.Some? && turn.bookings[b].payment.value.intent.StripeIntent? ==>
             var i := turn.bookings[b].payment.value.intent.id;
             i < |turn.intents| && !NoVerdict(turn.intents[i].status, Core(steps[t]).answers))
  }

  /** Then no pending booking at or past the threshold is left, whatever ran meanwhile. */
  lemma DefiniteSweepLeavesNone(s: State, steps: seq<Step>, threshold: Time, b: nat)
    requires Consistent(s) && threshold <= s.now - HOLD
    requires Definite(s, steps, threshold)
    requires b < |RunFrom(s, steps).bookings|
    ensures !Expired(RunFrom(s, steps).bookings[b], threshold)
  {
    CandidatesExact(s.bookings, threshold);
    SweepExact(s, steps, threshold, b);
    if b in Candidates(s.bookings, threshold) {
      var t: nat :| Resolved(s, steps, threshold, b, t);
      TurnDecides(s, steps, threshold, b, t);
    }
  }

  /** Ten minutes after any hold was taken, on every run, a sweep resolves it unless it is stuck at that time. */
  lemma HoldRunsOut(steps: seq<Step>, b: nat, later: Time, answers: Answers)
    requires b < |Run(steps).bookings| && Run(steps).bookings[b].status.Pending?
    requires Run(steps).now <= later && Run(steps).bookings[b].createdAt + 600_000_000 <= later
    ensures var due := Run(steps).(now := later);
            var f := Run(steps + [Tick(later)] + [SweepCandidate(b, later - 600_000_000, answers)]);
            f.now == later && b < |f.bookings| && (f.bookings[b].status.Pending? <==> Stuck(due, b, answers))
  {
    TimePasses(steps, later);
    RunExtends(steps + [Tick(later)], SweepCandidate(b, later - 600_000_000, answers));
    DueTurn(Run(steps).(now := later), b, answers);
  }

  lemma DueTurn(s: State, b: nat, answers: Answers)
    requires Consistent(s) && b < |s.bookings| && s.bookings[b].status.Pending?
    requires s.bookings[b].createdAt + 600_000_000 <= s.now
    ensures var s' := Apply(s, SweepCandidate(b, s.now - 600_000_000, answers));
            s'.now == s.now && b < |s'.bookings| && (s'.bookings[b].status.Pending? <==> Stuck(s, b, answers))
  {
    SweepResolves(s, b, s.now - 600_000_000, answers);
  }

  lemma TimePasses(steps: seq<Step>, later: Time)
    requires Run(steps).now <= later
    ensures Run(steps + [Tick(later)]) == Run(steps).(now := later) && Consistent(Run(steps).(now := later))
  {
    RunExtends(steps, Tick(later));
    RunConsistent(steps + [Tick(later)]);
  }

  // ---------------------------------------------------------------- the loop as a run

  /** The first k candidates of a sweep in turn, with `between(j)` committed by others before turn j. */
  function SweepRun(ids: seq<nat>, threshold: Time, answers: nat -> Answers, between: nat -> seq<Step>,
                    k: nat): seq<Step>
    requires k <= |ids|
  {
    if k == 0 then []
    else SweepRun(ids, threshold, answers, between, k - 1) + between(k - 1)
         + [SweepCandidate(ids[k - 1], threshold, answers(k - 1))]
  }

  /** Where candidate j has its turn. */
  function TurnOf(ids: seq<nat>, threshold: Time, answers: nat -> Answers, between: nat -> seq<Step>, j: nat): nat
    requires j < |ids|
  {
    |SweepRun(ids, threshold, answers, between, j) + between(j)|
  }

  lemma {:induction false} EveryCandidateHasItsTurn(ids: seq<nat>, threshold: Time, answers: nat -> Answers,
                                                    between: nat -> seq<Step>, j: nat, k: nat)
    requires j < k <= |ids|
    ensures var steps := SweepRun(ids, threshold, answers, between, k);
            var t := TurnOf(ids, threshold, answers, between, j);
            t < |steps| && steps[t] == SweepCandidate(ids[j], threshold, answers(j))
  {
    if j < k - 1 {
      EveryCandidateHasItsTurn(ids, threshold, answers, between, j, k - 1);
    }
  }

  lemma SweepRunNext(s: State, ids: seq<nat>, threshold: Time, answers: nat -> Answers, between: nat -> seq<Step>,
                     k: nat)
    requires k < |ids|
    ensures RunFrom(s, SweepRun(ids, threshold, answers, between, k + 1))
         == Apply(RunFrom(RunFrom(s, SweepRun(ids, threshold, answers, between, k)), between(k)),
             SweepCandidate(ids[k], threshold, answers(k)))
  {
    var before := SweepRun(ids, threshold, answers, between, k);
    var turn := SweepCandidate(ids[k], threshold, answers(k));
    RunFromAppend(s, before, between(k));
    assert (before + between(k) + [turn])[..|before + between(k)|] == before + between(k);
  }
}
