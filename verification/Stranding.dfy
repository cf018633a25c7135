// Intents that no payment row points at although they can still take money, or have taken it. The guards that
// lose sight of an intent are characterised exactly, for single steps and along runs.

module Stranding {
  import opened Entities
  import opened Stripe
  import opened Reservations
  import opened Payments
  import opened Sweeper
  import opened Invariants
  import opened RowProofs
  import opened HandlerProofs
  import opened Runs

  // ---------------------------------------------------------------- the stranded intent

  /** Still able to take the customer's money, or having taken it, with no payment row pointing at it. */
  predicate Stranded(s: State, i: nat) {
    i < |s.intents| && !s.intents[i].status.Voided? && !Tracked(s.bookings, s.intents, i)
  }

  /**
   * The first guard: the payment is FAILED, the retrieve call raises or answers `processing`, and the
   * handler falls through to a new intent that Stripe does create.
   */
  predicate FallsThrough(s: State, step: Step, i: nat) {
    && step.PayFor?
    && step.booking < |s.bookings|
    && var bk := s.bookings[step.booking];
       && Acts(s, step.user) && bk.user == step.user && Payable(bk, s.now)
       && bk.payment.Some? && bk.payment.value.status.PaymentFailed? && bk.Tracks(i)
       && i < |s.intents| && !s.intents[i].status.Voided?
       && (!step.retrieves || s.intents[i].status.InProcess?)
       && step.creates
  }

  /** A request goes on after its first commit, and Stripe does create its intent. */
  predicate Reopens(s: State, step: Step) {
    step.ResumePay? && step.creates && step.booking in s.resuming && step.booking < |s.bookings|
  }

  /** The second guard: by then the payment row tracks an intent that is not void. */
  predicate ResumesOver(s: State, step: Step, i: nat) {
    && Reopens(s, step)
    && s.bookings[step.booking].Tracks(i)
    && i < |s.intents| && !s.intents[i].status.Voided?
  }

  /** The third guard: a pay request opens an intent on a row that says CANCELED although its intent is not void. */
  predicate ReopensLive(s: State, step: Step, i: nat) {
    && step.PayFor?
    && step.booking < |s.bookings|
    && var bk := s.bookings[step.booking];
       && Acts(s, step.user) && bk.user == step.user && Payable(bk, s.now)
       && bk.payment.Some? && bk.payment.value.status.PaymentCanceled? && bk.Tracks(i)
       && i < |s.intents| && !s.intents[i].status.Voided?
       && step.creates
  }

  /**
   * The fourth guard: requests land inside a transaction. If it opens an intent of its own, its write hides
   * theirs; otherwise they hide each other, and the intent the row tracked unless the transaction found it void
   * or voided it.
   */
  predicate LandsOver(s: State, step: Step, i: nat) {
    && Lands(s, step)
    && LandedOver(s, Perform(s, step.locked), step.at, step.requests, i)
  }

  predicate LandedOver(s: State, t: State, b: nat, k: nat, i: nat)
    requires Splits(s, t, b, k)
  {
    if Opened(s, t, b) then |t.intents| <= i < |t.intents| + k
    else
      || |t.intents| <= i < |t.intents| + k - 1
      || (t.bookings[b].Tracks(i) && i < |t.intents| && !t.intents[i].status.Voided?)
  }

  /** One transaction, nothing landing inside it, loses sight of the intent. */
  predicate StrandsAlone(s: State, step: Step, i: nat) {
    FallsThrough(s, step, i) || ResumesOver(s, step, i) || ReopensLive(s, step, i)
  }

  predicate Strands(s: State, step: Step, i: nat) {
    StrandsAlone(s, Core(step), i) || LandsOver(s, step, i)
  }

  /** Payment rows point at the same intents, and intents keep their bookings. */
  ghost predicate SameTracking(s: State, s': State) {
    && |s.bookings| <= |s'.bookings|
    && |s'.intents| == |s.intents|
    && (forall b :: 0 <= b < |s.bookings| ==> SameIntentOf(s.bookings[b], s'.bookings[b]))
    && (forall i :: 0 <= i < |s.intents| ==> s'.intents[i].booking == s.intents[i].booking)
  }

  predicate SameIntentOf(bk: Booking, bk': Booking) {
    && (bk'.payment.Some? <==> bk.payment.Some?)
    && (bk.payment.Some? ==> bk'.payment.value.intent == bk.payment.value.intent)
  }

  lemma SameTrackingSame(s: State, s': State, i: nat)
    requires Consistent(s) && SameTracking(s, s')
    ensures Tracked(s'.bookings, s'.intents, i) == Tracked(s.bookings, s.intents, i)
  {
    if i < |s.intents| {
      assert IntentPriced(s.intents[i], s.bookings);
      assert SameIntentOf(s.bookings[s.intents[i].booking], s'.bookings[s.intents[i].booking]);
    }
  }

  lemma RowSameTracking(s: State, s': State, b: nat, bk: Booking)
    requires b < |s.bookings| && s'.bookings == s.bookings[b := bk] && SameIntentOf(s.bookings[b], bk)
    requires |s'.intents| == |s.intents|
    requires forall i :: 0 <= i < |s.intents| ==> s'.intents[i].booking == s.intents[i].booking
    ensures SameTracking(s, s')
  {}

  /** Only a payment attempt makes a payment row point anywhere else. */
  lemma OthersSameTracking(s: State, step: Step)
    requires !step.PayFor? && !step.ResumePay?
    ensures SameTracking(s, Perform(s, step))
  {
    match step
    case Webhook(i, event) => DeliverSameTracking(s, i, event);
    case CancelOrder(user, admin, b, reply, refunds) => CancelSameTracking(s, user, admin, b, reply, refunds);
    case SweepCandidate(b, threshold, answers) => SweepSameTracking(s, b, threshold, answers);
    case Book(user, order) => BookSameTracking(s, user, order);
    case StripeMoves(i, to) => StripeSameTracking(s, i, to);
    case Interrupted(_, _, _) =>
    case _ => CatalogueSameTracking(s, step);
  }

  lemma BookSameTracking(s: State, user: nat, order: Order)
    ensures SameTracking(s, CreateBooking(s, user, order).0)
  {
    var (s', reply) := CreateBooking(s, user, order);
    if reply.Success? {
      assert s'.bookings == s.bookings + [NewHold(s, user, order)];
    }
  }

  lemma StripeSameTracking(s: State, i: nat, to: IntentStatus)
    ensures SameTracking(s, Perform(s, StripeMoves(i, to)))
  {}

  lemma CatalogueSameTracking(s: State, step: Step)
    requires IsCatalogue(step) || step.Tick?
    ensures SameTracking(s, Perform(s, step))
  {
    var s' := Perform(s, step);
    assert s'.bookings == s.bookings && s'.intents == s.intents;
  }

  lemma DeliverSameTracking(s: State, i: nat, e: Event)
    ensures SameTracking(s, Deliver(s, i, e).0)
  {
    match e
    case FailedEvent => FailedSameTracking(s, i);
    case SucceededEvent(refunds) => SucceededSameTracking(s, i, refunds);
  }

  lemma FailedSameTracking(s: State, i: nat)
    ensures SameTracking(s, Failed(s, i).0)
  {
    var found := FindTracked(s.bookings, i);
    if found.Some? {
      var s' := Failed(s, i).0;
      RowSameTracking(s, s', found.value, s'.bookings[found.value]);
    }
  }

  lemma SucceededSameTracking(s: State, i: nat, refunds: bool)
    ensures SameTracking(s, Succeeded(s, i, refunds).0)
  {
    SucceededCases(s, i, refunds);
    var found := FindTracked(s.bookings, i);
    if found.Some? {
      var b := found.value;
      var p := s.bookings[b].payment.value;
      RowSameTracking(s, Acknowledge(PutPayment(s, b, p.(status := PaymentSucceeded)), i), b,
                      s.bookings[b].(payment := Some(p.(status := PaymentSucceeded))));
      RowSameTracking(s, Acknowledge(Confirm(s, b), i), b, Confirm(s, b).bookings[b]);
      RowSameTracking(s, Acknowledge(AutoRefundAndCancel(s, b, i), i), b, AutoRefunded(s.bookings[b]));
    }
  }

  lemma CancelSameTracking(s: State, user: nat, admin: bool, b: nat, reply: CancelReply, refunds: bool)
    ensures SameTracking(s, Cancel(s, user, admin, b, reply, refunds).0)
  {
    if b < |s.bookings| {
      if s.bookings[b].status.Confirmed? {
        CancelConfirmedSameTracking(s, b, refunds);
      }
      CancelPendingSameTracking(s, b, reply);
    }
  }

  lemma CancelConfirmedSameTracking(s: State, b: nat, refunds: bool)
    requires b < |s.bookings| && s.bookings[b].status.Confirmed?
    ensures SameTracking(s, CancelConfirmed(s, b, refunds).0)
  {
    var bk := s.bookings[b];
    if bk.payment.None? || !bk.payment.value.status.PaymentSucceeded? {
      RowSameTracking(s, Withdraw(s, b, 0), b, Withdraw(s, b, 0).bookings[b]);
    } else {
      var p := bk.payment.value;
      assert SameTracking(s, s);
      if CancelConfirmed(s, b, refunds).1.Success? {
        HandRefundShape(s, b, p, refunds, CancelConfirmed(s, b, refunds).0);
        RowSameTracking(s, CancelConfirmed(s, b, refunds).0, b, HandRefunded(bk, p));
      }
    }
  }

  lemma CancelPendingSameTracking(s: State, b: nat, reply: CancelReply)
    requires b < |s.bookings|
    ensures SameTracking(s, CancelPending(s, b, reply).0)
  {
    var s' := CancelPending(s, b, reply).0;
    assert s'.bookings == s.bookings[b := s'.bookings[b]];
    RowSameTracking(s, s', b, s'.bookings[b]);
  }

  lemma SweepSameTracking(s: State, b: nat, threshold: Time, answers: Answers)
    ensures SameTracking(s, SweepOne(s, b, threshold, answers))
  {
    if b < |s.bookings| && Expired(s.bookings[b], threshold) {
      RowSameTracking(s, Release(s, b), b, Release(s, b).bookings[b]);
      if s.bookings[b].payment.Some? && s.bookings[b].payment.value.intent.StripeIntent? {
        SweepIntentSameTracking(s, b, s.bookings[b].payment.value, answers);
      }
    }
  }

  lemma SweepIntentSameTracking(s: State, b: nat, p: Payment, answers: Answers)
    requires b < |s.bookings| && s.bookings[b].payment == Some(p) && p.intent.StripeIntent?
    ensures SameTracking(s, SweepIntent(s, b, p.intent.id, answers))
  {
    var (intents, verdict) := Ask(s, p.intent.id, answers);
    match verdict
    case Unknown =>
    case IsCanceled => VoidedReleaseSameTracking(s, b, p, intents);
    case IsSucceeded =>
      RowSameTracking(s, Confirm(s, b), b, Confirm(s, b).bookings[b]);
      RefundReleaseRow(s, b, p.intent.id, p);
      RowSameTracking(s, RefundAndRelease(s, b, p.intent.id, p), b, AutoRefunded(s.bookings[b]));
  }

  lemma VoidedReleaseSameTracking(s: State, b: nat, p: Payment, intents: seq<Intent>)
    requires b < |s.bookings| && s.bookings[b].payment == Some(p)
    requires |intents| == |s.intents| && forall i :: 0 <= i < |intents| ==> intents[i].booking == s.intents[i].booking
    ensures SameTracking(s, Release(PutPayment(s.(intents := intents), b, p.(status := PaymentCanceled)), b))
  {
    VoidedReleaseRow(s, b, p, intents);
    var s' := Release(PutPayment(s.(intents := intents), b, p.(status := PaymentCanceled)), b);
    RowSameTracking(s, s', b, s'.bookings[b]);
  }

  // ---------------------------------------------------------------- payment attempts

  /** A new intent takes over the booking's payment row; every other intent is tracked as before. */
  ghost predicate Retracks(s: State, s': State, b: nat)
    requires b < |s.bookings|
  {
    && s'.intents == s.intents + [Intent(b, s.bookings[b].total, NeedsMethod)]
    && forall i: nat :: Tracked(s'.bookings, s'.intents, i) <==>
          i == |s.intents| || (Tracked(s.bookings, s.intents, i) && s.intents[i].booking != b)
  }

  lemma FreshRetracks(s: State, b: nat)
    requires Consistent(s) && b < |s.bookings| && s.bookings[b].total > 0
    ensures Retracks(s, OpenIntent(s, b, true).0, b)
  {
    FreshShape(s, b);
    if s.bookings[b].payment.None? {
      UnpaidHasNoIntent(s, b);
    }
    assert FreshRow(s, b).Tracks(|s.intents|);
    forall i | 0 <= i < |s.intents| ensures s.intents[i].booking < |s.bookings| {
      assert IntentPriced(s.intents[i], s.bookings);
    }
  }

  lemma OpenIntentRetracks(s: State, b: nat, creates: bool)
    requires Consistent(s) && b < |s.bookings|
    requires Payable(s.bookings[b], s.now) || Resumable(s.bookings, b)
    ensures var s' := OpenIntent(s, b, creates).0;
            if creates && s.bookings[b].total > 0 then Retracks(s, s', b)
            else s'.intents == s.intents
                 && forall i: nat ::
                      Tracked(s'.bookings, s'.intents, i) == Tracked(s.bookings, s.intents, i)
  {
    if s.bookings[b].total == 0 {
      FreeSameTracking(s, b, creates);
    } else if creates {
      FreshRetracks(s, b);
    }
  }

  lemma FreeSameTracking(s: State, b: nat, creates: bool)
    requires Consistent(s) && b < |s.bookings| && Payable(s.bookings[b], s.now) && s.bookings[b].total == 0
    ensures var s' := OpenIntent(s, b, creates).0;
            s'.intents == s.intents
            && forall i: nat :: Tracked(s'.bookings, s'.intents, i) == Tracked(s.bookings, s.intents, i)
  {
    var s' := OpenIntent(s, b, creates).0;
    assert BookingSettles(b, s.bookings[b], s.intents, s.refunds);
    assert s'.bookings == s.bookings[b := s'.bookings[b]];
    UnpaidHasNoIntent(s, b);
    forall i | 0 <= i < |s.intents| ensures s.intents[i].booking < |s.bookings| {
      assert IntentPriced(s.intents[i], s.bookings);
    }
  }

  lemma PutStatusSameTracking(s: State, b: nat, p: Payment, status: PaymentStatus)
    requires Consistent(s) && b < |s.bookings| && s.bookings[b].payment == Some(p)
    ensures forall i: nat ::
              Tracked(PutPayment(s, b, p.(status := status)).bookings, s.intents, i)
                == Tracked(s.bookings, s.intents, i)
  {
    var s' := PutPayment(s, b, p.(status := status));
    forall i: nat ensures Tracked(s'.bookings, s'.intents, i) == Tracked(s.bookings, s.intents, i) {
      RowSameTracking(s, s', b, s'.bookings[b]);
      SameTrackingSame(s, s', i);
    }
  }

  lemma ConfirmSameTracking(s: State, b: nat)
    requires Consistent(s) && b < |s.bookings| && s.bookings[b].payment.Some?
    ensures forall i: nat :: Tracked(Confirm(s, b).bookings, s.intents, i) == Tracked(s.bookings, s.intents, i)
  {
    var s' := Confirm(s, b);
    forall i: nat ensures Tracked(s'.bookings, s'.intents, i) == Tracked(s.bookings, s.intents, i) {
      RowSameTracking(s, s', b, s'.bookings[b]);
      SameTrackingSame(s, s', i);
    }
  }

  /** The only tracked intent of a booking is the one in its payment row. */
  lemma OwnIntentIsTracked(s: State, b: nat, p: Payment, i: nat)
    requires Consistent(s) && b < |s.bookings| && s.bookings[b].payment == Some(p)
    ensures Tracked(s.bookings, s.intents, i) && s.intents[i].booking == b ==> p.intent == StripeIntent(i)
    ensures p.intent == StripeIntent(i) ==> Tracked(s.bookings, s.intents, i)
  {
    assert BookingSettles(b, s.bookings[b], s.intents, s.refunds);
  }

  lemma ReconcileOpenStrandsNothing(s: State, b: nat, p: Payment, retrieves: bool, i: nat)
    requires Consistent(s) && b < |s.bookings| && Payable(s.bookings[b], s.now) && s.bookings[b].payment == Some(p)
    requires !p.status.PaymentCanceled?
    ensures Stranded(ReconcileOpen(s, b, p, retrieves).0, i) ==> Stranded(s, i)
  {
    PendingPayment(s, b, p);
    match Retrieve(s.intents, p.intent.id, retrieves)
    case Some(Captured) => ConfirmSameTracking(s, b);
    case Some(Voided) => PutStatusSameTracking(s, b, p, PaymentCanceled);
    case _ =>
  }

  /** Falling through to a new intent strands the tracked one unless Stripe has voided it. */
  lemma FallThroughStrands(s: State, b: nat, p: Payment, creates: bool, i: nat)
    requires Consistent(s) && b < |s.bookings| && Payable(s.bookings[b], s.now) && s.bookings[b].payment == Some(p)
    ensures p.intent == StripeIntent(i) ==> i < |s.intents|
    ensures Stranded(OpenIntent(s, b, creates).0, i) && !Stranded(s, i) <==>
              p.intent == StripeIntent(i) && !s.intents[i].status.Voided? && creates
  {
    PendingPayment(s, b, p);
    OwnIntentIsTracked(s, b, p, i);
    assert BookingSettles(b, s.bookings[b], s.intents, s.refunds);
    OpenIntentRetracks(s, b, creates);
  }

  lemma ReconcileFailedStrands(s: State, b: nat, p: Payment, retrieves: bool, creates: bool, i: nat)
    requires Consistent(s) && b < |s.bookings| && Payable(s.bookings[b], s.now) && s.bookings[b].payment == Some(p)
    requires p.status.PaymentFailed?
    ensures p.intent == StripeIntent(i) ==> i < |s.intents|
    ensures Stranded(ReconcileFailed(s, b, p, retrieves, creates).0, i) && !Stranded(s, i) <==>
              p.intent == StripeIntent(i) && !s.intents[i].status.Voided?
              && (!retrieves || s.intents[i].status.InProcess?) && creates
  {
    PendingPayment(s, b, p);
    match Retrieve(s.intents, p.intent.id, retrieves)
    case None => FallThroughStrands(s, b, p, creates, i);
    case Some(InProcess) => FallThroughStrands(s, b, p, creates, i);
    case Some(Captured) => ConfirmSameTracking(s, b);
    case Some(Voided) => PutStatusSameTracking(s, b, p, PaymentCanceled);
    case Some(_) => PutStatusSameTracking(s, b, p, RequiresPaymentMethod);
  }

  lemma PayStrands(s: State, user: nat, b: nat, retrieves: bool, creates: bool, i: nat)
    requires Consistent(s)
    ensures Stranded(Pay(s, user, b, retrieves, creates).0, i) && !Stranded(s, i) <==>
              StrandsAlone(s, PayFor(user, b, retrieves, creates), i)
  {
    if Acts(s, user) && b < |s.bookings| && s.bookings[b].user == user && Payable(s.bookings[b], s.now) {
      match s.bookings[b].payment
      case None => OpenIntentRetracks(s, b, creates); UnpaidHasNoIntent(s, b);
      case Some(p) =>
        PendingPayment(s, b, p);
        OwnIntentIsTracked(s, b, p, i);
        match p.status
        case PaymentSucceeded =>
        case PaymentFailed => ReconcileFailedStrands(s, b, p, retrieves, creates, i);
        case PaymentCanceled => OpenIntentRetracks(s, b, creates);
        case _ => ReconcileOpenStrandsNothing(s, b, p, retrieves, i);
    }
  }

  lemma ResumeStrands(s: State, b: nat, creates: bool, i: nat)
    requires Consistent(s)
    ensures Stranded(Resume(s, b, creates).0, i) && !Stranded(s, i) <==> ResumesOver(s, ResumePay(b, creates), i)
  {
    if b in s.resuming {
      assert Resumable(s.bookings, b);
      OwnIntentIsTracked(s, b, s.bookings[b].payment.value, i);
      OpenIntentRetracks(s.(resuming := s.resuming - multiset{b}), b, creates);
    }
  }

  lemma PerformStrands(s: State, step: Step, i: nat)
    requires Consistent(s)
    ensures Stranded(Perform(s, step), i) && !Stranded(s, i) <==> StrandsAlone(s, step, i)
  {
    if step.PayFor? {
      PayStrands(s, step.user, step.booking, step.retrieves, step.creates, i);
    } else if step.ResumePay? {
      ResumeStrands(s, step.booking, step.creates, i);
    } else {
      OthersStrandNobody(s, step, i);
    }
  }

  lemma OthersStrandNobody(s: State, step: Step, i: nat)
    requires Consistent(s) && !step.PayFor? && !step.ResumePay?
    ensures Stranded(Perform(s, step), i) ==> Stranded(s, i)
  {
    OthersSameTracking(s, step);
    SameTrackingSame(s, Perform(s, step), i);
    PerformExtends(s, step);
    assert i < |s.intents| ==> IntentKept(s.intents[i], Perform(s, step).intents[i]);
  }

  /** Landing strands what was stranded anyway, and what the fourth guard names. */
  lemma LandStrands(s: State, t: State, b: nat, k: nat, i: nat)
    requires Consistent(t) && Splits(s, t, b, k)
    ensures Stranded(Land(s, t, b, k), i) <==> Stranded(t, i) || LandedOver(s, t, b, k, i)
  {
    LandShape(s, t, b, k);
    OwnIntentIsTracked(t, b, t.bookings[b].payment.value, i);
    if i < |t.intents| {
      assert IntentPriced(t.intents[i], t.bookings);
    }
  }

  /** The fourth guard names intents that are new, or that the row tracked before the transaction. */
  lemma LandedOverIsNew(s: State, t: State, b: nat, k: nat, i: nat)
    requires Consistent(s) && Extends(s, t) && Splits(s, t, b, k) && LandedOver(s, t, b, k, i)
    ensures !Stranded(s, i)
  {
    if i < |t.intents| {
      OwnIntentIsTracked(s, b, s.bookings[b].payment.value, i);
    }
  }

  /** A step leaves an intent stranded that was not stranded before if and only if it passes one of the four guards. */
  lemma {:induction false} StrandsExactly(s: State, step: Step, i: nat)
    requires Consistent(s)
    ensures Stranded(Apply(s, step), i) && !Stranded(s, i) <==> Strands(s, step, i)
  {
    PerformStrands(s, Core(step), i);
    if Lands(s, step) {
      LandingStrands(s, step, i);
    }
  }

  lemma LandingStrands(s: State, step: Step, i: nat)
    requires Consistent(s) && Lands(s, step)
    requires Stranded(Perform(s, step.locked), i) && !Stranded(s, i) <==> StrandsAlone(s, step.locked, i)
    ensures Stranded(Apply(s, step), i) && !Stranded(s, i) <==> Strands(s, step, i)
  {
    var t := Perform(s, step.locked);
    PerformKeeps(s, step.locked);
    PerformExtends(s, step.locked);
    LandStrands(s, t, step.at, step.requests, i);
    if LandedOver(s, t, step.at, step.requests, i) {
      LandedOverIsNew(s, t, step.at, step.requests, i);
    }
  }

  // ---------------------------------------------------------------- over whole runs

  /** The state after every prefix of the run satisfies `p`. */
  ghost predicate Always(p: State -> bool, steps: seq<Step>) {
    p(Run(steps)) && (steps == [] || Always(p, steps[..|steps| - 1]))
  }

  /** No step of the run does `q` in the state it is taken in. */
  ghost predicate Never(q: (State, Step) -> bool, steps: seq<Step>) {
    steps == [] ||
    var last := |steps| - 1;
    Never(q, steps[..last]) && !q(Run(steps[..last]), steps[last])
  }

  /** If `q` is exactly what breaks `p` in one step, it is exactly what breaks `p` along a run. */
  lemma {:induction false} AlwaysIffNever(p: State -> bool, q: (State, Step) -> bool, steps: seq<Step>)
    requires p(INITIAL)
    requires forall s, step :: Consistent(s) && p(s) ==> (p(Apply(s, step)) <==> !q(s, step))
    ensures Always(p, steps) <==> Never(q, steps)
  {
    if steps != [] {
      var last := |steps| - 1;
      AlwaysIffNever(p, q, steps[..last]);
      if Always(p, steps[..last]) {
        RunConsistent(steps[..last]);
        assert p(Apply(Run(steps[..last]), steps[last])) <==> !q(Run(steps[..last]), steps[last]);
      }
    }
  }

  ghost predicate NothingStranded(s: State) {
    forall i :: 0 <= i < |s.intents| ==> !Stranded(s, i)
  }

  ghost predicate TakesStrandingBranch(s: State, step: Step) {
    exists i: nat :: Strands(s, step, i)
  }

  /** No step of the run passes one of the four guards. */
  ghost predicate NoStrandingStep(steps: seq<Step>) {
    Never(TakesStrandingBranch, steps)
  }

  lemma StepStrandsNothing(s: State, step: Step)
    requires Consistent(s) && NothingStranded(s)
    ensures NothingStranded(Apply(s, step)) <==> !TakesStrandingBranch(s, step)
  {
    var s' := Apply(s, step);
    forall i: nat ensures Stranded(s', i) <==> Strands(s, step, i) {
      StrandsExactly(s, step, i);
      assert Stranded(s, i) ==> i < |s.intents|;
    }
    StrandedNow(s, s', step);
  }

  lemma StrandedNow(s: State, s': State, step: Step)
    requires forall i: nat :: Stranded(s', i) <==> Strands(s, step, i)
    ensures NothingStranded(s') <==> !TakesStrandingBranch(s, step)
  {
    if TakesStrandingBranch(s, step) {
      var i: nat :| Strands(s, step, i);
      assert Stranded(s', i);
    }
  }

  /** Along a run no intent is ever stranded if and only if no step passes one of the four guards. */
  lemma {:induction false} NeverStrandedIff(steps: seq<Step>)
    ensures Always(NothingStranded, steps) <==> NoStrandingStep(steps)
  {
    forall s, step | Consistent(s) && NothingStranded(s)
      ensures NothingStranded(Apply(s, step)) <==> !TakesStrandingBranch(s, step)
    {
      StepStrandsNothing(s, step);
    }
    AlwaysIffNever(NothingStranded, TakesStrandingBranch, steps);
  }

  /** Two intents of one booking that could both still take money, or have taken it. */
  predicate Rivals(s: State, i: nat, j: nat) {
    && i < |s.intents| && j < |s.intents| && i != j
    && s.intents[i].booking == s.intents[j].booking
    && !s.intents[i].status.Voided? && !s.intents[j].status.Voided?
  }

  /** Two rivals cannot both be tracked. */
  lemma RivalsStrand(s: State, i: nat, j: nat)
    requires Consistent(s) && Rivals(s, i, j)
    ensures Stranded(s, i) || Stranded(s, j)
  {}

  /** One live intent per booking, along every run that avoids the four guards. */
  lemma {:induction false} OneLiveIntent(steps: seq<Step>, i: nat, j: nat)
    requires NoStrandingStep(steps)
    ensures !Rivals(Run(steps), i, j)
  {
    NeverStrandedIff(steps);
    if Rivals(Run(steps), i, j) {
      RunConsistent(steps);
      RivalsStrand(Run(steps), i, j);
    }
  }

  /** And passing a guard always makes rivals of the intent that is lost and another of its booking. */
  lemma StrandingMakesRivals(s: State, step: Step, i: nat)
    requires Consistent(s) && Strands(s, step, i)
    ensures exists j: nat :: Rivals(Apply(s, step), i, j)
  {
    if Lands(s, step) {
      LandingMakesRivals(s, step, i);
    } else {
      AloneMakesRivals(s, Core(step), i);
      assert Apply(s, step) == Perform(s, Core(step));
      assert Rivals(Apply(s, step), i, |s.intents|);
    }
  }

  lemma AloneMakesRivals(s: State, step: Step, i: nat)
    requires Consistent(s) && StrandsAlone(s, step, i)
    ensures Rivals(Perform(s, step), i, |s.intents|)
  {
    var b := step.booking;
    assert BookingSettles(b, s.bookings[b], s.intents, s.refunds);
    if step.ResumePay? {
      assert Resumable(s.bookings, b);
      OpeningMakesRivals(s.(resuming := s.resuming - multiset{b}), b, i);
    } else {
      OpeningMakesRivals(s, b, i);
    }
  }

  lemma OpeningMakesRivals(s: State, b: nat, i: nat)
    requires b < |s.bookings| && s.bookings[b].total > 0
    requires i < |s.intents| && s.intents[i].booking == b && !s.intents[i].status.Voided?
    ensures Rivals(OpenIntent(s, b, true).0, i, |s.intents|)
  {
    FreshShape(s, b);
  }

  lemma LandingMakesRivals(s: State, step: Step, i: nat)
    requires Consistent(s) && Lands(s, step) && Strands(s, step, i)
    ensures exists j: nat :: Rivals(Apply(s, step), i, j)
  {
    var t := Perform(s, step.locked);
    var b, k := step.at, step.requests;
    PerformKeeps(s, step.locked);
    LandShape(s, t, b, k);
    if StrandsAlone(s, step.locked, i) {
      AloneMakesRivals(s, step.locked, i);
      assert Rivals(Apply(s, step), i, |s.intents|);
    } else if Opened(s, t, b) {
      OpenedIsLive(s, step.locked, b);
      assert Rivals(Apply(s, step), i, t.bookings[b].payment.value.intent.id);
    } else {
      assert BookingSettles(b, t.bookings[b], t.intents, t.refunds);
      assert Rivals(Apply(s, step), i, |t.intents| + k - 1);
    }
  }

  /** Only a payment makes the row of a booking with a payment track another intent, which is then a new one. */
  lemma OpenedIsLive(s: State, step: Step, b: nat)
    requires Consistent(s) && IsLocked(step)
    requires b < |s.bookings| && s.bookings[b].payment.Some? && s.bookings[b].total > 0
    requires var t := Perform(s, step); b < |t.bookings| && t.bookings[b].payment.Some? && Opened(s, t, b)
    ensures var t := Perform(s, step);
            && t.bookings[b].Tracks(|s.intents|) && |t.intents| == |s.intents| + 1
            && t.intents[|s.intents|] == Intent(b, s.bookings[b].total, NeedsMethod)
  {
    if !step.PayFor? {
      OthersSameTracking(s, step);
    } else {
      PayOpens(s, step.user, step.booking, step.retrieves, step.creates, b);
    }
  }

  /** The row of a booking with a payment and a price, after a new intent was opened for it. */
  predicate NewlyOpened(s: State, t: State, b: nat)
    requires b < |s.bookings|
  {
    && b < |t.bookings| && t.bookings[b].Tracks(|s.intents|) && |t.intents| == |s.intents| + 1
    && t.intents[|s.intents|] == Intent(b, s.bookings[b].total, NeedsMethod)
  }

  predicate SameIntentAt(s: State, t: State, b: nat) {
    b < |s.bookings| && b < |t.bookings| && SameIntentOf(s.bookings[b], t.bookings[b])
  }

  lemma OpenIntentOpens(s: State, c: nat, creates: bool, b: nat)
    requires c < |s.bookings| && b < |s.bookings| && s.bookings[b].payment.Some? && s.bookings[b].total > 0
    ensures var t := OpenIntent(s, c, creates).0; SameIntentAt(s, t, b) || NewlyOpened(s, t, b)
  {
    if s.bookings[c].total > 0 && creates {
      FreshShape(s, c);
    }
  }

  lemma ReconcileOpenOpensNone(s: State, c: nat, p: Payment, retrieves: bool, b: nat)
    requires c < |s.bookings| && s.bookings[c].payment == Some(p) && b < |s.bookings|
    ensures SameIntentAt(s, ReconcileOpen(s, c, p, retrieves).0, b)
  {}

  lemma RowWritesOpenNone(s: State, c: nat, p: Payment, b: nat)
    requires c < |s.bookings| && s.bookings[c].payment == Some(p) && b < |s.bookings|
    ensures SameIntentAt(s, Confirm(s, c), b)
    ensures SameIntentAt(s, VoidAndCommit(s, c, p).0, b)
    ensures SameIntentAt(s, PutPayment(s, c, p.(status := RequiresPaymentMethod)), b)
  {}

  lemma ReconcileFailedOpens(s: State, c: nat, p: Payment, retrieves: bool, creates: bool, b: nat)
    requires c < |s.bookings| && s.bookings[c].payment == Some(p)
    requires b < |s.bookings| && s.bookings[b].payment.Some? && s.bookings[b].total > 0
    ensures var t := ReconcileFailed(s, c, p, retrieves, creates).0; SameIntentAt(s, t, b) || NewlyOpened(s, t, b)
  {
    ReconcileFailedCases(s, c, p, retrieves, creates);
    OpenIntentOpens(s, c, creates, b);
    RowWritesOpenNone(s, c, p, b);
  }

  lemma PayOpens(s: State, user: nat, c: nat, retrieves: bool, creates: bool, b: nat)
    requires b < |s.bookings| && s.bookings[b].payment.Some? && s.bookings[b].total > 0
    ensures var t := Pay(s, user, c, retrieves, creates).0; SameIntentAt(s, t, b) || NewlyOpened(s, t, b)
  {
    PayCases(s, user, c, retrieves, creates);
    if c < |s.bookings| {
      OpenIntentOpens(s, c, creates, b);
      if s.bookings[c].payment.Some? {
        ReconcileOpenOpensNone(s, c, s.bookings[c].payment.value, retrieves, b);
        ReconcileFailedOpens(s, c, s.bookings[c].payment.value, retrieves, creates, b);
      }
    }
  }

  /**
   * The webhook looks the payment row up before it has the booking's lock. On every such run the row it
   * found for a captured intent still tracks the intent when the lock is granted.
   */
  lemma {:induction false} LookupStaysCurrent(before: seq<Step>, after: seq<Step>, i: nat)
    requires NoStrandingStep(before + after)
    requires Tracked(Run(before).bookings, Run(before).intents, i)
    requires i < |Run(before + after).intents| && !Run(before + after).intents[i].status.Voided?
    ensures Tracked(Run(before + after).bookings, Run(before + after).intents, i)
    ensures Run(before + after).intents[i].booking == Run(before).intents[i].booking
  {
    NeverStrandedIff(before + after);
    assert !Stranded(Run(before + after), i);
    RunsExtend(before, after);
    assert IntentKept(Run(before).intents[i], Run(before + after).intents[i]);
  }
}
