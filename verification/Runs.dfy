// Runs of the platform: every committed transaction, every webhook delivery, every move Stripe makes
// on its own and every clock tick is one step. The invariant holds after any sequence of steps.
//
// Transactions with a booking's lock read the payment row and write it later. Only a pay request that goes on
// after its first commit, which takes no lock, can commit in between: such a transaction together with the
// requests that land inside it is a step of its own. What others do meanwhile touches other bookings, or waits.

module Runs {
  import opened Entities
  import opened Stripe
  import opened Reservations
  import opened Payments
  import opened Sweeper
  import opened Catalogue
  import opened Invariants
  import opened RowProofs
  import opened HandlerProofs

  datatype Step =
    | Register(user: nat, sells: bool)
    | AddLocation(seller: nat, location: nat)
    | AddService(seller: nat, admin: bool, service: nat, draft: Draft)
    | AddTier(actor: nat, admin: bool, service: nat, tier: nat, price: nat)
    | AddSeats(actor: nat, admin: bool, service: nat, tier: nat, codes: map<nat, string>)
    | ChangeService(actor: nat, admin: bool, service: nat, patch: Patch)
    | RemoveService(actor: nat, admin: bool, service: nat)
    | RemoveUser(user: nat)
    | Book(user: nat, order: Order)
    | PayFor(user: nat, booking: nat, retrieves: bool, creates: bool)
    | ResumePay(booking: nat, creates: bool)
    | Webhook(intent: nat, event: Event)
    | CancelOrder(user: nat, admin: bool, booking: nat, cancel: CancelReply, refunds: bool)
    | SweepCandidate(booking: nat, threshold: Time, answers: Answers)
    | StripeMoves(intent: nat, status: IntentStatus)
    | Tick(later: Time)
    | Interrupted(locked: Step, at: nat, requests: nat)

  /** Steps that hold a booking's lock from their read of the payment row to their commit. */
  predicate IsLocked(step: Step) {
    step.PayFor? || step.Webhook? || step.CancelOrder? || step.SweepCandidate?
  }

  /** The transaction of a step, without what lands inside it. */
  function Core(step: Step): Step {
    if step.Interrupted? then step.locked else step
  }

  /** Requests land inside this step. */
  predicate Lands(s: State, step: Step) {
    && step.Interrupted? && IsLocked(step.locked)
    && Splits(s, Perform(s, step.locked), step.at, step.requests)
  }

  function Apply(s: State, step: Step): State {
    if Lands(s, step) then Land(s, Perform(s, step.locked), step.at, step.requests)
    else Perform(s, Core(step))
  }

  /** One transaction. */
  function Perform(s: State, step: Step): State {
    match step
    case Register(user, sells) => if user in s.users then s else s.(users := s.users[user := User(true, sells)])
    case AddLocation(seller, id) => if id in s.locations then s else s.(locations := s.locations[id := seller])
    case AddService(seller, admin, id, draft) => CreateService(s, seller, admin, id, draft).0
    case AddTier(actor, admin, id, tier, price) => CreateTier(s, actor, admin, id, tier, price).0
    case AddSeats(actor, admin, id, tier, codes) => CreateInventory(s, actor, admin, id, tier, codes).0
    case ChangeService(actor, admin, id, patch) => UpdateService(s, actor, admin, id, patch).0
    case RemoveService(actor, admin, id) => DeleteService(s, actor, admin, id).0
    case RemoveUser(user) => DeleteUser(s, user).0
    case Book(user, order) => if order.quantity < 1 then s else CreateBooking(s, user, order).0
    case PayFor(user, b, retrieves, creates) => Pay(s, user, b, retrieves, creates).0
    case ResumePay(b, creates) => Resume(s, b, creates).0
    case Webhook(i, event) => Deliver(s, i, event).0
    case CancelOrder(user, admin, b, reply, refunds) => Cancel(s, user, admin, b, reply, refunds).0
    case SweepCandidate(b, threshold, answers) =>
      // the sweep read its clock before this candidate's transaction
      if threshold > s.now - HOLD then s else SweepOne(s, b, threshold, answers)
    case StripeMoves(i, status) =>
      if i < |s.intents| && MayMove(s.intents[i].status, status)
      then s.(intents := s.intents[i := s.intents[i].(status := status)]) else s
    case Tick(later) => if later < s.now then s else s.(now := later)
    case Interrupted(_, _, _) => s
  }

  function RunFrom(s: State, steps: seq<Step>): State
    decreases |steps|
  {
    if steps == [] then s
    else Apply(RunFrom(s, steps[..|steps| - 1]), steps[|steps| - 1])
  }

  function Run(steps: seq<Step>): State {
    RunFrom(INITIAL, steps)
  }

  lemma StepKeeps(s: State, step: Step)
    requires Consistent(s)
    ensures Consistent(Apply(s, step))
  {
    PerformKeeps(s, Core(step));
    if Lands(s, step) {
      LandKeeps(s, Perform(s, step.locked), step.at, step.requests);
    }
  }

  lemma PerformKeeps(s: State, step: Step)
    requires Consistent(s)
    ensures Consistent(Perform(s, step))
  {
    match step
    case Book(user, order) => if order.quantity >= 1 { CreateBookingKeeps(s, user, order); }
    case PayFor(user, b, retrieves, creates) => PayKeeps(s, user, b, retrieves, creates);
    case ResumePay(b, creates) => ResumeKeeps(s, b, creates);
    case Webhook(i, event) => DeliverKeeps(s, i, event);
    case CancelOrder(user, admin, b, reply, refunds) => CancelKeeps(s, user, admin, b, reply, refunds);
    case SweepCandidate(b, threshold, answers) => SweepOneKeeps(s, b, threshold, answers);
    case StripeMoves(i, status) =>
      if i < |s.intents| && MayMove(s.intents[i].status, status) { StripeMoveKeeps(s, i, status); }
    case Tick(later) => if later >= s.now { TickKeeps(s, later); }
    case Interrupted(_, _, _) =>
    case _ => CatalogueKeeps(s, step);
  }

  predicate IsCatalogue(step: Step) {
    || step.Register? || step.AddLocation? || step.AddService? || step.AddTier? || step.AddSeats?
    || step.ChangeService? || step.RemoveService? || step.RemoveUser?
  }

  lemma CatalogueKeeps(s: State, step: Step)
    requires Consistent(s) && IsCatalogue(step)
    ensures Consistent(Perform(s, step))
  {
    match step
    case Register(user, sells) => RegisterKeeps(s, user, sells);
    case AddLocation(_, _) =>
    case AddService(seller, admin, id, draft) => CreateServiceKeeps(s, seller, admin, id, draft);
    case AddTier(actor, admin, id, tier, price) => CreateTierKeeps(s, actor, admin, id, tier, price);
    case AddSeats(actor, admin, id, tier, codes) => CreateInventoryKeeps(s, actor, admin, id, tier, codes);
    case ChangeService(actor, admin, id, patch) => UpdateServiceKeeps(s, actor, admin, id, patch);
    case RemoveService(actor, admin, id) => DeleteServiceKeeps(s, actor, admin, id);
    case RemoveUser(user) => DeleteUserKeeps(s, user);
  }

  lemma RegisterKeeps(s: State, user: nat, sells: bool)
    requires Consistent(s)
    ensures Consistent(Perform(s, Register(user, sells)))
  {
    var s' := Perform(s, Register(user, sells));
    forall b | 0 <= b < |s.bookings| ensures LiveAnchored(s.bookings[b], s.services, s'.users) {
      assert LiveAnchored(s.bookings[b], s.services, s.users);
    }
  }

  lemma {:induction false} RunFromConsistent(s: State, steps: seq<Step>)
    requires Consistent(s)
    ensures Consistent(RunFrom(s, steps))
    decreases |steps|
  {
    if steps != [] {
      RunFromConsistent(s, steps[..|steps| - 1]);
      StepKeeps(RunFrom(s, steps[..|steps| - 1]), steps[|steps| - 1]);
    }
  }

  /** The invariant of the whole platform, over every run. */
  lemma {:induction false} RunConsistent(steps: seq<Step>)
    ensures Consistent(Run(steps))
  {
    RunFromConsistent(INITIAL, steps);
  }

  lemma RunOnward(s: State, steps: seq<Step>, step: Step)
    ensures RunFrom(s, steps + [step]) == Apply(RunFrom(s, steps), step)
  {
    assert (steps + [step])[..|steps|] == steps;
  }

  lemma {:induction false} RunFromAppend(s: State, before: seq<Step>, after: seq<Step>)
    ensures RunFrom(s, before + after) == RunFrom(RunFrom(s, before), after)
    decreases |after|
  {
    if after == [] {
      assert before + after == before;
    } else {
      var last := |after| - 1;
      RunFromAppend(s, before, after[..last]);
      RunOnward(s, before + after[..last], after[last]);
      RunOnward(RunFrom(s, before), after[..last], after[last]);
      assert after[..last] + [after[last]] == after;
      assert before + after[..last] + [after[last]] == before + after;
    }
  }

  lemma RunExtends(steps: seq<Step>, step: Step)
    ensures Run(steps + [step]) == Apply(Run(steps), step)
  {
    RunOnward(INITIAL, steps, step);
  }

  // ---------------------------------------------------------------- what a step never undoes

  /** Orders are immutable, CANCELLED is final, and nothing leaves Stripe's ledger or the acknowledgements. */
  ghost predicate Extends(s: State, s': State) {
    && |s.bookings| <= |s'.bookings|
    && (forall b :: 0 <= b < |s.bookings| ==> OrderKept(s.bookings[b], s'.bookings[b]))
    && |s.intents| <= |s'.intents|
    && (forall i :: 0 <= i < |s.intents| ==> IntentKept(s.intents[i], s'.intents[i]))
    && (forall k :: k in s.refunds ==> k in s'.refunds && s'.refunds[k] == s.refunds[k])
    && s.acked <= s'.acked
  }

  predicate OrderKept(bk: Booking, bk': Booking) {
    SameOrder(bk, bk') && (bk.status.Cancelled? ==> bk'.status.Cancelled?) && (bk.payment.Some? ==> bk'.payment.Some?)
  }

  predicate IntentKept(intent: Intent, intent': Intent) {
    intent'.booking == intent.booking && intent'.amount == intent.amount && MayMove(intent.status, intent'.status)
  }

  lemma ExtendsTrans(a: State, b: State, c: State)
    requires Extends(a, b) && Extends(b, c)
    ensures Extends(a, c)
  {
    forall k | 0 <= k < |a.bookings| ensures OrderKept(a.bookings[k], c.bookings[k]) {
      assert OrderKept(a.bookings[k], b.bookings[k]) && OrderKept(b.bookings[k], c.bookings[k]);
    }
    forall i | 0 <= i < |a.intents| ensures IntentKept(a.intents[i], c.intents[i]) {
      assert IntentKept(a.intents[i], b.intents[i]) && IntentKept(b.intents[i], c.intents[i]);
    }
  }

  lemma RowExtends(s: State, s': State, b: nat, bk: Booking)
    requires b < |s.bookings| && s'.bookings == s.bookings[b := bk] && OrderKept(s.bookings[b], bk)
    requires s'.intents == s.intents && s'.acked == s.acked
    requires s'.refunds == s.refunds || exists k, i, amount :: s'.refunds == CreateRefund(s.refunds, k, i, amount)
    ensures Extends(s, s')
  {}

  lemma ConfirmExtends(s: State, b: nat)
    requires b < |s.bookings| && s.bookings[b].payment.Some? && !s.bookings[b].status.Cancelled?
    ensures Extends(s, Confirm(s, b))
  {
    RowExtends(s, Confirm(s, b), b, Confirm(s, b).bookings[b]);
  }

  lemma PutPaymentExtends(s: State, b: nat, p: Payment)
    requires b < |s.bookings|
    ensures Extends(s, PutPayment(s, b, p))
  {
    RowExtends(s, PutPayment(s, b, p), b, PutPayment(s, b, p).bookings[b]);
  }

  lemma OpenIntentExtends(s: State, b: nat, creates: bool)
    requires b < |s.bookings| && (s.bookings[b].status.Cancelled? ==> s.bookings[b].total > 0)
    ensures Extends(s, OpenIntent(s, b, creates).0)
  {
    if s.bookings[b].total == 0 {
      var s' := OpenIntent(s, b, creates).0;
      assert s'.bookings == s.bookings[b := s'.bookings[b]];
      RowExtends(s, s', b, s'.bookings[b]);
    } else if creates {
      FreshIntentExtends(s, b);
    }
  }

  lemma FreshIntentExtends(s: State, b: nat)
    requires b < |s.bookings| && s.bookings[b].total > 0
    ensures Extends(s, OpenIntent(s, b, true).0)
  {
    FreshShape(s, b);
    assert OrderKept(s.bookings[b], FreshRow(s, b));
  }

  lemma PayExtends(s: State, user: nat, b: nat, retrieves: bool, creates: bool)
    ensures Extends(s, Pay(s, user, b, retrieves, creates).0)
  {
    if Acts(s, user) && b < |s.bookings| && s.bookings[b].user == user && Payable(s.bookings[b], s.now) {
      match s.bookings[b].payment
      case None => OpenIntentExtends(s, b, creates);
      case Some(p) =>
        match p.status
        case PaymentSucceeded =>
        case PaymentFailed => ReconcileFailedExtends(s, b, p, retrieves, creates);
        case PaymentCanceled => OpenIntentExtends(s, b, creates);
        case _ => ReconcileOpenExtends(s, b, p, retrieves);
    }
  }

  lemma ReconcileOpenExtends(s: State, b: nat, p: Payment, retrieves: bool)
    requires b < |s.bookings| && s.bookings[b].payment == Some(p) && s.bookings[b].status.Pending?
    ensures Extends(s, ReconcileOpen(s, b, p, retrieves).0)
  {
    if p.intent.StripeIntent? {
      match Retrieve(s.intents, p.intent.id, retrieves)
      case Some(Captured) => ConfirmExtends(s, b);
      case Some(Voided) => VoidAndCommitExtends(s, b, p);
      case _ =>
    }
  }

  lemma ReconcileFailedExtends(s: State, b: nat, p: Payment, retrieves: bool, creates: bool)
    requires b < |s.bookings| && s.bookings[b].payment == Some(p) && s.bookings[b].status.Pending?
    ensures Extends(s, ReconcileFailed(s, b, p, retrieves, creates).0)
  {
    if p.intent.FreeIntent? {
      OpenIntentExtends(s, b, creates);
    } else {
      match Retrieve(s.intents, p.intent.id, retrieves)
      case None => OpenIntentExtends(s, b, creates);
      case Some(InProcess) => OpenIntentExtends(s, b, creates);
      case Some(Captured) => ConfirmExtends(s, b);
      case Some(Voided) => VoidAndCommitExtends(s, b, p);
      case Some(_) => PutPaymentExtends(s, b, p.(status := RequiresPaymentMethod));
    }
  }

  lemma VoidAndCommitExtends(s: State, b: nat, p: Payment)
    requires b < |s.bookings|
    ensures Extends(s, VoidAndCommit(s, b, p).0)
  {
    PutPaymentExtends(s, b, p.(status := PaymentCanceled));
  }

  lemma ResumeExtends(s: State, b: nat, creates: bool)
    requires AllResumable(s.bookings, s.resuming)
    ensures Extends(s, Resume(s, b, creates).0)
  {
    if b in s.resuming {
      assert Resumable(s.bookings, b);
      OpenIntentExtends(s.(resuming := s.resuming - multiset{b}), b, creates);
    }
  }

  lemma AcknowledgeExtends(s: State, s': State, i: nat)
    requires Extends(s, s')
    ensures Extends(s, Acknowledge(s', i))
  {
    forall b | 0 <= b < |s.bookings| ensures OrderKept(s.bookings[b], Acknowledge(s', i).bookings[b]) {
      assert OrderKept(s.bookings[b], s'.bookings[b]);
    }
  }

  lemma AutoRefundExtends(s: State, b: nat, i: nat)
    requires b < |s.bookings| && s.bookings[b].payment.Some?
    ensures Extends(s, AutoRefundAndCancel(s, b, i))
  {
    var repaid := AutoRefundAndCancel(s, b, i);
    RowExtends(s, repaid, b, repaid.bookings[b]);
  }

  lemma FailedExtends(s: State, i: nat)
    ensures Extends(s, Failed(s, i).0)
  {
    var found := FindTracked(s.bookings, i);
    if found.Some? {
      PutPaymentExtends(s, found.value, s.bookings[found.value].payment.value.(status := PaymentFailed));
    }
  }

  lemma SucceededExtends(s: State, i: nat, refunds: bool)
    ensures Extends(s, Succeeded(s, i, refunds).0)
  {
    AcknowledgeExtends(s, s, i);
    var found := FindTracked(s.bookings, i);
    if found.Some? {
      var b := found.value;
      if s.bookings[b].status.Confirmed? {
        var p := s.bookings[b].payment.value.(status := PaymentSucceeded);
        PutPaymentExtends(s, b, p);
        AcknowledgeExtends(s, PutPayment(s, b, p), i);
      } else if s.bookings[b].status.Pending? && Fits(s, b, false) {
        ConfirmExtends(s, b);
        AcknowledgeExtends(s, Confirm(s, b), i);
      } else {
        AutoRefundExtends(s, b, i);
        AcknowledgeExtends(s, AutoRefundAndCancel(s, b, i), i);
      }
    }
  }

  lemma DeliverExtends(s: State, i: nat, e: Event)
    ensures Extends(s, Deliver(s, i, e).0)
  {
    match e
    case FailedEvent => FailedExtends(s, i);
    case SucceededEvent(refunds) => SucceededExtends(s, i, refunds);
  }

  lemma WithdrawExtends(s: State, b: nat, refunded: nat)
    requires b < |s.bookings|
    ensures Extends(s, Withdraw(s, b, refunded))
  {
    RowExtends(s, Withdraw(s, b, refunded), b, Withdraw(s, b, refunded).bookings[b]);
  }

  lemma CancelIntentExtends(s: State, i: nat, reply: CancelReply)
    ensures Extends(s, s.(intents := CancelIntent(s.intents, i, reply).0))
  {}

  lemma CancelPendingExtends(s: State, b: nat, reply: CancelReply)
    requires b < |s.bookings|
    ensures Extends(s, CancelPending(s, b, reply).0)
  {
    WithdrawExtends(s, b, 0);
    var bk := s.bookings[b];
    if bk.payment.Some? && bk.payment.value.intent.StripeIntent? {
      var p := bk.payment.value;
      var voided := s.(intents := CancelIntent(s.intents, p.intent.id, reply).0);
      var marked := PutPayment(voided, b, p.(status := PaymentCanceled));
      CancelIntentExtends(s, p.intent.id, reply);
      PutPaymentExtends(voided, b, p.(status := PaymentCanceled));
      WithdrawExtends(marked, b, 0);
      ExtendsTrans(s, voided, marked);
      ExtendsTrans(s, marked, Withdraw(marked, b, 0));
    }
  }

  lemma CancelConfirmedExtends(s: State, b: nat, refunds: bool)
    requires b < |s.bookings|
    ensures Extends(s, CancelConfirmed(s, b, refunds).0)
  {
    var bk := s.bookings[b];
    if bk.payment.None? || !bk.payment.value.status.PaymentSucceeded? {
      WithdrawExtends(s, b, 0);
    } else {
      var p := bk.payment.value;
      var paid := if p.amount > 0 && p.intent.StripeIntent?
        then s.(refunds := CreateRefund(s.refunds, RefundBooking(b), p.intent.id, p.amount)) else s;
      var marked := PutPayment(paid, b, p.(status := PaymentCanceled));
      assert marked.bookings == s.bookings[b := marked.bookings[b]];
      assert p.amount > 0 && p.intent.StripeIntent? ==>
          marked.refunds == CreateRefund(s.refunds, RefundBooking(b), p.intent.id, p.amount);
      RowExtends(s, marked, b, marked.bookings[b]);
      WithdrawExtends(marked, b, p.amount);
      ExtendsTrans(s, marked, Withdraw(marked, b, p.amount));
    }
  }

  lemma ReleaseExtends(s: State, b: nat)
    requires b < |s.bookings|
    ensures Extends(s, Release(s, b))
  {
    RowExtends(s, Release(s, b), b, Release(s, b).bookings[b]);
  }

  lemma SweepExtends(s: State, b: nat, threshold: Time, answers: Answers)
    ensures Extends(s, SweepOne(s, b, threshold, answers))
  {
    if b < |s.bookings| && Expired(s.bookings[b], threshold) {
      match s.bookings[b].payment
      case None => ReleaseExtends(s, b);
      case Some(p) =>
        if p.intent.FreeIntent? || p.status.PaymentCanceled? {
          ReleaseExtends(s, b);
        } else {
          SweepIntentExtends(s, b, p, answers);
        }
    }
  }

  lemma SweepIntentExtends(s: State, b: nat, p: Payment, answers: Answers)
    requires b < |s.bookings| && s.bookings[b].status.Pending? && s.bookings[b].payment == Some(p)
    requires p.intent.StripeIntent?
    ensures Extends(s, SweepIntent(s, b, p.intent.id, answers))
  {
    var i := p.intent.id;
    var (intents, verdict) := Ask(s, i, answers);
    match verdict
    case Unknown =>
    case IsCanceled => VoidedReleaseExtends(s, b, p, answers.cancel);
    case IsSucceeded =>
      if Fits(s, b, true) {
        ConfirmExtends(s, b);
      } else if answers.refunds {
        RefundReleaseExtends(s, b, p);
      }
  }

  /** Stripe voided the intent, now or earlier. */
  lemma VoidedReleaseExtends(s: State, b: nat, p: Payment, reply: CancelReply)
    requires b < |s.bookings| && s.bookings[b].payment == Some(p) && p.intent.StripeIntent?
    ensures Extends(s, Release(PutPayment(s.(intents := CancelIntent(s.intents, p.intent.id, reply).0), b,
            p.(status := PaymentCanceled)), b))
  {
    var asked := s.(intents := CancelIntent(s.intents, p.intent.id, reply).0);
    CancelIntentExtends(s, p.intent.id, reply);
    var marked := PutPayment(asked, b, p.(status := PaymentCanceled));
    PutPaymentExtends(asked, b, p.(status := PaymentCanceled));
    ReleaseExtends(marked, b);
    ExtendsTrans(s, asked, marked);
    ExtendsTrans(s, marked, Release(marked, b));
  }

  lemma RefundReleaseExtends(s: State, b: nat, p: Payment)
    requires b < |s.bookings| && s.bookings[b].payment == Some(p) && p.intent.StripeIntent?
    ensures Extends(s, RefundAndRelease(s, b, p.intent.id, p))
  {
    RefundReleaseRow(s, b, p.intent.id, p);
    RowExtends(s, RefundAndRelease(s, b, p.intent.id, p), b, AutoRefunded(s.bookings[b]));
  }

  lemma BookExtends(s: State, user: nat, order: Order)
    ensures Extends(s, CreateBooking(s, user, order).0)
  {
    var (s', reply) := CreateBooking(s, user, order);
    if reply.Success? {
      assert s'.bookings == s.bookings + [NewHold(s, user, order)];
    }
  }

  lemma CancelExtends(s: State, user: nat, admin: bool, b: nat, reply: CancelReply, refunds: bool)
    ensures Extends(s, Cancel(s, user, admin, b, reply, refunds).0)
  {
    ExtendsSelf(s);
    if b < |s.bookings| {
      if s.bookings[b].status.Confirmed? {
        CancelConfirmedExtends(s, b, refunds);
      } else {
        CancelPendingExtends(s, b, reply);
      }
    }
  }

  /** Catalogue, accounts and the clock leave bookings and Stripe alone. */
  lemma CatalogueExtends(s: State, step: Step)
    requires IsCatalogue(step) || step.Tick?
    ensures Extends(s, Perform(s, step))
  {
    CatalogueQuiet(s, step);
    ExtendsSelf(s);
  }

  predicate SameOrders(s: State, s': State) {
    s'.bookings == s.bookings && s'.intents == s.intents && s'.refunds == s.refunds && s'.acked == s.acked
  }

  lemma CatalogueQuiet(s: State, step: Step)
    requires IsCatalogue(step) || step.Tick?
    ensures SameOrders(s, Perform(s, step))
  {
    match step
    case ChangeService(actor, admin, id, patch) => ChangesQuiet(s, step);
    case RemoveService(actor, admin, id) => ChangesQuiet(s, step);
    case RemoveUser(user) => ChangesQuiet(s, step);
    case _ =>
  }

  lemma ChangesQuiet(s: State, step: Step)
    requires step.ChangeService? || step.RemoveService? || step.RemoveUser?
    ensures SameOrders(s, Perform(s, step))
  {}

  predicate IsPayment(step: Step) {
    step.PayFor? || step.ResumePay? || step.Webhook?
  }

  lemma PaymentExtends(s: State, step: Step)
    requires AllResumable(s.bookings, s.resuming) && IsPayment(step)
    ensures Extends(s, Perform(s, step))
  {
    match step
    case PayFor(user, b, retrieves, creates) => PayExtends(s, user, b, retrieves, creates);
    case ResumePay(b, creates) => ResumeExtends(s, b, creates);
    case Webhook(i, event) => DeliverExtends(s, i, event);
  }

  lemma StepExtends(s: State, step: Step)
    requires AllResumable(s.bookings, s.resuming)
    ensures Extends(s, Apply(s, step))
  {
    PerformExtends(s, Core(step));
    if Lands(s, step) {
      LandExtends(s, Perform(s, step.locked), step.at, step.requests);
    }
  }

  lemma LandExtends(s: State, t: State, b: nat, k: nat)
    requires Splits(s, t, b, k) && Extends(s, t)
    ensures Extends(s, Land(s, t, b, k))
  {
    LandShape(s, t, b, k);
    ExtendsSelf(t);
    assert Extends(t, Land(s, t, b, k));
    ExtendsTrans(s, t, Land(s, t, b, k));
  }

  lemma PerformExtends(s: State, step: Step)
    requires AllResumable(s.bookings, s.resuming)
    ensures Extends(s, Perform(s, step))
  {
    if IsPayment(step) {
      PaymentExtends(s, step);
    } else if IsCatalogue(step) || step.Tick? {
      CatalogueExtends(s, step);
    } else {
      BookingExtends(s, step);
    }
  }

  lemma BookingExtends(s: State, step: Step)
    requires step.Book? || step.CancelOrder? || step.SweepCandidate? || step.StripeMoves? || step.Interrupted?
    ensures Extends(s, Perform(s, step))
  {
    ExtendsSelf(s);
    match step
    case Book(user, order) => BookExtends(s, user, order);
    case CancelOrder(user, admin, b, reply, refunds) => CancelExtends(s, user, admin, b, reply, refunds);
    case SweepCandidate(b, threshold, answers) => SweepExtends(s, b, threshold, answers);
    case _ =>
  }

  lemma ExtendsSelf(s: State)
    ensures Extends(s, s)
  {}

  lemma {:induction false} RunFromExtends(s: State, steps: seq<Step>)
    requires Consistent(s)
    ensures Extends(s, RunFrom(s, steps))
    decreases |steps|
  {
    if steps == [] {
      ExtendsSelf(s);
    } else {
      var last := |steps| - 1;
      RunFromExtends(s, steps[..last]);
      RunFromConsistent(s, steps[..last]);
      NextExtends(s, RunFrom(s, steps[..last]), steps[last]);
    }
  }

  lemma NextExtends(s: State, t: State, step: Step)
    requires Extends(s, t) && AllResumable(t.bookings, t.resuming)
    ensures Extends(s, Apply(t, step))
  {
    StepExtends(t, step);
    ExtendsTrans(s, t, Apply(t, step));
  }

  lemma {:induction false} RunsExtend(before: seq<Step>, after: seq<Step>)
    ensures Extends(Run(before), Run(before + after))
  {
    RunConsistent(before);
    RunFromExtends(Run(before), after);
    RunFromAppend(INITIAL, before, after);
  }
}
