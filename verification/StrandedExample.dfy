// Concrete runs in which one booking is charged twice. A declined payment is retried while Stripe cannot be
// reached; two pay requests overlap on a canceled intent, and either can commit last; and a request lands inside
// the cancellation that refunds another intent.

module StrandedExample {
  import opened Entities
  import opened Tally
  import opened Stripe
  import opened Reservations
  import opened Payments
  import opened Catalogue
  import opened Invariants
  import opened Runs
  import opened Stranding
  import opened Coupling
  import opened Settlement

  const EVENT := Draft(0, SlotCapacity, Some(5), 1000, 100, 200)
  const ORDER := Order(0, None, 1, None)
  const PAY := PayFor(1, 0, true, true)
  const SETTLED := SucceededEvent(true)

  /** A seller with a venue, a customer, an event and a hold. */
  const HELD: seq<Step> := [
    Register(0, true), Register(1, false), AddLocation(0, 0), AddService(0, false, 0, EVENT), Book(1, ORDER)]

  /** The first attempt is declined, the retry cannot retrieve the old intent, then both capture. */
  const DECLINED: seq<Step> := HELD + [
    PAY, Webhook(0, FailedEvent), PayFor(1, 0, false, true),
    StripeMoves(0, Captured), StripeMoves(1, Captured), Webhook(0, SETTLED), Webhook(1, SETTLED)]

  /**
   * Stripe cancels the first intent. One request marks the row and commits; a second one opens an intent,
   * which is paid and confirms the booking; then the first goes on and opens another, which is paid too.
   */
  const OVERLAPPING: seq<Step> := HELD + [
    PAY, StripeMoves(0, Voided), PAY, PAY, StripeMoves(1, Captured), Webhook(1, SETTLED),
    ResumePay(0, true), StripeMoves(2, Captured), Webhook(2, SETTLED)]

  /**
   * The same overlap with the last two commits the other way round: the second request holds the lock, the first
   * goes on inside it, and the second commits over it.
   */
  const OVERWRITTEN: seq<Step> := HELD + [
    PAY, StripeMoves(0, Voided), PAY, Interrupted(PAY, 0, 1),
    StripeMoves(2, Captured), Webhook(2, SETTLED), StripeMoves(1, Captured), Webhook(1, SETTLED)]

  const CANCEL := CancelOrder(1, false, 0, Done, true)

  /** The second request's intent is paid; the first request goes on inside the cancellation that refunds it. */
  const SHORT_CHANGED: seq<Step> := HELD + [
    PAY, StripeMoves(0, Voided), PAY, PAY, StripeMoves(1, Captured), Webhook(1, SETTLED),
    Interrupted(CANCEL, 0, 1), StripeMoves(2, Captured), Webhook(2, SETTLED)]

  /** The tables once the hold exists, up to its payment, the intents, and what is acknowledged or going on. */
  function Snapshot(status: BookingStatus, payment: Option<Payment>, intents: seq<Intent>, acked: set<nat>,
                    resuming: multiset<nat>): State {
    State(map[0 := User(true, true), 1 := User(true, false)],
          map[0 := 0],
          map[0 := Service(0, 0, SlotCapacity, Some(5), 1000, map[], 100, 200, true)],
          map[],
          [Booking(1, 0, None, 1, 1000, status, 0, [], payment, [])],
          intents, map[], acked, resuming, if payment.None? then 0 else 1, 0)
  }

  function Charge(i: nat, status: PaymentStatus, invoices: seq<Invoice>): Option<Payment> {
    Some(Payment(0, StripeIntent(i), 1000, status, invoices))
  }

  const INVOICES := [Invoice(0, 0)]

  lemma Then(steps: seq<Step>, n: nat, s: State)
    requires n < |steps| && Run(steps[..n]) == s
    ensures Run(steps[..n + 1]) == Apply(s, steps[n])
  {
    assert steps[..n + 1] == steps[..n] + [steps[n]];
    RunExtends(steps[..n], steps[n]);
  }

  // ---------------------------------------------------------------- single steps

  lemma Published()
    ensures Run(HELD[..4]) == Snapshot(Pending, None, [], {}, multiset{}).(bookings := [])
  {
    assert HELD[..0] == [];
    Then(HELD, 0, INITIAL);
    Then(HELD, 1, Run(HELD[..1]));
    Then(HELD, 2, Run(HELD[..2]));
    assert Run(HELD[..3]).users == map[0 := User(true, true), 1 := User(true, false)];
    Then(HELD, 3, Run(HELD[..3]));
  }

  lemma Held()
    ensures Run(HELD) == Snapshot(Pending, None, [], {}, multiset{})
  {
    Published();
    var s := Run(HELD[..4]);
    assert Sum(Claims(0, 0, None), s.bookings) == 0 && Sum(Holds(1, 0), s.bookings) == 0;
    assert ORDER.Units() == [];
    assert Quote(s, ORDER) == 1000;
    Then(HELD, 4, s);
    assert HELD[..5] == HELD;
  }

  /** A first intent, or one after the row was marked canceled. */
  lemma Opens(payment: Option<Payment>, intents: seq<Intent>, resuming: multiset<nat>)
    requires payment.None? || payment == Charge(0, PaymentCanceled, [])
    ensures Apply(Snapshot(Pending, payment, intents, {}, resuming), PAY)
         == Snapshot(Pending, Charge(|intents|, RequiresPaymentMethod, []), intents + [Intent(0, 1000, NeedsMethod)],
             {}, resuming)
  {}

  lemma Decline(intents: seq<Intent>)
    ensures Apply(Snapshot(Pending, Charge(0, RequiresPaymentMethod, []), intents, {}, multiset{}),
            Webhook(0, FailedEvent))
         == Snapshot(Pending, Charge(0, PaymentFailed, []), intents, {}, multiset{})
  {}

  lemma RetryBlind(a: Intent)
    ensures Apply(Snapshot(Pending, Charge(0, PaymentFailed, []), [a], {}, multiset{}), PayFor(1, 0, false, true))
         == Snapshot(Pending, Charge(1, RequiresPaymentMethod, []), [a, Intent(0, 1000, NeedsMethod)], {}, multiset{})
  {}

  lemma Marks()
    ensures Apply(Snapshot(Pending, Charge(0, RequiresPaymentMethod, []), [Intent(0, 1000, Voided)], {}, multiset{}),
            PAY)
         == Snapshot(Pending, Charge(0, PaymentCanceled, []), [Intent(0, 1000, Voided)], {}, multiset{0})
  {}

  lemma Moves(status: BookingStatus, payment: Option<Payment>, intents: seq<Intent>, acked: set<nat>,
              resuming: multiset<nat>, i: nat, to: IntentStatus)
    requires i < |intents| && intents[i].status.NeedsMethod?
    ensures Apply(Snapshot(status, payment, intents, acked, resuming), StripeMoves(i, to))
         == Snapshot(status, payment, intents[i := intents[i].(status := to)], acked, resuming)
  {}

  lemma Untracked(intents: seq<Intent>, i: nat)
    requires i < |intents| && i != 1 && intents[i].status.Captured?
    ensures Apply(Snapshot(Pending, Charge(1, RequiresPaymentMethod, []), intents, {}, multiset{}), Webhook(i, SETTLED))
         == Snapshot(Pending, Charge(1, RequiresPaymentMethod, []), intents, {i}, multiset{})
  {}

  lemma Confirms(intents: seq<Intent>, acked: set<nat>, resuming: multiset<nat>)
    requires 1 < |intents| && intents[1].status.Captured?
    ensures Apply(Snapshot(Pending, Charge(1, RequiresPaymentMethod, []), intents, acked, resuming),
            Webhook(1, SETTLED))
         == Snapshot(Confirmed, Charge(1, PaymentSucceeded, INVOICES), intents, acked + {1}, resuming)
  {
    var s := Snapshot(Pending, Charge(1, RequiresPaymentMethod, []), intents, acked, resuming);
    assert s.bookings[..0] == [];
    assert Sum(Claims(0, s.now, Some(0)), s.bookings) == 1;
    assert Fits(s, 0, false);
  }

  lemma GoesOn(intents: seq<Intent>)
    requires |intents| == 2
    ensures Apply(Snapshot(Confirmed, Charge(1, PaymentSucceeded, INVOICES), intents, {1}, multiset{0}),
            ResumePay(0, true))
         == Snapshot(Confirmed, Charge(2, RequiresPaymentMethod, INVOICES), intents + [Intent(0, 1000, NeedsMethod)],
             {1}, multiset{})
  {
    var none: multiset<nat> := multiset{};
    assert multiset{0} - multiset{0} == none;
  }

  lemma Reconfirms(intents: seq<Intent>)
    requires |intents| == 3 && intents[2].status.Captured?
    ensures Apply(Snapshot(Confirmed, Charge(2, RequiresPaymentMethod, INVOICES), intents, {1}, multiset{}),
            Webhook(2, SETTLED))
         == Snapshot(Confirmed, Charge(2, PaymentSucceeded, INVOICES), intents, {1, 2}, multiset{})
  {}

  /** Both runs begin with the hold and a first intent. */
  lemma FirstOpened(steps: seq<Step>)
    requires |steps| > 5 && steps[..5] == HELD && steps[5] == PAY
    ensures Run(steps[..6]) == Snapshot(Pending, Charge(0, RequiresPaymentMethod, []), [LIVE], {}, multiset{})
  {
    Held();
    Opens(None, [], multiset{});
    Then(steps, 5, Snapshot(Pending, None, [], {}, multiset{}));
  }

  // ---------------------------------------------------------------- the first run

  const LIVE := Intent(0, 1000, NeedsMethod)
  const PAID := Intent(0, 1000, Captured)
  const DEAD := Intent(0, 1000, Voided)

  lemma Retried()
    ensures Run(DECLINED[..8]) == Snapshot(Pending, Charge(1, RequiresPaymentMethod, []), [LIVE, LIVE], {}, multiset{})
  {
    FirstOpened(DECLINED);
    Decline([LIVE]);
    Then(DECLINED, 6, Snapshot(Pending, Charge(0, RequiresPaymentMethod, []), [LIVE], {}, multiset{}));
    RetryBlind(LIVE);
    Then(DECLINED, 7, Snapshot(Pending, Charge(0, PaymentFailed, []), [LIVE], {}, multiset{}));
  }

  lemma FirstCaptured()
    ensures Run(DECLINED[..9]) == Snapshot(Pending, Charge(1, RequiresPaymentMethod, []), [PAID, LIVE], {}, multiset{})
  {
    Retried();
    var payment := Charge(1, RequiresPaymentMethod, []);
    Moves(Pending, payment, [LIVE, LIVE], {}, multiset{}, 0, Captured);
    Then(DECLINED, 8, Snapshot(Pending, payment, [LIVE, LIVE], {}, multiset{}));
  }

  lemma BothCaptured()
    ensures Run(DECLINED[..10]) == Snapshot(Pending, Charge(1, RequiresPaymentMethod, []), [PAID, PAID], {}, multiset{})
  {
    FirstCaptured();
    var payment := Charge(1, RequiresPaymentMethod, []);
    Moves(Pending, payment, [PAID, LIVE], {}, multiset{}, 1, Captured);
    Then(DECLINED, 9, Snapshot(Pending, payment, [PAID, LIVE], {}, multiset{}));
  }

  lemma FirstIsUntracked()
    ensures Run(DECLINED[..11])
         == Snapshot(Pending, Charge(1, RequiresPaymentMethod, []), [PAID, PAID], {0}, multiset{})
  {
    BothCaptured();
    Untracked([PAID, PAID], 0);
    Then(DECLINED, 10, Snapshot(Pending, Charge(1, RequiresPaymentMethod, []), [PAID, PAID], {}, multiset{}));
  }

  lemma DeclinedEnd()
    ensures Run(DECLINED)
         == Snapshot(Confirmed, Charge(1, PaymentSucceeded, INVOICES), [PAID, PAID], {0, 1}, multiset{})
  {
    FirstIsUntracked();
    Confirms([PAID, PAID], {0}, multiset{});
    Then(DECLINED, 11, Snapshot(Pending, Charge(1, RequiresPaymentMethod, []), [PAID, PAID], {0}, multiset{}));
    assert DECLINED[..12] == DECLINED;
  }

  /** Charged twice: one charge is kept, the other neither kept nor paid back though its event was acknowledged. */
  lemma ChargedTwice()
    ensures var s := Run(DECLINED);
            && 0 in s.acked && 1 in s.acked
            && Kept(s, 1)
            && !Kept(s, 0) && !PaidBack(s, 0) && s.intents[0].booking == s.intents[1].booking
    ensures !NoStrandingStep(DECLINED)
  {
    DeclinedEnd();
    if NoStrandingStep(DECLINED) {
      AllSettledWithoutStranding(DECLINED, 0);
    }
  }

  // ---------------------------------------------------------------- the second run

  lemma OneMarked(steps: seq<Step>)
    requires |steps| > 7 && steps[..5] == HELD && steps[5] == PAY && steps[6] == StripeMoves(0, Voided)
    requires steps[7] == PAY
    ensures Run(steps[..8]) == Snapshot(Pending, Charge(0, PaymentCanceled, []), [DEAD], {}, multiset{0})
  {
    var payment := Charge(0, RequiresPaymentMethod, []);
    FirstOpened(steps);
    Moves(Pending, payment, [LIVE], {}, multiset{}, 0, Voided);
    Then(steps, 6, Snapshot(Pending, payment, [LIVE], {}, multiset{}));
    Marks();
    Then(steps, 7, Snapshot(Pending, payment, [DEAD], {}, multiset{}));
  }

  lemma Overlapped(steps: seq<Step>)
    requires |steps| > 8 && steps[..5] == HELD && steps[5] == PAY && steps[6] == StripeMoves(0, Voided)
    requires steps[7] == PAY
    requires steps[8] == PAY
    ensures Run(steps[..9]) == Snapshot(Pending, Charge(1, RequiresPaymentMethod, []), [DEAD, LIVE], {}, multiset{0})
  {
    OneMarked(steps);
    Opens(Charge(0, PaymentCanceled, []), [DEAD], multiset{0});
    Then(steps, 8, Snapshot(Pending, Charge(0, PaymentCanceled, []), [DEAD], {}, multiset{0}));
  }

  lemma PaidMeanwhile(steps: seq<Step>)
    requires |steps| > 9
    requires Run(steps[..9]) == Snapshot(Pending, Charge(1, RequiresPaymentMethod, []), [DEAD, LIVE], {}, multiset{0})
    requires steps[9] == StripeMoves(1, Captured)
    ensures Run(steps[..10]) == Snapshot(Pending, Charge(1, RequiresPaymentMethod, []), [DEAD, PAID], {}, multiset{0})
  {
    Moves(Pending, Charge(1, RequiresPaymentMethod, []), [DEAD, LIVE], {}, multiset{0}, 1, Captured);
    Then(steps, 9, Snapshot(Pending, Charge(1, RequiresPaymentMethod, []), [DEAD, LIVE], {}, multiset{0}));
  }

  lemma ConfirmedMeanwhile()
    ensures Run(OVERLAPPING[..11])
         == Snapshot(Confirmed, Charge(1, PaymentSucceeded, INVOICES), [DEAD, PAID], {1}, multiset{0})
  {
    Overlapped(OVERLAPPING);
    PaidMeanwhile(OVERLAPPING);
    Confirms([DEAD, PAID], {}, multiset{0});
    Then(OVERLAPPING, 10, Snapshot(Pending, Charge(1, RequiresPaymentMethod, []), [DEAD, PAID], {}, multiset{0}));
  }

  lemma GoneOn()
    ensures Run(OVERLAPPING[..12])
         == Snapshot(Confirmed, Charge(2, RequiresPaymentMethod, INVOICES), [DEAD, PAID, LIVE], {1}, multiset{})
  {
    ConfirmedMeanwhile();
    GoesOn([DEAD, PAID]);
    Then(OVERLAPPING, 11, Snapshot(Confirmed, Charge(1, PaymentSucceeded, INVOICES), [DEAD, PAID], {1}, multiset{0}));
  }

  lemma OverlappingEnd()
    ensures Run(OVERLAPPING)
         == Snapshot(Confirmed, Charge(2, PaymentSucceeded, INVOICES), [DEAD, PAID, PAID], {1, 2}, multiset{})
  {
    GoneOn();
    Moves(Confirmed, Charge(2, RequiresPaymentMethod, INVOICES), [DEAD, PAID, LIVE], {1}, multiset{}, 2, Captured);
    Then(OVERLAPPING, 12,
        Snapshot(Confirmed, Charge(2, RequiresPaymentMethod, INVOICES), [DEAD, PAID, LIVE], {1}, multiset{}));
    Reconfirms([DEAD, PAID, PAID]);
    Then(OVERLAPPING, 13,
        Snapshot(Confirmed, Charge(2, RequiresPaymentMethod, INVOICES), [DEAD, PAID, PAID], {1}, multiset{}));
    assert OVERLAPPING[..14] == OVERLAPPING;
  }

  /**
   * The overlapping requests confirm a booking whose payment is still open, and charge it twice, although
   * every retrieve call answers and no payment is ever FAILED.
   */
  lemma ResumedTwice()
    ensures !AllCoupled(Run(OVERLAPPING[..12]))
    ensures var s := Run(OVERLAPPING);
            && 1 in s.acked && 2 in s.acked
            && Kept(s, 2)
            && !Kept(s, 1) && !PaidBack(s, 1) && s.intents[1].booking == s.intents[2].booking
    ensures forall k :: 0 <= k < |OVERLAPPING| ==>
              !(OVERLAPPING[k].PayFor? && !OVERLAPPING[k].retrieves) && OVERLAPPING[k] != Webhook(0, FailedEvent)
    ensures !NoStrandingStep(OVERLAPPING)
  {
    GoneOn();
    assert !Coupled(Run(OVERLAPPING[..12]).bookings[0]);
    OverlappingEnd();
    if NoStrandingStep(OVERLAPPING) {
      AllSettledWithoutStranding(OVERLAPPING, 1);
    }
  }

  // ---------------------------------------------------------------- the third run

  /** The request that goes on lands inside the other's transaction, which opens an intent and commits last. */
  lemma LandsInsidePay()
    ensures Apply(Snapshot(Pending, Charge(0, PaymentCanceled, []), [DEAD], {}, multiset{0}), Interrupted(PAY, 0, 1))
         == Snapshot(Pending, Charge(1, RequiresPaymentMethod, []), [DEAD, LIVE, LIVE], {}, multiset{})
  {
    var s := Snapshot(Pending, Charge(0, PaymentCanceled, []), [DEAD], {}, multiset{0});
    Opens(Charge(0, PaymentCanceled, []), [DEAD], multiset{0});
    var t := Snapshot(Pending, Charge(1, RequiresPaymentMethod, []), [DEAD, LIVE], {}, multiset{0});
    assert Perform(s, PAY) == t;
    assert Splits(s, t, 0, 1) && Opened(s, t, 0);
    var none: multiset<nat> := multiset{};
    assert t.resuming[0 := 0] == none;
    assert t.intents + seq(1, _ => LIVE) == [DEAD, LIVE, LIVE];
  }

  lemma Overwritten()
    ensures Run(OVERWRITTEN[..9])
         == Snapshot(Pending, Charge(1, RequiresPaymentMethod, []), [DEAD, LIVE, LIVE], {}, multiset{})
  {
    OneMarked(OVERWRITTEN);
    LandsInsidePay();
    Then(OVERWRITTEN, 8, Snapshot(Pending, Charge(0, PaymentCanceled, []), [DEAD], {}, multiset{0}));
  }

  lemma LostIsAcknowledged()
    ensures Run(OVERWRITTEN[..11])
         == Snapshot(Pending, Charge(1, RequiresPaymentMethod, []), [DEAD, LIVE, PAID], {2}, multiset{})
  {
    Overwritten();
    var payment := Charge(1, RequiresPaymentMethod, []);
    Moves(Pending, payment, [DEAD, LIVE, LIVE], {}, multiset{}, 2, Captured);
    Then(OVERWRITTEN, 9, Snapshot(Pending, payment, [DEAD, LIVE, LIVE], {}, multiset{}));
    Untracked([DEAD, LIVE, PAID], 2);
    Then(OVERWRITTEN, 10, Snapshot(Pending, payment, [DEAD, LIVE, PAID], {}, multiset{}));
  }

  lemma OverwrittenEnd()
    ensures Run(OVERWRITTEN)
         == Snapshot(Confirmed, Charge(1, PaymentSucceeded, INVOICES), [DEAD, PAID, PAID], {1, 2}, multiset{})
  {
    LostIsAcknowledged();
    var payment := Charge(1, RequiresPaymentMethod, []);
    Moves(Pending, payment, [DEAD, LIVE, PAID], {2}, multiset{}, 1, Captured);
    Then(OVERWRITTEN, 11, Snapshot(Pending, payment, [DEAD, LIVE, PAID], {2}, multiset{}));
    Confirms([DEAD, PAID, PAID], {2}, multiset{});
    Then(OVERWRITTEN, 12, Snapshot(Pending, payment, [DEAD, PAID, PAID], {2}, multiset{}));
    assert OVERWRITTEN[..13] == OVERWRITTEN;
  }

  /** The intent whose client secret the first request returned is lost, and the booking is charged twice. */
  lemma OverwrittenTwice()
    ensures var s := Run(OVERWRITTEN);
            && 1 in s.acked && 2 in s.acked
            && Kept(s, 1)
            && |s.intents| == 3 && s.intents[1].booking == s.intents[2].booking
            && !Kept(s, 2) && !PaidBack(s, 2)
    ensures forall k :: 0 <= k < |OVERWRITTEN| ==>
              !OVERWRITTEN[k].ResumePay? && OVERWRITTEN[k] != Webhook(0, FailedEvent)
    ensures !NoStrandingStep(OVERWRITTEN)
  {
    OverwrittenEnd();
    if NoStrandingStep(OVERWRITTEN) {
      AllSettledWithoutStranding(OVERWRITTEN, 2);
    }
  }

  // ---------------------------------------------------------------- the fourth run

  /** The cancelled booking: intent 1 was refunded, the row points at another. */
  function Refunded(i: nat, intents: seq<Intent>, acked: set<nat>, resuming: multiset<nat>): State {
    var s := Snapshot(Cancelled, Charge(i, PaymentCanceled, INVOICES), intents, acked, resuming);
    s.(bookings := [s.bookings[0].(cancellations := [1000])], refunds := map[RefundBooking(0) := Refund(1, 1000)])
  }

  lemma PaidThenHeld()
    ensures Run(SHORT_CHANGED[..11])
         == Snapshot(Confirmed, Charge(1, PaymentSucceeded, INVOICES), [DEAD, PAID], {1}, multiset{0})
  {
    ConfirmedMeanwhile();
    assert SHORT_CHANGED[..11] == OVERLAPPING[..11];
  }

  lemma CancelRefunds()
    ensures Perform(Snapshot(Confirmed, Charge(1, PaymentSucceeded, INVOICES), [DEAD, PAID], {1}, multiset{0}), CANCEL)
         == Refunded(1, [DEAD, PAID], {1}, multiset{0})
  {
    assert [] + [1000] == [1000];
  }

  lemma LandsInsideCancel()
    ensures Apply(Snapshot(Confirmed, Charge(1, PaymentSucceeded, INVOICES), [DEAD, PAID], {1}, multiset{0}),
            Interrupted(CANCEL, 0, 1))
         == Refunded(2, [DEAD, PAID, LIVE], {1}, multiset{})
  {
    var s := Snapshot(Confirmed, Charge(1, PaymentSucceeded, INVOICES), [DEAD, PAID], {1}, multiset{0});
    var t := Refunded(1, [DEAD, PAID], {1}, multiset{0});
    CancelRefunds();
    assert Splits(s, t, 0, 1) && !Opened(s, t, 0);
    var none: multiset<nat> := multiset{};
    assert t.resuming[0 := 0] == none;
    assert t.intents + seq(1, _ => LIVE) == [DEAD, PAID, LIVE];
  }

  lemma SaysRefunded()
    ensures Apply(Refunded(2, [DEAD, PAID, LIVE], {1}, multiset{}), StripeMoves(2, Captured))
         == Refunded(2, [DEAD, PAID, PAID], {1}, multiset{})
    ensures Apply(Refunded(2, [DEAD, PAID, PAID], {1}, multiset{}), Webhook(2, SETTLED))
         == Refunded(2, [DEAD, PAID, PAID], {1, 2}, multiset{})
  {}

  lemma CancelledInside()
    ensures Run(SHORT_CHANGED[..12]) == Refunded(2, [DEAD, PAID, LIVE], {1}, multiset{})
  {
    PaidThenHeld();
    LandsInsideCancel();
    Then(SHORT_CHANGED, 11, Snapshot(Confirmed, Charge(1, PaymentSucceeded, INVOICES), [DEAD, PAID], {1}, multiset{0}));
  }

  lemma ShortChangedEnd()
    ensures Run(SHORT_CHANGED) == Refunded(2, [DEAD, PAID, PAID], {1, 2}, multiset{})
  {
    CancelledInside();
    SaysRefunded();
    Then(SHORT_CHANGED, 12, Refunded(2, [DEAD, PAID, LIVE], {1}, multiset{}));
    Then(SHORT_CHANGED, 13, Refunded(2, [DEAD, PAID, PAID], {1}, multiset{}));
    assert SHORT_CHANGED[..14] == SHORT_CHANGED;
  }

  /** The customer is told that the second charge was refunded already, and it was not. */
  lemma ShortChanged()
    ensures var s := Run(SHORT_CHANGED);
            && 2 in s.acked && Tracked(s.bookings, s.intents, 2)
            && !Kept(s, 2) && !PaidBack(s, 2)
    ensures !Never(ShortChangesSomeone, SHORT_CHANGED)
  {
    ShortChangedEnd();
    assert RefundKeys(Run(SHORT_CHANGED), 2) == {};
    if Never(ShortChangesSomeone, SHORT_CHANGED) {
      SettlementConservation(SHORT_CHANGED, 2);
    }
  }
}
