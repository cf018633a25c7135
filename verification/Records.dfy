// What the tables say to each other on every run: record coupling, seat ownership, capacity,
// anchoring and the price fixed when a hold is created.

module Records {
  import opened Entities
  import opened Tally
  import opened Stripe
  import opened Reservations
  import opened Invariants
  import opened RowProofs
  import opened Counting
  import opened Outcomes
  import opened Purchases
  import opened Runs
  import opened Stranding
  import opened Coupling
  import InvoiceNumbers

  // ---------------------------------------------------------------- bookings, payments, invoices

  /**
   * On every run: a succeeded payment means a confirmed booking; a confirmed booking has one invoice and no
   * cancellation; no booking ever has two of either; a cancellation means a cancelled booking.
   */
  lemma {:induction false} RecordCoupling(steps: seq<Step>, b: nat)
    requires b < |Run(steps).bookings|
    ensures var bk := Run(steps).bookings[b];
            && (bk.payment.Some? && bk.payment.value.status.PaymentSucceeded? ==> bk.status.Confirmed?)
            && (bk.status.Confirmed? ==> bk.payment.Some? && |bk.payment.value.invoices| == 1 && bk.cancellations == [])
            && (bk.payment.Some? ==> |bk.payment.value.invoices| <= 1 && bk.payment.value.amount == bk.total)
            && |bk.cancellations| <= 1
            && (bk.cancellations != [] ==> bk.status.Cancelled?)
  {
    RunConsistent(steps);
    assert BookingSettles(b, Run(steps).bookings[b], Run(steps).intents, Run(steps).refunds);
  }

  /**
   * Confirmed exactly when paid, on every run on which no pay request goes on after the booking was
   * confirmed; along a run the two come apart only so.
   */
  lemma {:induction false} ConfirmedIffPaid(steps: seq<Step>, b: nat)
    requires b < |Run(steps).bookings| && Never(ReopensConfirmed, steps)
    ensures var bk := Run(steps).bookings[b];
            bk.status.Confirmed? <==> bk.payment.Some? && bk.payment.value.status.PaymentSucceeded?
  {
    AlwaysCoupledIff(steps);
    RecordCoupling(steps, b);
    assert Coupled(Run(steps).bookings[b]);
  }

  lemma CancelledForever(before: seq<Step>, after: seq<Step>, b: nat)
    requires b < |Run(before).bookings| && Run(before).bookings[b].status.Cancelled?
    ensures b < |Run(before + after).bookings| && Run(before + after).bookings[b].status.Cancelled?
  {
    RunsExtend(before, after);
    assert OrderKept(Run(before).bookings[b], Run(before + after).bookings[b]);
  }

  /** No two invoices of a run share a number, in whatever years they were issued. */
  lemma {:induction false} InvoicesNumberedApart(steps: seq<Step>, b: nat, c: nat, year: nat, year': nat)
    requires b < |Run(steps).bookings| && c < |Run(steps).bookings| && b != c
    requires Run(steps).bookings[b].payment.Some? && Run(steps).bookings[b].payment.value.invoices != []
    requires Run(steps).bookings[c].payment.Some? && Run(steps).bookings[c].payment.value.invoices != []
    ensures var s := Run(steps);
            InvoiceNumbers.Number(year, s.bookings[b].payment.value.invoices[0].paymentId)
            != InvoiceNumbers.Number(year', s.bookings[c].payment.value.invoices[0].paymentId)
  {
    var s := Run(steps);
    RunConsistent(steps);
    assert BookingSettles(b, s.bookings[b], s.intents, s.refunds)
           && BookingSettles(c, s.bookings[c], s.intents, s.refunds);
    InvoiceNumbers.NumbersDiffer(year, year', s.bookings[b].payment.value.id, s.bookings[c].payment.value.id);
  }

  // ---------------------------------------------------------------- seats

  /** `b` lists the seat with this status, and no other live booking lists it. */
  ghost predicate SoleHolder(s: State, b: nat, q: nat, status: BookingStatus) {
    && Lists(s.bookings, b, q)
    && s.bookings[b].status == status
    && forall c: nat :: Lists(s.bookings, c, q) ==> c == b
  }

  lemma SeatOwnership(steps: seq<Step>, q: nat)
    requires q in Run(steps).seats
    ensures var s := Run(steps);
            && (s.seats[q].status.Reserved? <==> exists b: nat :: SoleHolder(s, b, q, Pending))
            && (s.seats[q].status.Booked? <==> exists b: nat :: SoleHolder(s, b, q, Confirmed))
            && (s.seats[q].status.Available? <==> forall b: nat :: !Lists(s.bookings, b, q))
  {
    var s := Run(steps);
    RunConsistent(steps);
    if !s.seats[q].status.Available? {
      var b: nat :| Lists(s.bookings, b, q);
      assert SoleHolder(s, b, q, s.bookings[b].status);
    }
  }

  /** Whatever happens to other bookings, old or new, a seat stays with the booking that holds it. */
  lemma {:induction false} HeldSeatSurvives(steps: seq<Step>, step: Step, c: nat, q: nat)
    requires Lists(Run(steps).bookings, c, q)
    requires c < |Apply(Run(steps), step).bookings|
    requires Apply(Run(steps), step).bookings[c].status == Run(steps).bookings[c].status
    ensures q in Run(steps).seats && q in Apply(Run(steps), step).seats
    ensures Apply(Run(steps), step).seats[q].status == Run(steps).seats[q].status
    ensures !Apply(Run(steps), step).seats[q].status.Available?
  {
    RunConsistent(steps);
    StepKeeps(Run(steps), step);
    StepExtends(Run(steps), step);
    assert OrderKept(Run(steps).bookings[c], Apply(Run(steps), step).bookings[c]);
    assert Lists(Apply(Run(steps), step).bookings, c, q);
  }

  // ---------------------------------------------------------------- capacity and anchoring

  /** Tickets confirmed or still on hold never exceed a general-admission event's capacity. */
  lemma {:induction false} NeverOversells(steps: seq<Step>, id: nat)
    requires id in Run(steps).services && Run(steps).services[id].mode.SlotCapacity?
    ensures var s := Run(steps);
            && s.services[id].maxCapacity.Some? && s.services[id].maxCapacity.value >= 1
            && |Tickets(s.bookings, id, s.now)| <= s.services[id].maxCapacity.value
  {
    var s := Run(steps);
    RunConsistent(steps);
    ClaimsAreTickets(s.bookings, id, s.now);
    assert ServiceAnchored(s.services[id]) && WithinCapacity(s.bookings, id, s.services[id], s.now);
  }

  lemma {:induction false} HoardingBounded(steps: seq<Step>, user: nat)
    ensures |HoldsOf(Run(steps).bookings, user, Run(steps).now)| <= 5
  {
    RunConsistent(steps);
    HoldsAreRows(Run(steps).bookings, user, Run(steps).now);
  }

  lemma {:induction false} LiveBookingsAnchored(steps: seq<Step>, b: nat)
    requires b < |Run(steps).bookings| && Run(steps).bookings[b].Live()
    ensures var s := Run(steps); var bk := s.bookings[b];
            && bk.service in s.services && s.services[bk.service].active
            && bk.user in s.users && s.users[bk.user].active
            && (s.services[bk.service].mode.UnitAssigned? <==> bk.units != [])
  {
    RunConsistent(steps);
    var s := Run(steps);
    assert LiveAnchored(s.bookings[b], s.services, s.users) && BookingAnchored(s.bookings[b], s.services, s.seats);
  }

  // ---------------------------------------------------------------- price snapshot

  /**
   * A hold is priced from the tiers and base price of the state it is taken in. However prices change later, every
   * intent ever opened for it charges exactly that, and every refund of such an intent returns it.
   */
  lemma PriceSnapshot(before: seq<Step>, user: nat, order: Order, after: seq<Step>, i: nat, k: RefundKey)
    requires order.quantity >= 1 && MayAsk(Run(before), user, order) && StillThere(Run(before), order)
    ensures var f := Run(before + [Book(user, order)] + after);
            var b := |Run(before).bookings|;
            && b < |f.bookings|
            && Priced(Run(before), order, f.bookings[b].total)
            && (i < |f.intents| && f.intents[i].booking == b ==> f.intents[i].amount == f.bookings[b].total)
            && (k in f.refunds && f.refunds[k].intent < |f.intents| && f.intents[f.refunds[k].intent].booking == b ==>
                  f.refunds[k].amount == f.bookings[b].total)
  {
    HoldStays(before, user, order, after);
    RunConsistent(before + [Book(user, order)] + after);
    var f := Run(before + [Book(user, order)] + after);
    if i < |f.intents| {
      assert IntentPriced(f.intents[i], f.bookings);
    }
    if k in f.refunds {
      RefundPriced(f, k);
    }
  }

  /** The row a hold creates keeps its total for ever. */
  lemma HoldStays(before: seq<Step>, user: nat, order: Order, after: seq<Step>)
    requires order.quantity >= 1 && MayAsk(Run(before), user, order) && StillThere(Run(before), order)
    ensures var f := Run(before + [Book(user, order)] + after); var b := |Run(before).bookings|;
            b < |f.bookings| && Priced(Run(before), order, f.bookings[b].total)
  {
    var held := before + [Book(user, order)];
    RunExtends(before, Book(user, order));
    HoldsExactly(Run(before), user, order);
    assert Held(Run(before), Run(held), user, order);
    RunsExtend(held, after);
    var b := |Run(before).bookings|;
    assert OrderKept(Run(held).bookings[b], Run(held + after).bookings[b]);
  }

  /** A refund returns the total of the booking whose intent it refunds. */
  lemma RefundPriced(f: State, k: RefundKey)
    requires Consistent(f) && k in f.refunds
    ensures var i := f.refunds[k].intent;
            i < |f.intents| && f.intents[i].booking < |f.bookings| && f.refunds[k].amount
                == f.bookings[f.intents[i].booking].total
  {
    assert RefundKeyed(k, f.bookings, f.intents, f.refunds);
    assert IntentPriced(f.intents[f.refunds[k].intent], f.bookings);
  }

  // ---------------------------------------------------------------- the cancelled hold

  /**
   * A hold whose intent was canceled with it is never charged: whatever happens later, the intent stays canceled,
   * is never acknowledged as paid and never refunded.
   */
  lemma CancelledHoldNeverPays(before: seq<Step>, user: nat, admin: bool, refunds: bool, after: seq<Step>,
                               b: nat, i: nat)
    requires var s := Run(before);
             && MayCancel(s, user, admin, b) && s.bookings[b].status.Pending? && s.bookings[b].Tracks(i)
             && !s.bookings[b].payment.value.status.PaymentCanceled?
             && i < |s.intents| && !s.intents[i].status.Captured?
    ensures var f := Run(before + [CancelOrder(user, admin, b, Done, refunds)] + after);
            && b < |f.bookings| && f.bookings[b].status.Cancelled?
            && i < |f.intents| && f.intents[i].status.Voided?
            && i !in f.acked && forall k :: k in f.refunds ==> f.refunds[k].intent != i
  {
    var held := before + [CancelOrder(user, admin, b, Done, refunds)];
    RunConsistent(before);
    CancelledHold(Run(before), user, admin, b, Done, refunds);
    RunExtends(before, CancelOrder(user, admin, b, Done, refunds));
    StaysVoid(held, after, b, i);
    NeverCaptured(held + after, i);
  }

  lemma StaysVoid(before: seq<Step>, after: seq<Step>, b: nat, i: nat)
    requires b < |Run(before).bookings| && Run(before).bookings[b].status.Cancelled?
    requires i < |Run(before).intents| && Run(before).intents[i].status.Voided?
    ensures var f := Run(before + after);
            && b < |f.bookings| && f.bookings[b].status.Cancelled?
            && i < |f.intents| && f.intents[i].status.Voided?
  {
    CancelledForever(before, after, b);
    RunsExtend(before, after);
    assert IntentKept(Run(before).intents[i], Run(before + after).intents[i]);
  }

  /** What was never captured was never acknowledged or refunded. */
  lemma NeverCaptured(steps: seq<Step>, i: nat)
    requires i < |Run(steps).intents| && !Run(steps).intents[i].status.Captured?
    ensures i !in Run(steps).acked && forall k :: k in Run(steps).refunds ==> Run(steps).refunds[k].intent != i
  {
    var f := Run(steps);
    RunConsistent(steps);
    assert i in f.acked ==> AckedFinal(i, f.bookings, f.intents, f.refunds);
    forall k | k in f.refunds ensures f.refunds[k].intent != i {
      assert RefundKeyed(k, f.bookings, f.intents, f.refunds);
    }
  }
}
