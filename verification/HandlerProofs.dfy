// Every outcome of every handler leaves a consistent state consistent.

module HandlerProofs {
  import opened Entities
  import opened Tally
  import opened Stripe
  import opened Reservations
  import opened Payments
  import opened Sweeper
  import opened Catalogue
  import opened Invariants
  import opened RowProofs

  /** What remains to show when a handler rewrites one booking row and the seats it lists. */
  lemma RowKeeps(s: State, s': State, b: nat, bk: Booking)
    requires Consistent(s)
    requires b < |s.bookings| && SameOrder(s.bookings[b], bk)
    requires bk.Live() ==> s.bookings[b].Live()
    requires bk.status.Pending? ==> s.bookings[b].status.Pending?
    requires s'.bookings == s.bookings[b := bk]
    requires s'.users == s.users && s'.services == s.services && s'.now == s.now && s'.resuming == s.resuming
    requires s.bookings[b].payment.Some? ==> bk.payment.Some?
    requires SamePlaces(s.seats, s'.seats)
    requires SeatsOwned(s'.bookings, s'.seats)
    requires NeverOversold(s'.bookings, s'.services, s'.now)
    requires Settling(s'.bookings, s'.intents, s'.refunds, s'.acked)
    requires PaymentsNumbered(s'.bookings, s'.nextPayment)
    ensures Consistent(s')
  {
    AnchoredRow(s.bookings, b, bk, s.services, s.seats, s'.seats, s.users);
    HoldsRow(s.bookings, b, bk, s.now);
    forall c | c in s.resuming ensures Resumable(s'.bookings, c) {
      assert Resumable(s.bookings, c);
    }
  }

  /** A tracked intent of a pending booking is neither refunded nor acknowledged. */
  lemma PendingIsUnsettled(s: State, b: nat, i: nat)
    requires Consistent(s)
    requires b < |s.bookings| && s.bookings[b].status.Pending? && s.bookings[b].Tracks(i)
    ensures i < |s.intents| && s.intents[i].booking == b
    ensures AutoRefund(i) !in s.refunds && RefundBooking(b) !in s.refunds && i !in s.acked
  {
    assert BookingSettles(b, s.bookings[b], s.intents, s.refunds);
    LiveIsUnrefunded(s.bookings, b, s.intents, s.refunds);
    assert i in s.acked ==> AckedFinal(i, s.bookings, s.intents, s.refunds);
  }

  // ---------------------------------------------------------------- confirmation

  /** The three routes to CONFIRMED: a payable hold, or one that passed the check under locks. */
  predicate MayConfirm(s: State, b: nat)
    requires b < |s.bookings|
  {
    Payable(s.bookings[b], s.now) || Fits(s, b, true)
  }

  lemma ConfirmedRowSettles(s: State, b: nat, i: nat)
    requires Consistent(s)
    requires b < |s.bookings| && s.bookings[b].status.Pending? && s.bookings[b].Tracks(i)
    requires i < |s.intents| && s.intents[i].status.Captured?
    ensures Settling(Confirm(s, b).bookings, s.intents, s.refunds, s.acked)
  {
    var bk := Confirm(s, b).bookings[b];
    PendingIsUnsettled(s, b, i);
    assert BookingSettles(b, s.bookings[b], s.intents, s.refunds);
    forall j | j in s.acked && s.intents[j].booking == b
      ensures AckedFinal(j, s.bookings[b := bk], s.intents, s.refunds)
    {
      assert AckedFinal(j, s.bookings, s.intents, s.refunds);
    }
    KeysKept(s.bookings, b, bk, s.intents, s.intents, s.refunds);
    assert BookingSettles(b, bk, s.intents, s.refunds);
    forall j | j in s.acked ensures j < |s.intents| {
      assert AckedFinal(j, s.bookings, s.intents, s.refunds);
    }
    SettlingRow(s.bookings, b, bk, s.intents, s.intents, s.refunds, s.refunds, s.acked, s.acked);
  }

  lemma ConfirmKeeps(s: State, b: nat, i: nat)
    requires Consistent(s)
    requires b < |s.bookings| && s.bookings[b].status.Pending? && s.bookings[b].Tracks(i)
    requires i < |s.intents| && s.intents[i].status.Captured?
    requires MayConfirm(s, b)
    ensures Consistent(Confirm(s, b))
  {
    var s' := Confirm(s, b);
    var bk := s'.bookings[b];
    ConfirmedRowSettles(s, b, i);
    SeatsConfirmed(s.bookings, b, bk, s.seats);
    if Payable(s.bookings[b], s.now) {
      CapacityRow(s.bookings, b, bk, s.services, s.now);
    } else {
      CapacityLate(s, b, bk, true);
    }
    NumberedRow(s.bookings, b, bk, s.nextPayment);
    RowKeeps(s, s', b, bk);
  }

  /** A free booking is confirmed in the transaction that writes its payment row. */
  lemma FreeKeeps(s: State, b: nat)
    requires Consistent(s)
    requires b < |s.bookings| && Payable(s.bookings[b], s.now)
    requires s.bookings[b].total == 0 && s.bookings[b].payment.None?
    ensures Consistent(OpenIntent(s, b, true).0)
  {
    var s' := OpenIntent(s, b, true).0;
    var bk := s'.bookings[b];
    assert s'.bookings == s.bookings[b := bk];
    assert BookingSettles(b, s.bookings[b], s.intents, s.refunds);
    SeatsConfirmed(s.bookings, b, bk, s.seats);
    CapacityRow(s.bookings, b, bk, s.services, s.now);
    NumberedNew(s.bookings, b, bk, s.nextPayment);
    FreeSettles(s, b, bk);
    RowKeeps(s, s', b, bk);
  }

  lemma FreeSettles(s: State, b: nat, bk: Booking)
    requires Consistent(s) && b < |s.bookings| && s.bookings[b].status.Pending? && s.bookings[b].payment.None?
    requires bk.total == s.bookings[b].total && bk.status.Confirmed? && bk.payment.Some?
    requires RowsCoupled(bk, bk.payment.value) && bk.payment.value.intent.FreeIntent?
    ensures Settling(s.bookings[b := bk], s.intents, s.refunds, s.acked)
  {
    UnpaidHasNoIntent(s, b);
    KeysKept(s.bookings, b, bk, s.intents, s.intents, s.refunds);
    SettlingRow(s.bookings, b, bk, s.intents, s.intents, s.refunds, s.refunds, s.acked, s.acked);
  }

  lemma UnpaidHasNoIntent(s: State, b: nat)
    requires Consistent(s)
    requires b < |s.bookings| && s.bookings[b].payment.None?
    ensures forall i :: 0 <= i < |s.intents| ==> s.intents[i].booking != b
    ensures forall i :: i in s.acked ==> i < |s.intents|
  {
    forall i | 0 <= i < |s.intents| ensures s.intents[i].booking != b {
      assert IntentPriced(s.intents[i], s.bookings);
    }
    forall i | i in s.acked ensures i < |s.intents| {
      assert AckedFinal(i, s.bookings, s.intents, s.refunds);
    }
  }

  // ---------------------------------------------------------------- new intents

  /** A free confirmation or a fresh intent for a payable booking. */
  lemma OpenIntentKeeps(s: State, b: nat, creates: bool)
    requires Consistent(s)
    requires b < |s.bookings| && Payable(s.bookings[b], s.now)
    ensures Consistent(OpenIntent(s, b, creates).0)
  {
    if s.bookings[b].total == 0 {
      assert BookingSettles(b, s.bookings[b], s.intents, s.refunds);
      FreeKeeps(s, b);
    } else if creates {
      FreshIntentKeeps(s, b);
    }
  }

  /** A fresh intent for a booking with a price, whatever its status and whatever its payment row tracked. */
  lemma FreshIntentKeeps(s: State, b: nat)
    requires Consistent(s)
    requires b < |s.bookings| && s.bookings[b].total > 0
    ensures Consistent(OpenIntent(s, b, true).0)
  {
    var s' := OpenIntent(s, b, true).0;
    var bk := FreshRow(s, b);
    FreshShape(s, b);
    SeatsUntouched(s.bookings, b, bk, s.seats);
    CapacityRow(s.bookings, b, bk, s.services, s.now);
    if s.bookings[b].payment.Some? {
      NumberedRow(s.bookings, b, bk, s.nextPayment);
    } else {
      NumberedNew(s.bookings, b, bk, s.nextPayment);
    }
    FreshIntentSettles(s, b);
    RowKeeps(s, s', b, bk);
  }

  /** The row after a fresh intent. */
  function FreshRow(s: State, b: nat): Booking
    requires b < |s.bookings|
  {
    var bk := s.bookings[b];
    var p := if bk.payment.Some?
      then bk.payment.value.(intent := StripeIntent(|s.intents|), amount := bk.total, status := RequiresPaymentMethod)
      else Payment(s.nextPayment, StripeIntent(|s.intents|), bk.total, RequiresPaymentMethod, []);
    bk.(payment := Some(p))
  }

  lemma FreshShape(s: State, b: nat)
    requires b < |s.bookings| && s.bookings[b].total > 0
    ensures OpenIntent(s, b, true).0 ==
      s.(bookings := s.bookings[b := FreshRow(s, b)],
         intents := s.intents + [Intent(b, s.bookings[b].total, NeedsMethod)],
         nextPayment := if s.bookings[b].payment.Some? then s.nextPayment else s.nextPayment + 1)
  {}

  lemma FreshIntentSettles(s: State, b: nat)
    requires Consistent(s)
    requires b < |s.bookings| && s.bookings[b].total > 0
    ensures Settling(s.bookings[b := FreshRow(s, b)], s.intents + [Intent(b, s.bookings[b].total, NeedsMethod)],
            s.refunds, s.acked)
  {
    var bk := FreshRow(s, b);
    var intents' := s.intents + [Intent(b, s.bookings[b].total, NeedsMethod)];
    FreshIntentClean(s, b);
    KeysKept(s.bookings, b, bk, s.intents, intents', s.refunds);
    FreshRowSettles(s, b);
    SettlingRow(s.bookings, b, bk, s.intents, intents', s.refunds, s.refunds, s.acked, s.acked);
  }

  /** Refunds and acknowledgements speak of intents that exist. */
  lemma FreshIntentClean(s: State, b: nat)
    requires Consistent(s) && b < |s.bookings|
    ensures BookingSettles(b, s.bookings[b], s.intents, s.refunds)
    ensures forall i :: i in s.acked ==> i < |s.intents| && s.intents[i].status.Captured?
    ensures !Returned(s.refunds, b, |s.intents|)
  {
    assert AutoRefund(|s.intents|) in s.refunds ==>
           RefundKeyed(AutoRefund(|s.intents|), s.bookings, s.intents, s.refunds);
    assert RefundBooking(b) in s.refunds ==> RefundKeyed(RefundBooking(b), s.bookings, s.intents, s.refunds);
    forall i | i in s.acked ensures i < |s.intents| && s.intents[i].status.Captured? {
      assert AckedFinal(i, s.bookings, s.intents, s.refunds);
    }
  }

  lemma FreshRowSettles(s: State, b: nat)
    requires b < |s.bookings| && s.bookings[b].total > 0
    requires BookingSettles(b, s.bookings[b], s.intents, s.refunds)
    requires !Returned(s.refunds, b, |s.intents|)
    ensures BookingSettles(b, FreshRow(s, b), s.intents + [Intent(b, s.bookings[b].total, NeedsMethod)], s.refunds)
  {}

  // ---------------------------------------------------------------- payment status only

  /** The payment's status moves between non-final ones, or to CANCELED while the booking is pending. */
  predicate StatusMoves(s: State, b: nat, p: Payment, status: PaymentStatus)
    requires b < |s.bookings|
  {
    && s.bookings[b].payment == Some(p)
    && !p.status.PaymentSucceeded? && !p.status.PaymentCanceled? && !status.PaymentSucceeded?
    && (status.PaymentCanceled? ==> s.bookings[b].status.Pending?)
  }

  lemma StatusKeeps(s: State, b: nat, p: Payment, status: PaymentStatus)
    requires Consistent(s)
    requires b < |s.bookings| && StatusMoves(s, b, p, status)
    ensures Consistent(PutPayment(s, b, p.(status := status)))
  {
    var s' := PutPayment(s, b, p.(status := status));
    var bk := s'.bookings[b];
    assert BookingSettles(b, s.bookings[b], s.intents, s.refunds);
    SeatsUntouched(s.bookings, b, bk, s.seats);
    CapacityRow(s.bookings, b, bk, s.services, s.now);
    NumberedRow(s.bookings, b, bk, s.nextPayment);
    KeysKept(s.bookings, b, bk, s.intents, s.intents, s.refunds);
    forall i | i in s.acked && s.intents[i].booking == b
      ensures AckedFinal(i, s'.bookings, s.intents, s.refunds)
    {
      assert AckedFinal(i, s.bookings, s.intents, s.refunds);
    }
    SettlingRow(s.bookings, b, bk, s.intents, s.intents, s.refunds, s.refunds, s.acked, s.acked);
    RowKeeps(s, s', b, bk);
  }

  // ---------------------------------------------------------------- pay

  /** The payment of a pending booking tracks an existing intent of that booking and has not succeeded. */
  lemma PendingPayment(s: State, b: nat, p: Payment)
    requires Consistent(s)
    requires b < |s.bookings| && s.bookings[b].status.Pending? && s.bookings[b].payment == Some(p)
    ensures p.intent.StripeIntent? && p.intent.id < |s.intents| && s.intents[p.intent.id].booking == b
    ensures !p.status.PaymentSucceeded?
  {
    assert BookingSettles(b, s.bookings[b], s.intents, s.refunds);
  }

  /** The first half: the row is marked once Stripe has voided the intent. */
  lemma VoidAndCommitKeeps(s: State, b: nat, p: Payment)
    requires Consistent(s)
    requires b < |s.bookings| && Payable(s.bookings[b], s.now)
    requires StatusMoves(s, b, p, PaymentCanceled)
    ensures Consistent(VoidAndCommit(s, b, p).0)
  {
    assert BookingSettles(b, s.bookings[b], s.intents, s.refunds);
    StatusKeeps(s, b, p, PaymentCanceled);
  }

  /** The second half keeps the invariant whatever ran in between. */
  lemma ResumeKeeps(s: State, b: nat, creates: bool)
    requires Consistent(s)
    ensures Consistent(Resume(s, b, creates).0)
  {
    if b in s.resuming && creates {
      assert Resumable(s.bookings, b);
      FreshIntentKeeps(s.(resuming := s.resuming - multiset{b}), b);
    }
  }

  lemma ReconcileOpenKeeps(s: State, b: nat, p: Payment, retrieves: bool)
    requires Consistent(s)
    requires b < |s.bookings| && Payable(s.bookings[b], s.now) && s.bookings[b].payment == Some(p)
    requires !p.status.PaymentCanceled?
    ensures Consistent(ReconcileOpen(s, b, p, retrieves).0)
  {
    PendingPayment(s, b, p);
    match Retrieve(s.intents, p.intent.id, retrieves)
    case Some(Captured) => ConfirmKeeps(s, b, p.intent.id);
    case Some(Voided) => VoidAndCommitKeeps(s, b, p);
    case _ =>
  }

  lemma ReconcileFailedKeeps(s: State, b: nat, p: Payment, retrieves: bool, creates: bool)
    requires Consistent(s)
    requires b < |s.bookings| && Payable(s.bookings[b], s.now) && s.bookings[b].payment == Some(p)
    requires !p.status.PaymentCanceled?
    ensures Consistent(ReconcileFailed(s, b, p, retrieves, creates).0)
  {
    PendingPayment(s, b, p);
    match Retrieve(s.intents, p.intent.id, retrieves)
    case None => OpenIntentKeeps(s, b, creates);
    case Some(InProcess) => OpenIntentKeeps(s, b, creates);
    case Some(Captured) => ConfirmKeeps(s, b, p.intent.id);
    case Some(Voided) => VoidAndCommitKeeps(s, b, p);
    case Some(_) => StatusKeeps(s, b, p, RequiresPaymentMethod);
  }

  /** What the FAILED branch can come to. */
  lemma ReconcileFailedCases(s: State, b: nat, p: Payment, retrieves: bool, creates: bool)
    requires b < |s.bookings| && s.bookings[b].payment == Some(p)
    ensures var s' := ReconcileFailed(s, b, p, retrieves, creates).0;
      || s' == OpenIntent(s, b, creates).0
      || s' == Confirm(s, b)
      || s' == VoidAndCommit(s, b, p).0
      || s' == PutPayment(s, b, p.(status := RequiresPaymentMethod))
  {}

  /** What a payment attempt can come to. */
  lemma PayCases(s: State, user: nat, b: nat, retrieves: bool, creates: bool)
    ensures var s' := Pay(s, user, b, retrieves, creates).0;
      || s' == s
      || (&& b < |s.bookings| && s.bookings[b].user == user && Acts(s, user) && Payable(s.bookings[b], s.now)
          && match s.bookings[b].payment
             case None => s' == OpenIntent(s, b, creates).0
             case Some(p) =>
               if p.status.PaymentCanceled? then s' == OpenIntent(s, b, creates).0
               else if p.status.PaymentFailed? then s' == ReconcileFailed(s, b, p, retrieves, creates).0
               else s' == ReconcileOpen(s, b, p, retrieves).0)
  {}

  lemma {:induction false} PayKeeps(s: State, user: nat, b: nat, retrieves: bool, creates: bool)
    requires Consistent(s)
    ensures Consistent(Pay(s, user, b, retrieves, creates).0)
  {
    if Acts(s, user) && b < |s.bookings| && s.bookings[b].user == user && Payable(s.bookings[b], s.now) {
      match s.bookings[b].payment
      case None => OpenIntentKeeps(s, b, creates);
      case Some(p) =>
        match p.status
        case PaymentSucceeded => PendingPayment(s, b, p);
        case PaymentFailed => ReconcileFailedKeeps(s, b, p, retrieves, creates);
        case PaymentCanceled => OpenIntentKeeps(s, b, creates);
        case _ => ReconcileOpenKeeps(s, b, p, retrieves);
    }
  }

  // ---------------------------------------------------------------- refunds and releases

  /** The webhook's auto-refund, for a pending booking that lost its claim or one already cancelled. */
  lemma AutoRefundKeeps(s: State, b: nat, i: nat)
    requires Consistent(s) && MayAutoRefund(s, b, i)
    ensures Consistent(AutoRefundAndCancel(s, b, i))
  {
    var bk := AutoRefunded(s.bookings[b]);
    AutoRefundShape(s, b, i);
    AutoRefundSeats(s.bookings, b, s.seats);
    CapacityRow(s.bookings, b, bk, s.services, s.now);
    NumberedRow(s.bookings, b, bk, s.nextPayment);
    AutoRefundSettles(s, b, i);
    RowKeeps(s, AutoRefundShaped(s, b, i), b, bk);
  }

  function AutoRefundShaped(s: State, b: nat, i: nat): State
    requires b < |s.bookings| && s.bookings[b].payment.Some?
  {
    s.(bookings := s.bookings[b := AutoRefunded(s.bookings[b])],
       refunds := CreateRefund(s.refunds, AutoRefund(i), i, s.bookings[b].payment.value.amount),
       seats := if s.bookings[b].status.Pending? then FreeReserved(s.seats, s.bookings[b].units) else s.seats)
  }

  lemma AutoRefundShape(s: State, b: nat, i: nat)
    requires b < |s.bookings| && s.bookings[b].payment.Some?
    ensures AutoRefundAndCancel(s, b, i) == AutoRefundShaped(s, b, i)
  {}

  lemma AutoRefundSeats(bs: seq<Booking>, b: nat, seats: map<nat, Seat>)
    requires SeatsOwned(bs, seats) && b < |bs| && !bs[b].status.Confirmed? && bs[b].payment.Some?
    ensures SeatsOwned(bs[b := AutoRefunded(bs[b])], if bs[b].status.Pending?
            then FreeReserved(seats, bs[b].units) else seats)
  {
    if bs[b].status.Pending? {
      SeatsReleased(bs, b, AutoRefunded(bs[b]), seats);
      GuardedReleaseIsRelease(bs, b, seats);
    } else {
      SeatsUntouched(bs, b, AutoRefunded(bs[b]), seats);
    }
  }

  /** A captured intent of a booking that is not confirmed, past the guard against double refunds. */
  predicate MayAutoRefund(s: State, b: nat, i: nat) {
    && b < |s.bookings| && !s.bookings[b].status.Confirmed? && s.bookings[b].Tracks(i)
    && i < |s.intents| && s.intents[i].status.Captured?
    && !(s.bookings[b].payment.value.status.PaymentCanceled? && s.bookings[b].cancellations != []
        && s.bookings[b].cancellations[0] > 0)
  }

  function AutoRefunded(bk: Booking): Booking
    requires bk.payment.Some?
  {
    bk.(status := Cancelled,
        payment := Some(bk.payment.value.(status := PaymentCanceled)),
        cancellations := if bk.cancellations == [] then [bk.payment.value.amount] else bk.cancellations)
  }

  /** A row and its refunds change together; Stripe's intents and the acknowledgements stay. */
  lemma RefundSettles(s: State, b: nat, bk: Booking, refunds': Refunds)
    requires Consistent(s) && b < |s.bookings| && s.bookings[b].payment.Some?
    requires bk.total == s.bookings[b].total && bk.payment.Some?
    requires NewRefunds(s.refunds, refunds', b, bk)
    requires forall k :: k in refunds' ==> RefundKeyed(k, s.bookings[b := bk], s.intents, refunds')
    requires BookingSettles(b, bk, s.intents, refunds')
    requires forall j :: j in s.acked ==>
               && j < |s.intents|
               && (s.intents[j].booking == b ==> AckedFinal(j, s.bookings[b := bk], s.intents, refunds'))
    ensures Settling(s.bookings[b := bk], s.intents, refunds', s.acked)
  {
    SettlingRow(s.bookings, b, bk, s.intents, s.intents, s.refunds, refunds', s.acked, s.acked);
  }

  lemma AutoRefundSettles(s: State, b: nat, i: nat)
    requires Consistent(s) && MayAutoRefund(s, b, i)
    ensures Settling(s.bookings[b := AutoRefunded(s.bookings[b])], s.intents,
                     CreateRefund(s.refunds, AutoRefund(i), i, s.bookings[b].payment.value.amount), s.acked)
  {
    var bk := AutoRefunded(s.bookings[b]);
    var refunds' := CreateRefund(s.refunds, AutoRefund(i), i, s.bookings[b].payment.value.amount);
    AutoRefundKeyed(s, b, i);
    AutoRefundAcked(s, b, i, refunds');
    RefundSettles(s, b, bk, refunds');
  }

  lemma AutoRefundAcked(s: State, b: nat, i: nat, refunds': Refunds)
    requires Consistent(s) && b < |s.bookings| && s.bookings[b].Tracks(i) && RefundedAuto(refunds', i)
    ensures forall j :: j in s.acked ==>
              && j < |s.intents|
              && (s.intents[j].booking == b ==>
                  AckedFinal(j, s.bookings[b := AutoRefunded(s.bookings[b])], s.intents, refunds'))
  {
    forall j | j in s.acked
      ensures j < |s.intents|
      ensures s.intents[j].booking == b ==>
                AckedFinal(j, s.bookings[b := AutoRefunded(s.bookings[b])], s.intents, refunds')
    {
      assert AckedFinal(j, s.bookings, s.intents, s.refunds);
    }
  }

  lemma AutoRefundKeyed(s: State, b: nat, i: nat)
    requires Consistent(s) && MayAutoRefund(s, b, i)
    ensures var refunds' := CreateRefund(s.refunds, AutoRefund(i), i, s.bookings[b].payment.value.amount);
      && (forall k :: k in refunds' ==>
          RefundKeyed(k, s.bookings[b := AutoRefunded(s.bookings[b])], s.intents, refunds'))
      && BookingSettles(b, AutoRefunded(s.bookings[b]), s.intents, refunds')
  {
    var bk := AutoRefunded(s.bookings[b]);
    assert BookingSettles(b, s.bookings[b], s.intents, s.refunds);
    assert IntentPriced(s.intents[i], s.bookings);
    if RefundedAuto(s.refunds, i) {
      KeysKept(s.bookings, b, bk, s.intents, s.intents, s.refunds);
    } else {
      AutoRefundIsFirst(s, b, i);
      KeysAdded(s.bookings, b, bk, s.intents, s.refunds, AutoRefund(i), i, s.intents[i].amount);
    }
  }

  /** What the guard lets through and has no auto-refund has no refund at all. */
  lemma AutoRefundIsFirst(s: State, b: nat, i: nat)
    requires Consistent(s) && MayAutoRefund(s, b, i)
    requires !RefundedAuto(s.refunds, i)
    ensures !Returned(s.refunds, b, i)
  {
    assert BookingSettles(b, s.bookings[b], s.intents, s.refunds);
    assert IntentPriced(s.intents[i], s.bookings);
  }

  // ---------------------------------------------------------------- webhook

  /** The tracked payment row is the one of the intent's own booking. */
  lemma FoundIsOwn(s: State, i: nat)
    requires Consistent(s) && i < |s.intents|
    ensures Tracked(s.bookings, s.intents, i) ==> FindTracked(s.bookings, i) == Some(s.intents[i].booking)
    ensures !Tracked(s.bookings, s.intents, i) ==> FindTracked(s.bookings, i) == None
  {
    assert IntentPriced(s.intents[i], s.bookings);
    var found := FindTracked(s.bookings, i);
    if found.Some? {
      assert BookingSettles(found.value, s.bookings[found.value], s.intents, s.refunds);
    }
  }

  lemma AcknowledgeKeeps(s: State, i: nat)
    requires Consistent(s) && AckedFinal(i, s.bookings, s.intents, s.refunds)
    ensures Consistent(Acknowledge(s, i))
  {}

  /** The five outcomes of a succeeded event. */
  lemma SucceededCases(s: State, i: nat, refunds: bool)
    ensures var s' := Succeeded(s, i, refunds).0;
      match FindTracked(s.bookings, i)
      case None => s' == Acknowledge(s, i)
      case Some(b) =>
        var bk := s.bookings[b];
        var p := bk.payment.value;
        || s' == s
        || s' == Acknowledge(s, i)
        || (bk.status.Confirmed? && s' == Acknowledge(PutPayment(s, b, p.(status := PaymentSucceeded)), i))
        || (bk.status.Pending? && Fits(s, b, false) && s' == Acknowledge(Confirm(s, b), i))
        || (!bk.status.Confirmed? && refunds && s' == Acknowledge(AutoRefundAndCancel(s, b, i), i))
  {}

  /** The succeeded event of a confirmed booking only sets its payment's status. */
  lemma ReconfirmKeeps(s: State, b: nat, i: nat, p: Payment)
    requires Consistent(s)
    requires b < |s.bookings| && s.bookings[b].status.Confirmed? && s.bookings[b].payment == Some(p)
    requires p.intent == StripeIntent(i)
    requires i < |s.intents| && s.intents[i].status.Captured?
    ensures Consistent(PutPayment(s, b, p.(status := PaymentSucceeded)))
  {
    var s' := PutPayment(s, b, p.(status := PaymentSucceeded));
    var bk := s'.bookings[b];
    assert BookingSettles(b, s.bookings[b], s.intents, s.refunds);
    SeatsUntouched(s.bookings, b, bk, s.seats);
    CapacityRow(s.bookings, b, bk, s.services, s.now);
    NumberedRow(s.bookings, b, bk, s.nextPayment);
    KeysKept(s.bookings, b, bk, s.intents, s.intents, s.refunds);
    forall j | j in s.acked && s.intents[j].booking == b ensures AckedFinal(j, s'.bookings, s.intents, s.refunds) {
      assert AckedFinal(j, s.bookings, s.intents, s.refunds);
    }
    SettlingRow(s.bookings, b, bk, s.intents, s.intents, s.refunds, s.refunds, s.acked, s.acked);
    RowKeeps(s, s', b, bk);
  }

  lemma SucceededKeeps(s: State, i: nat, refunds: bool)
    requires Consistent(s) && i < |s.intents| && s.intents[i].status.Captured?
    ensures Consistent(Succeeded(s, i, refunds).0)
  {
    FoundIsOwn(s, i);
    assert IntentPriced(s.intents[i], s.bookings);
    if Tracked(s.bookings, s.intents, i) {
      if s.bookings[s.intents[i].booking].status.Confirmed? {
        ConfirmedSucceededKeeps(s, i, refunds);
      } else {
        OpenSucceededKeeps(s, i, refunds);
      }
    } else {
      AcknowledgeKeeps(s, i);
    }
  }

  lemma ConfirmedSucceededKeeps(s: State, i: nat, refunds: bool)
    requires Consistent(s) && i < |s.intents| && s.intents[i].status.Captured?
    requires FindTracked(s.bookings, i) == Some(s.intents[i].booking) && s.intents[i].booking < |s.bookings|
    requires s.bookings[s.intents[i].booking].status.Confirmed?
    ensures Consistent(Succeeded(s, i, refunds).0)
  {
    var b := s.intents[i].booking;
    var p := s.bookings[b].payment.value;
    ReconfirmKeeps(s, b, i, p);
    if p.status.PaymentSucceeded? {
      AcknowledgeKeeps(s, i);
    } else {
      AcknowledgeKeeps(PutPayment(s, b, p.(status := PaymentSucceeded)), i);
    }
  }

  lemma OpenSucceededKeeps(s: State, i: nat, refunds: bool)
    requires Consistent(s) && i < |s.intents| && s.intents[i].status.Captured?
    requires FindTracked(s.bookings, i) == Some(s.intents[i].booking) && s.intents[i].booking < |s.bookings|
    requires !s.bookings[s.intents[i].booking].status.Confirmed?
    ensures Consistent(Succeeded(s, i, refunds).0)
  {
    var b := s.intents[i].booking;
    var bk := s.bookings[b];
    var p := bk.payment.value;
    assert BookingSettles(b, bk, s.intents, s.refunds);
    if p.status.PaymentCanceled? && bk.cancellations != [] && bk.cancellations[0] > 0 {
      AcknowledgeKeeps(s, i);
    } else if bk.status.Pending? && Fits(s, b, false) {
      ConfirmKeeps(s, b, i);
      AcknowledgeKeeps(Confirm(s, b), i);
    } else if refunds {
      AutoRefundKeeps(s, b, i);
      AutoRefundIsReturned(s, b, i);
      AcknowledgeKeeps(AutoRefundAndCancel(s, b, i), i);
    }
  }

  lemma AutoRefundIsReturned(s: State, b: nat, i: nat)
    requires MayAutoRefund(s, b, i) && s.intents[i].booking == b
    ensures var s' := AutoRefundAndCancel(s, b, i); AckedFinal(i, s'.bookings, s'.intents, s'.refunds)
  {}

  lemma FailedKeeps(s: State, i: nat)
    requires Consistent(s)
    ensures Consistent(Failed(s, i).0)
  {
    var found := FindTracked(s.bookings, i);
    if found.Some? {
      var p := s.bookings[found.value].payment.value;
      if !p.status.PaymentSucceeded? && !p.status.PaymentCanceled? {
        StatusKeeps(s, found.value, p, PaymentFailed);
      }
    }
  }

  lemma DeliverKeeps(s: State, i: nat, e: Event)
    requires Consistent(s)
    ensures Consistent(Deliver(s, i, e).0)
  {
    match e
    case FailedEvent => FailedKeeps(s, i);
    case SucceededEvent(refunds) =>
      if i < |s.intents| && s.intents[i].status.Captured? {
        SucceededKeeps(s, i, refunds);
      }
  }

  // ---------------------------------------------------------------- cancel and sweep

  /** A live booking ends CANCELLED with its seats free; what remains is the money part. */
  lemma ReleaseKeeps(s: State, s': State, b: nat, bk: Booking)
    requires Consistent(s)
    requires b < |s.bookings| && s.bookings[b].Live() && SameOrder(s.bookings[b], bk) && bk.status.Cancelled?
    requires s'.bookings == s.bookings[b := bk] && s'.seats == Mark(s.seats, s.bookings[b].units, Available)
    requires s'.users == s.users && s'.services == s.services && s'.now == s.now && s'.resuming == s.resuming
    requires s.bookings[b].payment.Some? ==> bk.payment.Some?
    requires PaymentsNumbered(s'.bookings, s'.nextPayment)
    requires Settling(s'.bookings, s'.intents, s'.refunds, s'.acked)
    ensures Consistent(s')
  {
    SeatsReleased(s.bookings, b, bk, s.seats);
    CapacityRow(s.bookings, b, bk, s.services, s.now);
    RowKeeps(s, s', b, bk);
  }

  /** Cancelling a paid booking returns the money under the booking's own key. */
  lemma HandRefundSettles(s: State, b: nat, p: Payment, s': State)
    requires Consistent(s)
    requires b < |s.bookings| && s.bookings[b].status.Confirmed? && s.bookings[b].payment == Some(p)
    requires p.status.PaymentSucceeded?
    requires s'.bookings == s.bookings[b := HandRefunded(s.bookings[b], p)] && s'.intents == s.intents
    requires s'.acked == s.acked
    requires s'.refunds ==
             if p.amount > 0 && p.intent.StripeIntent?
             then CreateRefund(s.refunds, RefundBooking(b), p.intent.id, p.amount)
             else s.refunds
    requires p.intent.StripeIntent? ==> p.intent.id < |s.intents| && s.intents[p.intent.id].status.Captured?
    ensures Settling(s'.bookings, s'.intents, s'.refunds, s'.acked)
  {
    var bk := HandRefunded(s.bookings[b], p);
    assert BookingSettles(b, s.bookings[b], s.intents, s.refunds);
    LiveIsUnrefunded(s.bookings, b, s.intents, s.refunds);
    HandRefundKeyed(s, b, p, s');
    HandRefundRow(s, b, p, s');
    HandRefundAcked(s, b, p, s'.refunds);
    RefundSettles(s, b, bk, s'.refunds);
  }

  lemma HandRefundAcked(s: State, b: nat, p: Payment, refunds': Refunds)
    requires Consistent(s) && b < |s.bookings| && s.bookings[b].payment == Some(p)
    requires p.intent.StripeIntent? ==> RefundedByHand(refunds', b, p.intent.id)
    ensures forall j :: j in s.acked ==>
              && j < |s.intents|
              && (s.intents[j].booking == b ==>
                  AckedFinal(j, s.bookings[b := HandRefunded(s.bookings[b], p)], s.intents, refunds'))
  {
    forall j | j in s.acked
      ensures j < |s.intents|
      ensures s.intents[j].booking == b ==>
                AckedFinal(j, s.bookings[b := HandRefunded(s.bookings[b], p)], s.intents, refunds')
    {
      assert AckedFinal(j, s.bookings, s.intents, s.refunds);
    }
  }

  function HandRefunded(bk: Booking, p: Payment): Booking {
    bk.(status := Cancelled, payment := Some(p.(status := PaymentCanceled)),
        cancellations := bk.cancellations + [p.amount])
  }

  lemma HandRefundShape(s: State, b: nat, p: Payment, refunds: bool, s': State)
    requires b < |s.bookings| && s.bookings[b].status.Confirmed? && s.bookings[b].payment == Some(p)
    requires p.status.PaymentSucceeded?
    requires CancelConfirmed(s, b, refunds) == (s', Success)
    ensures p.amount > 0 && p.intent.StripeIntent? ==>
              p.intent.id < |s.intents| && s.intents[p.intent.id].status.Captured?
    ensures s' == s.(bookings := s.bookings[b := HandRefunded(s.bookings[b], p)],
                     seats := Mark(s.seats, s.bookings[b].units, Available),
                     refunds := if p.amount > 0 && p.intent.StripeIntent?
                                then CreateRefund(s.refunds, RefundBooking(b), p.intent.id, p.amount) else s.refunds)
  {
    var refunds' := if p.amount > 0 && p.intent.StripeIntent?
                    then CreateRefund(s.refunds, RefundBooking(b), p.intent.id, p.amount) else s.refunds;
    WithdrawShape(s.(refunds := refunds'), b, p);
  }

  lemma WithdrawShape(s: State, b: nat, p: Payment)
    requires b < |s.bookings|
    ensures Withdraw(PutPayment(s, b, p.(status := PaymentCanceled)), b, p.amount)
         == s.(bookings := s.bookings[b := HandRefunded(s.bookings[b], p)],
             seats := Mark(s.seats, s.bookings[b].units, Available))
  {}

  lemma HandRefundKeyed(s: State, b: nat, p: Payment, s': State)
    requires Consistent(s)
    requires b < |s.bookings| && s.bookings[b].status.Confirmed? && s.bookings[b].payment == Some(p)
    requires p.status.PaymentSucceeded?
    requires s'.refunds ==
             if p.amount > 0 && p.intent.StripeIntent?
             then CreateRefund(s.refunds, RefundBooking(b), p.intent.id, p.amount)
             else s.refunds
    requires p.intent.StripeIntent? ==> p.intent.id < |s.intents| && s.intents[p.intent.id].status.Captured?
    ensures forall k :: k in s'.refunds ==>
              RefundKeyed(k, s.bookings[b := HandRefunded(s.bookings[b], p)], s.intents, s'.refunds)
  {
    var bk := HandRefunded(s.bookings[b], p);
    assert BookingSettles(b, s.bookings[b], s.intents, s.refunds);
    LiveIsUnrefunded(s.bookings, b, s.intents, s.refunds);
    if p.amount > 0 && p.intent.StripeIntent? {
      assert IntentPriced(s.intents[p.intent.id], s.bookings);
      KeysAdded(s.bookings, b, bk, s.intents, s.refunds, RefundBooking(b), p.intent.id, p.amount);
    } else {
      KeysKept(s.bookings, b, bk, s.intents, s.intents, s.refunds);
    }
  }

  lemma HandRefundRow(s: State, b: nat, p: Payment, s': State)
    requires b < |s.bookings| && s.bookings[b].status.Confirmed? && s.bookings[b].payment == Some(p)
    requires p.status.PaymentSucceeded?
    requires BookingSettles(b, s.bookings[b], s.intents, s.refunds)
    requires RefundBooking(b) !in s.refunds
    requires p.intent.StripeIntent? ==> !RefundedAuto(s.refunds, p.intent.id)
    requires s'.refunds ==
             if p.amount > 0 && p.intent.StripeIntent?
             then CreateRefund(s.refunds, RefundBooking(b), p.intent.id, p.amount)
             else s.refunds
    ensures BookingSettles(b, HandRefunded(s.bookings[b], p), s.intents, s'.refunds)
    ensures p.intent.StripeIntent? ==> RefundedByHand(s'.refunds, b, p.intent.id)
  {}

  lemma CancelConfirmedKeeps(s: State, b: nat, refunds: bool)
    requires Consistent(s)
    requires b < |s.bookings| && s.bookings[b].status.Confirmed?
    ensures Consistent(CancelConfirmed(s, b, refunds).0)
  {
    assert BookingSettles(b, s.bookings[b], s.intents, s.refunds);
    var (s', reply) := CancelConfirmed(s, b, refunds);
    var p := s.bookings[b].payment.value;
    if !p.status.PaymentSucceeded? {
      CancelledRowKeeps(s, s', b, s'.bookings[b]);
    } else if reply.Success? {
      HandRefundShape(s, b, p, refunds, s');
      HandRefundSettles(s, b, p, s');
      NumberedRow(s.bookings, b, HandRefunded(s.bookings[b], p), s.nextPayment);
      ReleaseKeeps(s, s', b, HandRefunded(s.bookings[b], p));
    }
  }

  /** The row of a live booking that ends without a refund: its intent is void, or its payment stays open. */
  predicate EndsUnrefunded(bk: Booking, bk': Booking, intents: seq<Intent>) {
    && SameOrder(bk, bk') && bk.Live() && bk'.status.Cancelled?
    && (bk'.cancellations == [] || bk'.cancellations == [0])
    && (bk'.payment.Some? <==> bk.payment.Some?)
    && (bk.payment.Some? ==>
          var p, p' := bk.payment.value, bk'.payment.value;
          && p' == p.(status := p'.status)
          && !p'.status.PaymentSucceeded? && !p.status.PaymentSucceeded?
          && p'.intent.StripeIntent? && p'.intent.id < |intents|)
  }

  lemma UnrefundedSettles(s: State, b: nat, bk: Booking, intents: seq<Intent>)
    requires Consistent(s)
    requires b < |s.bookings| && EndsUnrefunded(s.bookings[b], bk, intents)
    requires SameIntents(s.intents, intents, b) && |intents| == |s.intents|
    ensures Settling(s.bookings[b := bk], intents, s.refunds, s.acked)
  {
    assert BookingSettles(b, s.bookings[b], s.intents, s.refunds);
    LiveIsUnrefunded(s.bookings, b, s.intents, s.refunds);
    KeysKept(s.bookings, b, bk, s.intents, intents, s.refunds);
    forall j | j in s.acked
      ensures j < |s.intents| && (s.intents[j].booking == b ==> AckedFinal(j, s.bookings[b := bk], intents, s.refunds))
    {
      assert AckedFinal(j, s.bookings, s.intents, s.refunds);
    }
    SettlingRow(s.bookings, b, bk, s.intents, intents, s.refunds, s.refunds, s.acked, s.acked);
  }

  lemma CancelledRowKeeps(s: State, s': State, b: nat, bk: Booking)
    requires Consistent(s)
    requires b < |s.bookings| && EndsUnrefunded(s.bookings[b], bk, s'.intents)
    requires s' == s.(bookings := s.bookings[b := bk], intents := s'.intents,
             seats := Mark(s.seats, s.bookings[b].units, Available))
    requires SameIntents(s.intents, s'.intents, b) && |s'.intents| == |s.intents|
    ensures Consistent(s')
  {
    UnrefundedSettles(s, b, bk, s'.intents);
    if bk.payment.Some? {
      NumberedRow(s.bookings, b, bk, s.nextPayment);
    } else {
      NumberedUnpaid(s.bookings, b, bk, s.nextPayment);
    }
    ReleaseKeeps(s, s', b, bk);
  }

  lemma CancelPendingKeeps(s: State, b: nat, reply: CancelReply)
    requires Consistent(s)
    requires b < |s.bookings| && s.bookings[b].status.Pending?
    ensures Consistent(CancelPending(s, b, reply).0)
  {
    var bk := s.bookings[b];
    var s' := CancelPending(s, b, reply).0;
    if bk.payment.None? {
      assert BookingSettles(b, bk, s.intents, s.refunds);
      CancelledRowKeeps(s, s', b, s'.bookings[b]);
    } else {
      var p := bk.payment.value;
      PendingPayment(s, b, p);
      if CancelIntent(s.intents, p.intent.id, reply).1.Done? && !p.status.PaymentCanceled? {
        CancelVoids(s, b, p, reply);
      } else {
        assert BookingSettles(b, bk, s.intents, s.refunds);
        CancelledRowKeeps(s, s', b, s'.bookings[b]);
      }
    }
  }

  /** Stripe accepted the cancel call. */
  lemma CancelVoids(s: State, b: nat, p: Payment, reply: CancelReply)
    requires Consistent(s)
    requires b < |s.bookings| && s.bookings[b].status.Pending? && s.bookings[b].payment == Some(p)
    requires p.intent.StripeIntent? && p.intent.id < |s.intents| && s.intents[p.intent.id].booking == b
    requires !p.status.PaymentCanceled? && !p.status.PaymentSucceeded?
    requires CancelIntent(s.intents, p.intent.id, reply).1.Done?
    ensures Consistent(CancelPending(s, b, reply).0)
  {
    var s' := CancelPending(s, b, reply).0;
    var bk := s'.bookings[b];
    assert BookingSettles(b, s.bookings[b], s.intents, s.refunds);
    assert s'.intents == s.intents[p.intent.id := s.intents[p.intent.id].(status := Voided)];
    assert s'.bookings == s.bookings[b := bk];
    CancelledRowKeeps(s, s', b, bk);
  }

  lemma CancelKeeps(s: State, user: nat, admin: bool, b: nat, reply: CancelReply, refunds: bool)
    requires Consistent(s)
    ensures Consistent(Cancel(s, user, admin, b, reply, refunds).0)
  {
    if b < |s.bookings| {
      if s.bookings[b].status.Confirmed? {
        CancelConfirmedKeeps(s, b, refunds);
      } else if s.bookings[b].status.Pending? {
        CancelPendingKeeps(s, b, reply);
      }
    }
  }

  /** The sweeper's refund is the webhook's: same key, same rows, same seats. */
  lemma {:induction false} SweeperRefundIsAutoRefund(s: State, b: nat, i: nat, p: Payment)
    requires Consistent(s)
    requires b < |s.bookings| && s.bookings[b].status.Pending? && s.bookings[b].payment == Some(p)
    requires s.bookings[b].Tracks(i)
    ensures RefundAndRelease(s, b, i, p) == AutoRefundAndCancel(s, b, i)
  {
    GuardedReleaseIsRelease(s.bookings, b, s.seats);
  }

  /** The row the sweeper leaves once the intent is void. */
  lemma VoidedReleaseRow(s: State, b: nat, p: Payment, intents: seq<Intent>)
    requires b < |s.bookings|
    ensures var s' := Release(PutPayment(s.(intents := intents), b, p.(status := PaymentCanceled)), b);
      && s'.bookings
          == s.bookings[b := s.bookings[b].(status := Cancelled, payment := Some(p.(status := PaymentCanceled)))]
      && s'.intents == intents && s'.now == s.now && s'.acked == s.acked
  {}

  lemma RefundReleaseRow(s: State, b: nat, i: nat, p: Payment)
    requires b < |s.bookings| && s.bookings[b].payment == Some(p)
    ensures var s' := RefundAndRelease(s, b, i, p);
      && s'.bookings == s.bookings[b := AutoRefunded(s.bookings[b])]
      && s'.intents == s.intents && s'.now == s.now && s'.acked == s.acked
  {}

  lemma SweepIntentKeeps(s: State, b: nat, p: Payment, answers: Answers)
    requires Consistent(s)
    requires b < |s.bookings| && s.bookings[b].status.Pending? && s.bookings[b].payment == Some(p)
    ensures Consistent(SweepIntent(s, b, p.intent.id, answers))
  {
    PendingPayment(s, b, p);
    var i := p.intent.id;
    var (intents, verdict) := Ask(s, i, answers);
    match verdict
    case Unknown =>
    case IsCanceled => VoidedReleaseKeeps(s, b, p, intents);
    case IsSucceeded =>
      if Fits(s, b, true) {
        ConfirmKeeps(s, b, i);
      } else if answers.refunds {
        assert BookingSettles(b, s.bookings[b], s.intents, s.refunds);
        AutoRefundKeeps(s, b, i);
        SweeperRefundIsAutoRefund(s, b, i, p);
      }
  }

  lemma VoidedReleaseKeeps(s: State, b: nat, p: Payment, intents: seq<Intent>)
    requires Consistent(s)
    requires b < |s.bookings| && s.bookings[b].status.Pending? && s.bookings[b].payment == Some(p)
    requires p.intent.StripeIntent? && p.intent.id < |s.intents| && s.intents[p.intent.id].booking == b
    requires intents == s.intents[p.intent.id := s.intents[p.intent.id].(status := Voided)]
    requires !s.intents[p.intent.id].status.Captured?
    ensures Consistent(Release(PutPayment(s.(intents := intents), b, p.(status := PaymentCanceled)), b))
  {
    assert BookingSettles(b, s.bookings[b], s.intents, s.refunds);
    VoidedReleaseRow(s, b, p, intents);
    var s' := Release(PutPayment(s.(intents := intents), b, p.(status := PaymentCanceled)), b);
    CancelledRowKeeps(s, s', b, s'.bookings[b]);
  }

  lemma SweepOneKeeps(s: State, b: nat, threshold: Time, answers: Answers)
    requires Consistent(s)
    ensures Consistent(SweepOne(s, b, threshold, answers))
  {
    if b < |s.bookings| && Expired(s.bookings[b], threshold) {
      assert BookingSettles(b, s.bookings[b], s.intents, s.refunds);
      match s.bookings[b].payment
      case None => CancelledRowKeeps(s, Release(s, b), b, Release(s, b).bookings[b]);
      case Some(p) =>
        PendingPayment(s, b, p);
        if p.status.PaymentCanceled? {
          CancelledRowKeeps(s, Release(s, b), b, Release(s, b).bookings[b]);
        } else {
          SweepIntentKeeps(s, b, p, answers);
        }
    }
  }

  // ---------------------------------------------------------------- requests that land inside a transaction

  /** The row when the transaction did not open an intent of its own: its status, the last request's intent. */
  function LandedRow(t: State, b: nat, k: nat): Booking
    requires b < |t.bookings| && t.bookings[b].payment.Some? && k >= 1
  {
    var bk := t.bookings[b];
    bk.(payment := Some(bk.payment.value.(intent := StripeIntent(|t.intents| + k - 1), amount := bk.total)))
  }

  function LandedIntents(t: State, b: nat, k: nat): seq<Intent>
    requires b < |t.bookings|
  {
    t.intents + seq(k, _ => Intent(b, t.bookings[b].total, NeedsMethod))
  }

  lemma LandShape(s: State, t: State, b: nat, k: nat)
    requires Splits(s, t, b, k)
    ensures Land(s, t, b, k) ==
      t.(bookings := if Opened(s, t, b) then t.bookings else t.bookings[b := LandedRow(t, b, k)],
         intents := LandedIntents(t, b, k),
         resuming := t.resuming[b := t.resuming[b] - k])
  {}

  /** More intents for a booking with a payment and a price. */
  lemma MoreIntentsSettle(t: State, b: nat, k: nat)
    requires Consistent(t) && Resumable(t.bookings, b) && k >= 1
    ensures Settling(t.bookings, LandedIntents(t, b, k), t.refunds, t.acked)
  {
    var intents' := LandedIntents(t, b, k);
    FreshIntentClean(t, b);
    KeysKept(t.bookings, b, t.bookings[b], t.intents, intents', t.refunds);
    assert t.bookings[b := t.bookings[b]] == t.bookings;
    forall i | i in t.acked ensures AckedFinal(i, t.bookings, intents', t.refunds) {
      assert AckedFinal(i, t.bookings, t.intents, t.refunds);
    }
    SettlingRow(t.bookings, b, t.bookings[b], t.intents, intents', t.refunds, t.refunds, t.acked, t.acked);
  }

  lemma LandedSettles(t: State, b: nat, k: nat)
    requires Consistent(t) && Resumable(t.bookings, b) && k >= 1
    ensures Settling(t.bookings[b := LandedRow(t, b, k)], LandedIntents(t, b, k), t.refunds, t.acked)
  {
    var bk := LandedRow(t, b, k);
    var intents' := LandedIntents(t, b, k);
    FreshIntentClean(t, b);
    LandedIsClean(t, b, k);
    KeysKept(t.bookings, b, bk, t.intents, intents', t.refunds);
    assert BookingSettles(b, bk, intents', t.refunds);
    SettlingRow(t.bookings, b, bk, t.intents, intents', t.refunds, t.refunds, t.acked, t.acked);
  }

  /** Nothing was refunded of an intent that did not exist. */
  lemma LandedIsClean(t: State, b: nat, k: nat)
    requires Consistent(t) && k >= 1
    ensures !Returned(t.refunds, b, |t.intents| + k - 1)
  {
    var i := |t.intents| + k - 1;
    assert AutoRefund(i) in t.refunds ==> RefundKeyed(AutoRefund(i), t.bookings, t.intents, t.refunds);
    assert RefundBooking(b) in t.refunds ==> RefundKeyed(RefundBooking(b), t.bookings, t.intents, t.refunds);
  }

  lemma LandKeeps(s: State, t: State, b: nat, k: nat)
    requires Consistent(t) && Splits(s, t, b, k)
    ensures Consistent(Land(s, t, b, k))
  {
    assert Resumable(t.bookings, b);
    LandShape(s, t, b, k);
    if Opened(s, t, b) {
      MoreIntentsSettle(t, b, k);
      assert Consistent(t.(intents := LandedIntents(t, b, k)));
    } else {
      LandedKeeps(t, b, k);
    }
  }

  lemma LandedKeeps(t: State, b: nat, k: nat)
    requires Consistent(t) && Resumable(t.bookings, b) && k >= 1
    ensures Consistent(t.(bookings := t.bookings[b := LandedRow(t, b, k)], intents := LandedIntents(t, b, k)))
  {
    var bk := LandedRow(t, b, k);
    var t' := t.(bookings := t.bookings[b := bk], intents := LandedIntents(t, b, k));
    SeatsUntouched(t.bookings, b, bk, t.seats);
    CapacityRow(t.bookings, b, bk, t.services, t.now);
    NumberedRow(t.bookings, b, bk, t.nextPayment);
    LandedSettles(t, b, k);
    RowKeeps(t, t', b, bk);
  }

  // ---------------------------------------------------------------- new holds

  lemma {:induction false} CreateBookingKeeps(s: State, user: nat, order: Order)
    requires Consistent(s) && order.quantity >= 1
    ensures Consistent(CreateBooking(s, user, order).0)
  {
    if CreateBooking(s, user, order).1.Success? {
      var bk := NewHold(s, user, order);
      HoldCounts(s, user, order);
      HoldAnchored(s, user, order);
      HoldKeeps(s, CreateBooking(s, user, order).0, bk);
    }
  }

  /** The checks of the handler anchor the new row and find its seats free. */
  lemma HoldAnchored(s: State, user: nat, order: Order)
    requires order.quantity >= 1 && CreateBooking(s, user, order).1.Success?
    ensures var bk := NewHold(s, user, order);
      && BookingAnchored(bk, s.services, s.seats) && LiveAnchored(bk, s.services, s.users)
      && (forall k :: 0 <= k < |bk.units| ==> bk.units[k] in s.seats && s.seats[bk.units[k]].status.Available?)
      && CreateBooking(s, user, order).0
          == s.(bookings := s.bookings + [bk], seats := Mark(s.seats, bk.units, Reserved))
  {
    assert Mark(s.seats, [], Reserved) == s.seats;
  }

  lemma HoldKeeps(s: State, s': State, bk: Booking)
    requires Consistent(s)
    requires bk.status.Pending? && bk.payment.None? && bk.cancellations == []
    requires BookingAnchored(bk, s.services, s.seats) && LiveAnchored(bk, s.services, s.users)
    requires forall k :: 0 <= k < |bk.units| ==> bk.units[k] in s.seats && s.seats[bk.units[k]].status.Available?
    requires s' == s.(bookings := s.bookings + [bk], seats := Mark(s.seats, bk.units, Reserved))
    requires NeverOversold(s'.bookings, s.services, s.now) && HoldsLimited(s'.bookings, s.now)
    ensures Consistent(s')
  {
    SeatsHeld(s.bookings, bk, s.seats);
    AnchoredHold(s.bookings, bk, s.services, s.seats, s'.seats, s.users);
    HoldSettles(s, bk);
    forall b | b in s.resuming ensures Resumable(s'.bookings, b) {
      assert Resumable(s.bookings, b);
    }
  }

  lemma HoldCounts(s: State, user: nat, order: Order)
    requires Consistent(s) && CreateBooking(s, user, order).1.Success?
    ensures NeverOversold(s.bookings + [NewHold(s, user, order)], s.services, s.now)
    ensures HoldsLimited(s.bookings + [NewHold(s, user, order)], s.now)
  {
    var bk := NewHold(s, user, order);
    var bs' := s.bookings + [bk];
    forall id | id in s.services ensures WithinCapacity(bs', id, s.services[id], s.now) {
      assert WithinCapacity(s.bookings, id, s.services[id], s.now);
      SumAppend(Claims(id, s.now, None), s.bookings, bk);
    }
    forall u: nat ensures Sum(Holds(u, s.now), bs') <= MAX_PENDING_HOLDS_PER_USER {
      SumAppend(Holds(u, s.now), s.bookings, bk);
    }
  }

  lemma HoldSettles(s: State, bk: Booking)
    requires Consistent(s)
    requires bk.payment.None? && bk.cancellations == [] && bk.status.Pending?
    ensures Settling(s.bookings + [bk], s.intents, s.refunds, s.acked)
    ensures PaymentsNumbered(s.bookings + [bk], s.nextPayment)
  {
    var bs' := s.bookings + [bk];
    forall b | 0 <= b < |bs'| ensures BookingSettles(b, bs'[b], s.intents, s.refunds) {
      if b < |s.bookings| {
        assert BookingSettles(b, s.bookings[b], s.intents, s.refunds);
      }
    }
    forall i | 0 <= i < |s.intents| ensures IntentPriced(s.intents[i], bs') {
      assert IntentPriced(s.intents[i], s.bookings);
    }
    forall k | k in s.refunds ensures RefundKeyed(k, bs', s.intents, s.refunds) {
      assert RefundKeyed(k, s.bookings, s.intents, s.refunds);
    }
    forall i | i in s.acked ensures AckedFinal(i, bs', s.intents, s.refunds) {
      assert AckedFinal(i, s.bookings, s.intents, s.refunds);
    }
    forall b | 0 <= b < |bs'| ensures PaymentNumbered(bs', b, s.nextPayment) {
      assert PaymentNumbered(s.bookings, b, s.nextPayment);
    }
  }

  // ---------------------------------------------------------------- catalogue and accounts

  lemma UpdateServiceKeeps(s: State, actor: nat, admin: bool, id: nat, patch: Patch)
    requires Consistent(s)
    ensures Consistent(UpdateService(s, actor, admin, id, patch).0)
  {
    var (s', reply) := UpdateService(s, actor, admin, id, patch);
    if reply.Success? {
      PatchKeepsAnchors(s, id, patch);
      PatchKeepsCapacity(s, id, patch);
    }
  }

  lemma PatchKeepsAnchors(s: State, id: nat, patch: Patch)
    requires Consistent(s) && id in s.services
    requires ScreenMode(s, id, patch).Success? && ScreenShrink(s, id, patch).Success?
    ensures Anchored(s.bookings, s.services[id := Patched(s.services[id], patch)], s.seats, s.users)
  {
    var services' := s.services[id := Patched(s.services[id], patch)];
    assert ServiceAnchored(s.services[id]);
    forall b | 0 <= b < |s.bookings|
      ensures BookingAnchored(s.bookings[b], services', s.seats) && LiveAnchored(s.bookings[b], services', s.users)
    {
      assert BookingAnchored(s.bookings[b], s.services, s.seats) && LiveAnchored(s.bookings[b], s.services, s.users);
    }
    forall q | q in s.seats
      ensures s.seats[q].service in services' && services'[s.seats[q].service].mode.UnitAssigned?
    {
      assert s.seats[q].service in s.services;
    }
  }

  /** Shrinking is bounded by the claims; a service that changes mode has none. */
  lemma PatchKeepsCapacity(s: State, id: nat, patch: Patch)
    requires Consistent(s) && id in s.services
    requires ScreenMode(s, id, patch).Success? && ScreenShrink(s, id, patch).Success?
    ensures NeverOversold(s.bookings, s.services[id := Patched(s.services[id], patch)], s.now)
  {
    assert WithinCapacity(s.bookings, id, s.services[id], s.now);
    assert ServiceAnchored(s.services[id]);
    if !HasBookings(s.bookings, id) {
      SumZero(Claims(id, s.now, None), s.bookings);
    }
    forall k | k in s.services
      ensures WithinCapacity(s.bookings, k, s.services[id := Patched(s.services[id], patch)][k], s.now)
    {
      assert WithinCapacity(s.bookings, k, s.services[k], s.now);
    }
  }

  lemma CreateServiceKeeps(s: State, seller: nat, admin: bool, id: nat, d: Draft)
    requires Consistent(s)
    ensures Consistent(CreateService(s, seller, admin, id, d).0)
  {
    var (s', reply) := CreateService(s, seller, admin, id, d);
    if reply.Success? {
      forall b | 0 <= b < |s.bookings|
        ensures BookingAnchored(s.bookings[b], s'.services, s.seats)
        ensures LiveAnchored(s.bookings[b], s'.services, s.users)
        ensures s.bookings[b].service != id
      {
        assert BookingAnchored(s.bookings[b], s.services, s.seats) && LiveAnchored(s.bookings[b], s.services, s.users);
      }
      SumZero(Claims(id, s.now, None), s.bookings);
      forall k | k in s'.services ensures WithinCapacity(s.bookings, k, s'.services[k], s.now) {
        assert k != id ==> WithinCapacity(s.bookings, k, s.services[k], s.now);
      }
    }
  }

  /** Adding seats or tiers changes no existing seat and no mode, capacity or activity. */
  lemma CreateTierKeeps(s: State, actor: nat, admin: bool, id: nat, tier: nat, price: nat)
    requires Consistent(s)
    ensures Consistent(CreateTier(s, actor, admin, id, tier, price).0)
  {
    var (s', reply) := CreateTier(s, actor, admin, id, tier, price);
    if reply.Success? {
      assert ServiceAnchored(s.services[id]) && WithinCapacity(s.bookings, id, s.services[id], s.now);
      ServicesRefined(s, s'.services);
    }
  }

  lemma ServicesRefined(s: State, services': map<nat, Service>)
    requires Consistent(s) && services'.Keys == s.services.Keys
    requires forall id :: id in s.services ==>
               services'[id].mode == s.services[id].mode && services'[id].maxCapacity == s.services[id].maxCapacity
    requires forall b :: 0 <= b < |s.bookings| && s.bookings[b].Live() && s.bookings[b].service in s.services ==>
               services'[s.bookings[b].service].active == s.services[s.bookings[b].service].active
    ensures Anchored(s.bookings, services', s.seats, s.users)
    ensures NeverOversold(s.bookings, services', s.now)
  {
    forall b | 0 <= b < |s.bookings|
      ensures BookingAnchored(s.bookings[b], services', s.seats) && LiveAnchored(s.bookings[b], services', s.users)
    {
      assert BookingAnchored(s.bookings[b], s.services, s.seats) && LiveAnchored(s.bookings[b], s.services, s.users);
    }
    forall id | id in services'
      ensures ServiceAnchored(services'[id]) && WithinCapacity(s.bookings, id, services'[id], s.now)
    {
      assert ServiceAnchored(s.services[id]) && WithinCapacity(s.bookings, id, s.services[id], s.now);
    }
  }

  lemma CreateInventoryKeeps(s: State, actor: nat, admin: bool, id: nat, tier: nat, codes: map<nat, string>)
    requires Consistent(s)
    ensures Consistent(CreateInventory(s, actor, admin, id, tier, codes).0)
  {
    var (s', reply) := CreateInventory(s, actor, admin, id, tier, codes);
    if reply.Success? {
      forall q | q in s.seats ensures q in s'.seats && s'.seats[q] == s.seats[q] {
        assert q in codes ==> q in s.seats.Keys * codes.Keys;
      }
      SeatsAdded(s, s'.seats);
    }
  }

  lemma SeatsAdded(s: State, seats': map<nat, Seat>)
    requires Consistent(s)
    requires forall q :: q in s.seats ==> q in seats' && seats'[q] == s.seats[q]
    requires forall q :: q in seats' && q !in s.seats ==>
               seats'[q].status.Available? && seats'[q].service in s.services
                   && s.services[seats'[q].service].mode.UnitAssigned?
    ensures Anchored(s.bookings, s.services, seats', s.users)
    ensures SeatsOwned(s.bookings, seats')
  {
    forall b | 0 <= b < |s.bookings| ensures BookingAnchored(s.bookings[b], s.services, seats') {
      assert BookingAnchored(s.bookings[b], s.services, s.seats);
    }
  }

  lemma {:induction false} DeleteServiceKeeps(s: State, actor: nat, admin: bool, id: nat)
    requires Consistent(s)
    ensures Consistent(DeleteService(s, actor, admin, id).0)
  {
    if DeleteService(s, actor, admin, id).1.Success? {
      if HasBookings(s.bookings, id) {
        ServicesRefined(s, s.services[id := s.services[id].(active := false)]);
      } else {
        UnbookedServiceGoes(s, id);
      }
    }
  }

  /** A service nobody ever booked goes with its seats. */
  lemma UnbookedServiceGoes(s: State, id: nat)
    requires Consistent(s) && !HasBookings(s.bookings, id)
    ensures Consistent(s.(services := s.services - {id},
            seats := map q | q in s.seats && s.seats[q].service != id :: s.seats[q]))
  {
    var services' := s.services - {id};
    var seats' := map q | q in s.seats && s.seats[q].service != id :: s.seats[q];
    forall b | 0 <= b < |s.bookings|
      ensures BookingAnchored(s.bookings[b], services', seats') && LiveAnchored(s.bookings[b], services', s.users)
    {
      assert BookingAnchored(s.bookings[b], s.services, s.seats) && LiveAnchored(s.bookings[b], s.services, s.users);
    }
    UnlistedSeatsGo(s, id, seats');
    forall k | k in services'
      ensures ServiceAnchored(services'[k]) && WithinCapacity(s.bookings, k, services'[k], s.now)
    {
      assert ServiceAnchored(s.services[k]) && WithinCapacity(s.bookings, k, s.services[k], s.now);
    }
  }

  lemma UnlistedSeatsGo(s: State, id: nat, seats': map<nat, Seat>)
    requires Consistent(s) && !HasBookings(s.bookings, id)
    requires seats' == map q | q in s.seats && s.seats[q].service != id :: s.seats[q]
    ensures SeatsOwned(s.bookings, seats')
  {
    forall b: nat, q: nat | Lists(s.bookings, b, q) ensures q in seats' && seats'[q] == s.seats[q] {
      assert BookingAnchored(s.bookings[b], s.services, s.seats);
      var k :| 0 <= k < |s.bookings[b].units| && s.bookings[b].units[k] == q;
    }
  }

  /** A deactivated or deleted user has no live bookings. */
  lemma UserLeaves(s: State, user: nat, users': map<nat, User>)
    requires Consistent(s) && !OwesCustomer(s, user)
    requires forall u :: u in s.users && u != user ==> u in users' && users'[u] == s.users[u]
    ensures Anchored(s.bookings, s.services, s.seats, users')
  {
    forall b | 0 <= b < |s.bookings| ensures LiveAnchored(s.bookings[b], s.services, users') {
      assert LiveAnchored(s.bookings[b], s.services, s.users);
    }
  }

  /** A seller who owes no audience has no live bookings to strand. */
  lemma EventsArchived(s: State, left: State, user: nat)
    requires Consistent(left) && left == s.(users := left.users)
    requires !OwesAudience(s, user)
    ensures Consistent(left.(services := Archive(s.services, user)))
  {
    forall b | 0 <= b < |s.bookings| && s.bookings[b].Live() && s.bookings[b].service in s.services
      ensures s.services[s.bookings[b].service].seller != user
    {}
    ServicesRefined(left, Archive(s.services, user));
  }

  lemma {:induction false} DeleteUserKeeps(s: State, user: nat)
    requires Consistent(s)
    ensures Consistent(DeleteUser(s, user).0)
  {
    if DeleteUser(s, user).1.Success? {
      var users' := DeleteUser(s, user).0.users;
      DeleteUserShape(s, user);
      LeavingKeeps(s, user, users');
      if s.users[user].seller {
        EventsArchived(s, s.(users := users'), user);
      }
    }
  }

  lemma DeleteUserShape(s: State, user: nat)
    requires DeleteUser(s, user).1.Success?
    ensures user in s.users && !OwesCustomer(s, user) && (s.users[user].seller ==> !OwesAudience(s, user))
    ensures var s' := DeleteUser(s, user).0;
      && (forall u :: u in s.users && u != user ==> u in s'.users && s'.users[u] == s.users[u])
      && s' == s.(users := s'.users, services := if s.users[user].seller then Archive(s.services, user) else s.services)
  {}

  lemma LeavingKeeps(s: State, user: nat, users': map<nat, User>)
    requires Consistent(s) && !OwesCustomer(s, user)
    requires forall u :: u in s.users && u != user ==> u in users' && users'[u] == s.users[u]
    ensures Consistent(s.(users := users'))
  {
    UserLeaves(s, user, users');
  }

  // ---------------------------------------------------------------- the environment

  /** Time passing only lets holds expire. */
  lemma TickKeeps(s: State, later: Time)
    requires Consistent(s) && s.now <= later
    ensures Consistent(s.(now := later))
  {
    forall id | id in s.services ensures WithinCapacity(s.bookings, id, s.services[id], later) {
      assert WithinCapacity(s.bookings, id, s.services[id], s.now);
      SumLe(Claims(id, later, None), s.bookings, Claims(id, s.now, None), s.bookings);
    }
    forall user: nat ensures Sum(Holds(user, later), s.bookings) <= MAX_PENDING_HOLDS_PER_USER {
      SumLe(Holds(user, later), s.bookings, Holds(user, s.now), s.bookings);
    }
  }

  /** On Stripe an intent moves freely until it is captured or voided; both are final. */
  predicate MayMove(from: IntentStatus, to: IntentStatus) {
    from == to || !(from.Captured? || from.Voided?)
  }

  lemma IntentMoveSettles(s: State, i: nat, status: IntentStatus)
    requires Consistent(s) && i < |s.intents| && MayMove(s.intents[i].status, status)
    ensures var intents' := s.intents[i := s.intents[i].(status := status)];
      forall b :: 0 <= b < |s.bookings| ==> BookingSettles(b, s.bookings[b], intents', s.refunds)
  {
    var intents' := s.intents[i := s.intents[i].(status := status)];
    forall b | 0 <= b < |s.bookings| ensures BookingSettles(b, s.bookings[b], intents', s.refunds) {
      assert BookingSettles(b, s.bookings[b], s.intents, s.refunds);
    }
  }

  lemma StripeMoveKeeps(s: State, i: nat, status: IntentStatus)
    requires Consistent(s) && i < |s.intents| && MayMove(s.intents[i].status, status)
    ensures Consistent(s.(intents := s.intents[i := s.intents[i].(status := status)]))
  {
    var intents' := s.intents[i := s.intents[i].(status := status)];
    IntentMoveSettles(s, i, status);
    forall j | 0 <= j < |intents'| ensures IntentPriced(intents'[j], s.bookings) {
      assert IntentPriced(s.intents[j], s.bookings);
    }
    forall k | k in s.refunds ensures RefundKeyed(k, s.bookings, intents', s.refunds) {
      assert RefundKeyed(k, s.bookings, s.intents, s.refunds);
    }
    forall j | j in s.acked ensures AckedFinal(j, s.bookings, intents', s.refunds) {
      assert AckedFinal(j, s.bookings, s.intents, s.refunds);
    }
  }
}
