// Stripe delivers events late, repeatedly and out of order. What the webhook makes of them does not
// depend on any of that.

module Webhooks {
  import opened Entities
  import opened Payments
  import opened Stripe
  import opened Invariants
  import opened RowProofs
  import opened HandlerProofs
  import opened Runs

  /** An acknowledged intent's payment is final, and a booking that gave the money back has its audit row. */
  lemma AckedIsFinal(s: State, i: nat)
    requires Consistent(s) && i in s.acked && Tracked(s.bookings, s.intents, i)
    ensures i < |s.intents| && s.intents[i].status.Captured?
    ensures var bk := s.bookings[s.intents[i].booking];
            if bk.status.Confirmed? then bk.payment.value.status.PaymentSucceeded?
            else bk.status.Cancelled? && bk.payment.value.status.PaymentCanceled? && bk.cancellations != []
                 && (bk.cancellations[0] == 0 ==> AutoRefund(i) in s.refunds)
  {
    var b := s.intents[i].booking;
    assert AckedFinal(i, s.bookings, s.intents, s.refunds);
    assert BookingSettles(b, s.bookings[b], s.intents, s.refunds);
    assert IntentPriced(s.intents[i], s.bookings);
  }

  /** A replayed auto-refund rewrites what is already there. */
  lemma ReplayIsIdle(s: State, i: nat)
    requires Consistent(s) && i in s.acked && Tracked(s.bookings, s.intents, i)
    requires var bk := s.bookings[s.intents[i].booking];
             bk.status.Cancelled? && bk.cancellations != [] && bk.cancellations[0] == 0
    ensures AutoRefundAndCancel(s, s.intents[i].booking, i) == s
  {
    AckedIsFinal(s, i);
    var b := s.intents[i].booking;
    assert AutoRefundAndCancel(s, b, i).bookings == s.bookings;
  }

  /** Once acknowledged, any later delivery of any event of the intent changes nothing, on either side. */
  lemma Absorbed(s: State, i: nat, e: Event)
    requires Consistent(s) && i in s.acked
    ensures Deliver(s, i, e).0 == s
  {
    assert AckedFinal(i, s.bookings, s.intents, s.refunds);
    FoundIsOwn(s, i);
    assert Acknowledge(s, i) == s;
    if Tracked(s.bookings, s.intents, i) {
      AckedIsFinal(s, i);
      var bk := s.bookings[s.intents[i].booking];
      if bk.status.Cancelled? && bk.cancellations[0] == 0 {
        ReplayIsIdle(s, i);
      }
    }
  }

  lemma StaysAcked(before: seq<Step>, after: seq<Step>, i: nat)
    requires i in Run(before).acked
    ensures Consistent(Run(before + after)) && i in Run(before + after).acked
  {
    RunsExtend(before, after);
    RunConsistent(before + after);
  }

  /** The same in every later reachable state: acknowledgements are never forgotten. */
  lemma {:induction false} AckedForever(before: seq<Step>, after: seq<Step>, i: nat, e: Event)
    requires i in Run(before).acked
    ensures Run(before + after + [Webhook(i, e)]) == Run(before + after)
  {
    StaysAcked(before, after, i);
    RunExtends(before + after, Webhook(i, e));
    Absorbed(Run(before + after), i, e);
  }

  // ---------------------------------------------------------------- confluence

  function DeliverAll(s: State, i: nat, events: seq<Event>): State {
    if events == [] then s
    else Deliver(DeliverAll(s, i, events[..|events| - 1]), i, events[|events| - 1]).0
  }

  /** A succeeded event whose refund call, if one is needed, goes through. */
  const SETTLING := SucceededEvent(true)

  predicate Captures(s: State, i: nat) {
    i < |s.intents| && s.intents[i].status.Captured?
  }

  lemma FirstSucceededAcknowledges(s: State, i: nat)
    requires Consistent(s) && Captures(s, i)
    ensures i in Deliver(s, i, SETTLING).0.acked
  {}

  /** A failed event that arrives first only touches a status the succeeded event overwrites. */
  lemma FailedCommutes(s: State, i: nat)
    requires Consistent(s) && Captures(s, i)
    ensures Deliver(Deliver(s, i, FailedEvent).0, i, SETTLING).0 == Deliver(s, i, SETTLING).0
  {
    FoundIsOwn(s, i);
    if Tracked(s.bookings, s.intents, i) {
      var p := s.bookings[s.intents[i].booking].payment.value;
      if !p.status.PaymentSucceeded? && !p.status.PaymentCanceled? {
        OpenFailedCommutes(s, s.intents[i].booking, i, p);
      }
    }
  }

  lemma OpenFailedCommutes(s: State, b: nat, i: nat, p: Payment)
    requires Consistent(s) && Captures(s, i) && FindTracked(s.bookings, i) == Some(b) && s.intents[i].booking == b
    requires s.bookings[b].payment == Some(p) && !p.status.PaymentSucceeded? && !p.status.PaymentCanceled?
    ensures Deliver(Deliver(s, i, FailedEvent).0, i, SETTLING).0 == Deliver(s, i, SETTLING).0
  {
    var t := PutPayment(s, b, p.(status := PaymentFailed));
    FailedKeeps(s, i);
    FoundIsOwn(t, i);
    OpenStatusForgotten(s, b, i, p);
  }

  /** What the succeeded event commits for an open payment does not depend on its status. */
  lemma OpenStatusForgotten(s: State, b: nat, i: nat, p: Payment)
    requires b < |s.bookings| && s.bookings[b].payment == Some(p)
    requires BookingSettles(b, s.bookings[b], s.intents, s.refunds)
    requires !p.status.PaymentSucceeded? && !p.status.PaymentCanceled?
    requires var t := PutPayment(s, b, p.(status := PaymentFailed));
      FindTracked(s.bookings, i) == Some(b) && FindTracked(t.bookings, i) == Some(b)
    ensures Succeeded(PutPayment(s, b, p.(status := PaymentFailed)), i, true).0 == Succeeded(s, i, true).0
  {
    var t := PutPayment(s, b, p.(status := PaymentFailed));
    FitsIgnoresPayment(s, b, t.bookings[b]);
    assert AutoRefundAndCancel(t, b, i).bookings == AutoRefundAndCancel(s, b, i).bookings;
    assert Confirm(t, b).bookings == Confirm(s, b).bookings;
  }

  lemma FitsIgnoresPayment(s: State, b: nat, bk: Booking)
    requires b < |s.bookings| && SameOrder(s.bookings[b], bk) && bk.status == s.bookings[b].status
    ensures Fits(PutBooking(s, b, bk), b, false) == Fits(s, b, false)
  {
    Tally.SumUpdate(Tally.Claims(bk.service, s.now, Some(b)), s.bookings, b, bk);
  }

  /** A succeeded event whose refund fails is rolled back; one that needs no refund settles. */
  lemma UnrefundedEither(s: State, i: nat)
    requires Consistent(s) && Captures(s, i)
    ensures var t := Deliver(s, i, SucceededEvent(false)).0;
            t == s || t == Deliver(s, i, SETTLING).0
  {}

  lemma EventsKeepCapture(s: State, i: nat, e: Event)
    requires Consistent(s) && Captures(s, i)
    ensures Consistent(Deliver(s, i, e).0) && Captures(Deliver(s, i, e).0, i)
  {
    DeliverKeeps(s, i, e);
    DeliverExtends(s, i, e);
    assert IntentKept(s.intents[i], Deliver(s, i, e).0.intents[i]);
  }

  /** After the settling event every event is absorbed. */
  lemma {:induction false} SettledIsFixed(s: State, i: nat, e: Event)
    requires Consistent(s) && Captures(s, i)
    ensures var settled := Deliver(s, i, SETTLING).0; Deliver(settled, i, e).0 == settled
  {
    EventsKeepCapture(s, i, SETTLING);
    FirstSucceededAcknowledges(s, i);
    Absorbed(Deliver(s, i, SETTLING).0, i, e);
  }

  /** Before the settling event nothing is decided: it takes every earlier state to the same place. */
  lemma {:induction false} SettlesAlike(s: State, i: nat, e: Event)
    requires Consistent(s) && Captures(s, i)
    ensures Deliver(Deliver(s, i, e).0, i, SETTLING).0 == Deliver(s, i, SETTLING).0
  {
    SettledIsFixed(s, i, SETTLING);
    if e.FailedEvent? {
      FailedCommutes(s, i);
    } else if !e.refunds {
      UnrefundedEither(s, i);
    }
  }

  lemma {:induction false} DeliveriesSettleAlike(s: State, i: nat, events: seq<Event>)
    requires Consistent(s) && Captures(s, i)
    ensures Consistent(DeliverAll(s, i, events)) && Captures(DeliverAll(s, i, events), i)
    ensures Deliver(DeliverAll(s, i, events), i, SETTLING).0 == Deliver(s, i, SETTLING).0
  {
    if events != [] {
      var last := |events| - 1;
      DeliveriesSettleAlike(s, i, events[..last]);
      EventsKeepCapture(DeliverAll(s, i, events[..last]), i, events[last]);
      SettlesAlike(DeliverAll(s, i, events[..last]), i, events[last]);
    }
  }

  /** Only the settling outcome acknowledges: an event that does so reaches the settled state. */
  lemma AcknowledgingSettles(s: State, i: nat, e: Event)
    requires Consistent(s) && Captures(s, i) && i !in s.acked
    requires i in Deliver(s, i, e).0.acked
    ensures Deliver(s, i, e).0 == Deliver(s, i, SETTLING).0
  {
    if e == SucceededEvent(false) {
      UnrefundedEither(s, i);
    }
  }

  /**
   * At a fixed clock, every finite sequence of events of one captured intent after which it is acknowledged,
   * in any order and multiplicity, ends in the state that one settling delivery alone would reach.
   */
  lemma {:induction false} Confluence(s: State, i: nat, events: seq<Event>)
    requires Consistent(s) && Captures(s, i)
    requires i in DeliverAll(s, i, events).acked
    ensures DeliverAll(s, i, events) == Deliver(s, i, SETTLING).0
  {
    if events == [] {
      Absorbed(s, i, SETTLING);
    } else {
      var last := |events| - 1;
      var before := DeliverAll(s, i, events[..last]);
      DeliveriesSettleAlike(s, i, events[..last]);
      if i in before.acked {
        Confluence(s, i, events[..last]);
        Absorbed(before, i, events[last]);
      } else {
        AcknowledgingSettles(before, i, events[last]);
      }
    }
  }

  /** In particular every sequence that contains a succeeded event whose refund call, if one is needed, goes through. */
  lemma {:induction false} SettlingDecides(s: State, i: nat, events: seq<Event>)
    requires Consistent(s) && Captures(s, i)
    requires SETTLING in events
    ensures DeliverAll(s, i, events) == Deliver(s, i, SETTLING).0
  {
    var last := |events| - 1;
    if SETTLING in events[..last] {
      SettlingDecides(s, i, events[..last]);
      SettledIsFixed(s, i, events[last]);
    } else {
      assert events[last] == SETTLING;
      DeliveriesSettleAlike(s, i, events[..last]);
    }
  }
}
