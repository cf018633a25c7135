// Taking a hold and paying for it, told from the rows, the answers of Stripe and the clock alone: who may, what
// it costs, and the whole state each attempt leaves.

module Purchases {
  import opened Entities
  import opened Tally
  import opened Stripe
  import opened Reservations
  import opened Payments
  import opened Invariants
  import opened HandlerProofs
  import opened Counting
  import opened Outcomes

  // ---------------------------------------------------------------- POST /bookings

  /** Everything but whether the seats or tickets are still there. */
  predicate MayAsk(s: State, user: nat, order: Order) {
    && user in s.users && s.users[user].active
    && |HoldsOf(s.bookings, user, s.now)| < 5
    && order.service in s.services
    && var service := s.services[order.service];
       && service.active && service.seller != user && s.now < service.startTime
       && (order.tier.Some? ==> order.tier.value in service.tiers)
       && if service.mode.UnitAssigned? then AsksForSeats(s, order)
          else (order.units.None? || order.units.value == []) && order.quantity <= 10
  }

  /** One to ten different seats of the event, all of the tier if one is named. */
  predicate AsksForSeats(s: State, order: Order) {
    && order.units.Some? && 1 <= |order.units.value| <= 10
    && (forall j, k :: 0 <= j < k < |order.units.value| ==> order.units.value[j] != order.units.value[k])
    && forall k :: 0 <= k < |order.units.value| ==>
         && order.units.value[k] in s.seats
         && var seat := s.seats[order.units.value[k]];
            seat.service == order.service && (order.tier.Some? ==> seat.tier == order.tier.value)
  }

  /** The seats are available, or the tickets fit beside all that take room. */
  predicate StillThere(s: State, order: Order)
    requires order.service in s.services
  {
    var service := s.services[order.service];
    if service.mode.UnitAssigned? then
      order.units.Some?
      && forall k :: 0 <= k < |order.units.value| ==>
           order.units.value[k] in s.seats && s.seats[order.units.value[k]].status.Available?
    else
      && service.maxCapacity.Some?
      && |Tickets(s.bookings, order.service, s.now)| + order.quantity <= service.maxCapacity.value
  }

  /** Tickets at the tier's price, or the base price without a tier; seats at the price of each one's own tier. */
  predicate Priced(s: State, order: Order, total: nat)
    requires order.service in s.services
  {
    var service := s.services[order.service];
    if service.mode.SlotCapacity? then
      && (order.tier.None? ==> total == service.basePrice * order.quantity)
      && (order.tier.Some? && order.tier.value in service.tiers ==>
            total == service.tiers[order.tier.value] * order.quantity)
    else
      order.units.Some? && (forall k :: 0 <= k < |order.units.value| ==> order.units.value[k] in s.seats) ==>
        total == Total(PriceList(service, s.seats, order.units.value))
  }

  /** The new row: pending from now on, unpaid, with the seats asked for. */
  predicate Held(s: State, s': State, user: nat, order: Order)
    requires order.service in s.services
  {
    && |s'.bookings| == |s.bookings| + 1
    && var row := s'.bookings[|s.bookings|];
       var units := if order.units.Some? then order.units.value else [];
       && row == Booking(user, order.service, order.tier, if units == [] then order.quantity else |units|, row.total,
                         Pending, s.now, units, None, [])
       && Priced(s, order, row.total)
       && s' == s.(bookings := s.bookings + [row], seats := s'.seats)
       && Reseated(s.seats, s'.seats, units, Reserved)
  }

  lemma QuoteIsPrice(s: State, user: nat, order: Order)
    requires MayAsk(s, user, order)
    ensures Priced(s, order, Quote(s, order))
  {
    if s.services[order.service].mode.UnitAssigned? {
      SeatsAddUp(s.services[order.service], s.seats, order.units.value);
    }
  }

  /** The seat checks pass for what may be asked for exactly if all seats are available. */
  lemma SeatsScreened(s: State, order: Order)
    ensures ScreenSeats(s, order).Success? ==> AsksForSeats(s, order) || |order.Units()| > 10
    ensures AsksForSeats(s, order) ==>
              ScreenSeats(s, order) == if forall k :: 0 <= k < |order.units.value| ==>
                                            s.seats[order.units.value[k]].status.Available?
                                       then Success else Conflict
    ensures ScreenSeats(s, order).Conflict? ==> AsksForSeats(s, order) || |order.Units()| > 10
  {}

  lemma Screened(s: State, user: nat, order: Order)
    ensures Screen(s, user, order).Success? <==>
              && user in s.users && s.users[user].active && order.Requested() <= 10
              && |HoldsOf(s.bookings, user, s.now)| < 5
              && order.service in s.services
              && var service := s.services[order.service];
                 && service.active && service.seller != user && s.now < service.startTime
                 && (order.tier.Some? ==> order.tier.value in service.tiers)
    ensures !Screen(s, user, order).Conflict?
  {
    HoldsAreRows(s.bookings, user, s.now);
  }

  /**
   * A hold is taken exactly if its user may ask and the seats or tickets are still there, at the right price. What
   * may be asked for but is gone is a conflict, and nothing else is; a refusal changes nothing.
   */
  lemma HoldsExactly(s: State, user: nat, order: Order)
    requires order.quantity >= 1
    ensures var (s', reply) := CreateBooking(s, user, order);
            if !MayAsk(s, user, order) then s' == s && !reply.Success? && !reply.Conflict?
            else if !StillThere(s, order) then s' == s && reply.Conflict?
            else reply.Success? && Held(s, s', user, order)
  {
    Screened(s, user, order);
    if Screen(s, user, order).Success? {
      if s.services[order.service].mode.UnitAssigned? {
        SeatsScreened(s, order);
      } else {
        ClaimsAreTickets(s.bookings, order.service, s.now);
      }
    }
    if MayAsk(s, user, order) {
      QuoteIsPrice(s, user, order);
    }
  }

  /** Who is turned away without a look at the event, and when the event or a seat is unknown. */
  lemma HoldRefused(s: State, user: nat, order: Order)
    ensures var reply := CreateBooking(s, user, order).1;
            && (reply.Unauthorized? <==> !(user in s.users && s.users[user].active))
            && (reply.NotFound? ==>
                  || order.service !in s.services || !s.services[order.service].active
                  || exists k :: 0 <= k < |order.Units()| &&
                       (order.Units()[k] !in s.seats || s.seats[order.Units()[k]].service != order.service))
  {}

  // ---------------------------------------------------------------- POST /bookings/{id}/pay

  /** The customer's own hold, pending, and no more than ten minutes old. */
  predicate MayPay(s: State, user: nat, b: nat) {
    && user in s.users && s.users[user].active
    && b < |s.bookings| && s.bookings[b].user == user && s.bookings[b].status.Pending?
    && s.now <= s.bookings[b].createdAt + 600_000_000
  }

  /** A new intent over the whole price, which the payment row now tracks and waits for. */
  predicate Charged(s: State, s': State, b: nat)
    requires b < |s.bookings|
  {
    var bk := s.bookings[b];
    var i := |s.intents|;
    var row := if bk.payment.Some? then bk.payment.value.(intent := StripeIntent(i), status := RequiresPaymentMethod)
               else Payment(s.nextPayment, StripeIntent(i), bk.total, RequiresPaymentMethod, []);
    s' == s.(intents := s.intents + [Intent(b, bk.total, NeedsMethod)],
             bookings := s.bookings[b := bk.(payment := Some(row))],
             nextPayment := if bk.payment.Some? then s.nextPayment else s.nextPayment + 1)
  }

  predicate ChargedIfCreated(s: State, s': State, reply: Reply, b: nat, creates: bool)
    requires b < |s.bookings|
  {
    if creates then reply.Success? && Charged(s, s', b) else reply.GatewayError? && s' == s
  }

  function WithStatus(s: State, b: nat, status: PaymentStatus): State
    requires b < |s.bookings| && s.bookings[b].payment.Some?
  {
    s.(bookings := s.bookings[b := s.bookings[b].(payment := Some(s.bookings[b].payment.value.(status := status)))])
  }

  lemma OpensIntent(s: State, b: nat, creates: bool)
    requires b < |s.bookings| && s.bookings[b].total > 0
    requires s.bookings[b].payment.Some? ==> s.bookings[b].payment.value.amount == s.bookings[b].total
    ensures var (s', reply) := OpenIntent(s, b, creates); ChargedIfCreated(s, s', reply, b, creates)
  {}

  /** The first payment: a free booking is sold at once, any other gets its first intent. */
  lemma FirstPayment(s: State, user: nat, b: nat, retrieves: bool, creates: bool)
    requires Consistent(s) && MayPay(s, user, b) && s.bookings[b].payment.None?
    ensures var (s', reply) := Pay(s, user, b, retrieves, creates);
            var bk := s.bookings[b];
            if bk.total > 0 then ChargedIfCreated(s, s', reply, b, creates)
            else
              var row := Payment(s.nextPayment, FreeIntent, 0, RequiresPaymentMethod, []);
              var unpaid := s.(bookings := s.bookings[b := bk.(payment := Some(row))],
                               nextPayment := s.nextPayment + 1);
              reply.Success? && Sold(unpaid, s', b)
  {
    if s.bookings[b].total > 0 {
      OpensIntent(s, b, creates);
    } else {
      var row := Payment(s.nextPayment, FreeIntent, 0, RequiresPaymentMethod, []);
      ConfirmSells(PutPayment(s, b, row).(nextPayment := s.nextPayment + 1), b);
    }
  }

  /**
   * Paying again. Unless the row is CANCELED, Stripe is asked: captured, the hold is sold; canceled, the row is
   * marked and the request goes on after that commit. A failed payment is opened again while its intent can still be
   * paid, and gets a new intent when Stripe does not answer or is still at work on it. A canceled one gets a new
   * intent. Any other attempt changes nothing.
   */
  lemma NextPayment(s: State, user: nat, b: nat, retrieves: bool, creates: bool)
    requires Consistent(s) && MayPay(s, user, b) && s.bookings[b].payment.Some?
    ensures s.bookings[b].payment.value.intent.StripeIntent?
    ensures s.bookings[b].payment.value.intent.id < |s.intents|
    ensures var (s', reply) := Pay(s, user, b, retrieves, creates);
            var p := s.bookings[b].payment.value;
            var status := s.intents[p.intent.id].status;
            if p.status.PaymentCanceled? then ChargedIfCreated(s, s', reply, b, creates)
            else if retrieves && status.Captured? then reply.Success? && Sold(s, s', b)
            else if retrieves && status.Voided? then
              reply.Unanswered? && s' == WithStatus(s, b, PaymentCanceled).(resuming := s.resuming + multiset{b})
            else if p.status.PaymentFailed? then
              if retrieves && !status.InProcess? then reply.Success? && s' == WithStatus(s, b, RequiresPaymentMethod)
              else ChargedIfCreated(s, s', reply, b, creates)
            else reply.Success? && s' == s
  {
    PendingRow(s, b);
    OpensIntent(s, b, creates);
    ConfirmSells(s, b);
  }

  lemma PaymentRefused(s: State, user: nat, b: nat, retrieves: bool, creates: bool)
    requires !MayPay(s, user, b)
    ensures Pay(s, user, b, retrieves, creates) ==
              (s, if !(user in s.users && s.users[user].active) then Unauthorized
                  else if b >= |s.bookings| then NotFound
                  else if s.bookings[b].user != user then Forbidden else BadRequest)
  {}

  /** The rest of a request after its first commit opens a new intent on the row as it is, whatever it says. */
  lemma GoesOn(s: State, b: nat, creates: bool)
    requires Consistent(s) && b in s.resuming
    ensures b < |s.bookings|
    ensures var (s', reply) := Resume(s, b, creates);
            ChargedIfCreated(s.(resuming := s.resuming - multiset{b}), s', reply, b, creates)
  {
    assert Resumable(s.bookings, b);
    assert BookingSettles(b, s.bookings[b], s.intents, s.refunds);
    OpensIntent(s.(resuming := s.resuming - multiset{b}), b, creates);
  }
}
