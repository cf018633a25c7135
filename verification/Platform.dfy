// The handlers in the form the program gives them: methods that rewrite the tables step by step, loop
// over seats and candidates, and leave early on errors. Each is proved to commit exactly what its
// specification function says, and to keep the platform consistent.

module Platform {
  import opened Entities
  import opened Tally
  import opened Stripe
  import opened Reservations
  import opened Payments
  import opened Sweeper
  import opened Catalogue
  import opened Invariants
  import opened HandlerProofs
  import opened SweeperProofs
  import opened Runs

  class Database {
    var users: map<nat, User>
    var locations: map<nat, nat>
    var services: map<nat, Service>
    var seats: map<nat, Seat>
    var bookings: seq<Booking>
    var intents: seq<Intent>
    var refunds: Refunds
    var acked: set<nat>
    var resuming: multiset<nat>
    var nextPayment: nat
    var now: Time

    ghost function Tables(): State
      reads this
    {
      State(users, locations, services, seats, bookings, intents, refunds, acked, resuming, nextPayment, now)
    }

    ghost predicate Valid()
      reads this
    {
      Consistent(Tables())
    }

    constructor ()
      ensures Valid() && Tables() == INITIAL
    {
      users, locations, services, seats := map[], map[], map[], map[];
      bookings, intents, refunds, acked, resuming := [], [], map[], {}, multiset{};
      nextPayment, now := 0, 0;
    }

    // -------------------------------------------------------------- shared pieces

    method SetSeats(units: seq<nat>, status: ItemStatus)
      modifies this`seats
      ensures seats == Mark(old(seats), units, status)
    {
      for k := 0 to |units|
        invariant seats == Mark(old(seats), units[..k], status)
      {
        assert units[..k + 1] == units[..k] + [units[k]];
        if units[k] in seats {
          seats := seats[units[k] := seats[units[k]].(status := status)];
        }
      }
      assert units[..|units|] == units;
    }

    method FreeReservedSeats(units: seq<nat>)
      modifies this`seats
      ensures seats == FreeReserved(old(seats), units)
    {
      for k := 0 to |units|
        invariant seats == FreeReserved(old(seats), units[..k])
      {
        assert units[..k + 1] == units[..k] + [units[k]];
        if units[k] in seats && seats[units[k]].status.Reserved? {
          seats := seats[units[k] := seats[units[k]].(status := Available)];
        }
      }
      assert units[..|units|] == units;
    }

    /** check_and_lock_unit_assigned, check_and_lock_slot_capacity and the sweeper's copies of them. */
    method CanConfirm(b: nat, emptyFits: bool) returns (ok: bool)
      requires b < |bookings|
      ensures ok == Fits(Tables(), b, emptyFits)
    {
      var bk := bookings[b];
      if bk.service !in services {
        return false;
      }
      if services[bk.service].mode.UnitAssigned? {
        if bk.units == [] && !emptyFits {
          return false;
        }
        for k := 0 to |bk.units|
          invariant forall j :: 0 <= j < k ==> bk.units[j] in seats && seats[bk.units[j]].status.Reserved?
        {
          if bk.units[k] !in seats || !seats[bk.units[k]].status.Reserved? {
            return false;
          }
        }
        return true;
      }
      var count := ComputeSum(Claims(bk.service, now, Some(b)), bookings);
      var capacity := services[bk.service].maxCapacity;
      return capacity.Some? && count <= capacity.value;
    }

    method ConfirmBookingAndInvoice(b: nat)
      requires b < |bookings| && bookings[b].payment.Some?
      modifies this`bookings, this`seats
      ensures Tables() == Confirm(old(Tables()), b)
    {
      var payment := bookings[b].payment.value.(status := PaymentSucceeded);
      bookings := bookings[b := bookings[b].(status := Confirmed)];
      SetSeats(bookings[b].units, Booked);
      if payment.invoices == [] {
        payment := payment.(invoices := [Invoice(payment.id, now)]);
      }
      bookings := bookings[b := bookings[b].(payment := Some(payment))];
    }

    // -------------------------------------------------------------- POST /bookings

    /** The seat checks of reserved seating, each a pass over the locked rows. */
    method CheckSeats(order: Order) returns (reply: Reply)
      ensures reply == ScreenSeats(Tables(), order)
    {
      var units := order.Units();
      if units == [] || !Distinct(units) {
        return BadRequest;
      }
      for k := 0 to |units|
        invariant forall j :: 0 <= j < k ==> units[j] in seats && seats[units[j]].service == order.service
      {
        if units[k] !in seats || seats[units[k]].service != order.service {
          return NotFound;
        }
      }
      if order.tier.Some? {
        for k := 0 to |units|
          invariant forall j :: 0 <= j < k ==> seats[units[j]].tier == order.tier.value
        {
          if seats[units[k]].tier != order.tier.value {
            return BadRequest;
          }
        }
      }
      for k := 0 to |units|
        invariant forall j :: 0 <= j < k ==> seats[units[j]].status.Available?
      {
        if !seats[units[k]].status.Available? {
          return Conflict;
        }
      }
      return Success;
    }

    method SumSeatPrices(service: Service, units: seq<nat>) returns (total: nat)
      requires forall k :: 0 <= k < |units| ==> units[k] in seats
      ensures total == SeatPrices(service, seats, units)
    {
      total := 0;
      for k := 0 to |units|
        invariant total == SeatPrices(service, seats, units[..k])
      {
        assert units[..k + 1][..k] == units[..k];
        total := total + SeatPrice(service, seats[units[k]]);
      }
      assert units[..|units|] == units;
    }

    method CreateBooking(user: nat, order: Order) returns (reply: Reply)
      modifies this
      ensures (Tables(), reply) == Reservations.CreateBooking(old(Tables()), user, order)
    {
      if !(user in users && users[user].active) {
        return Unauthorized;
      }
      if order.Requested() > MAX_TICKETS_PER_BOOKING {
        return BadRequest;
      }
      var holds := ComputeSum(Holds(user, now), bookings);
      if holds >= MAX_PENDING_HOLDS_PER_USER {
        return BadRequest;
      }
      if order.service !in services || !services[order.service].active {
        return NotFound;
      }
      var service := services[order.service];
      if service.seller == user || now >= service.startTime {
        return BadRequest;
      }
      if order.tier.Some? && order.tier.value !in service.tiers {
        return BadRequest;
      }
      if service.mode.UnitAssigned? {
        var units := order.Units();
        var seated := CheckSeats(order);
        if !seated.Success? {
          return seated;
        }
        var total := SumSeatPrices(service, units);
        SetSeats(units, Reserved);
        bookings := bookings
            + [Booking(user, order.service, order.tier, |units|, total, Pending, now, units, None, [])];
        return Success;
      }
      if order.Units() != [] {
        return BadRequest;
      }
      var claimed := ComputeSum(Claims(order.service, now, None), bookings);
      if service.maxCapacity.None? || claimed + order.quantity > service.maxCapacity.value {
        return Conflict;
      }
      var total := UnitPrice(service, order.tier) * order.quantity;
      bookings := bookings
          + [Booking(user, order.service, order.tier, order.quantity, total, Pending, now, [], None, [])];
      return Success;
    }

    // -------------------------------------------------------------- POST /bookings/{id}/pay

    /** The tail of the pay handler: a free confirmation, or a new intent for a new or reused payment row. */
    method StartPayment(b: nat, creates: bool) returns (reply: Reply)
      requires b < |bookings|
      modifies this
      ensures (Tables(), reply) == OpenIntent(old(Tables()), b, creates)
    {
      var bk := bookings[b];
      if bk.total == 0 {
        var payment: Payment;
        if bk.payment.Some? {
          payment := bk.payment.value.(amount := 0);
        } else {
          payment := Payment(nextPayment, FreeIntent, 0, RequiresPaymentMethod, []);
          nextPayment := nextPayment + 1;
        }
        bookings := bookings[b := bk.(payment := Some(payment))];
        ConfirmBookingAndInvoice(b);
        return Success;
      }
      if !creates {
        return GatewayError;
      }
      var intent := |intents|;
      intents := intents + [Intent(b, bk.total, NeedsMethod)];
      var payment: Payment;
      if bk.payment.Some? {
        payment := bk.payment.value.(intent := StripeIntent(intent), amount := bk.total,
            status := RequiresPaymentMethod);
      } else {
        payment := Payment(nextPayment, StripeIntent(intent), bk.total, RequiresPaymentMethod, []);
        nextPayment := nextPayment + 1;
      }
      bookings := bookings[b := bk.(payment := Some(payment))];
      return Success;
    }

    /** Marks the row and commits: the lock is gone, the request goes on in ResumePayment. */
    method CommitVoid(b: nat, payment: Payment)
      requires b < |bookings| && bookings[b].payment == Some(payment)
      modifies this`bookings, this`resuming
      ensures Tables() == VoidAndCommit(old(Tables()), b, payment).0
    {
      bookings := bookings[b := bookings[b].(payment := Some(payment.(status := PaymentCanceled)))];
      resuming := resuming + multiset{b};
    }

    /** The rest of a request after such a commit: steps 6 to 9 on the rows as they are by then. */
    method ResumePayment(b: nat, creates: bool) returns (reply: Reply)
      modifies this
      ensures (Tables(), reply) == Resume(old(Tables()), b, creates)
    {
      if b !in resuming || b >= |bookings| {
        return NotFound;
      }
      resuming := resuming - multiset{b};
      reply := StartPayment(b, creates);
    }

    method CreatePaymentIntent(user: nat, b: nat, retrieves: bool, creates: bool) returns (reply: Reply)
      modifies this
      ensures (Tables(), reply) == Pay(old(Tables()), user, b, retrieves, creates)
    {
      if !(user in users && users[user].active) {
        return Unauthorized;
      }
      if b >= |bookings| {
        return NotFound;
      }
      var bk := bookings[b];
      if bk.user != user {
        return Forbidden;
      }
      if bk.status.Confirmed? || bk.status.Cancelled? || now > bk.createdAt + HOLD {
        return BadRequest;
      }
      if bk.payment.Some? {
        var payment := bk.payment.value;
        if payment.status.PaymentSucceeded? {
          return BadRequest;
        }
        if !payment.status.PaymentFailed? && !payment.status.PaymentCanceled? {
          if payment.intent.FreeIntent? {
            return Success;
          }
          var answer := Retrieve(intents, payment.intent.id, retrieves);
          if answer == Some(Captured) {
            ConfirmBookingAndInvoice(b);
            return Success;
          }
          if answer != Some(Voided) {
            return Success;
          }
          CommitVoid(b, payment);
          return Unanswered;
        } else if payment.status.PaymentFailed? && payment.intent.StripeIntent? {
          var answer := Retrieve(intents, payment.intent.id, retrieves);
          if answer == Some(Captured) {
            ConfirmBookingAndInvoice(b);
            return Success;
          }
          if answer == Some(NeedsMethod) || answer == Some(NeedsConfirmation) || answer == Some(NeedsAction) {
            bookings := bookings[b := bk.(payment := Some(payment.(status := RequiresPaymentMethod)))];
            return Success;
          }
          if answer == Some(Voided) {
            CommitVoid(b, payment);
            return Unanswered;
          }
        }
      }
      reply := StartPayment(b, creates);
    }

    // -------------------------------------------------------------- POST /webhook/stripe

    /** The payment row whose stripe_payment_intent_id is the event's, if any. */
    method LocatePayment(i: nat) returns (found: Option<nat>)
      ensures found == FindTracked(bookings, i)
      ensures found.Some? ==> found.value < |bookings| && bookings[found.value].Tracks(i)
    {
      var k := 0;
      while k < |bookings| && !bookings[k].Tracks(i)
        invariant 0 <= k <= |bookings|
        invariant FindFrom(bookings, i, k) == FindFrom(bookings, i, 0)
      {
        k := k + 1;
      }
      return if k < |bookings| then Some(k) else None;
    }

    /** The body of the auto-refund branch, once Stripe has accepted the refund. */
    method RecordAutoRefund(b: nat, i: nat)
      requires b < |bookings| && bookings[b].payment.Some?
      modifies this`bookings, this`seats, this`refunds
      ensures Tables() == AutoRefundAndCancel(old(Tables()), b, i)
    {
      var payment := bookings[b].payment.value;
      refunds := CreateRefund(refunds, AutoRefund(i), i, payment.amount);
      bookings := bookings[b := bookings[b].(payment := Some(payment.(status := PaymentCanceled)))];
      var wasPending := bookings[b].status.Pending?;
      bookings := bookings[b := bookings[b].(status := Cancelled)];
      if wasPending {
        FreeReservedSeats(bookings[b].units);
      }
      if bookings[b].cancellations == [] {
        bookings := bookings[b := bookings[b].(cancellations := [payment.amount])];
      }
    }

    method HandleSucceeded(i: nat, refunded: bool) returns (reply: Reply)
      modifies this
      ensures (Tables(), reply) == Succeeded(old(Tables()), i, refunded)
    {
      var found := LocatePayment(i);
      if found.None? {
        acked := acked + {i};
        return AlreadyDone;
      }
      var b := found.value;
      var payment := bookings[b].payment.value;
      if bookings[b].status.Confirmed? {
        if !payment.status.PaymentSucceeded? {
          bookings := bookings[b := bookings[b].(payment := Some(payment.(status := PaymentSucceeded)))];
        }
        acked := acked + {i};
        return AlreadyDone;
      }
      if payment.status.PaymentSucceeded? {
        acked := acked + {i};
        return AlreadyDone;
      }
      if payment.status.PaymentCanceled? && bookings[b].cancellations != [] && bookings[b].cancellations[0] > 0 {
        acked := acked + {i};
        return AlreadyDone;
      }
      var canConfirm := false;
      if bookings[b].status.Pending? {
        canConfirm := CanConfirm(b, false);
      }
      if !canConfirm {
        if !refunded {
          return ServerError;
        }
        RecordAutoRefund(b, i);
      } else {
        ConfirmBookingAndInvoice(b);
      }
      acked := acked + {i};
      return Success;
    }

    method StripeWebhook(i: nat, event: Event) returns (reply: Reply)
      modifies this
      ensures (Tables(), reply) == Deliver(old(Tables()), i, event)
    {
      match event
      case SucceededEvent(refunded) =>
        if i >= |intents| || !intents[i].status.Captured? {
          return BadRequest;
        }
        reply := HandleSucceeded(i, refunded);
      case FailedEvent =>
        var found := LocatePayment(i);
        if found.None? {
          return AlreadyDone;
        }
        var payment := bookings[found.value].payment.value;
        if payment.status.PaymentSucceeded? || payment.status.PaymentCanceled? {
          return AlreadyDone;
        }
        bookings := bookings[found.value := bookings[found.value].(payment := Some(payment.(status := PaymentFailed)))];
        return Success;
    }

    // -------------------------------------------------------------- POST /bookings/{id}/cancel

    /** Steps 6 and 7: status, seats, and the immutable audit row. */
    method WithdrawBooking(b: nat, amount: nat)
      requires b < |bookings|
      modifies this`bookings, this`seats
      ensures Tables() == Withdraw(old(Tables()), b, amount)
    {
      bookings := bookings[b := bookings[b].(status := Cancelled)];
      SetSeats(bookings[b].units, Available);
      bookings := bookings[b := bookings[b].(cancellations := bookings[b].cancellations + [amount])];
    }

    method CancelBookingAndRefund(user: nat, admin: bool, b: nat, cancel: CancelReply,
                                  refunded: bool) returns (reply: Reply)
      modifies this
      ensures (Tables(), reply) == Cancel(old(Tables()), user, admin, b, cancel, refunded)
    {
      if !(user in users && users[user].active) {
        return Unauthorized;
      }
      if b >= |bookings| {
        return NotFound;
      }
      var bk := bookings[b];
      if bk.user != user && !admin {
        return Forbidden;
      }
      if bk.status.Cancelled? || (bk.service in services && now >= services[bk.service].startTime) {
        return BadRequest;
      }
      var amount := 0;
      if bk.status.Confirmed? {
        reply, amount := RefundIfPaid(b, refunded);
        if !reply.Success? {
          return;
        }
      } else {
        CancelOpenIntent(b, cancel);
      }
      WithdrawBooking(b, amount);
      return Success;
    }

    /** Step 5 of a confirmed booking: the refund, before any row changes. */
    method RefundIfPaid(b: nat, refunded: bool) returns (reply: Reply, amount: nat)
      requires b < |bookings|
      modifies this`bookings, this`refunds
      ensures |bookings| == |old(bookings)|
      ensures (if reply.Success? then Withdraw(Tables(), b, amount) else Tables(), reply)
           == CancelConfirmed(old(Tables()), b, refunded)
    {
      var bk := bookings[b];
      if bk.payment.None? || !bk.payment.value.status.PaymentSucceeded? {
        return Success, 0;
      }
      var payment := bk.payment.value;
      if payment.amount > 0 && payment.intent.StripeIntent? {
        if !RefundAccepted(intents, payment.intent.id, refunded) {
          return GatewayError, 0;
        }
        refunds := CreateRefund(refunds, RefundBooking(b), payment.intent.id, payment.amount);
      }
      bookings := bookings[b := bk.(payment := Some(payment.(status := PaymentCanceled)))];
      return Success, payment.amount;
    }

    /** Step 5 of a pending booking: a failed cancel call does not stop the cancellation. */
    method CancelOpenIntent(b: nat, cancel: CancelReply)
      requires b < |bookings|
      modifies this`bookings, this`intents
      ensures |bookings| == |old(bookings)|
      ensures (Withdraw(Tables(), b, 0), Success) == CancelPending(old(Tables()), b, cancel)
    {
      var bk := bookings[b];
      if bk.payment.Some? && bk.payment.value.intent.StripeIntent?
         && !bk.payment.value.status.PaymentCanceled? && !bk.payment.value.status.PaymentSucceeded? {
        var payment := bk.payment.value;
        var (ledger, answer) := CancelIntent(intents, payment.intent.id, cancel);
        if answer.Done? {
          intents := ledger;
          bookings := bookings[b := bk.(payment := Some(payment.(status := PaymentCanceled)))];
        }
      }
    }

    // -------------------------------------------------------------- one candidate of the hold sweeper

    method FindCandidates(threshold: Time) returns (ids: seq<nat>)
      ensures ids == Candidates(bookings, threshold)
    {
      ids := [];
      for k := 0 to |bookings|
        invariant ids == Candidates(bookings[..k], threshold)
      {
        assert bookings[..k + 1][..k] == bookings[..k];
        if Expired(bookings[k], threshold) {
          ids := ids + [k];
        }
      }
      assert bookings[..|bookings|] == bookings;
    }

    method ReleaseHold(b: nat)
      requires b < |bookings|
      modifies this`bookings, this`seats
      ensures Tables() == Release(old(Tables()), b)
    {
      bookings := bookings[b := bookings[b].(status := Cancelled)];
      SetSeats(bookings[b].units, Available);
    }

    /** Over capacity: refund, audit row, payment status, then the common release. */
    method RefundExpiredHold(b: nat, i: nat)
      requires b < |bookings| && bookings[b].payment.Some?
      modifies this`bookings, this`seats, this`refunds
      ensures Tables() == RefundAndRelease(old(Tables()), b, i, old(bookings[b].payment.value))
    {
      ghost var was := bookings;
      var payment := bookings[b].payment.value;
      refunds := CreateRefund(refunds, AutoRefund(i), i, payment.amount);
      if bookings[b].cancellations == [] {
        bookings := bookings[b := bookings[b].(cancellations := [payment.amount])];
      }
      bookings := bookings[b := bookings[b].(payment := Some(payment.(status := PaymentCanceled)))];
      assert bookings == was[b := bookings[b]];
      ReleaseHold(b);
    }

    /** The part of an iteration that asks Stripe, with the flags is_canceled and is_succeeded. */
    method SweepOpenIntent(b: nat, i: nat, answers: Answers)
      requires b < |bookings| && bookings[b].payment.Some?
      modifies this
      ensures Tables() == SweepIntent(old(Tables()), b, i, answers)
    {
      var isCanceled, isSucceeded := false, false;
      var (ledger, answer) := CancelIntent(intents, i, answers.cancel);
      match answer {
        case Done =>
          intents := ledger;
          isCanceled := true;
        case Unreachable => return;
        case Refused =>
          var status := Retrieve(intents, i, answers.retrieves);
          if status == Some(Voided) {
            isCanceled := true;
          } else if status == Some(Captured) {
            isSucceeded := true;
          }
      }
      if isSucceeded {
        var canConfirm := CanConfirm(b, true);
        if canConfirm {
          ConfirmBookingAndInvoice(b);
        } else if answers.refunds {
          RefundExpiredHold(b, i);
        }
      } else if isCanceled {
        bookings := bookings[b := bookings[b].(payment := Some(bookings[b].payment.value.(status := PaymentCanceled)))];
        ReleaseHold(b);
      }
    }

    /** One iteration: recheck under the row lock, then settle or release. */
    method SweepCandidate(b: nat, threshold: Time, answers: Answers)
      modifies this
      ensures Tables() == SweepOne(old(Tables()), b, threshold, answers)
    {
      if b >= |bookings| || !bookings[b].status.Pending? || bookings[b].createdAt > threshold {
        return;
      }
      if bookings[b].payment.Some? && bookings[b].payment.value.intent.StripeIntent?
         && !bookings[b].payment.value.status.PaymentCanceled? {
        if !bookings[b].payment.value.status.PaymentSucceeded? {
          SweepOpenIntent(b, bookings[b].payment.value.intent.id, answers);
        }
      } else {
        ReleaseHold(b);
      }
    }

    // -------------------------------------------------------------- POST /services

    /** The venue exists and its owner, or an administrator, asks for it. */
    method CheckVenue(location: nat, seller: nat, admin: bool) returns (reply: Reply)
      ensures reply == Hosts(Tables(), location, seller, admin)
    {
      if location !in locations {
        return NotFound;
      }
      return if locations[location] != seller && !admin then Forbidden else Success;
    }

    method CreateService(seller: nat, admin: bool, id: nat, draft: Draft) returns (reply: Reply)
      modifies this`services
      ensures (Tables(), reply) == Catalogue.CreateService(old(Tables()), seller, admin, id, draft)
    {
      if !(seller in users && users[seller].active && users[seller].seller) {
        return BadRequest;
      }
      if draft.maxCapacity.Some? && draft.maxCapacity.value < 1 {
        return BadRequest;
      }
      if draft.endTime <= draft.startTime || draft.startTime < now {
        return BadRequest;
      }
      var hosted := CheckVenue(draft.location, seller, admin);
      if !hosted.Success? {
        return hosted;
      }
      if draft.mode.SlotCapacity? && draft.maxCapacity.None? {
        return BadRequest;
      }
      if draft.mode.UnitAssigned? && draft.maxCapacity.Some? {
        return BadRequest;
      }
      if id in services {
        return ServerError;
      }
      services := services[id := Service(seller, draft.location, draft.mode, draft.maxCapacity, draft.basePrice, map[],
                                         draft.startTime, draft.endTime, true)];
      return Success;
    }

    /** The checks every handler on one event begins with. */
    method CheckOwner(actor: nat, admin: bool, id: nat) returns (reply: Reply)
      ensures reply == Authorize(Tables(), actor, admin, id)
    {
      if !(actor in users && users[actor].active) {
        return Unauthorized;
      }
      if id !in services || !services[id].active {
        return NotFound;
      }
      return if !admin && services[id].seller != actor then Forbidden else Success;
    }

    method CreateServiceTier(actor: nat, admin: bool, id: nat, tier: nat, price: nat) returns (reply: Reply)
      modifies this`services
      ensures (Tables(), reply) == Catalogue.CreateTier(old(Tables()), actor, admin, id, tier, price)
    {
      var auth := CheckOwner(actor, admin, id);
      if !auth.Success? {
        return auth;
      }
      if tier in services[id].tiers {
        return Conflict;
      }
      services := services[id := services[id].(tiers := services[id].tiers[tier := price])];
      return Success;
    }

    /** New rows get fresh ids; an id already taken cannot be inserted. */
    method BulkCreateInventory(actor: nat, admin: bool, id: nat, tier: nat, codes: map<nat,
                               string>) returns (reply: Reply)
      modifies this`seats
      ensures (Tables(), reply) == Catalogue.CreateInventory(old(Tables()), actor, admin, id, tier, codes)
    {
      var auth := CheckOwner(actor, admin, id);
      if !auth.Success? {
        return auth;
      }
      if services[id].mode.SlotCapacity? {
        return BadRequest;
      }
      if tier !in services[id].tiers {
        return NotFound;
      }
      if exists q, n :: q in seats && n in codes && seats[q].service == id && seats[q].code == codes[n] {
        return Conflict;
      }
      if seats.Keys * codes.Keys != {} {
        return ServerError;
      }
      var left := codes.Keys;
      while left != {}
        invariant left <= codes.Keys
        invariant seats == old(seats) + map n | n in codes.Keys - left :: Seat(id, tier, codes[n], Available)
        decreases left
      {
        var n :| n in left;
        seats := seats[n := Seat(id, tier, codes[n], Available)];
        left := left - {n};
      }
      assert codes.Keys - left == codes.Keys;
      return Success;
    }

    // -------------------------------------------------------------- PUT, DELETE /services/{id}

    /** Booking mode immutability. */
    method CheckMode(id: nat, patch: Patch) returns (reply: Reply)
      requires id in services
      ensures reply == ScreenMode(Tables(), id, patch)
    {
      var service := services[id];
      if patch.mode.None? || patch.mode.value == service.mode {
        return Success;
      }
      if HasBookings(bookings, id) {
        return BadRequest;
      }
      if exists q :: q in seats && seats[q].service == id {
        return BadRequest;
      }
      if patch.mode.value.SlotCapacity? {
        var capacity := if patch.maxCapacity.Some? then patch.maxCapacity.value else service.maxCapacity;
        if capacity.None? || capacity.value < 1 {
          return BadRequest;
        }
      }
      return Success;
    }

    /** Capacity validation against the tickets already claimed. */
    method CheckShrink(id: nat, patch: Patch) returns (reply: Reply)
      requires id in services
      ensures reply == ScreenShrink(Tables(), id, patch)
    {
      var service := services[id];
      var capacity := PatchedCapacity(service, patch);
      if capacity.Some? && Or(patch.mode, service.mode).SlotCapacity? {
        if capacity.value.None? || capacity.value.value < 1 {
          return BadRequest;
        }
        var claimed := ComputeSum(Claims(id, now, None), bookings);
        if capacity.value.value < claimed {
          return BadRequest;
        }
      }
      return Success;
    }

    method UpdateService(actor: nat, admin: bool, id: nat, patch: Patch) returns (reply: Reply)
      modifies this`services
      ensures (Tables(), reply) == Catalogue.UpdateService(old(Tables()), actor, admin, id, patch)
    {
      if !(actor in users && users[actor].active) {
        return Unauthorized;
      }
      if id !in services || !services[id].active {
        return NotFound;
      }
      var service := services[id];
      if !admin && service.seller != actor {
        return Forbidden;
      }
      if patch.maxCapacity.Some? && patch.maxCapacity.value.Some? && patch.maxCapacity.value.value < 1 {
        return BadRequest;
      }
      if patch.location.Some? {
        var hosted := CheckVenue(patch.location.value, actor, admin);
        if !hosted.Success? {
          return hosted;
        }
      }
      var modeOk := CheckMode(id, patch);
      if !modeOk.Success? {
        return BadRequest;
      }
      var shrinkOk := CheckShrink(id, patch);
      if !shrinkOk.Success? {
        return BadRequest;
      }
      if patch.startTime.Some? && patch.startTime.value < now {
        return BadRequest;
      }
      service := EditService(service, patch);
      if service.endTime <= service.startTime {
        return BadRequest;
      }
      services := services[id := service];
      return Success;
    }

    /** setattr for every field that was sent. */
    method EditService(before: Service, patch: Patch) returns (service: Service)
      ensures service == Patched(before, patch)
    {
      service := before;
      var capacity := PatchedCapacity(before, patch);
      if patch.location.Some? {
        service := service.(location := patch.location.value);
      }
      if patch.mode.Some? {
        service := service.(mode := patch.mode.value);
      }
      if capacity.Some? {
        service := service.(maxCapacity := capacity.value);
      }
      if patch.basePrice.Some? {
        service := service.(basePrice := patch.basePrice.value);
      }
      if patch.startTime.Some? {
        service := service.(startTime := patch.startTime.value);
      }
      if patch.endTime.Some? {
        service := service.(endTime := patch.endTime.value);
      }
    }

    method DeleteService(actor: nat, admin: bool, id: nat) returns (reply: Reply)
      modifies this`services, this`seats
      ensures (Tables(), reply) == Catalogue.DeleteService(old(Tables()), actor, admin, id)
    {
      if !(actor in users && users[actor].active) {
        return Unauthorized;
      }
      if id !in services || !services[id].active {
        return NotFound;
      }
      if !admin && services[id].seller != actor {
        return Forbidden;
      }
      if HasLiveBookings(bookings, id) {
        return BadRequest;
      }
      if HasBookings(bookings, id) {
        services := services[id := services[id].(active := false)];
      } else {
        services := services - {id};
        seats := map q | q in seats && seats[q].service != id :: seats[q];
      }
      return Success;
    }

    // -------------------------------------------------------------- DELETE /account/{id}

    method DeleteUser(user: nat) returns (reply: Reply)
      modifies this`users, this`services
      ensures (Tables(), reply) == Catalogue.DeleteUser(old(Tables()), user)
    {
      if !(user in users && users[user].active) {
        return Unauthorized;
      }
      var booked := false;
      for b := 0 to |bookings|
        invariant forall c :: 0 <= c < b && bookings[c].user == user ==> !bookings[c].Live()
        invariant booked <==> exists c :: 0 <= c < b && bookings[c].user == user
      {
        if bookings[b].user == user {
          if bookings[b].Live() {
            return BadRequest;
          }
          booked := true;
        }
      }
      var seller := users[user].seller;
      if seller {
        for b := 0 to |bookings|
          invariant forall c :: 0 <= c < b && bookings[c].Live() && bookings[c].service in services ==>
                      services[bookings[c].service].seller != user
        {
          if bookings[b].Live() && bookings[b].service in services && services[bookings[b].service].seller == user {
            return Conflict;
          }
        }
      }
      if booked || seller {
        users := users[user := users[user].(active := false)];
        if seller {
          services := Archive(services, user);
        }
      } else {
        users := users - {user};
      }
      return Success;
    }

    // -------------------------------------------------------------- accounts, venues, Stripe, the clock

    method Register(user: nat, sells: bool)
      modifies this`users
      ensures Tables() == Perform(old(Tables()), Step.Register(user, sells))
    {
      if user !in users {
        users := users[user := User(true, sells)];
      }
    }

    method AddLocation(seller: nat, location: nat)
      modifies this`locations
      ensures Tables() == Perform(old(Tables()), Step.AddLocation(seller, location))
    {
      if location !in locations {
        locations := locations[location := seller];
      }
    }

    /** Stripe moves an intent that is neither captured nor void. */
    method StripeMoves(i: nat, status: IntentStatus)
      modifies this`intents
      ensures Tables() == Perform(old(Tables()), Step.StripeMoves(i, status))
    {
      if i < |intents| && MayMove(intents[i].status, status) {
        intents := intents[i := intents[i].(status := status)];
      }
    }

    method Tick(later: Time)
      modifies this`now
      ensures Tables() == Perform(old(Tables()), Step.Tick(later))
    {
      if later >= now {
        now := later;
      }
    }

    // -------------------------------------------------------------- any step of a run

    method HandleCatalogue(step: Step)
      requires IsCatalogue(step)
      modifies this
      ensures Tables() == Perform(old(Tables()), step)
    {
      match step
      case Register(user, sells) => Register(user, sells);
      case AddLocation(seller, id) => AddLocation(seller, id);
      case AddService(seller, admin, id, draft) =>
        var _ := CreateService(seller, admin, id, draft);
      case AddTier(actor, admin, id, tier, price) =>
        var _ := CreateServiceTier(actor, admin, id, tier, price);
      case AddSeats(actor, admin, id, tier, codes) =>
        var _ := BulkCreateInventory(actor, admin, id, tier, codes);
      case ChangeService(actor, admin, id, patch) =>
        var _ := UpdateService(actor, admin, id, patch);
      case RemoveService(actor, admin, id) =>
        var _ := DeleteService(actor, admin, id);
      case RemoveUser(user) =>
        var _ := DeleteUser(user);
    }

    /** One transaction. */
    method Handle(step: Step)
      modifies this
      ensures Tables() == Perform(old(Tables()), step)
    {
      match step
      case Book(user, order) =>
        if order.quantity >= 1 {
          var _ := CreateBooking(user, order);
        }
      case PayFor(user, b, retrieves, creates) =>
        var _ := CreatePaymentIntent(user, b, retrieves, creates);
      case ResumePay(b, creates) =>
        var _ := ResumePayment(b, creates);
      case Webhook(i, event) =>
        var _ := StripeWebhook(i, event);
      case CancelOrder(user, admin, b, cancel, refunded) =>
        var _ := CancelBookingAndRefund(user, admin, b, cancel, refunded);
      case SweepCandidate(b, threshold, answers) =>
        if threshold <= now - HOLD {
          SweepCandidate(b, threshold, answers);
        }
      case StripeMoves(i, status) => StripeMoves(i, status);
      case Tick(later) => Tick(later);
      case Interrupted(_, _, _) =>
      case _ => HandleCatalogue(step);
    }

    /** A transaction, and the requests that land inside it if it writes the payment row they write. */
    method HandleInterrupted(locked: Step, b: nat, requests: nat)
      requires IsLocked(locked)
      modifies this
      ensures Tables() == Apply(old(Tables()), Interrupted(locked, b, requests))
    {
      var waiting := resuming;
      var before := if b < |bookings| then bookings[b].payment else None;
      Handle(locked);
      ghost var done := Tables();
      if requests >= 1 && waiting[b] >= requests && resuming[b] >= requests
         && before.Some? && b < |bookings| && bookings[b].payment.Some? {
        var payment := bookings[b].payment.value;
        if payment.intent != before.value.intent || payment.status != before.value.status {
          LandRequests(b, requests, payment.intent != before.value.intent);
        }
      }
    }

    /** Each request creates its intent and writes the row; what the transaction wrote stays on top. */
    method LandRequests(b: nat, requests: nat, hidden: bool)
      requires requests >= 1 && b < |bookings| && bookings[b].payment.Some? && resuming[b] >= requests
      modifies this`bookings, this`intents, this`resuming
      ensures Tables() == old(Tables()).(
                bookings := if hidden then old(bookings) else old(bookings)[b := LandedRow(old(Tables()), b, requests)],
                intents := LandedIntents(old(Tables()), b, requests),
                resuming := old(resuming)[b := old(resuming)[b] - requests])
    {
      var total := bookings[b].total;
      for k := 0 to requests
        invariant intents == old(intents) + seq(k, _ => Intent(b, total, NeedsMethod))
        invariant resuming == old(resuming)[b := old(resuming)[b] - k]
        invariant |bookings| == |old(bookings)| && bookings == old(bookings)[b := bookings[b]]
        invariant bookings[b] == if hidden || k == 0 then old(bookings[b]) else LandedRow(old(Tables()), b, k)
      {
        resuming := resuming[b := resuming[b] - 1];
        intents := intents + [Intent(b, total, NeedsMethod)];
        if !hidden {
          var payment := bookings[b].payment.value.(intent := StripeIntent(|intents| - 1), amount := total);
          bookings := bookings[b := bookings[b].(payment := Some(payment))];
        }
      }
    }

    /** Every step of a run is served as the run says, and validity is never lost. */
    method Serve(step: Step)
      requires Valid()
      modifies this
      ensures Valid()
      ensures Tables() == Apply(old(Tables()), step)
    {
      StepKeeps(Tables(), step);
      if step.Interrupted? && IsLocked(step.locked) {
        HandleInterrupted(step.locked, step.at, step.requests);
      } else {
        Handle(Core(step));
      }
    }

    method ServeAll(steps: seq<Step>)
      requires Valid()
      modifies this
      ensures Valid()
      ensures Tables() == RunFrom(old(Tables()), steps)
    {
      for k := 0 to |steps|
        invariant Valid() && Tables() == RunFrom(old(Tables()), steps[..k])
      {
        assert steps[..k + 1][..k] == steps[..k];
        Serve(steps[k]);
      }
      assert steps[..|steps|] == steps;
    }

    // -------------------------------------------------------------- the whole sweep

    /**
     * released_expired_holds: `answers` is what Stripe would say during each candidate's turn, `between` what
     * other transactions commit before it.
     */
    method ReleasedExpiredHolds(answers: nat -> Answers, between: nat -> seq<Step>)
      requires Valid()
      modifies this
      ensures Valid()
      ensures var threshold := old(now) - HOLD;
              var ids := Candidates(old(bookings), threshold);
              Tables() == RunFrom(old(Tables()), SweepRun(ids, threshold, answers, between, |ids|))
      // what is pending at or past the threshold is exactly the candidates no turn and nobody else took
      ensures var threshold := old(now) - HOLD;
              var ids := Candidates(old(bookings), threshold);
              forall b: nat :: b < |bookings| ==>
                (Expired(bookings[b], threshold) <==>
                  b in ids && Untaken(old(Tables()), SweepRun(ids, threshold, answers, between, |ids|), b))
    {
      ghost var start := Tables();
      var threshold := now - HOLD;
      var ids := FindCandidates(threshold);
      SweepCandidates(ids, threshold, answers, between);
      forall b: nat | b < |bookings|
        ensures Expired(bookings[b], threshold) <==>
                  b in ids && Untaken(start, SweepRun(ids, threshold, answers, between, |ids|), b)
      {
        SweepExact(start, SweepRun(ids, threshold, answers, between, |ids|), threshold, b);
      }
    }

    /** The loop over candidates; one that is skipped does not stop the others. */
    method SweepCandidates(ids: seq<nat>, threshold: Time, answers: nat -> Answers, between: nat -> seq<Step>)
      requires Valid()
      modifies this
      ensures Valid()
      ensures Tables() == RunFrom(old(Tables()), SweepRun(ids, threshold, answers, between, |ids|))
    {
      for k := 0 to |ids|
        invariant Valid() && Tables() == RunFrom(old(Tables()), SweepRun(ids, threshold, answers, between, k))
      {
        SweepRunNext(old(Tables()), ids, threshold, answers, between, k);
        ServeAll(between(k));
        Serve(Step.SweepCandidate(ids[k], threshold, answers(k)));
      }
    }
  }
}
