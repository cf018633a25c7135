// How each part of the invariant follows one changed or added booking row. The handlers' proofs
// are compositions of these lemmas.

module RowProofs {
  import opened Entities
  import opened Tally
  import opened Stripe
  import opened Payments
  import opened Invariants

  // ---------------------------------------------------------------- anchoring

  predicate SamePlaces(seats: map<nat, Seat>, seats': map<nat, Seat>) {
    && seats'.Keys == seats.Keys
    && forall q :: q in seats ==> seats'[q].service == seats[q].service
  }

  /** Who, what, how many, for how much and when: the fields no handler ever rewrites. */
  predicate SameOrder(bk: Booking, bk': Booking) {
    && bk'.user == bk.user
    && bk'.service == bk.service
    && bk'.quantity == bk.quantity
    && bk'.total == bk.total
    && bk'.createdAt == bk.createdAt
    && bk'.units == bk.units
  }

  lemma AnchoredRow(bs: seq<Booking>, b: nat, bk: Booking, services: map<nat, Service>,
                    seats: map<nat, Seat>, seats': map<nat, Seat>, users: map<nat, User>)
    requires Anchored(bs, services, seats, users)
    requires b < |bs| && SameOrder(bs[b], bk) && (bk.Live() ==> bs[b].Live())
    requires SamePlaces(seats, seats')
    ensures Anchored(bs[b := bk], services, seats', users)
  {
    var bs' := bs[b := bk];
    forall c | 0 <= c < |bs'|
      ensures BookingAnchored(bs'[c], services, seats') && LiveAnchored(bs'[c], services, users)
    {
      assert BookingAnchored(bs[c], services, seats) && LiveAnchored(bs[c], services, users);
    }
  }

  lemma AnchoredHold(bs: seq<Booking>, bk: Booking, services: map<nat, Service>,
                     seats: map<nat, Seat>, seats': map<nat, Seat>, users: map<nat, User>)
    requires Anchored(bs, services, seats, users)
    requires BookingAnchored(bk, services, seats) && LiveAnchored(bk, services, users)
    requires SamePlaces(seats, seats')
    ensures Anchored(bs + [bk], services, seats', users)
  {
    var bs' := bs + [bk];
    forall c | 0 <= c < |bs'|
      ensures BookingAnchored(bs'[c], services, seats') && LiveAnchored(bs'[c], services, users)
    {
      if c < |bs| {
        assert BookingAnchored(bs[c], services, seats) && LiveAnchored(bs[c], services, users);
      }
    }
  }

  // ---------------------------------------------------------------- seats

  lemma SeatsUntouched(bs: seq<Booking>, b: nat, bk: Booking, seats: map<nat, Seat>)
    requires SeatsOwned(bs, seats)
    requires b < |bs| && bk.status == bs[b].status && bk.units == bs[b].units
    ensures SeatsOwned(bs[b := bk], seats)
  {
    var bs' := bs[b := bk];
    forall c: nat, q: nat ensures Lists(bs', c, q) == Lists(bs, c, q) {}
    forall q | q in seats && !seats[q].status.Available? ensures exists c: nat :: Lists(bs', c, q) {
      var c: nat :| Lists(bs, c, q);
      assert Lists(bs', c, q);
    }
  }

  /** RESERVED becomes BOOKED together with PENDING becoming CONFIRMED. */
  lemma SeatsConfirmed(bs: seq<Booking>, b: nat, bk: Booking, seats: map<nat, Seat>)
    requires SeatsOwned(bs, seats)
    requires b < |bs| && bs[b].status.Pending? && bk.status.Confirmed? && bk.units == bs[b].units
    ensures SeatsOwned(bs[b := bk], Mark(seats, bk.units, Booked))
  {
    var bs' := bs[b := bk];
    var seats' := Mark(seats, bk.units, Booked);
    forall c: nat, q: nat ensures Lists(bs', c, q) == Lists(bs, c, q) {}
    forall q: nat | q in bk.units ensures Lists(bs, b, q) {}
    forall q | q in seats' && !seats'[q].status.Available? ensures exists c: nat :: Lists(bs', c, q) {
      var c: nat :| Lists(bs, c, q);
      assert Lists(bs', c, q);
    }
  }

  /** A live booking lets go of its seats: they become AVAILABLE and nobody lists them. */
  lemma SeatsReleased(bs: seq<Booking>, b: nat, bk: Booking, seats: map<nat, Seat>)
    requires SeatsOwned(bs, seats)
    requires b < |bs| && bs[b].Live() && bk.status.Cancelled?
    ensures SeatsOwned(bs[b := bk], Mark(seats, bs[b].units, Available))
  {
    var bs' := bs[b := bk];
    var seats' := Mark(seats, bs[b].units, Available);
    forall c: nat, q: nat ensures Lists(bs', c, q) == (c != b && Lists(bs, c, q)) {}
    forall q: nat | q in bs[b].units ensures Lists(bs, b, q) {}
    forall q | q in seats' && !seats'[q].status.Available? ensures exists c: nat :: Lists(bs', c, q) {
      var c: nat :| Lists(bs, c, q);
      assert Lists(bs', c, q);
    }
  }

  /** For a pending booking the guarded release of the webhook frees exactly its own seats. */
  lemma GuardedReleaseIsRelease(bs: seq<Booking>, b: nat, seats: map<nat, Seat>)
    requires SeatsOwned(bs, seats)
    requires b < |bs| && bs[b].status.Pending?
    ensures FreeReserved(seats, bs[b].units) == Mark(seats, bs[b].units, Available)
  {
    forall q: nat | q in bs[b].units ensures Lists(bs, b, q) {}
  }

  lemma SeatsHeld(bs: seq<Booking>, bk: Booking, seats: map<nat, Seat>)
    requires SeatsOwned(bs, seats)
    requires bk.status.Pending?
    requires forall k :: 0 <= k < |bk.units| ==> bk.units[k] in seats && seats[bk.units[k]].status.Available?
    ensures SeatsOwned(bs + [bk], Mark(seats, bk.units, Reserved))
  {
    var bs' := bs + [bk];
    var seats' := Mark(seats, bk.units, Reserved);
    forall c: nat, q: nat ensures Lists(bs', c, q) == (Lists(bs, c, q) || (c == |bs| && q in bk.units)) {}
    forall q | q in seats' && !seats'[q].status.Available? ensures exists c: nat :: Lists(bs', c, q) {
      if q in bk.units {
        assert Lists(bs', |bs|, q);
      } else {
        var c: nat :| Lists(bs, c, q);
        assert Lists(bs', c, q);
      }
    }
  }

  // ---------------------------------------------------------------- capacity

  lemma ClaimsRow(q: Query, bs: seq<Booking>, b: nat, bk: Booking)
    requires b < |bs| && Weight(q, b, bk) <= Weight(q, b, bs[b])
    ensures Sum(q, bs[b := bk]) <= Sum(q, bs)
  {
    SumUpdate(q, bs, b, bk);
  }

  /** The row keeps its claim or gives it up. */
  predicate ClaimsNoMore(bk: Booking, bk': Booking, now: Time) {
    SameOrder(bk, bk')
        && (bk'.status == bk.status || bk'.status.Cancelled? || (Payable(bk, now) && bk'.status.Confirmed?))
  }

  lemma CapacityRow(bs: seq<Booking>, b: nat, bk: Booking, services: map<nat, Service>, now: Time)
    requires NeverOversold(bs, services, now)
    requires b < |bs| && ClaimsNoMore(bs[b], bk, now)
    ensures NeverOversold(bs[b := bk], services, now)
  {
    forall id | id in services ensures WithinCapacity(bs[b := bk], id, services[id], now) {
      ClaimsRow(Claims(id, now, None), bs, b, bk);
      assert WithinCapacity(bs, id, services[id], now);
    }
  }

  /** A late confirmation claims what the check under the lock counted, the booking itself included. */
  lemma CapacityLate(s: State, b: nat, bk: Booking, emptyFits: bool)
    requires NeverOversold(s.bookings, s.services, s.now)
    requires b < |s.bookings| && SameOrder(s.bookings[b], bk) && Fits(s, b, emptyFits)
    ensures NeverOversold(s.bookings[b := bk], s.services, s.now)
  {
    var bs := s.bookings;
    forall id | id in s.services ensures WithinCapacity(bs[b := bk], id, s.services[id], s.now) {
      assert WithinCapacity(bs, id, s.services[id], s.now);
      if id == bk.service {
        SumLe(Claims(id, s.now, None), bs[b := bk], Claims(id, s.now, Some(b)), bs);
      } else {
        ClaimsRow(Claims(id, s.now, None), bs, b, bk);
      }
    }
  }

  lemma HoldsRow(bs: seq<Booking>, b: nat, bk: Booking, now: Time)
    requires HoldsLimited(bs, now)
    requires b < |bs| && SameOrder(bs[b], bk) && (bk.status.Pending? ==> bs[b].status.Pending?)
    ensures HoldsLimited(bs[b := bk], now)
  {
    forall user: nat ensures Sum(Holds(user, now), bs[b := bk]) <= MAX_PENDING_HOLDS_PER_USER {
      ClaimsRow(Holds(user, now), bs, b, bk);
    }
  }

  // ---------------------------------------------------------------- money

  predicate SameIntents(intents: seq<Intent>, intents': seq<Intent>, b: nat) {
    && |intents| <= |intents'|
    && (forall i :: 0 <= i < |intents| ==>
          && intents'[i].booking == intents[i].booking
          && intents'[i].amount == intents[i].amount
          && (intents[i].booking != b ==> intents'[i] == intents[i])
          && (intents[i].status.Captured? ==> intents'[i].status.Captured?))
  }

  predicate NewRefunds(refunds: Refunds, refunds': Refunds, b: nat, bk: Booking) {
    && (forall k :: k in refunds ==> k in refunds' && refunds'[k] == refunds[k])
    && (forall k :: k in refunds' && k !in refunds ==>
          match k case RefundBooking(c) => c == b case AutoRefund(i) => bk.Tracks(i))
  }

  /** One booking's payment, its own intents and its own refund keys change; everything else is framed. */
  lemma SettlingRow(bs: seq<Booking>, b: nat, bk: Booking, intents: seq<Intent>, intents': seq<Intent>,
                    refunds: Refunds, refunds': Refunds, acked: set<nat>, acked': set<nat>)
    requires Settling(bs, intents, refunds, acked)
    requires b < |bs| && bk.total == bs[b].total && (bs[b].payment.Some? ==> bk.payment.Some?)
    requires SameIntents(intents, intents', b)
    requires forall i :: |intents| <= i < |intents'| ==>
             IntentPriced(intents'[i], bs[b := bk]) && intents'[i].booking == b
    requires NewRefunds(refunds, refunds', b, bk)
    requires forall k :: k in refunds' ==> RefundKeyed(k, bs[b := bk], intents', refunds')
    requires BookingSettles(b, bk, intents', refunds')
    requires forall i :: i in acked' && (i !in acked || (i < |intents| && intents[i].booking == b)) ==>
               AckedFinal(i, bs[b := bk], intents', refunds')
    ensures Settling(bs[b := bk], intents', refunds', acked')
  {
    var bs' := bs[b := bk];
    forall c | 0 <= c < |bs'| ensures BookingSettles(c, bs'[c], intents', refunds') {
      if c != b {
        assert BookingSettles(c, bs[c], intents, refunds);
        if bs[c].payment.Some? && bs[c].payment.value.intent.StripeIntent? {
          var i := bs[c].payment.value.intent.id;
          assert intents'[i] == intents[i];
          assert !bk.Tracks(i);
          assert RefundedAuto(refunds', i) == RefundedAuto(refunds, i);
        }
      }
    }
    forall i | 0 <= i < |intents'| ensures IntentPriced(intents'[i], bs') {
      if i < |intents| {
        assert IntentPriced(intents[i], bs);
      }
    }
    forall i | i in acked' ensures AckedFinal(i, bs', intents', refunds') {
      if i in acked && intents[i].booking != b {
        assert AckedFinal(i, bs, intents, refunds);
      }
    }
  }

  /** Refunds stay well-keyed when the booking stays cancelled if it is. */
  lemma KeysKept(bs: seq<Booking>, b: nat, bk: Booking, intents: seq<Intent>, intents': seq<Intent>, refunds: Refunds)
    requires forall k :: k in refunds ==> RefundKeyed(k, bs, intents, refunds)
    requires b < |bs| && SameIntents(intents, intents', b)
    requires bs[b].status.Cancelled? ==> bk.status.Cancelled?
    ensures forall k :: k in refunds ==> RefundKeyed(k, bs[b := bk], intents', refunds)
  {
    forall k | k in refunds ensures RefundKeyed(k, bs[b := bk], intents', refunds) {
      assert RefundKeyed(k, bs, intents, refunds);
    }
  }

  /** A refund of a captured intent of a booking that ends cancelled, under a key of its own. */
  lemma KeysAdded(bs: seq<Booking>, b: nat, bk: Booking, intents: seq<Intent>, refunds: Refunds, key: RefundKey,
                  i: nat, amount: nat)
    requires forall k :: k in refunds ==> RefundKeyed(k, bs, intents, refunds)
    requires b < |bs| && bk.status.Cancelled? && i < |intents| && intents[i] == Intent(b, amount, Captured)
    requires !Returned(refunds, b, i) && (key == AutoRefund(i) || key == RefundBooking(b))
    ensures forall k :: k in CreateRefund(refunds, key, i, amount) ==>
              RefundKeyed(k, bs[b := bk], intents, CreateRefund(refunds, key, i, amount))
  {
    var refunds' := CreateRefund(refunds, key, i, amount);
    forall k | k in refunds' ensures RefundKeyed(k, bs[b := bk], intents, refunds') {
      if k in refunds {
        assert RefundKeyed(k, bs, intents, refunds);
      }
    }
  }

  /** A booking that is not cancelled has had nothing refunded under its key. */
  lemma LiveIsUnrefunded(bs: seq<Booking>, b: nat, intents: seq<Intent>, refunds: Refunds)
    requires forall k :: k in refunds ==> RefundKeyed(k, bs, intents, refunds)
    requires b < |bs| && !bs[b].status.Cancelled?
    ensures RefundBooking(b) !in refunds
    ensures forall i :: 0 <= i < |intents| && intents[i].booking == b ==> AutoRefund(i) !in refunds
  {
    assert RefundBooking(b) in refunds ==> RefundKeyed(RefundBooking(b), bs, intents, refunds);
    forall i | 0 <= i < |intents| && intents[i].booking == b ensures AutoRefund(i) !in refunds {
      assert AutoRefund(i) in refunds ==> RefundKeyed(AutoRefund(i), bs, intents, refunds);
    }
  }

  // ---------------------------------------------------------------- payment ids

  lemma NumberedRow(bs: seq<Booking>, b: nat, bk: Booking, next: nat)
    requires PaymentsNumbered(bs, next)
    requires b < |bs| && bs[b].payment.Some? && bk.payment.Some? && bk.payment.value.id == bs[b].payment.value.id
    ensures PaymentsNumbered(bs[b := bk], next)
  {
    var bs' := bs[b := bk];
    forall c | 0 <= c < |bs'| ensures PaymentNumbered(bs', c, next) {
      assert PaymentNumbered(bs, c, next);
    }
  }

  lemma NumberedUnpaid(bs: seq<Booking>, b: nat, bk: Booking, next: nat)
    requires PaymentsNumbered(bs, next)
    requires b < |bs| && bk.payment.None?
    ensures PaymentsNumbered(bs[b := bk], next)
  {
    var bs' := bs[b := bk];
    forall c | 0 <= c < |bs'| ensures PaymentNumbered(bs', c, next) {
      assert PaymentNumbered(bs, c, next);
    }
  }

  lemma NumberedNew(bs: seq<Booking>, b: nat, bk: Booking, next: nat)
    requires PaymentsNumbered(bs, next)
    requires b < |bs| && bk.payment.Some? && bk.payment.value.id == next
    ensures PaymentsNumbered(bs[b := bk], next + 1)
  {
    var bs' := bs[b := bk];
    var after := next + 1;
    forall c | 0 <= c < |bs'| ensures PaymentNumbered(bs', c, after) {
      assert PaymentNumbered(bs, c, next);
    }
    forall c, d | 0 <= c < d < |bs'| && bs'[c].payment.Some? && bs'[d].payment.Some?
      ensures bs'[c].payment.value.id != bs'[d].payment.value.id
    {
      assert PaymentNumbered(bs, c, next) && PaymentNumbered(bs, d, next);
    }
  }
}
