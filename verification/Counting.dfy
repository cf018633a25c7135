// What the aggregates and the prices mean, counted without them: tickets and holds as sets, and the total of a
// list of prices.

module Counting {
  import opened Entities
  import opened Tally
  import opened Reservations
  import opened Payments
  import opened Invariants

  // ---------------------------------------------------------------- tickets and holds

  /** One ticket of a booking. */
  datatype Place = Place(booking: nat, number: nat)

  /** Confirmed, or pending for no more than ten minutes. */
  predicate TakesRoom(bk: Booking, service: nat, now: Time) {
    bk.service == service && (bk.status.Confirmed? || (bk.status.Pending? && now <= bk.createdAt + 600_000_000))
  }

  function Tickets(bookings: seq<Booking>, service: nat, now: Time): set<Place> {
    set b, n | 0 <= b < |bookings| && 0 <= n < bookings[b].quantity && TakesRoom(bookings[b], service, now)
      :: Place(b, n)
  }

  /** The tickets that take room, booking `own` aside. */
  function OtherTickets(bookings: seq<Booking>, service: nat, now: Time, own: nat): set<Place> {
    set b, n | 0 <= b < |bookings| && 0 <= n < bookings[b].quantity && TakesRoom(bookings[b], service, now) && b != own
      :: Place(b, n)
  }

  /** Pending for no more than ten minutes. */
  function HoldsOf(bookings: seq<Booking>, user: nat, now: Time): set<nat> {
    set b | 0 <= b < |bookings| && bookings[b].user == user && bookings[b].status.Pending?
            && now <= bookings[b].createdAt + 600_000_000
  }

  function Places(q: Query, bookings: seq<Booking>): set<Place> {
    set b, n | 0 <= b < |bookings| && 0 <= n < Weight(q, b, bookings[b]) :: Place(b, n)
  }

  function Row(b: nat, count: nat): set<Place> {
    set n | 0 <= n < count :: Place(b, n)
  }

  lemma {:induction false} RowSize(b: nat, count: nat)
    ensures |Row(b, count)| == count
  {
    if count > 0 {
      RowSize(b, count - 1);
      assert Row(b, count) == Row(b, count - 1) + {Place(b, count - 1)};
    }
  }

  lemma {:induction false} SumIsSize(q: Query, bookings: seq<Booking>)
    ensures Sum(q, bookings) == |Places(q, bookings)|
  {
    if bookings != [] {
      var last := |bookings| - 1;
      var weight := Weight(q, last, bookings[last]);
      SumIsSize(q, bookings[..last]);
      RowSize(last, weight);
      assert Places(q, bookings) == Places(q, bookings[..last]) + Row(last, weight);
      assert Places(q, bookings[..last]) !! Row(last, weight);
    }
  }

  /** The claims the handlers count are the tickets that take room. */
  lemma ClaimsAreTickets(bookings: seq<Booking>, service: nat, now: Time)
    ensures Sum(Claims(service, now, None), bookings) == |Tickets(bookings, service, now)|
  {
    SumIsSize(Claims(service, now, None), bookings);
    assert Tickets(bookings, service, now) == Places(Claims(service, now, None), bookings);
  }

  /** Counting one booking in any case counts the others and its whole quantity. */
  lemma OwnAndOthers(bookings: seq<Booking>, service: nat, now: Time, own: nat)
    requires own < |bookings| && bookings[own].service == service
    ensures Sum(Claims(service, now, Some(own)), bookings)
         == |OtherTickets(bookings, service, now, own)| + bookings[own].quantity
  {
    var q := Claims(service, now, Some(own));
    SumIsSize(q, bookings);
    RowSize(own, bookings[own].quantity);
    var others, mine := OtherTickets(bookings, service, now, own), Row(own, bookings[own].quantity);
    assert Places(q, bookings) == others + mine;
    assert others !! mine;
  }

  lemma {:induction false} HoldsAreRows(bookings: seq<Booking>, user: nat, now: Time)
    ensures Sum(Holds(user, now), bookings) == |HoldsOf(bookings, user, now)|
  {
    if bookings != [] {
      var last := |bookings| - 1;
      HoldsAreRows(bookings[..last], user, now);
      var before := HoldsOf(bookings[..last], user, now);
      assert HoldsOf(bookings, user, now)
          == before + (if last in HoldsOf(bookings, user, now) then {last} else {});
      assert last !in before;
    }
  }

  // ---------------------------------------------------------------- room for a paid hold

  /** Reserved seats are kept for their hold; tickets without a seat must still fit beside all others. */
  predicate Room(s: State, b: nat)
    requires b < |s.bookings|
  {
    var bk := s.bookings[b];
    || bk.units != []
    || (bk.service in s.services && s.services[bk.service].maxCapacity.Some?
        && |OtherTickets(s.bookings, bk.service, s.now, b)| + bk.quantity <= s.services[bk.service].maxCapacity.value)
  }

  /** The inventory check passes exactly when there is room, for every hold of a consistent platform. */
  lemma FitsIsRoom(s: State, b: nat, emptyFits: bool)
    requires Consistent(s) && b < |s.bookings| && s.bookings[b].status.Pending?
    ensures Fits(s, b, emptyFits) <==> Room(s, b)
  {
    var bk := s.bookings[b];
    assert BookingAnchored(bk, s.services, s.seats);
    forall k | 0 <= k < |bk.units| ensures bk.units[k] in s.seats && s.seats[bk.units[k]].status.Reserved? {
      assert Lists(s.bookings, b, bk.units[k]);
    }
    OwnAndOthers(s.bookings, bk.service, s.now, b);
  }

  // ---------------------------------------------------------------- prices

  function Total(prices: seq<nat>): nat {
    if prices == [] then 0 else prices[0] + Total(prices[1..])
  }

  lemma {:induction false} TotalAppend(prices: seq<nat>, price: nat)
    ensures Total(prices + [price]) == Total(prices) + price
  {
    if prices != [] {
      TotalAppend(prices[1..], price);
      assert (prices + [price])[1..] == prices[1..] + [price];
    }
  }

  /** What each seat costs: the price of its tier, or the base price where the event has no such tier. */
  function PriceList(service: Service, seats: map<nat, Seat>, units: seq<nat>): seq<nat>
    requires forall k :: 0 <= k < |units| ==> units[k] in seats
  {
    seq(|units|, k requires 0 <= k < |units| =>
      var tier := seats[units[k]].tier; if tier in service.tiers then service.tiers[tier] else service.basePrice)
  }

  lemma {:induction false} SeatsAddUp(service: Service, seats: map<nat, Seat>, units: seq<nat>)
    requires forall k :: 0 <= k < |units| ==> units[k] in seats
    ensures SeatPrices(service, seats, units) == Total(PriceList(service, seats, units))
  {
    if units != [] {
      var last := |units| - 1;
      SeatsAddUp(service, seats, units[..last]);
      var prices := PriceList(service, seats, units);
      assert prices == PriceList(service, seats, units[..last]) + [prices[last]];
      TotalAppend(prices[..last], prices[last]);
      assert prices[..last] == PriceList(service, seats, units[..last]);
    }
  }
}
