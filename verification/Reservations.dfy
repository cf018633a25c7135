// create_booking of app/routers/bookings.py, as a function of the committed state.

module Reservations {
  import opened Entities
  import opened Tally

  /** BookingCreate: `units` is None when assigned_unit_ids is absent, and quantity is at least 1. */
  datatype Order = Order(service: nat, tier: Option<nat>, quantity: nat, units: Option<seq<nat>>) {
    function Units(): seq<nat> {
      if units.Some? then units.value else []
    }

    function Requested(): nat {
      if Units() != [] then |Units()| else quantity
    }
  }

  /** The price of one seat: its tier's price, else the base price of the service. */
  function SeatPrice(service: Service, seat: Seat): nat {
    if seat.tier in service.tiers then service.tiers[seat.tier] else service.basePrice
  }

  function SeatPrices(service: Service, seats: map<nat, Seat>, units: seq<nat>): nat {
    if units == [] then 0
    else
      var last := |units| - 1;
      SeatPrices(service, seats, units[..last])
      + (if units[last] in seats then SeatPrice(service, seats[units[last]]) else 0)
  }

  function UnitPrice(service: Service, tier: Option<nat>): nat {
    if tier.Some? && tier.value in service.tiers then service.tiers[tier.value] else service.basePrice
  }

  /** Cents fixed when the hold is created. */
  function Quote(s: State, order: Order): nat
    requires order.service in s.services
  {
    var service := s.services[order.service];
    if service.mode.UnitAssigned? then SeatPrices(service, s.seats, order.Units())
    else UnitPrice(service, order.tier) * order.quantity
  }

  function NewHold(s: State, user: nat, order: Order): Booking
    requires order.service in s.services
  {
    Booking(user, order.service, order.tier, order.Requested(), Quote(s, order),
            Pending, s.now, order.Units(), None, [])
  }

  /** Checks shared by both modes, in the order the handler makes them. */
  function Screen(s: State, user: nat, order: Order): Reply {
    if !Acts(s, user) then Unauthorized
    else if order.Requested() > MAX_TICKETS_PER_BOOKING then BadRequest
    else if Sum(Holds(user, s.now), s.bookings) >= MAX_PENDING_HOLDS_PER_USER then BadRequest
    else if order.service !in s.services || !s.services[order.service].active then NotFound
    else
      var service := s.services[order.service];
      if service.seller == user then BadRequest
      else if s.now >= service.startTime then BadRequest
      else if order.tier.Some? && order.tier.value !in service.tiers then BadRequest
      else Success
  }

  /** Reserved seating: the requested seats exist, match the tier and are all available. */
  function ScreenSeats(s: State, order: Order): Reply {
    var units := order.Units();
    if units == [] then BadRequest
    else if !Distinct(units) then BadRequest
    else if exists k :: 0 <= k < |units| && !(units[k] in s.seats && s.seats[units[k]].service == order.service)
      then NotFound
    else if order.tier.Some? && exists k :: 0 <= k < |units| && s.seats[units[k]].tier != order.tier.value
      then BadRequest
    else if exists k :: 0 <= k < |units| && !s.seats[units[k]].status.Available?
      then Conflict
    else Success
  }

  /** General admission: capacity counted under the service row lock. */
  function ScreenCapacity(s: State, order: Order): Reply
    requires order.service in s.services
  {
    var capacity := s.services[order.service].maxCapacity;
    if order.Units() != [] then BadRequest
    else if capacity.None? || Sum(Claims(order.service, s.now, None), s.bookings) + order.quantity > capacity.value
      then Conflict
    else Success
  }

  function CreateBooking(s: State, user: nat, order: Order): (State, Reply) {
    var screened := Screen(s, user, order);
    if !screened.Success? then (s, screened)
    else if s.services[order.service].mode.UnitAssigned? then
      var seated := ScreenSeats(s, order);
      if !seated.Success? then (s, seated)
      else
        (s.(bookings := s.bookings + [NewHold(s, user, order)],
            seats := Mark(s.seats, order.Units(), Reserved)), Success)
    else
      var fits := ScreenCapacity(s, order);
      if !fits.Success? then (s, fits)
      else (s.(bookings := s.bookings + [NewHold(s, user, order)]), Success)
  }
}
