// Sellers' handlers of app/routers/services.py and account deletion of app/routers/auth/users.py,
// as functions of the committed state. New ids come from database sequences, so they are parameters.

module Catalogue {
  import opened Entities
  import opened Tally

  /** ServiceCreate */
  datatype Draft = Draft(location: nat, mode: BookingMode, maxCapacity: Option<int>, basePrice: nat, startTime: Time,
      endTime: Time)

  /**
   * ServiceUpdate after model_dump(exclude_unset=True): an unset field is None. Only max_capacity may be
   * an explicit null, the schema rejects any other.
   */
  datatype Patch = Patch(
    location: Option<nat>,
    mode: Option<BookingMode>,
    maxCapacity: Option<Option<int>>,
    basePrice: Option<nat>,
    startTime: Option<Time>,
    endTime: Option<Time>)

  function Or<T>(o: Option<T>, default: T): T {
    if o.Some? then o.value else default
  }

  /** Owner or administrator of an existing active service. */
  function Authorize(s: State, actor: nat, admin: bool, id: nat): Reply {
    if !Acts(s, actor) then Unauthorized
    else if id !in s.services || !s.services[id].active then NotFound
    else if !admin && s.services[id].seller != actor then Forbidden
    else Success
  }

  /** A venue may host the event of its owner, or of anybody an administrator acts for. */
  function Hosts(s: State, location: nat, seller: nat, admin: bool): Reply {
    if location !in s.locations then NotFound
    else if s.locations[location] != seller && !admin then Forbidden
    else Success
  }

  function CreateService(s: State, seller: nat, admin: bool, id: nat, d: Draft): (State, Reply)
  {
    if !Acts(s, seller) || !s.users[seller].seller then (s, BadRequest)
    else if d.maxCapacity.Some? && d.maxCapacity.value < 1 then (s, BadRequest)
    else if d.endTime <= d.startTime || d.startTime < s.now then (s, BadRequest)
    else if !Hosts(s, d.location, seller, admin).Success? then (s, Hosts(s, d.location, seller, admin))
    else if d.mode.SlotCapacity? && d.maxCapacity.None? then (s, BadRequest)
    else if d.mode.UnitAssigned? && d.maxCapacity.Some? then (s, BadRequest)
    else if id in s.services then (s, ServerError)
    else
      (s.(services := s.services[id := Service(seller, d.location, d.mode, d.maxCapacity, d.basePrice, map[],
                                               d.startTime, d.endTime, true)]), Success)
  }

  function CreateTier(s: State, actor: nat, admin: bool, id: nat, tier: nat, price: nat): (State, Reply) {
    var auth := Authorize(s, actor, admin, id);
    if !auth.Success? then (s, auth)
    else
      var service := s.services[id];
      if tier in service.tiers then (s, Conflict)
      else (s.(services := s.services[id := service.(tiers := service.tiers[tier := price])]), Success)
  }

  /** bulk_create_inventory: new seats start AVAILABLE. */
  function CreateInventory(s: State, actor: nat, admin: bool, id: nat, tier: nat, codes: map<nat, string>)
    : (State, Reply)
  {
    var auth := Authorize(s, actor, admin, id);
    if !auth.Success? then (s, auth)
    else if !s.services[id].mode.UnitAssigned? then (s, BadRequest)
    else if tier !in s.services[id].tiers then (s, NotFound)
    else if exists q, n :: q in s.seats && n in codes && s.seats[q].service == id && s.seats[q].code == codes[n]
      then (s, Conflict)
    else if s.seats.Keys * codes.Keys != {} then (s, ServerError)
    else (s.(seats := s.seats + map n | n in codes :: Seat(id, tier, codes[n], Available)), Success)
  }

  /** Switching the mode needs an event without bookings and without seats. */
  function ScreenMode(s: State, id: nat, patch: Patch): Reply
    requires id in s.services
  {
    var service := s.services[id];
    if patch.mode.None? || patch.mode.value == service.mode then Success
    else if HasBookings(s.bookings, id) then BadRequest
    else if exists q :: q in s.seats && s.seats[q].service == id then BadRequest
    else if patch.mode.value.SlotCapacity? then
      var cap := Or(patch.maxCapacity, service.maxCapacity);
      if cap.None? || cap.value < 1 then BadRequest else Success
    else Success
  }

  /** update_data["max_capacity"] after the mode check: switching to unit_assigned clears it. */
  function PatchedCapacity(service: Service, patch: Patch): Option<Option<int>> {
    if patch.mode.Some? && patch.mode.value != service.mode && patch.mode.value.UnitAssigned?
    then Some(None) else patch.maxCapacity
  }

  /** Capacity may not be cleared, nor shrink below the tickets already claimed. */
  function ScreenShrink(s: State, id: nat, patch: Patch): Reply
    requires id in s.services
  {
    var service := s.services[id];
    var capacity := PatchedCapacity(service, patch);
    if capacity.None? || Or(patch.mode, service.mode).UnitAssigned? then Success
    else if capacity.value.None? || capacity.value.value < 1 then BadRequest
    else if capacity.value.value < Sum(Claims(id, s.now, None), s.bookings) then BadRequest
    else Success
  }

  function Patched(service: Service, patch: Patch): Service {
    service.(location := Or(patch.location, service.location),
             mode := Or(patch.mode, service.mode),
             maxCapacity := Or(PatchedCapacity(service, patch), service.maxCapacity),
             basePrice := Or(patch.basePrice, service.basePrice),
             startTime := Or(patch.startTime, service.startTime),
             endTime := Or(patch.endTime, service.endTime))
  }

  function UpdateService(s: State, actor: nat, admin: bool, id: nat, patch: Patch): (State, Reply) {
    var auth := Authorize(s, actor, admin, id);
    if !auth.Success? then (s, auth)
    else if patch.maxCapacity.Some? && patch.maxCapacity.value.Some? && patch.maxCapacity.value.value < 1
      then (s, BadRequest)
    else if patch.location.Some? && !Hosts(s, patch.location.value, actor, admin).Success?
      then (s, Hosts(s, patch.location.value, actor, admin))
    else if !ScreenMode(s, id, patch).Success? then (s, BadRequest)
    else if !ScreenShrink(s, id, patch).Success? then (s, BadRequest)
    else if patch.startTime.Some? && patch.startTime.value < s.now then (s, BadRequest)
    else
      var service := Patched(s.services[id], patch);
      if service.endTime <= service.startTime then (s, BadRequest)
      else (s.(services := s.services[id := service]), Success)
  }

  /** Archive when any booking ever existed, else delete with its seats. */
  function DeleteService(s: State, actor: nat, admin: bool, id: nat): (State, Reply) {
    var auth := Authorize(s, actor, admin, id);
    if !auth.Success? then (s, auth)
    else if HasLiveBookings(s.bookings, id) then (s, BadRequest)
    else if HasBookings(s.bookings, id) then
      (s.(services := s.services[id := s.services[id].(active := false)]), Success)
    else
      (s.(services := s.services - {id},
          seats := map q | q in s.seats && s.seats[q].service != id :: s.seats[q]), Success)
  }

  // ---------------------------------------------------------------- accounts

  predicate OwesCustomer(s: State, user: nat) {
    exists b :: 0 <= b < |s.bookings| && s.bookings[b].user == user && s.bookings[b].Live()
  }

  predicate OwesAudience(s: State, user: nat) {
    exists b :: 0 <= b < |s.bookings| && s.bookings[b].Live()
                && s.bookings[b].service in s.services && s.services[s.bookings[b].service].seller == user
  }

  function Archive(services: map<nat, Service>, seller: nat): map<nat, Service> {
    map id | id in services ::
      if services[id].seller == seller then services[id].(active := false) else services[id]
  }

  function DeleteUser(s: State, user: nat): (State, Reply) {
    if !Acts(s, user) then (s, Unauthorized)
    else if OwesCustomer(s, user) then (s, BadRequest)
    else if s.users[user].seller && OwesAudience(s, user) then (s, Conflict)
    else
      var booked := exists b :: 0 <= b < |s.bookings| && s.bookings[b].user == user;
      if booked || s.users[user].seller then
        (s.(users := s.users[user := s.users[user].(active := false)],
            services := if s.users[user].seller then Archive(s.services, user) else s.services), Success)
      else (s.(users := s.users - {user}), Success)
  }
}
