// What sellers' edits and account deletions do, told from the rows alone: who may, under which condition, and the
// whole state they leave.

module SellerOutcomes {
  import opened Entities
  import opened Catalogue
  import opened Invariants
  import opened Counting
  import opened Outcomes

  predicate SoldOnce(s: State, id: nat) {
    exists b :: 0 <= b < |s.bookings| && s.bookings[b].service == id
  }

  predicate StillOwed(s: State, id: nat) {
    exists b :: 0 <= b < |s.bookings| && s.bookings[b].service == id && !s.bookings[b].status.Cancelled?
  }

  predicate Seated(s: State, id: nat) {
    exists q :: q in s.seats && s.seats[q].service == id
  }

  /** An active account on an active event that is its own, or an administrator. */
  predicate MayEdit(s: State, actor: nat, admin: bool, id: nat) {
    && actor in s.users && s.users[actor].active
    && id in s.services && s.services[id].active && (admin || s.services[id].seller == actor)
  }

  predicate MayHost(s: State, location: nat, actor: nat, admin: bool) {
    location in s.locations && (admin || s.locations[location] == actor)
  }

  // ---------------------------------------------------------------- POST /services and its tiers and seats

  predicate GoodDraft(s: State, seller: nat, admin: bool, id: nat, d: Draft) {
    && seller in s.users && s.users[seller].active && s.users[seller].seller
    && (d.mode.SlotCapacity? ==> d.maxCapacity.Some? && d.maxCapacity.value >= 1)
    && (d.mode.UnitAssigned? ==> d.maxCapacity.None?)
    && s.now <= d.startTime < d.endTime
    && MayHost(s, d.location, seller, admin)
    && id !in s.services
  }

  /** A new event is active, has no tiers yet, and disturbs nothing. */
  lemma CreatedExactly(s: State, seller: nat, admin: bool, id: nat, d: Draft)
    ensures var (s', reply) := CreateService(s, seller, admin, id, d);
            && (reply.Success? <==> GoodDraft(s, seller, admin, id, d))
            && s' == if !reply.Success? then s
                     else
                       s.(services := s.services[id := Service(seller, d.location, d.mode, d.maxCapacity,
                                                               d.basePrice, map[], d.startTime, d.endTime, true)])
  {}

  /** A tier is added at its price to an event that does not have it; no price is ever changed by this. */
  lemma TierAddedExactly(s: State, actor: nat, admin: bool, id: nat, tier: nat, price: nat)
    ensures var (s', reply) := CreateTier(s, actor, admin, id, tier, price);
            && (reply.Success? <==> MayEdit(s, actor, admin, id) && tier !in s.services[id].tiers)
            && (!reply.Success? ==> s' == s)
            && (reply.Success? ==>
                  && s'.services.Keys == s.services.Keys && s' == s.(services := s'.services)
                  && (forall k :: k in s.services && k != id ==> s'.services[k] == s.services[k])
                  && s'.services[id] == s.services[id].(tiers := s'.services[id].tiers)
                  && s'.services[id].tiers == s.services[id].tiers[tier := price])
  {}

  /** All the new seats or none: each available, of this event and tier, and none with a code already in use. */
  lemma SeatsAddedExactly(s: State, actor: nat, admin: bool, id: nat, tier: nat, codes: map<nat, string>)
    ensures var (s', reply) := CreateInventory(s, actor, admin, id, tier, codes);
            && (reply.Success? <==>
                  && MayEdit(s, actor, admin, id) && s.services[id].mode.UnitAssigned? && tier in s.services[id].tiers
                  && (forall q :: q in s.seats && s.seats[q].service == id ==> s.seats[q].code !in codes.Values)
                  && (forall n :: n in codes ==> n !in s.seats))
            && (!reply.Success? ==> s' == s)
            && (reply.Success? ==>
                  && s' == s.(seats := s'.seats) && s'.seats.Keys == s.seats.Keys + codes.Keys
                  && (forall q :: q in s.seats ==> s'.seats[q] == s.seats[q])
                  && forall n :: n in codes ==> s'.seats[n] == Seat(id, tier, codes[n], Available))
  {
    if forall q :: q in s.seats && s.seats[q].service == id ==> s.seats[q].code !in codes.Values {
      forall q, n | q in s.seats && n in codes && s.seats[q].service == id ensures s.seats[q].code != codes[n] {
        assert codes[n] in codes.Values;
      }
    }
    var both := s.seats.Keys * codes.Keys;
    assert forall n :: n in both <==> n in codes && n in s.seats;
    if both != {} {
      var n :| n in both;
    }
  }

  // ---------------------------------------------------------------- PUT /services/{id}

  /** The capacity after the edit: none for seats it switches to, else the one sent, else the old one. */
  function NewCapacity(service: Service, patch: Patch): Option<int> {
    if patch.mode == Some(UnitAssigned) && service.mode.SlotCapacity? then None
    else if patch.maxCapacity.Some? then patch.maxCapacity.value else service.maxCapacity
  }

  predicate AtLeast(capacity: Option<int>, n: int) {
    capacity.Some? && capacity.value >= n
  }

  predicate GoodPatch(s: State, actor: nat, admin: bool, id: nat, patch: Patch)
    requires id in s.services
  {
    var service := s.services[id];
    var mode := if patch.mode.Some? then patch.mode.value else service.mode;
    && (patch.maxCapacity.Some? && patch.maxCapacity.value.Some? ==> patch.maxCapacity.value.value >= 1)
    && (patch.location.Some? ==> MayHost(s, patch.location.value, actor, admin))
    // the mode changes only before the first booking and the first seat
    && (mode != service.mode ==> !SoldOnce(s, id) && !Seated(s, id))
    && (mode != service.mode && mode.SlotCapacity? ==> AtLeast(NewCapacity(service, patch), 1))
    // the capacity is never cleared, nor set below what is taken
    && (mode.SlotCapacity? && patch.maxCapacity.Some? ==>
          AtLeast(NewCapacity(service, patch), 1)
          && AtLeast(NewCapacity(service, patch), |Tickets(s.bookings, id, s.now)|))
    && (patch.startTime.Some? ==> patch.startTime.value >= s.now)
    && (if patch.startTime.Some? then patch.startTime.value else service.startTime)
         < (if patch.endTime.Some? then patch.endTime.value else service.endTime)
  }

  /** The fields sent are set, every other field and every other event stays. */
  predicate Edited(before: Service, after: Service, patch: Patch) {
    && after.seller == before.seller && after.tiers == before.tiers && after.active == before.active
    && (if patch.location.Some? then after.location == patch.location.value else after.location == before.location)
    && (if patch.mode.Some? then after.mode == patch.mode.value else after.mode == before.mode)
    && after.maxCapacity == NewCapacity(before, patch)
    && (if patch.basePrice.Some? then after.basePrice == patch.basePrice.value else after.basePrice == before.basePrice)
    && (if patch.startTime.Some? then after.startTime == patch.startTime.value else after.startTime == before.startTime)
    && (if patch.endTime.Some? then after.endTime == patch.endTime.value else after.endTime == before.endTime)
  }

  lemma EditedExactly(s: State, actor: nat, admin: bool, id: nat, patch: Patch)
    ensures var (s', reply) := UpdateService(s, actor, admin, id, patch);
            && (reply.Success? <==> MayEdit(s, actor, admin, id) && GoodPatch(s, actor, admin, id, patch))
            && (!reply.Success? ==> s' == s)
            && (reply.Success? ==>
                  && s'.services.Keys == s.services.Keys && s' == s.(services := s'.services)
                  && (forall k :: k in s.services && k != id ==> s'.services[k] == s.services[k])
                  && Edited(s.services[id], s'.services[id], patch))
  {
    ClaimsAreTickets(s.bookings, id, s.now);
  }

  // ---------------------------------------------------------------- DELETE /services/{id}, DELETE /account/{id}

  /** An event is removed once nobody is owed it: archived if it was ever booked, else deleted with its seats. */
  lemma RemovedExactly(s: State, actor: nat, admin: bool, id: nat)
    ensures var (s', reply) := DeleteService(s, actor, admin, id);
            && (reply.Success? <==> MayEdit(s, actor, admin, id) && !StillOwed(s, id))
            && (!reply.Success? ==> s' == s)
            && (reply.Success? && SoldOnce(s, id) ==>
                  s' == s.(services := s.services[id := s.services[id].(active := false)]))
            && (reply.Success? && !SoldOnce(s, id) ==>
                  && s' == s.(services := s'.services, seats := s'.seats)
                  && s'.services.Keys == s.services.Keys - {id}
                  && (forall k :: k in s'.services ==> s'.services[k] == s.services[k])
                  && (forall q :: q in s'.seats <==> q in s.seats && s.seats[q].service != id)
                  && forall q :: q in s'.seats ==> s'.seats[q] == s.seats[q])
  {
    if StillOwed(s, id) {
      var b :| 0 <= b < |s.bookings| && s.bookings[b].service == id && !s.bookings[b].status.Cancelled?;
      assert s.bookings[b].Live();
    }
  }

  /** Live bookings of the account, or of its events. */
  predicate Owed(s: State, user: nat) {
    exists b :: 0 <= b < |s.bookings| && !s.bookings[b].status.Cancelled? && Concerns(s, user, s.bookings[b])
  }

  predicate Concerns(s: State, user: nat, bk: Booking) {
    || bk.user == user
    || (user in s.users && s.users[user].seller && bk.service in s.services && s.services[bk.service].seller == user)
  }

  /**
   * An account leaves once nothing live concerns it. A seller, or anybody who ever booked, is deactivated and its
   * events archived; anybody else is deleted.
   */
  lemma LeavesExactly(s: State, user: nat)
    ensures var (s', reply) := DeleteUser(s, user);
            && (reply.Success? <==> user in s.users && s.users[user].active && !Owed(s, user))
            && (!reply.Success? ==> s' == s)
            && (reply.Success? ==>
                  var stays := s.users[user].seller || exists b :: 0 <= b < |s.bookings| && s.bookings[b].user == user;
                  && s'.users == (if stays then s.users[user := s.users[user].(active := false)] else s.users - {user})
                  && s' == s.(users := s'.users, services := s'.services) && s'.services.Keys == s.services.Keys
                  && forall k :: k in s.services ==>
                       s'.services[k] == if s.users[user].seller && s.services[k].seller == user
                                         then s.services[k].(active := false) else s.services[k])
  {
    if Owed(s, user) {
      var b :| 0 <= b < |s.bookings| && !s.bookings[b].status.Cancelled? && Concerns(s, user, s.bookings[b]);
      assert s.bookings[b].Live();
    }
  }
}
