// No interleaving of the row-locked transactions oversells an event, gives a seat to two bookings or lets
// a user hold too much, as long as the pay handler, which checks its hold's age on an old clock and takes
// no service lock, confirms nothing that a transaction past its check no longer has room for. The last
// lemmas show that this condition is exact.

module InterleavingProofs {
  import opened Entities
  import opened Tally
  import Counting
  import opened Payments
  import opened Invariants
  import opened RowProofs
  import opened Interleaving

  predicate Holding(d: Db, t: nat, l: Lock) {
    l in d.locks && d.locks[l] == t
  }

  /** Requested and either granted or still on the list. */
  predicate Requested(d: Db, t: nat, l: Lock)
    requires t in d.txs
  {
    l in d.txs[t].todo || Holding(d, t, l)
  }

  ghost predicate AllRequested(d: Db, t: nat, ls: seq<Lock>)
    requires t in d.txs
  {
    forall k :: 0 <= k < |ls| ==> Requested(d, t, ls[k])
  }

  predicate RowModed(bk: Booking, services: map<nat, Service>) {
    && bk.service in services
    && (services[bk.service].mode.UnitAssigned? <==> bk.units != [])
    && Ascending(bk.units)
  }

  ghost predicate Safe(d: Db) {
    && SeatsOwned(d.bookings, d.seats)
    && NeverOversold(d.bookings, d.services, d.clock)
    && HoldsLimited(d.bookings, d.clock)
    && (forall b :: 0 <= b < |d.bookings| ==> RowModed(d.bookings[b], d.services))
    && (forall id :: id in d.services ==> ServiceAnchored(d.services[id]))
  }

  predicate JobSound(d: Db, job: Job) {
    match job
    case CreateJob(_, service, quantity, units, readAt, startedAt) =>
      && readAt <= startedAt <= d.clock && quantity >= 1 && Ascending(units)
      && service in d.services && (d.services[service].mode.UnitAssigned? <==> units != [])
    case WebhookJob(b) => b < |d.bookings|
    case CancelJob(b) => b < |d.bookings|
    case PayJob(b, readAt) => b < |d.bookings| && readAt <= d.clock
    case SweepJob(threshold, rest) => forall k :: 0 <= k < |rest| ==> rest[k] < |d.bookings|
  }

  // ---------------------------------------------------------------- the checks, asked again now

  /** The hold still finds its seats free, or room for its tickets as far as they will count. */
  predicate RoomFor(d: Db, job: Job)
    requires job.CreateJob?
  {
    if job.units != [] then SeatsFree(d, job.units)
    else
      && job.service in d.services && d.services[job.service].maxCapacity.Some?
      && Sum(Claims(job.service, d.clock, None), d.bookings)
          + Weight(Claims(job.service, d.clock, None), 0, NewRow(job))
           <= d.services[job.service].maxCapacity.value
  }

  /** The hold still fits its user's limit. */
  predicate MayHold(d: Db, job: Job)
    requires job.CreateJob?
  {
    Sum(Holds(job.user, d.clock), d.bookings) + Weight(Holds(job.user, d.clock), 0, NewRow(job))
        <= MAX_PENDING_HOLDS_PER_USER
  }

  /** The late confirmation still fits. */
  predicate LateFits(d: Db, b: nat)
    requires b < |d.bookings|
  {
    d.bookings[b].units == [] ==> SlotFits(d, b)
  }

  /** What a transaction past its check has established. */
  predicate CheckHolds(d: Db, tx: Tx) {
    if tx.job.CreateJob? then RoomFor(d, tx.job)
    else Target(tx.job).Some? && Target(tx.job).value < |d.bookings| && LateFits(d, Target(tx.job).value)
  }

  /** What a transaction may rely on at its stage, because of the locks it holds. */
  ghost predicate TxSound(d: Db, t: nat)
    requires t in d.txs
  {
    var tx := d.txs[t];
    && JobSound(d, tx.job)
    && (tx.stage.Passed? || tx.stage.Lost? ==> tx.todo == [])
    && (tx.stage.Locking? ==> AllRequested(d, t, FirstLocks(tx.job)))
    && (!tx.stage.Locking? && tx.job.CreateJob? ==>
          && !tx.stage.Lost?
          && Holding(d, t, UserRow(tx.job.user))
          && AllRequested(d, t, ClaimLocks(tx.job.service, tx.job.units))
          && MayHold(d, tx.job))
    && (!tx.stage.Locking? && !tx.job.CreateJob? ==>
          && (tx.job.WebhookJob? || tx.job.SweepJob?)
          && Target(tx.job).Some?
          && var b := Target(tx.job).value;
             && b < |d.bookings|
             && d.bookings[b].status.Pending?
             && Holding(d, t, BookingRow(b))
             && AllRequested(d, t, ClaimLocks(d.bookings[b].service, d.bookings[b].units)))
    && (tx.stage.Passed? ==> CheckHolds(d, tx))
  }

  ghost predicate Inv(d: Db) {
    Safe(d) && forall t :: t in d.txs ==> TxSound(d, t)
  }

  ghost predicate OthersSound(d: Db, t: nat) {
    forall u :: u in d.txs && u != t ==> TxSound(d, u)
  }

  // ---------------------------------------------------------------- moves that touch no row

  lemma WaitKeeps(d: Db, later: Time)
    requires Inv(d) && later >= d.clock
    ensures Inv(d.(clock := later))
  {
    var d' := d.(clock := later);
    forall id | id in d.services ensures WithinCapacity(d.bookings, id, d.services[id], later) {
      assert WithinCapacity(d.bookings, id, d.services[id], d.clock);
      SumLe(Claims(id, later, None), d.bookings, Claims(id, d.clock, None), d.bookings);
    }
    forall user: nat ensures Sum(Holds(user, later), d.bookings) <= MAX_PENDING_HOLDS_PER_USER {
      SumLe(Holds(user, later), d.bookings, Holds(user, d.clock), d.bookings);
    }
    forall t | t in d'.txs ensures TxSound(d', t) {
      assert TxSound(d, t);
      SameLocks(d, d', t);
      WaitKeepsChecks(d, later, d.txs[t]);
    }
  }

  /** Time only takes claims and holds away. */
  lemma WaitKeepsChecks(d: Db, later: Time, tx: Tx)
    requires later >= d.clock
    ensures CheckHolds(d, tx) ==> CheckHolds(d.(clock := later), tx)
    ensures tx.job.CreateJob? && MayHold(d, tx.job) ==> MayHold(d.(clock := later), tx.job)
  {
    if tx.job.CreateJob? {
      var job := tx.job;
      SumLe(Claims(job.service, later, None), d.bookings, Claims(job.service, d.clock, None), d.bookings);
      SumLe(Holds(job.user, later), d.bookings, Holds(job.user, d.clock), d.bookings);
    } else if Target(tx.job).Some? && Target(tx.job).value < |d.bookings| {
      var b := Target(tx.job).value;
      SumLe(Claims(d.bookings[b].service, later, Some(b)), d.bookings, Claims(d.bookings[b].service, d.clock, Some(b)),
          d.bookings);
    }
  }

  lemma SameLocks(d: Db, d': Db, t: nat)
    requires t in d.txs && t in d'.txs && d'.txs[t].todo == d.txs[t].todo
    requires forall l :: Holding(d, t, l) ==> Holding(d', t, l)
    ensures forall ls :: AllRequested(d, t, ls) ==> AllRequested(d', t, ls)
  {
    forall ls | AllRequested(d, t, ls) ensures AllRequested(d', t, ls) {
      forall k | 0 <= k < |ls| ensures Requested(d', t, ls[k]) {
        assert Requested(d, t, ls[k]);
      }
    }
  }

  /** Another transaction's locks or progress do not matter to this one. */
  lemma TxFramed(d: Db, d': Db, t: nat)
    requires t in d.txs && TxSound(d, t)
    requires t in d'.txs && d'.txs[t] == d.txs[t]
    requires d'.services == d.services && d'.seats == d.seats && d'.bookings == d.bookings && d'.clock == d.clock
    requires forall l :: Holding(d, t, l) ==> Holding(d', t, l)
    ensures TxSound(d', t)
  {
    SameLocks(d, d', t);
  }

  lemma BeginKeeps(d: Db, t: nat, job: Job)
    requires Inv(d) && MayBegin(d, t, job)
    ensures Inv(Next(d, Begin(t, job)))
  {
    var d' := Next(d, Begin(t, job));
    forall u | u in d'.txs ensures TxSound(d', u) {
      if u != t {
        TxFramed(d, d', u);
      } else {
        forall k | 0 <= k < |FirstLocks(job)| ensures Requested(d', t, FirstLocks(job)[k]) {}
      }
    }
  }

  lemma AcquireKeeps(d: Db, t: nat)
    requires Inv(d)
    ensures Inv(Next(d, Acquire(t)))
  {
    var d' := Next(d, Acquire(t));
    if d' != d {
      var l := d.txs[t].todo[0];
      forall u | u in d'.txs ensures TxSound(d', u) {
        assert TxSound(d, u);
        if u != t {
          TxFramed(d, d', u);
        } else {
          Granted(d, t, FirstLocks(d.txs[t].job));
          if d.txs[t].job.CreateJob? {
            Granted(d, t, ClaimLocks(d.txs[t].job.service, d.txs[t].job.units));
          }
          if Target(d.txs[t].job).Some? {
            var b := Target(d.txs[t].job).value;
            if b < |d.bookings| {
              Granted(d, t, ClaimLocks(d.bookings[b].service, d.bookings[b].units));
            }
          }
        }
      }
    }
  }

  lemma Granted(d: Db, t: nat, ls: seq<Lock>)
    requires t in d.txs && d.txs[t].todo != [] && Next(d, Acquire(t)) != d
    ensures AllRequested(d, t, ls) ==> AllRequested(Next(d, Acquire(t)), t, ls)
  {
    var d' := Next(d, Acquire(t));
    if AllRequested(d, t, ls) {
      forall k | 0 <= k < |ls| ensures Requested(d', t, ls[k]) {
        assert Requested(d, t, ls[k]);
      }
    }
  }

  /** Ending a transaction takes nothing from the others. */
  lemma EndKeeps(d: Db, t: nat)
    requires Safe(d) && OthersSound(d, t)
    ensures Inv(End(d, t))
  {
    forall u | u in End(d, t).txs ensures TxSound(End(d, t), u) {
      TxFramed(d, End(d, t), u);
    }
  }

  lemma CloseKeeps(d: Db, t: nat)
    requires Safe(d) && OthersSound(d, t) && t in d.txs && JobSound(d, d.txs[t].job)
    ensures Inv(Close(d, t))
  {
    var d' := Close(d, t);
    var tx := d.txs[t];
    if tx.job.SweepJob? && tx.job.rest != [] {
      forall u | u in d'.txs ensures TxSound(d', u) {
        if u != t {
          TxFramed(d, d', u);
        } else {
          forall k | 0 <= k < |FirstLocks(d'.txs[t].job)| ensures Requested(d', t, FirstLocks(d'.txs[t].job)[k]) {}
        }
      }
    } else {
      EndKeeps(d, t);
    }
  }

  /** A new stage or lock list for one transaction. */
  lemma RestageKeeps(d: Db, t: nat, tx: Tx)
    requires Inv(d) && t in d.txs
    requires TxSound(d.(txs := d.txs[t := tx]), t)
    ensures Inv(d.(txs := d.txs[t := tx]))
  {
    var d' := d.(txs := d.txs[t := tx]);
    forall u | u in d'.txs ensures TxSound(d', u) {
      if u != t {
        TxFramed(d, d', u);
      }
    }
  }

  // ---------------------------------------------------------------- row changes seen by the others

  /** The booking another transaction has locked is not the one that changes. */
  lemma OtherTarget(d: Db, t: nat, u: nat, b: nat)
    requires u in d.txs && u != t && TxSound(d, u) && Holding(d, t, BookingRow(b))
    ensures !d.txs[u].stage.Locking? && !d.txs[u].job.CreateJob? ==> Target(d.txs[u].job).value != b
  {}

  /**
   * The row changes by a transaction that holds the booking's lock and gives the claim up, keeps it, has the
   * service lock, or takes care that every transaction past its check still passes it.
   */
  ghost predicate Considerate(d: Db, t: nat, b: nat, status: BookingStatus, item: ItemStatus)
    requires b < |d.bookings|
  {
    && Holding(d, t, BookingRow(b)) && d.bookings[b].Live() && !status.Pending?
    && (status.Cancelled? || d.bookings[b].status.Pending?)
    && (status.Cancelled? || Holding(d, t, ServiceRow(d.bookings[b].service)) || d.bookings[b].units != []
        || OthersPass(SetStatus(d, b, status, item), t))
  }

  /** Every other transaction past its check still passes it. */
  ghost predicate OthersPass(d: Db, t: nat) {
    forall u :: u in d.txs && u != t && d.txs[u].stage.Passed? ==> CheckHolds(d, d.txs[u])
  }

  lemma OthersAfterRow(d: Db, t: nat, b: nat, status: BookingStatus, item: ItemStatus)
    requires Inv(d) && b < |d.bookings| && Considerate(d, t, b, status, item)
    ensures OthersSound(SetStatus(d, b, status, item), t)
  {
    var d' := SetStatus(d, b, status, item);
    forall u | u in d'.txs && u != t ensures TxSound(d', u) {
      assert TxSound(d, u);
      OtherTarget(d, t, u, b);
      SameLocks(d, d', u);
      var tx := d.txs[u];
      if tx.job.CreateJob? && !tx.stage.Locking? {
        ClaimsRow(Holds(tx.job.user, d.clock), d.bookings, b, d'.bookings[b]);
      }
      if tx.stage.Passed? {
        StillPasses(d, t, u, b, status, item);
      }
    }
  }

  lemma StillPasses(d: Db, t: nat, u: nat, b: nat, status: BookingStatus, item: ItemStatus)
    requires Inv(d) && b < |d.bookings| && Considerate(d, t, b, status, item)
    requires u in d.txs && u != t && d.txs[u].stage.Passed?
    ensures CheckHolds(SetStatus(d, b, status, item), d.txs[u])
  {
    if status.Cancelled? || Holding(d, t, ServiceRow(d.bookings[b].service)) || d.bookings[b].units != [] {
      if d.txs[u].job.CreateJob? {
        HoldStillFits(d, t, u, b, status, item);
      } else {
        LateStillFits(d, t, u, b, status, item);
      }
    }
  }

  /** The pointwise comparison behind the two lemmas below. */
  lemma WeightKept(d: Db, t: nat, u: nat, b: nat, bk: Booking, service: nat, self: Option<nat>)
    requires b < |d.bookings| && SameOrder(d.bookings[b], bk) && self != Some(b)
    requires Holding(d, u, ServiceRow(service)) && u != t
    requires bk.status.Cancelled? || Holding(d, t, ServiceRow(bk.service)) || service != bk.service
    ensures Weight(Claims(service, d.clock, self), b, bk) <= Weight(Claims(service, d.clock, self), b, d.bookings[b])
  {}

  lemma HoldStillFits(d: Db, t: nat, u: nat, b: nat, status: BookingStatus, item: ItemStatus)
    requires Inv(d) && b < |d.bookings| && Considerate(d, t, b, status, item)
    requires status.Cancelled? || Holding(d, t, ServiceRow(d.bookings[b].service)) || d.bookings[b].units != []
    requires u in d.txs && u != t && d.txs[u].job.CreateJob? && d.txs[u].stage.Passed?
    ensures RoomFor(SetStatus(d, b, status, item), d.txs[u].job)
  {
    assert TxSound(d, u);
    var d' := SetStatus(d, b, status, item);
    var job := d.txs[u].job;
    var bk := d'.bookings[b];
    if job.units == [] {
      assert ClaimLocks(job.service, job.units)[0] == ServiceRow(job.service);
      assert Requested(d, u, ClaimLocks(job.service, job.units)[0]);
      assert RowModed(d.bookings[b], d.services);
      WeightKept(d, t, u, b, bk, job.service, None);
      ClaimsRow(Claims(job.service, d.clock, None), d.bookings, b, bk);
    } else {
      assert forall q: nat :: q in d.bookings[b].units ==> Lists(d.bookings, b, q);
    }
  }

  lemma LateStillFits(d: Db, t: nat, u: nat, b: nat, status: BookingStatus, item: ItemStatus)
    requires Inv(d) && b < |d.bookings| && Considerate(d, t, b, status, item)
    requires status.Cancelled? || Holding(d, t, ServiceRow(d.bookings[b].service)) || d.bookings[b].units != []
    requires u in d.txs && u != t && !d.txs[u].job.CreateJob? && d.txs[u].stage.Passed?
    ensures LateFits(SetStatus(d, b, status, item), Target(d.txs[u].job).value)
  {
    assert TxSound(d, u);
    OtherTarget(d, t, u, b);
    var d' := SetStatus(d, b, status, item);
    var c := Target(d.txs[u].job).value;
    var held := d.bookings[c];
    if held.units == [] {
      assert ClaimLocks(held.service, held.units)[0] == ServiceRow(held.service);
      assert Requested(d, u, ClaimLocks(held.service, held.units)[0]);
      assert RowModed(held, d.services) && RowModed(d.bookings[b], d.services);
      WeightKept(d, t, u, b, d'.bookings[b], held.service, Some(c));
      ClaimsRow(Claims(held.service, d.clock, Some(c)), d.bookings, b, d'.bookings[b]);
    }
  }

  // ---------------------------------------------------------------- commits

  lemma CancelSafe(d: Db, b: nat)
    requires Safe(d) && b < |d.bookings| && d.bookings[b].Live()
    ensures Safe(SetStatus(d, b, Cancelled, Available))
  {
    var d' := SetStatus(d, b, Cancelled, Available);
    SeatsReleased(d.bookings, b, d'.bookings[b], d.seats);
    CapacityRow(d.bookings, b, d'.bookings[b], d.services, d.clock);
    HoldsRow(d.bookings, b, d'.bookings[b], d.clock);
    RowsModed(d, d', b);
  }

  lemma RowsModed(d: Db, d': Db, b: nat)
    requires forall c :: 0 <= c < |d.bookings| ==> RowModed(d.bookings[c], d.services)
    requires b < |d.bookings| && d'.services == d.services && |d'.bookings| == |d.bookings|
    requires forall c :: 0 <= c < |d.bookings| ==> SameOrder(d.bookings[c], d'.bookings[c])
    ensures forall c :: 0 <= c < |d'.bookings| ==> RowModed(d'.bookings[c], d'.services)
  {
    forall c | 0 <= c < |d'.bookings| ensures RowModed(d'.bookings[c], d'.services) {
      assert RowModed(d.bookings[c], d.services) && SameOrder(d.bookings[c], d'.bookings[c]);
    }
  }

  lemma CancelKeeps(d: Db, t: nat, b: nat)
    requires Inv(d) && t in d.txs && b < |d.bookings| && d.bookings[b].Live() && Holding(d, t, BookingRow(b))
    ensures Safe(SetStatus(d, b, Cancelled, Available)) && OthersSound(SetStatus(d, b, Cancelled, Available), t)
    ensures JobSound(SetStatus(d, b, Cancelled, Available), d.txs[t].job)
  {
    assert TxSound(d, t);
    CancelSafe(d, b);
    OthersAfterRow(d, t, b, Cancelled, Available);
  }

  /** A confirmation is safe when it fits with the booking itself counted. */
  lemma ConfirmSafe(d: Db, b: nat)
    requires Safe(d) && b < |d.bookings| && d.bookings[b].status.Pending? && LateFits(d, b)
    ensures Safe(SetStatus(d, b, Confirmed, Booked))
  {
    var d' := SetStatus(d, b, Confirmed, Booked);
    var bk := d'.bookings[b];
    SeatsConfirmed(d.bookings, b, bk, d.seats);
    HoldsRow(d.bookings, b, bk, d.clock);
    RowsModed(d, d', b);
    forall id | id in d.services ensures WithinCapacity(d'.bookings, id, d.services[id], d.clock) {
      assert WithinCapacity(d.bookings, id, d.services[id], d.clock);
      assert RowModed(d.bookings[b], d.services);
      if id == bk.service && bk.units == [] {
        SumLe(Claims(id, d.clock, None), d'.bookings, Claims(id, d.clock, Some(b)), d.bookings);
      } else if id != bk.service {
        ClaimsRow(Claims(id, d.clock, None), d.bookings, b, bk);
      }
    }
  }

  lemma LateConfirmKeeps(d: Db, t: nat, b: nat)
    requires Inv(d) && t in d.txs && d.txs[t].stage.Passed? && !d.txs[t].job.CreateJob?
    requires Target(d.txs[t].job) == Some(b)
    ensures b < |d.bookings|
    ensures Safe(SetStatus(d, b, Confirmed, Booked)) && OthersSound(SetStatus(d, b, Confirmed, Booked), t)
    ensures JobSound(SetStatus(d, b, Confirmed, Booked), d.txs[t].job)
  {
    assert TxSound(d, t);
    var bk := d.bookings[b];
    if bk.units == [] {
      assert ClaimLocks(bk.service, bk.units)[0] == ServiceRow(bk.service);
      assert Requested(d, t, ClaimLocks(bk.service, bk.units)[0]);
    }
    ConfirmSafe(d, b);
    OthersAfterRow(d, t, b, Confirmed, Booked);
  }

  /** The commit of a payment is enabled. */
  predicate Pays(d: Db, t: nat, b: nat) {
    && t in d.txs && d.txs[t].job.PayJob? && d.txs[t].job.booking == b && d.txs[t].todo == [] && d.txs[t].stage.Locking?
    && b < |d.bookings| && Payable(d.bookings[b], d.txs[t].job.readAt)
  }

  /**
   * Room for the payment: the check the webhook makes would pass, and every transaction past its own check
   * would still pass it with this booking confirmed.
   */
  ghost predicate StillRoom(d: Db, t: nat, b: nat)
    requires b < |d.bookings|
  {
    d.bookings[b].units == [] ==> SlotFits(d, b) && OthersPass(SetStatus(d, b, Confirmed, Booked), t)
  }

  lemma PayKeeps(d: Db, t: nat, b: nat)
    requires Inv(d) && Pays(d, t, b) && StillRoom(d, t, b)
    ensures Inv(End(SetStatus(d, b, Confirmed, Booked), t))
  {
    assert TxSound(d, t);
    assert Requested(d, t, FirstLocks(d.txs[t].job)[0]);
    ConfirmSafe(d, b);
    OthersAfterRow(d, t, b, Confirmed, Booked);
    EndKeeps(SetStatus(d, b, Confirmed, Booked), t);
  }

  /** The new hold: the user row and the service or seat rows stayed locked since the checks. */
  lemma CreateSafe(d: Db, t: nat)
    requires Inv(d) && t in d.txs && d.txs[t].job.CreateJob? && d.txs[t].stage.Passed?
    ensures Safe(d.(bookings := d.bookings + [NewRow(d.txs[t].job)],
            seats := Mark(d.seats, d.txs[t].job.units, Reserved)))
  {
    assert TxSound(d, t);
    var job := d.txs[t].job;
    var bk := NewRow(job);
    var bs' := d.bookings + [bk];
    SeatsHeld(d.bookings, bk, d.seats);
    forall id | id in d.services ensures WithinCapacity(bs', id, d.services[id], d.clock) {
      assert WithinCapacity(d.bookings, id, d.services[id], d.clock);
      SumAppend(Claims(id, d.clock, None), d.bookings, bk);
    }
    forall user: nat ensures Sum(Holds(user, d.clock), bs') <= MAX_PENDING_HOLDS_PER_USER {
      SumAppend(Holds(user, d.clock), d.bookings, bk);
    }
    forall b | 0 <= b < |bs'| ensures RowModed(bs'[b], d.services) {
      assert b < |d.bookings| ==> RowModed(d.bookings[b], d.services);
    }
  }

  lemma CreateOthers(d: Db, t: nat)
    requires Inv(d) && t in d.txs && d.txs[t].job.CreateJob? && d.txs[t].stage.Passed?
    ensures OthersSound(d.(bookings := d.bookings + [NewRow(d.txs[t].job)],
            seats := Mark(d.seats, d.txs[t].job.units, Reserved)), t)
  {
    var job := d.txs[t].job;
    var d' := d.(bookings := d.bookings + [NewRow(job)], seats := Mark(d.seats, job.units, Reserved));
    forall u | u in d'.txs && u != t ensures TxSound(d', u) {
      assert TxSound(d, t) && TxSound(d, u);
      SameLocks(d, d', u);
      if d.txs[u].job.CreateJob? {
        SumAppend(Holds(d.txs[u].job.user, d.clock), d.bookings, NewRow(job));
      }
      if d.txs[u].stage.Passed? {
        CreateOtherPasses(d, t, u);
      }
    }
  }

  lemma CreateOtherPasses(d: Db, t: nat, u: nat)
    requires t in d.txs && u in d.txs && t != u && TxSound(d, t) && TxSound(d, u)
    requires d.txs[t].job.CreateJob? && d.txs[t].stage.Passed? && d.txs[u].stage.Passed?
    requires !d.txs[u].job.CreateJob? ==> RowModed(d.bookings[Target(d.txs[u].job).value], d.services)
    ensures CheckHolds(d.(bookings := d.bookings + [NewRow(d.txs[t].job)],
            seats := Mark(d.seats, d.txs[t].job.units, Reserved)), d.txs[u])
  {
    var bk := NewRow(d.txs[t].job);
    LocksApart(d, t, u);
    if d.txs[u].job.CreateJob? {
      SumAppend(Claims(d.txs[u].job.service, d.clock, None), d.bookings, bk);
    } else {
      var c := Target(d.txs[u].job).value;
      SumAppend(Claims(d.bookings[c].service, d.clock, Some(c)), d.bookings, bk);
    }
  }

  /** Two transactions past their checks claim different services and disjoint seats. */
  lemma LocksApart(d: Db, t: nat, u: nat)
    requires t in d.txs && u in d.txs && t != u && TxSound(d, t) && TxSound(d, u)
    requires d.txs[t].job.CreateJob? && d.txs[t].stage.Passed? && d.txs[u].stage.Passed?
    ensures d.txs[u].job.CreateJob? ==>
              && (d.txs[u].job.units == [] && d.txs[t].job.units == [] ==> d.txs[u].job.service != d.txs[t].job.service)
              && (forall k :: 0 <= k < |d.txs[u].job.units| ==> d.txs[u].job.units[k] !in d.txs[t].job.units)
    ensures !d.txs[u].job.CreateJob? ==>
              var bk := d.bookings[Target(d.txs[u].job).value];
              bk.units == [] && d.txs[t].job.units == [] ==> bk.service != d.txs[t].job.service
  {
    var mine := d.txs[t].job;
    if d.txs[u].job.CreateJob? {
      var theirs := d.txs[u].job;
      ClaimsApart(d, t, u, mine.service, mine.units, theirs.service, theirs.units);
    } else {
      var bk := d.bookings[Target(d.txs[u].job).value];
      ClaimsApart(d, t, u, mine.service, mine.units, bk.service, bk.units);
    }
  }

  /** Locks granted to two transactions are different rows. */
  lemma ClaimsApart(d: Db, t: nat, u: nat, service: nat, units: seq<nat>, service': nat, units': seq<nat>)
    requires t in d.txs && u in d.txs && t != u && d.txs[t].todo == [] && d.txs[u].todo == []
    requires AllRequested(d, t, ClaimLocks(service, units)) && AllRequested(d, u, ClaimLocks(service', units'))
    ensures units == [] && units' == [] ==> service != service'
    ensures forall k :: 0 <= k < |units'| ==> units'[k] !in units
  {
    if units == [] && units' == [] {
      assert Requested(d, t, ClaimLocks(service, units)[0]) && Requested(d, u, ClaimLocks(service', units')[0]);
    }
    forall j, k | 0 <= j < |units| && 0 <= k < |units'| ensures units[j] != units'[k] {
      assert Requested(d, t, ClaimLocks(service, units)[j]) && Requested(d, u, ClaimLocks(service', units')[k]);
    }
  }

  // ---------------------------------------------------------------- every move

  lemma ReadKeeps(d: Db, t: nat, verdict: Verdict)
    requires Inv(d) && t in d.txs && d.txs[t].stage.Locking? && d.txs[t].todo == []
    ensures Inv(DoRead(d, t, verdict))
  {
    var tx := d.txs[t];
    assert TxSound(d, t);
    if tx.job.CreateJob? {
      CountKeeps(d, t);
    } else if Target(tx.job).Some? {
      var b := Target(tx.job).value;
      var bk := d.bookings[b];
      if tx.job.WebhookJob? || tx.job.SweepJob? {
        assert Requested(d, t, FirstLocks(tx.job)[0]);
      }
      if tx.job.WebhookJob? && !bk.status.Pending? {
        EndKeeps(d, t);
      } else if tx.job.SweepJob? && (!bk.status.Pending? || bk.createdAt > tx.job.threshold || verdict.Skip?) {
        SkipKeeps(d, t);
      } else if tx.job.SweepJob? && verdict.Free? {
        CancelKeeps(d, t, b);
        CloseKeeps(SetStatus(d, b, Cancelled, Available), t);
      } else if tx.job.WebhookJob? || tx.job.SweepJob? {
        StartClaiming(d, t, b);
      }
    }
  }

  /** Counted on the older clock, the holds of the locked user are at least those that count now. */
  lemma CountKeeps(d: Db, t: nat)
    requires Inv(d) && t in d.txs && d.txs[t].stage.Locking? && d.txs[t].todo == [] && d.txs[t].job.CreateJob?
    ensures Inv(DoRead(d, t, Skip))
  {
    assert TxSound(d, t);
    var job := d.txs[t].job;
    assert Requested(d, t, FirstLocks(job)[0]);
    if Sum(Holds(job.user, job.readAt), d.bookings) >= MAX_PENDING_HOLDS_PER_USER {
      EndKeeps(d, t);
    } else {
      SumLe(Holds(job.user, d.clock), d.bookings, Holds(job.user, job.readAt), d.bookings);
      var tx := Tx(job, Claiming, ClaimLocks(job.service, job.units));
      var d' := d.(txs := d.txs[t := tx]);
      forall k | 0 <= k < |tx.todo| ensures Requested(d', t, tx.todo[k]) {}
      RestageKeeps(d, t, tx);
    }
  }

  lemma SkipKeeps(d: Db, t: nat)
    requires Inv(d) && t in d.txs && d.txs[t].job.SweepJob? && d.txs[t].job.rest != []
    ensures Inv(d.(txs := d.txs[t := NextCandidate(d.txs[t])]))
  {
    assert TxSound(d, t);
    var tx := NextCandidate(d.txs[t]);
    var d' := d.(txs := d.txs[t := tx]);
    forall k | 0 <= k < |FirstLocks(tx.job)| ensures Requested(d', t, FirstLocks(tx.job)[k]) {}
    RestageKeeps(d, t, tx);
  }

  lemma StartClaiming(d: Db, t: nat, b: nat)
    requires Inv(d) && t in d.txs && b < |d.bookings| && d.bookings[b].status.Pending?
    requires (d.txs[t].job.WebhookJob? || d.txs[t].job.SweepJob?) && Target(d.txs[t].job) == Some(b)
    requires Holding(d, t, BookingRow(b))
    ensures Inv(d.(txs := d.txs[t := Tx(d.txs[t].job, Claiming,
            ClaimLocks(d.bookings[b].service, d.bookings[b].units))]))
  {
    assert TxSound(d, t);
    var tx := Tx(d.txs[t].job, Claiming, ClaimLocks(d.bookings[b].service, d.bookings[b].units));
    var d' := d.(txs := d.txs[t := tx]);
    forall k | 0 <= k < |tx.todo| ensures Requested(d', t, tx.todo[k]) {}
    RestageKeeps(d, t, tx);
  }

  lemma CheckKeeps(d: Db, t: nat)
    requires Inv(d) && t in d.txs && d.txs[t].todo == []
    ensures Inv(DoCheck(d, t))
  {
    assert TxSound(d, t);
    var tx := d.txs[t];
    var d' := DoCheck(d, t);
    if tx.stage.Claiming? && tx.job.CreateJob? && !HoldFits(d, tx.job) {
      EndKeeps(d, t);
    } else if d' != d {
      if tx.job.CreateJob? {
        FitsHasRoom(d, tx.job);
      }
      SameLocks(d, d', t);
      RestageKeeps(d, t, d'.txs[t]);
    }
  }

  /** Counted on the older clock, the claims are at least those that count now. */
  lemma FitsHasRoom(d: Db, job: Job)
    requires job.CreateJob? && JobSound(d, job) && HoldFits(d, job)
    ensures RoomFor(d, job)
  {
    SumLe(Claims(job.service, d.clock, None), d.bookings, Claims(job.service, job.readAt, None), d.bookings);
  }

  /** The one commit that needs a condition: a payment must leave room for what others have checked. */
  ghost predicate PaysSafely(d: Db, m: Move) {
    m.Commit? && m.t in d.txs && d.txs[m.t].job.PayJob? && Pays(d, m.t, d.txs[m.t].job.booking) ==>
      StillRoom(d, m.t, d.txs[m.t].job.booking)
  }

  lemma CommitKeeps(d: Db, t: nat, refunds: bool)
    requires Inv(d) && t in d.txs && d.txs[t].todo == [] && PaysSafely(d, Commit(t, refunds))
    ensures Inv(DoCommit(d, t, refunds))
  {
    assert TxSound(d, t);
    var tx := d.txs[t];
    if tx.job.CreateJob? {
      if tx.stage.Passed? {
        CreateSafe(d, t);
        CreateOthers(d, t);
        EndKeeps(d.(bookings := d.bookings + [NewRow(tx.job)], seats := Mark(d.seats, tx.job.units, Reserved)), t);
      }
    } else if Target(tx.job).Some? {
      var b := Target(tx.job).value;
      match tx.stage
      case Passed =>
        LateConfirmKeeps(d, t, b);
        CloseKeeps(SetStatus(d, b, Confirmed, Booked), t);
      case Lost =>
        if refunds {
          CancelKeeps(d, t, b);
          CloseKeeps(SetStatus(d, b, Cancelled, Available), t);
        } else {
          CloseKeeps(d, t);
        }
      case Claiming =>
      case Locking => LockingCommitKeeps(d, t, b, refunds);
    }
  }

  lemma LockingCommitKeeps(d: Db, t: nat, b: nat, refunds: bool)
    requires Inv(d) && t in d.txs && d.txs[t].todo == [] && PaysSafely(d, Commit(t, refunds))
    requires d.txs[t].stage.Locking? && !d.txs[t].job.CreateJob? && Target(d.txs[t].job) == Some(b)
    ensures Inv(DoCommit(d, t, refunds))
  {
    assert TxSound(d, t);
    var tx := d.txs[t];
    assert Requested(d, t, FirstLocks(tx.job)[0]);
    if tx.job.CancelJob? && d.bookings[b].Live() {
      CancelKeeps(d, t, b);
      EndKeeps(SetStatus(d, b, Cancelled, Available), t);
    } else if tx.job.PayJob? && Payable(d.bookings[b], tx.job.readAt) {
      PayKeeps(d, t, b);
    }
  }

  lemma {:induction false} MoveKeeps(d: Db, m: Move)
    requires Inv(d) && PaysSafely(d, m)
    ensures Inv(Next(d, m))
  {
    match m
    case Wait(later) => if later >= d.clock { WaitKeeps(d, later); }
    case Begin(t, job) => if MayBegin(d, t, job) { BeginKeeps(d, t, job); }
    case Acquire(t) => AcquireKeeps(d, t);
    case Read(t, verdict) =>
      if t in d.txs && d.txs[t].stage.Locking? && d.txs[t].todo == [] { ReadKeeps(d, t, verdict); }
    case Check(t) => if t in d.txs && d.txs[t].todo == [] { CheckKeeps(d, t); }
    case Commit(t, refunds) => if t in d.txs && d.txs[t].todo == [] { CommitKeeps(d, t, refunds); }
    case Quit(t) => if t in d.txs { EndKeeps(d, t); }
  }

  // ---------------------------------------------------------------- whole interleavings

  /** Every payment of the interleaving leaves room. */
  ghost predicate AllSafe(d: Db, moves: seq<Move>)
    decreases |moves|
  {
    moves == [] ||
    (AllSafe(d, moves[..|moves| - 1]) && PaysSafely(Play(d, moves[..|moves| - 1]), moves[|moves| - 1]))
  }

  lemma OpeningSound(d: Db)
    requires Opening(d)
    ensures Inv(d)
  {
    forall id | id in d.services ensures WithinCapacity(d.bookings, id, d.services[id], d.clock) {
      assert Sum(Claims(id, d.clock, None), d.bookings) == 0;
    }
  }

  lemma {:induction false} PlaySound(d: Db, moves: seq<Move>)
    requires Inv(d) && AllSafe(d, moves)
    ensures Inv(Play(d, moves))
    decreases |moves|
  {
    if moves != [] {
      PlaySound(d, moves[..|moves| - 1]);
      MoveKeeps(Play(d, moves[..|moves| - 1]), moves[|moves| - 1]);
    }
  }

  /**
   * Under every interleaving whose payments leave room, confirmed plus unexpired pending tickets stay within
   * capacity, no seat belongs to two live bookings, and no user holds more than the limit.
   */
  lemma {:induction false} InterleavedNeverOversells(d: Db, moves: seq<Move>, id: nat, user: nat)
    requires Opening(d) && AllSafe(d, moves)
    requires id in Play(d, moves).services && Play(d, moves).services[id].mode.SlotCapacity?
    ensures var f := Play(d, moves);
            && f.services[id].maxCapacity.Some?
            && |Counting.Tickets(f.bookings, id, f.clock)| <= f.services[id].maxCapacity.value
    ensures SeatsOwned(Play(d, moves).bookings, Play(d, moves).seats)
    ensures |Counting.HoldsOf(Play(d, moves).bookings, user, Play(d, moves).clock)| <= 5
  {
    OpeningSound(d);
    PlaySound(d, moves);
    var f := Play(d, moves);
    assert ServiceAnchored(f.services[id]);
    assert WithinCapacity(f.bookings, id, f.services[id], f.clock);
    Counting.ClaimsAreTickets(f.bookings, id, f.clock);
    Counting.HoldsAreRows(f.bookings, user, f.clock);
  }

  /** A payment that commits before its hold runs out always leaves room: the hold is counted already. */
  lemma TimelyLeavesRoom(d: Db, t: nat, b: nat)
    requires Inv(d) && Pays(d, t, b) && Payable(d.bookings[b], d.clock)
    ensures StillRoom(d, t, b)
  {
    if d.bookings[b].units == [] {
      var bk := d.bookings[b];
      var d' := SetStatus(d, b, Confirmed, Booked);
      assert RowModed(bk, d.services) && ServiceAnchored(d.services[bk.service]);
      assert WithinCapacity(d.bookings, bk.service, d.services[bk.service], d.clock);
      SumLe(Claims(bk.service, d.clock, Some(b)), d.bookings, Claims(bk.service, d.clock, None), d.bookings);
      forall u | u in d.txs && u != t && d.txs[u].stage.Passed? ensures CheckHolds(d', d.txs[u]) {
        TimelyPassesOther(d, t, b, u);
      }
    }
  }

  lemma TimelyPassesOther(d: Db, t: nat, b: nat, u: nat)
    requires Inv(d) && Pays(d, t, b) && Payable(d.bookings[b], d.clock) && d.bookings[b].units == []
    requires u in d.txs && u != t && d.txs[u].stage.Passed?
    ensures CheckHolds(SetStatus(d, b, Confirmed, Booked), d.txs[u])
  {
    assert TxSound(d, u) && TxSound(d, t);
    var bk' := SetStatus(d, b, Confirmed, Booked).bookings[b];
    if d.txs[u].job.CreateJob? {
      ClaimsRow(Claims(d.txs[u].job.service, d.clock, None), d.bookings, b, bk');
    } else {
      var c := Target(d.txs[u].job).value;
      ClaimsRow(Claims(d.bookings[c].service, d.clock, Some(c)), d.bookings, b, bk');
    }
  }

  // ---------------------------------------------------------------- the condition is exact

  /** However the others go on, as long as later payments leave room, nothing is oversold. */
  ghost predicate Sustainable(d: Db) {
    forall moves :: AllSafe(d, moves) ==>
        NeverOversold(Play(d, moves).bookings, Play(d, moves).services, Play(d, moves).clock)
  }

  lemma SoundIsSustainable(d: Db)
    requires Inv(d)
    ensures Sustainable(d)
  {
    forall moves | AllSafe(d, moves)
      ensures NeverOversold(Play(d, moves).bookings, Play(d, moves).services, Play(d, moves).clock)
    {
      PlaySound(d, moves);
    }
  }

  /** A payment that leaves no room in its own event oversells it at once. */
  lemma NoRoomOversells(d: Db, t: nat, b: nat, refunds: bool)
    requires Inv(d) && Pays(d, t, b) && d.bookings[b].units == [] && !SlotFits(d, b)
    ensures var d' := Next(d, Commit(t, refunds)); !NeverOversold(d'.bookings, d'.services, d'.clock)
  {
    var d' := Next(d, Commit(t, refunds));
    var bk := d'.bookings[b];
    assert RowModed(d.bookings[b], d.services) && ServiceAnchored(d.services[bk.service]);
    SumLe(Claims(bk.service, d.clock, Some(b)), d.bookings, Claims(bk.service, d.clock, None), d'.bookings);
    assert !WithinCapacity(d'.bookings, bk.service, d'.services[bk.service], d'.clock);
  }

  /** A transaction past its check that no longer passes it oversells its event when it commits. */
  lemma StaleCheckOversells(d: Db, u: nat)
    requires Safe(d) && u in d.txs && d.txs[u].stage.Passed? && d.txs[u].todo == []
    requires d.txs[u].job.CreateJob? || d.txs[u].job.WebhookJob? || d.txs[u].job.SweepJob?
    requires !CheckHolds(d, d.txs[u])
    requires d.txs[u].job.CreateJob? ==> d.txs[u].job.units == [] && d.txs[u].job.service in d.services
                                         && d.services[d.txs[u].job.service].mode.SlotCapacity?
    requires !d.txs[u].job.CreateJob? ==> Target(d.txs[u].job).Some? && Target(d.txs[u].job).value < |d.bookings|
    ensures var f := Next(d, Commit(u, false)); !NeverOversold(f.bookings, f.services, f.clock)
  {
    if d.txs[u].job.CreateJob? {
      StaleHoldOversells(d, u);
    } else {
      StaleLateOversells(d, u, Target(d.txs[u].job).value);
    }
  }

  lemma StaleHoldOversells(d: Db, u: nat)
    requires Safe(d) && u in d.txs && d.txs[u].stage.Passed? && d.txs[u].todo == [] && d.txs[u].job.CreateJob?
    requires d.txs[u].job.units == [] && d.txs[u].job.service in d.services
    requires d.services[d.txs[u].job.service].mode.SlotCapacity?
    requires !RoomFor(d, d.txs[u].job)
    ensures var f := Next(d, Commit(u, false)); !NeverOversold(f.bookings, f.services, f.clock)
  {
    var job := d.txs[u].job;
    var f := Next(d, Commit(u, false));
    assert ServiceAnchored(d.services[job.service]);
    assert f.bookings == d.bookings + [NewRow(job)];
    SumAppend(Claims(job.service, d.clock, None), d.bookings, NewRow(job));
    assert !WithinCapacity(f.bookings, job.service, f.services[job.service], f.clock);
  }

  lemma StaleLateOversells(d: Db, u: nat, c: nat)
    requires Safe(d) && u in d.txs && d.txs[u].stage.Passed? && d.txs[u].todo == []
    requires d.txs[u].job.WebhookJob? || d.txs[u].job.SweepJob?
    requires Target(d.txs[u].job) == Some(c) && c < |d.bookings| && !LateFits(d, c)
    ensures var f := Next(d, Commit(u, false)); !NeverOversold(f.bookings, f.services, f.clock)
  {
    var f := Next(d, Commit(u, false));
    var bk := d.bookings[c];
    assert f.bookings == d.bookings[c := bk.(status := Confirmed)];
    assert RowModed(bk, d.services) && ServiceAnchored(d.services[bk.service]);
    SumLe(Claims(bk.service, d.clock, Some(c)), d.bookings, Claims(bk.service, d.clock, None), f.bookings);
    assert !WithinCapacity(f.bookings, bk.service, f.services[bk.service], f.clock);
  }

  lemma OneMove(d: Db, m: Move)
    ensures Play(d, [m]) == Next(d, m)
    ensures AllSafe(d, [m]) <==> PaysSafely(d, m)
  {
    assert [m][..0] == [];
    assert Play(d, []) == d && AllSafe(d, []);
  }

  /** Confirming a general admission booking can only spoil a check on tickets. */
  lemma SpoiledIsCounted(d: Db, b: nat, u: nat)
    requires u in d.txs && TxSound(d, u) && d.txs[u].stage.Passed? && b < |d.bookings| && d.bookings[b].units == []
    requires !CheckHolds(SetStatus(d, b, Confirmed, Booked), d.txs[u])
    ensures var job := d.txs[u].job;
      if job.CreateJob? then job.units == [] && job.service in d.services && d.services[job.service].mode.SlotCapacity?
      else (job.WebhookJob? || job.SweepJob?) && Target(job).Some? && Target(job).value < |d.bookings|
  {
    assert Mark(d.seats, [], Booked) == d.seats;
  }

  /** A payment that spoils another transaction's check lets that transaction oversell. */
  lemma SpoiledCheckOversells(d: Db, t: nat, b: nat, refunds: bool, u: nat)
    requires Inv(d) && Pays(d, t, b) && d.bookings[b].units == [] && SlotFits(d, b)
    requires u in d.txs && u != t && d.txs[u].stage.Passed? && !CheckHolds(SetStatus(d, b, Confirmed, Booked), d.txs[u])
    ensures !Sustainable(Next(d, Commit(t, refunds)))
  {
    assert TxSound(d, u);
    SpoiledIsCounted(d, b, u);
    ConfirmSafe(d, b);
    var paid := End(SetStatus(d, b, Confirmed, Booked), t);
    SpoiledAfter(d, t, b, u);
    CommitOversells(paid, u);
    PayShape(d, t, b, refunds);
  }

  lemma PayShape(d: Db, t: nat, b: nat, refunds: bool)
    requires Pays(d, t, b)
    ensures Next(d, Commit(t, refunds)) == End(SetStatus(d, b, Confirmed, Booked), t)
  {}

  lemma CommitOversells(d: Db, u: nat)
    requires Safe(d) && u in d.txs && d.txs[u].stage.Passed? && d.txs[u].todo == []
    requires var job := d.txs[u].job;
      if job.CreateJob? then job.units == [] && job.service in d.services && d.services[job.service].mode.SlotCapacity?
      else (job.WebhookJob? || job.SweepJob?) && Target(job).Some? && Target(job).value < |d.bookings|
    requires !CheckHolds(d, d.txs[u]) && PaysSafely(d, Commit(u, false))
    ensures !Sustainable(d)
  {
    StaleCheckOversells(d, u);
    OneMove(d, Commit(u, false));
  }

  lemma SpoiledAfter(d: Db, t: nat, b: nat, u: nat)
    requires b < |d.bookings| && u in d.txs && u != t && Safe(SetStatus(d, b, Confirmed, Booked))
    requires d.txs[u].stage.Passed? && d.txs[u].todo == [] && !d.txs[u].job.PayJob?
    ensures var paid := End(SetStatus(d, b, Confirmed, Booked), t);
      && Safe(paid) && u in paid.txs && paid.txs[u] == d.txs[u]
      && paid.services == d.services && |paid.bookings| == |d.bookings|
      && CheckHolds(paid, d.txs[u]) == CheckHolds(SetStatus(d, b, Confirmed, Booked), d.txs[u])
      && PaysSafely(paid, Commit(u, false))
  {}

  /**
   * A payment leaves room if and only if no continuation, with later payments that leave room, ever oversells
   * an event.
   */
  lemma LateCommitExactly(d: Db, t: nat, b: nat, refunds: bool)
    requires Inv(d) && Pays(d, t, b)
    ensures StillRoom(d, t, b) <==> Sustainable(Next(d, Commit(t, refunds)))
  {
    var d' := Next(d, Commit(t, refunds));
    if StillRoom(d, t, b) {
      PayKeeps(d, t, b);
      SoundIsSustainable(d');
    } else if !SlotFits(d, b) {
      NoRoomOversells(d, t, b, refunds);
      assert AllSafe(d', []) && Play(d', []) == d';
    } else {
      var u :| u in d.txs && u != t && d.txs[u].stage.Passed?
          && !CheckHolds(SetStatus(d, b, Confirmed, Booked), d.txs[u]);
      SpoiledCheckOversells(d, t, b, refunds, u);
    }
  }

  /** Every state the interleaving passes through is sustainable. */
  ghost predicate AlwaysSustainable(d: Db, moves: seq<Move>)
    decreases |moves|
  {
    Sustainable(Play(d, moves)) && (moves == [] || AlwaysSustainable(d, moves[..|moves| - 1]))
  }

  /**
   * Over whole interleavings: every payment leaves room if and only if, at every point, nothing that may still
   * happen with payments that leave room oversells an event.
   */
  lemma {:induction false} AllSafeExactly(d: Db, moves: seq<Move>)
    requires Inv(d)
    ensures AllSafe(d, moves) <==> AlwaysSustainable(d, moves)
    decreases |moves|
  {
    if moves == [] {
      SoundIsSustainable(d);
    } else {
      var before, m := Play(d, moves[..|moves| - 1]), moves[|moves| - 1];
      AllSafeExactly(d, moves[..|moves| - 1]);
      if AllSafe(d, moves[..|moves| - 1]) {
        PlaySound(d, moves[..|moves| - 1]);
        LastMoveExactly(before, m);
      }
    }
  }

  lemma LastMoveExactly(d: Db, m: Move)
    requires Inv(d)
    ensures PaysSafely(d, m) <==> Sustainable(Next(d, m))
  {
    if PaysSafely(d, m) {
      MoveKeeps(d, m);
      SoundIsSustainable(Next(d, m));
    } else {
      LateCommitExactly(d, m.t, d.txs[m.t].job.booking, m.refunds);
    }
  }
}
