// Transactions split at their row locks. Any number of create_booking, webhook, cancel, pay and sweep
// transactions interleave, one lock request, read, check or commit per move.
// Services and their capacities are fixed here; only booking and seat rows change.

module Interleaving {
  import opened Entities
  import opened Tally
  import opened Payments

  datatype Lock = UserRow(user: nat) | BookingRow(booking: nat) | ServiceRow(service: nat) | SeatRow(seat: nat)

  /**
   * `readAt` is the clock the handler read before its first query; `startedAt`, the start of its transaction,
   * is what the database writes as created_at.
   */
  datatype Job =
    | CreateJob(user: nat, service: nat, quantity: nat, units: seq<nat>, readAt: Time, startedAt: Time)
    | WebhookJob(booking: nat)
    | CancelJob(booking: nat)
    | PayJob(booking: nat, readAt: Time)
    | SweepJob(threshold: Time, rest: seq<nat>)

  /** Locking the first rows, locking the claimed rows, and the verdict of the check under those locks. */
  datatype Stage = Locking | Claiming | Passed | Lost

  datatype Tx = Tx(job: Job, stage: Stage, todo: seq<Lock>)

  datatype Db = Db(
    services: map<nat, Service>,
    seats: map<nat, Seat>,
    bookings: seq<Booking>,
    clock: Time,
    locks: map<Lock, nat>,  // row lock to the transaction that holds it
    txs: map<nat, Tx>)

  // ---------------------------------------------------------------- lock requests

  /** The rows a hold or a late confirmation locks: its service, or its seats in ascending id. */
  function ClaimLocks(service: nat, units: seq<nat>): seq<Lock> {
    if units == [] then [ServiceRow(service)] else seq(|units|, k requires 0 <= k < |units| => SeatRow(units[k]))
  }

  predicate Ascending(xs: seq<nat>) {
    forall j, k :: 0 <= j < k < |xs| ==> xs[j] < xs[k]
  }

  /** First lock requests of a transaction. */
  function FirstLocks(job: Job): seq<Lock> {
    match job
    case CreateJob(user, _, _, _, _, _) => [UserRow(user)]
    case WebhookJob(b) => [BookingRow(b)]
    case CancelJob(b) => [BookingRow(b)]
    case PayJob(b, _) => [BookingRow(b)]
    case SweepJob(_, rest) => if rest == [] then [] else [BookingRow(rest[0])]
  }

  /** The booking a transaction works on. */
  function Target(job: Job): Option<nat> {
    match job
    case CreateJob(_, _, _, _, _, _) => None
    case WebhookJob(b) => Some(b)
    case CancelJob(b) => Some(b)
    case PayJob(b, _) => Some(b)
    case SweepJob(_, rest) => if rest == [] then None else Some(rest[0])
  }

  // ---------------------------------------------------------------- moves

  /** What the sweeper's Stripe calls decide about the candidate it holds. */
  datatype Verdict = Skip | Free | Claim

  datatype Move =
    | Wait(later: Time)
    | Begin(t: nat, job: Job)
    | Acquire(t: nat)
    | Read(t: nat, verdict: Verdict)
    | Check(t: nat)
    | Commit(t: nat, refunds: bool)
    | Quit(t: nat)  // an early answer, a failed call or a rollback

  predicate MayBegin(d: Db, t: nat, job: Job) {
    t !in d.txs &&
    match job
    case CreateJob(_, service, quantity, units, readAt, startedAt) =>
      && readAt <= startedAt == d.clock && quantity >= 1 && Ascending(units)
      && service in d.services
      && (d.services[service].mode.UnitAssigned? <==> units != [])
      && (units != [] ==> quantity == |units|)
      && (forall k :: 0 <= k < |units| ==> units[k] in d.seats)
    case WebhookJob(b) => b < |d.bookings|
    case CancelJob(b) => b < |d.bookings|
    case PayJob(b, readAt) => b < |d.bookings| && readAt <= d.clock
    case SweepJob(threshold, rest) =>
      && threshold <= d.clock - HOLD
      && (forall k :: 0 <= k < |rest| ==> rest[k] < |d.bookings|)
  }

  function Unlocked(locks: map<Lock, nat>, t: nat): map<Lock, nat> {
    map l | l in locks && locks[l] != t :: locks[l]
  }

  /** The transaction ends and drops its locks. */
  function End(d: Db, t: nat): Db {
    d.(locks := Unlocked(d.locks, t), txs := d.txs - {t})
  }

  /** The sweeper moves on; after a commit or rollback it starts a new transaction without locks. */
  function NextCandidate(tx: Tx): Tx
    requires tx.job.SweepJob? && tx.job.rest != []
  {
    var job := tx.job.(rest := tx.job.rest[1..]);
    Tx(job, Locking, FirstLocks(job))
  }

  /** End of the transaction that a commit closes: the sweep goes on with its next candidate. */
  function Close(d: Db, t: nat): Db
    requires t in d.txs
  {
    var tx := d.txs[t];
    if tx.job.SweepJob? && tx.job.rest != [] then
      d.(locks := Unlocked(d.locks, t), txs := d.txs[t := NextCandidate(tx)])
    else End(d, t)
  }

  function SetStatus(d: Db, b: nat, status: BookingStatus, item: ItemStatus): Db
    requires b < |d.bookings|
  {
    d.(bookings := d.bookings[b := d.bookings[b].(status := status)],
       seats := Mark(d.seats, d.bookings[b].units, item))
  }

  predicate SlotFits(d: Db, b: nat)
    requires b < |d.bookings|
  {
    var bk := d.bookings[b];
    && bk.service in d.services && d.services[bk.service].maxCapacity.Some?
    && Sum(Claims(bk.service, d.clock, Some(b)), d.bookings) <= d.services[bk.service].maxCapacity.value
  }

  predicate SeatsReserved(d: Db, units: seq<nat>) {
    forall k :: 0 <= k < |units| ==> units[k] in d.seats && d.seats[units[k]].status.Reserved?
  }

  predicate SeatsFree(d: Db, units: seq<nat>) {
    forall k :: 0 <= k < |units| ==> units[k] in d.seats && d.seats[units[k]].status.Available?
  }

  predicate HoldFits(d: Db, job: Job)
    requires job.CreateJob?
  {
    if job.units != [] then SeatsFree(d, job.units)
    else
      && job.service in d.services && d.services[job.service].maxCapacity.Some?
      && Sum(Claims(job.service, job.readAt, None), d.bookings) + job.quantity
          <= d.services[job.service].maxCapacity.value
  }

  function NewRow(job: Job): Booking
    requires job.CreateJob?
  {
    Booking(job.user, job.service, None, job.quantity, 0, Pending, job.startedAt, job.units, None, [])
  }

  function DoRead(d: Db, t: nat, verdict: Verdict): Db
    requires t in d.txs && d.txs[t].stage.Locking? && d.txs[t].todo == []
  {
    var tx := d.txs[t];
    match Target(tx.job)
    case None =>
      // the hold limit, counted under the user's row lock
      if !tx.job.CreateJob? then d
      else if Sum(Holds(tx.job.user, tx.job.readAt), d.bookings) >= MAX_PENDING_HOLDS_PER_USER then End(d, t)
      else d.(txs := d.txs[t := Tx(tx.job, Claiming, ClaimLocks(tx.job.service, tx.job.units))])
    case Some(b) =>
      if b >= |d.bookings| then d
      else
        var bk := d.bookings[b];
        var claiming := d.(txs := d.txs[t := Tx(tx.job, Claiming, ClaimLocks(bk.service, bk.units))]);
        if tx.job.WebhookJob? then
          if bk.status.Pending? then claiming else End(d, t)
        else if tx.job.SweepJob? then
          if !bk.status.Pending? || bk.createdAt > tx.job.threshold || verdict.Skip? then
            // `continue`: the booking lock stays with the sweep's transaction
            d.(txs := d.txs[t := NextCandidate(tx)])
          else if verdict.Free? then Close(SetStatus(d, b, Cancelled, Available), t)
          else claiming
        else d
  }

  function DoCheck(d: Db, t: nat): Db
    requires t in d.txs && d.txs[t].todo == []
  {
    var tx := d.txs[t];
    if !tx.stage.Claiming? then d
    else if tx.job.CreateJob? then
      if HoldFits(d, tx.job) then d.(txs := d.txs[t := tx.(stage := Passed)]) else End(d, t)
    else
      match Target(tx.job)
      case None => d
      case Some(b) =>
        if b >= |d.bookings| then d
        else
          var fits := if d.bookings[b].units != [] then SeatsReserved(d, d.bookings[b].units) else SlotFits(d, b);
          d.(txs := d.txs[t := tx.(stage := if fits then Passed else Lost)])
  }

  function DoCommit(d: Db, t: nat, refunds: bool): Db
    requires t in d.txs && d.txs[t].todo == []
  {
    var tx := d.txs[t];
    if tx.job.CreateJob? then
      if tx.stage.Passed? then
        End(d.(bookings := d.bookings + [NewRow(tx.job)], seats := Mark(d.seats, tx.job.units, Reserved)), t)
      else d
    else
      match Target(tx.job)
      case None => d
      case Some(b) =>
        if b >= |d.bookings| then d
        else
          match tx.stage
          case Passed => Close(SetStatus(d, b, Confirmed, Booked), t)
          case Lost => if refunds then Close(SetStatus(d, b, Cancelled, Available), t) else Close(d, t)
          case Claiming => d
          case Locking =>
            if tx.job.CancelJob? && d.bookings[b].Live() then End(SetStatus(d, b, Cancelled, Available), t)
            else if tx.job.PayJob? && Payable(d.bookings[b], tx.job.readAt)
                    then End(SetStatus(d, b, Confirmed, Booked), t)
            else d
  }

  /** One move; a move that is not enabled changes nothing. */
  function Next(d: Db, m: Move): Db {
    match m
    case Wait(later) => if later >= d.clock then d.(clock := later) else d
    case Begin(t, job) =>
      if MayBegin(d, t, job) then d.(txs := d.txs[t := Tx(job, Locking, FirstLocks(job))]) else d
    case Acquire(t) =>
      if t in d.txs && d.txs[t].todo != [] && (d.txs[t].todo[0] !in d.locks || d.locks[d.txs[t].todo[0]] == t) then
        d.(locks := d.locks[d.txs[t].todo[0] := t], txs := d.txs[t := d.txs[t].(todo := d.txs[t].todo[1..])])
      else d
    case Read(t, verdict) =>
      if t in d.txs && d.txs[t].stage.Locking? && d.txs[t].todo == [] then DoRead(d, t, verdict) else d
    case Check(t) => if t in d.txs && d.txs[t].todo == [] then DoCheck(d, t) else d
    case Commit(t, refunds) =>
      if t in d.txs && d.txs[t].todo == [] then DoCommit(d, t, refunds) else d
    case Quit(t) => if t in d.txs then End(d, t) else d
  }

  /** A catalogue before the first booking. */
  predicate Opening(d: Db) {
    && d.bookings == [] && d.locks == map[] && d.txs == map[]
    && (forall q :: q in d.seats ==> d.seats[q].status.Available?)
    && (forall id :: id in d.services && d.services[id].mode.SlotCapacity? ==>
          d.services[id].maxCapacity.Some? && d.services[id].maxCapacity.value >= 1)
  }

  function Play(d: Db, moves: seq<Move>): Db {
    if moves == [] then d else Next(Play(d, moves[..|moves| - 1]), moves[|moves| - 1])
  }
}
