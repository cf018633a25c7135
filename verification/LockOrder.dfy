// The explicit row locks admit no deadlock while at most one sweep runs: every transaction asks for user, then
// booking, then service or seats in ascending id, and only the sweep carries booking locks on to its next
// candidate. Any number of sweeps is safe too when one order of the bookings fits all their candidate lists.

module LockOrder {
  import opened Entities
  import Tally
  import opened Interleaving

  function Level(l: Lock): nat {
    match l
    case UserRow(_) => 0
    case BookingRow(_) => 1
    case ServiceRow(_) => 2
    case SeatRow(q) => 3 + q
  }

  predicate Claimed(l: Lock) { l.ServiceRow? || l.SeatRow? }

  predicate Rising(ls: seq<Lock>) {
    forall j, k :: 0 <= j < k < |ls| ==> Level(ls[j]) < Level(ls[k])
  }

  predicate Owns(d: Db, t: nat, l: Lock) {
    l in d.locks && d.locks[l] == t
  }

  /** What a transaction holds against what it asks for next. */
  ghost predicate Ordered(d: Db, t: nat)
    requires t in d.txs
  {
    var tx := d.txs[t];
    && Rising(tx.todo)
    && (tx.stage.Locking? ==> tx.todo == [] || tx.todo == FirstLocks(tx.job))
    && (!tx.stage.Locking? ==> forall k :: 0 <= k < |tx.todo| ==> Claimed(tx.todo[k]))
    // a service or seat is only asked for above everything already held
    && (forall l, k :: Owns(d, t, l) && 0 <= k < |tx.todo| && Claimed(tx.todo[k]) ==> Level(l) < Level(tx.todo[k]))
    // a user or booking is only asked for with empty hands, except by the sweep
    && (tx.todo != [] && !Claimed(tx.todo[0]) && !tx.job.SweepJob? ==> forall l :: !Owns(d, t, l))
    // and before the claims only such rows are held
    && (tx.stage.Locking? ==> forall l :: Owns(d, t, l) ==> if tx.job.CreateJob? then l.UserRow? else l.BookingRow?)
  }

  predicate InTable(d: Db, job: Job) {
    match job
    case CreateJob(_, _, _, units, _, _) => Ascending(units)
    case WebhookJob(b) => b < |d.bookings|
    case CancelJob(b) => b < |d.bookings|
    case PayJob(b, _) => b < |d.bookings|
    case SweepJob(_, rest) => forall k :: 0 <= k < |rest| ==> rest[k] < |d.bookings|
  }

  /** Locks belong to running transactions, jobs are about existing bookings, and seat lists ascend. */
  ghost predicate Tidy(d: Db) {
    && (forall l :: l in d.locks ==> d.locks[l] in d.txs)
    && (forall t :: t in d.txs ==> InTable(d, d.txs[t].job))
    && (forall b :: 0 <= b < |d.bookings| ==> Ascending(d.bookings[b].units))
  }

  ghost predicate Disciplined(d: Db) {
    Tidy(d) && forall t :: t in d.txs ==> Ordered(d, t)
  }

  /** Nothing is running: the table before the first booking, or at any quiet moment. */
  ghost predicate Idle(d: Db) {
    Tidy(d) && d.locks == map[] && d.txs == map[]
  }

  lemma ClaimLocksRise(service: nat, units: seq<nat>)
    requires Ascending(units)
    ensures Rising(ClaimLocks(service, units))
    ensures forall k :: 0 <= k < |ClaimLocks(service, units)| ==> Claimed(ClaimLocks(service, units)[k])
  {}

  lemma FirstLocksPlain(job: Job)
    ensures |FirstLocks(job)| <= 1
    ensures forall k :: 0 <= k < |FirstLocks(job)| ==>
              if job.CreateJob? then FirstLocks(job)[k].UserRow? else FirstLocks(job)[k].BookingRow?
  {}

  // ---------------------------------------------------------------- the discipline is kept

  /** Holding less, or the same, keeps a transaction in order. */
  lemma KeptOrdered(d: Db, d': Db, u: nat)
    requires u in d.txs && Ordered(d, u)
    requires u in d'.txs && d'.txs[u] == d.txs[u]
    requires forall l :: Owns(d', u, l) ==> Owns(d, u, l)
    ensures Ordered(d', u)
  {}

  /** A transaction without locks at the start of its list. */
  lemma FreshOrdered(d: Db, t: nat)
    requires t in d.txs && d.txs[t].stage.Locking? && d.txs[t].todo == FirstLocks(d.txs[t].job)
    requires forall l :: !Owns(d, t, l)
    ensures Ordered(d, t)
  {
    FirstLocksPlain(d.txs[t].job);
  }

  lemma BeginOrdered(d: Db, t: nat, job: Job, u: nat)
    requires Tidy(d) && MayBegin(d, t, job) && (u in d.txs ==> Ordered(d, u))
    ensures u in Next(d, Begin(t, job)).txs ==> Ordered(Next(d, Begin(t, job)), u)
  {
    var d' := Next(d, Begin(t, job));
    if u == t {
      FreshOrdered(d', t);
    } else if u in d.txs {
      KeptOrdered(d, d', u);
    }
  }

  lemma AcquireOrdered(d: Db, t: nat, u: nat)
    requires u in d.txs ==> Ordered(d, u)
    ensures u in Next(d, Acquire(t)).txs ==> u in d.txs && Ordered(Next(d, Acquire(t)), u)
  {
    var d' := Next(d, Acquire(t));
    if u in d'.txs {
      if u != t {
        KeptOrdered(d, d', u);
      } else if d' != d {
        GrantedOrdered(d, t);
      }
    }
  }

  lemma GrantedOrdered(d: Db, t: nat)
    requires t in d.txs && Ordered(d, t) && Next(d, Acquire(t)) != d
    ensures t in Next(d, Acquire(t)).txs && Ordered(Next(d, Acquire(t)), t)
  {
    var d' := Next(d, Acquire(t));
    var l := d.txs[t].todo[0];
    FirstLocksPlain(d.txs[t].job);
    forall k | 0 <= k < |d'.txs[t].todo| ensures d'.txs[t].todo[k] == d.txs[t].todo[k + 1] {}
    forall m | Owns(d', t, m) ensures m == l || Owns(d, t, m) {}
  }

  lemma EndOrdered(d: Db, t: nat, u: nat)
    requires u in d.txs && u != t && Ordered(d, u)
    ensures Ordered(End(d, t), u)
  {
    KeptOrdered(d, End(d, t), u);
  }

  lemma CloseOrdered(d: Db, t: nat, u: nat)
    requires t in d.txs && u in d.txs && Ordered(d, u)
    ensures u in Close(d, t).txs ==> Ordered(Close(d, t), u)
  {
    if u != t {
      KeptOrdered(d, Close(d, t), u);
    } else if d.txs[t].job.SweepJob? && d.txs[t].job.rest != [] {
      FreshOrdered(Close(d, t), t);
    }
  }

  /** Row changes do not touch the order. */
  lemma RowsOrdered(d: Db, bookings: seq<Booking>, seats: map<nat, Seat>, u: nat)
    requires u in d.txs && Ordered(d, u)
    ensures Ordered(d.(bookings := bookings, seats := seats), u)
  {
    KeptOrdered(d, d.(bookings := bookings, seats := seats), u);
  }

  lemma SettleOrdered(d: Db, t: nat, b: nat, status: BookingStatus, item: ItemStatus, u: nat)
    requires t in d.txs && u in d.txs && Ordered(d, u) && b < |d.bookings|
    ensures u in Close(SetStatus(d, b, status, item), t).txs ==> Ordered(Close(SetStatus(d, b, status, item), t), u)
    ensures u != t ==> Ordered(End(SetStatus(d, b, status, item), t), u)
  {
    var d' := SetStatus(d, b, status, item);
    RowsOrdered(d, d'.bookings, d'.seats, u);
    CloseOrdered(d', t, u);
    if u != t {
      EndOrdered(d', t, u);
    }
  }

  /** Holding only user or booking rows, a transaction may ask for services or seats. */
  lemma ClaimingOrdered(d: Db, t: nat, service: nat, units: seq<nat>)
    requires t in d.txs && Ordered(d, t) && d.txs[t].stage.Locking? && Ascending(units)
    ensures var tx := Tx(d.txs[t].job, Claiming, ClaimLocks(service, units)); Ordered(d.(txs := d.txs[t := tx]), t)
  {
    ClaimLocksRise(service, units);
    var d' := d.(txs := d.txs[t := Tx(d.txs[t].job, Claiming, ClaimLocks(service, units))]);
    forall l | Owns(d', t, l) ensures l.BookingRow? || l.UserRow? {
      assert Owns(d, t, l);
    }
  }

  /** The sweep keeps its booking locks and asks for the next booking. */
  lemma SkipOrdered(d: Db, t: nat)
    requires t in d.txs && Ordered(d, t) && d.txs[t].stage.Locking? && d.txs[t].job.SweepJob? && d.txs[t].job.rest != []
    ensures Ordered(d.(txs := d.txs[t := NextCandidate(d.txs[t])]), t)
  {
    var d' := d.(txs := d.txs[t := NextCandidate(d.txs[t])]);
    FirstLocksPlain(d'.txs[t].job);
    forall l | Owns(d', t, l) ensures l.BookingRow? {
      assert Owns(d, t, l);
    }
  }

  lemma CreateReadOrdered(d: Db, t: nat, verdict: Verdict, u: nat)
    requires Tidy(d) && t in d.txs && d.txs[t].stage.Locking? && d.txs[t].todo == [] && d.txs[t].job.CreateJob?
    requires Ordered(d, t) && u in d.txs && Ordered(d, u)
    ensures u in DoRead(d, t, verdict).txs ==> Ordered(DoRead(d, t, verdict), u)
  {
    var job := d.txs[t].job;
    if Tally.Sum(Tally.Holds(job.user, job.readAt), d.bookings) >= MAX_PENDING_HOLDS_PER_USER {
      if u != t {
        EndOrdered(d, t, u);
      }
    } else if u != t {
      KeptOrdered(d, DoRead(d, t, verdict), u);
    } else {
      ClaimingOrdered(d, t, job.service, job.units);
    }
  }

  lemma WebhookReadOrdered(d: Db, t: nat, verdict: Verdict, u: nat)
    requires Tidy(d) && t in d.txs && d.txs[t].stage.Locking? && d.txs[t].todo == [] && d.txs[t].job.WebhookJob?
    requires Ordered(d, t) && u in d.txs && Ordered(d, u)
    ensures u in DoRead(d, t, verdict).txs ==> Ordered(DoRead(d, t, verdict), u)
  {
    var b := d.txs[t].job.booking;
    if b < |d.bookings| {
      if !d.bookings[b].status.Pending? {
        if u != t {
          EndOrdered(d, t, u);
        }
      } else if u != t {
        KeptOrdered(d, DoRead(d, t, verdict), u);
      } else {
        ClaimingOrdered(d, t, d.bookings[b].service, d.bookings[b].units);
      }
    }
  }

  lemma SweepReadOrdered(d: Db, t: nat, verdict: Verdict, u: nat)
    requires Tidy(d) && t in d.txs && d.txs[t].stage.Locking? && d.txs[t].todo == [] && d.txs[t].job.SweepJob?
    requires Ordered(d, t) && u in d.txs && Ordered(d, u)
    ensures u in DoRead(d, t, verdict).txs ==> Ordered(DoRead(d, t, verdict), u)
  {
    var tx := d.txs[t];
    if tx.job.rest != [] && tx.job.rest[0] < |d.bookings| {
      var b := tx.job.rest[0];
      var bk := d.bookings[b];
      if bk.status.Pending? && bk.createdAt <= tx.job.threshold && verdict.Free? {
        SettleOrdered(d, t, b, Cancelled, Available, u);
      } else if u != t {
        KeptOrdered(d, DoRead(d, t, verdict), u);
      } else if !bk.status.Pending? || bk.createdAt > tx.job.threshold || verdict.Skip? {
        SkipOrdered(d, t);
      } else {
        ClaimingOrdered(d, t, bk.service, bk.units);
      }
    }
  }

  lemma ReadOrdered(d: Db, t: nat, verdict: Verdict, u: nat)
    requires Tidy(d) && t in d.txs && d.txs[t].stage.Locking? && d.txs[t].todo == []
    requires Ordered(d, t) && u in d.txs && Ordered(d, u)
    ensures u in DoRead(d, t, verdict).txs ==> Ordered(DoRead(d, t, verdict), u)
  {
    if d.txs[t].job.CreateJob? {
      CreateReadOrdered(d, t, verdict, u);
    } else if d.txs[t].job.WebhookJob? {
      WebhookReadOrdered(d, t, verdict, u);
    } else if d.txs[t].job.SweepJob? {
      SweepReadOrdered(d, t, verdict, u);
    }
  }

  /** A transaction with nothing left to ask for is in order at any later stage. */
  lemma RestagedOrdered(d: Db, t: nat, stage: Stage, u: nat)
    requires t in d.txs && d.txs[t].todo == [] && !stage.Locking? && u in d.txs && Ordered(d, u)
    ensures Ordered(d.(txs := d.txs[t := d.txs[t].(stage := stage)]), u)
  {
    if u != t {
      KeptOrdered(d, d.(txs := d.txs[t := d.txs[t].(stage := stage)]), u);
    }
  }

  lemma CheckOrdered(d: Db, t: nat, u: nat)
    requires t in d.txs && d.txs[t].todo == [] && u in d.txs && Ordered(d, u)
    ensures u in DoCheck(d, t).txs ==> Ordered(DoCheck(d, t), u)
  {
    var d' := DoCheck(d, t);
    CheckRestages(d, t);
    if t !in d'.txs {
      if u != t {
        EndOrdered(d, t, u);
      }
    } else if d' != d {
      RestagedOrdered(d, t, d'.txs[t].stage, u);
    }
  }

  /** A check moves its transaction to a later stage, ends it, or is not enabled. */
  lemma CheckRestages(d: Db, t: nat)
    requires t in d.txs && d.txs[t].todo == []
    ensures var d' := DoCheck(d, t);
      if t in d'.txs
      then d' == d
           || (!d'.txs[t].stage.Locking? && d' == d.(txs := d.txs[t := d.txs[t].(stage := d'.txs[t].stage)]))
      else d' == End(d, t)
  {}

  lemma CommitOrdered(d: Db, t: nat, refunds: bool, u: nat)
    requires t in d.txs && d.txs[t].todo == [] && u in d.txs && Ordered(d, u)
    ensures u in DoCommit(d, t, refunds).txs ==> Ordered(DoCommit(d, t, refunds), u)
  {
    var tx := d.txs[t];
    if tx.job.CreateJob? {
      CreateCommitOrdered(d, t, refunds, u);
    } else if Target(tx.job).Some? && Target(tx.job).value < |d.bookings| {
      var b := Target(tx.job).value;
      if tx.stage.Lost? && !refunds {
        CloseOrdered(d, t, u);
      } else if tx.stage.Lost? || tx.job.CancelJob? {
        SettleOrdered(d, t, b, Cancelled, Available, u);
      }
      if !tx.stage.Lost? {
        SettleOrdered(d, t, b, Confirmed, Booked, u);
      }
    }
  }

  lemma CreateCommitOrdered(d: Db, t: nat, refunds: bool, u: nat)
    requires t in d.txs && d.txs[t].todo == [] && d.txs[t].job.CreateJob? && u in d.txs && Ordered(d, u)
    ensures u in DoCommit(d, t, refunds).txs ==> Ordered(DoCommit(d, t, refunds), u)
  {
    var tx := d.txs[t];
    if tx.stage.Passed? && u != t {
      var rows := d.(bookings := d.bookings + [NewRow(tx.job)], seats := Mark(d.seats, tx.job.units, Reserved));
      RowsOrdered(d, rows.bookings, rows.seats, u);
      EndOrdered(rows, t, u);
    }
  }

  /** The transaction a move belongs to. */
  function Mover(m: Move): Option<nat> {
    match m
    case Wait(_) => None
    case Begin(t, _) => Some(t)
    case Acquire(t) => Some(t)
    case Read(t, _) => Some(t)
    case Check(t) => Some(t)
    case Commit(t, _) => Some(t)
    case Quit(t) => Some(t)
  }

  lemma MoveOrdered(d: Db, m: Move, u: nat)
    requires Tidy(d) && u in Next(d, m).txs && (u in d.txs ==> Ordered(d, u))
    requires Mover(m).Some? && Mover(m).value in d.txs ==> Ordered(d, Mover(m).value)
    ensures Ordered(Next(d, m), u)
  {
    match m
    case Wait(later) => if later >= d.clock { KeptOrdered(d, d.(clock := later), u); }
    case Begin(t, job) => if MayBegin(d, t, job) { BeginOrdered(d, t, job, u); }
    case Acquire(t) => AcquireOrdered(d, t, u);
    case _ => NoNewTx(d, m); WorkOrdered(d, m, u);
  }

  lemma NoNewTx(d: Db, m: Move)
    requires !m.Begin? && !m.Acquire?
    ensures Next(d, m).txs.Keys <= d.txs.Keys
  {
    match m
    case Read(t, verdict) => ReadMakesNoTx(d, t, verdict);
    case Commit(t, refunds) => CommitMakesNoTx(d, t, refunds);
    case _ =>
  }

  lemma CloseMakesNoTx(d: Db, t: nat)
    requires t in d.txs
    ensures Close(d, t).txs.Keys <= d.txs.Keys && End(d, t).txs.Keys <= d.txs.Keys
  {}

  lemma ReadMakesNoTx(d: Db, t: nat, verdict: Verdict)
    ensures Next(d, Read(t, verdict)).txs.Keys <= d.txs.Keys
  {
    if t in d.txs && Target(d.txs[t].job).Some? && Target(d.txs[t].job).value < |d.bookings| {
      CloseMakesNoTx(d, t);
      CloseMakesNoTx(SetStatus(d, Target(d.txs[t].job).value, Cancelled, Available), t);
    }
  }

  lemma CommitMakesNoTx(d: Db, t: nat, refunds: bool)
    ensures Next(d, Commit(t, refunds)).txs.Keys <= d.txs.Keys
  {
    if t in d.txs && Target(d.txs[t].job).Some? && Target(d.txs[t].job).value < |d.bookings| {
      var b := Target(d.txs[t].job).value;
      CloseMakesNoTx(d, t);
      CloseMakesNoTx(SetStatus(d, b, Cancelled, Available), t);
      CloseMakesNoTx(SetStatus(d, b, Confirmed, Booked), t);
    }
  }

  lemma WorkOrdered(d: Db, m: Move, u: nat)
    requires Tidy(d) && u in Next(d, m).txs && u in d.txs && Ordered(d, u)
    requires m.Read? || m.Check? || m.Commit? || m.Quit?
    requires m.t in d.txs ==> Ordered(d, m.t)
    ensures Ordered(Next(d, m), u)
  {
    match m
    case Read(t, verdict) =>
      if t in d.txs && d.txs[t].stage.Locking? && d.txs[t].todo == [] { ReadOrdered(d, t, verdict, u); }
    case Check(t) => if t in d.txs && d.txs[t].todo == [] { CheckOrdered(d, t, u); }
    case Commit(t, refunds) => if t in d.txs && d.txs[t].todo == [] { CommitOrdered(d, t, refunds, u); }
    case Quit(t) => if t in d.txs { EndOrdered(d, t, u); }
  }

  // ---------------------------------------------------------------- bookkeeping of locks and jobs

  lemma CloseTidy(d: Db, t: nat)
    requires Tidy(d) && t in d.txs
    ensures Tidy(Close(d, t)) && Tidy(End(d, t))
  {}

  lemma StatusTidy(d: Db, b: nat, status: BookingStatus, item: ItemStatus)
    requires Tidy(d) && b < |d.bookings|
    ensures Tidy(SetStatus(d, b, status, item))
  {}

  lemma ReadTidy(d: Db, t: nat, verdict: Verdict)
    requires Tidy(d) && t in d.txs && d.txs[t].stage.Locking? && d.txs[t].todo == []
    ensures Tidy(DoRead(d, t, verdict))
  {
    var tx := d.txs[t];
    if Target(tx.job).Some? && Target(tx.job).value < |d.bookings| {
      var b := Target(tx.job).value;
      if tx.job.WebhookJob? && !d.bookings[b].status.Pending? {
        CloseTidy(d, t);
      } else if tx.job.SweepJob? && d.bookings[b].status.Pending? && d.bookings[b].createdAt <= tx.job.threshold
          && verdict.Free? {
        StatusTidy(d, b, Cancelled, Available);
        CloseTidy(SetStatus(d, b, Cancelled, Available), t);
      }
    }
  }

  lemma CommitTidy(d: Db, t: nat, refunds: bool)
    requires Tidy(d) && t in d.txs && d.txs[t].todo == []
    ensures Tidy(DoCommit(d, t, refunds))
  {
    var tx := d.txs[t];
    if tx.job.CreateJob? {
      var rows := d.(bookings := d.bookings + [NewRow(tx.job)], seats := Mark(d.seats, tx.job.units, Reserved));
      assert Tidy(rows);
      CloseTidy(rows, t);
    } else if Target(tx.job).Some? && Target(tx.job).value < |d.bookings| {
      var b := Target(tx.job).value;
      CloseTidy(d, t);
      StatusTidy(d, b, Confirmed, Booked);
      CloseTidy(SetStatus(d, b, Confirmed, Booked), t);
      StatusTidy(d, b, Cancelled, Available);
      CloseTidy(SetStatus(d, b, Cancelled, Available), t);
    }
  }

  lemma BeginTidy(d: Db, t: nat, job: Job)
    requires Tidy(d)
    ensures Tidy(Next(d, Begin(t, job)))
  {}

  lemma CheckTidy(d: Db, t: nat)
    requires Tidy(d) && t in d.txs && d.txs[t].todo == []
    ensures Tidy(DoCheck(d, t))
  {
    CloseTidy(d, t);
  }

  lemma MoveTidy(d: Db, m: Move)
    requires Tidy(d)
    ensures Tidy(Next(d, m))
  {
    match m
    case Read(t, verdict) =>
      if t in d.txs && d.txs[t].stage.Locking? && d.txs[t].todo == [] { ReadTidy(d, t, verdict); }
    case Check(t) => if t in d.txs && d.txs[t].todo == [] { CheckTidy(d, t); }
    case Begin(t, job) => BeginTidy(d, t, job);
    case Commit(t, refunds) => if t in d.txs && d.txs[t].todo == [] { CommitTidy(d, t, refunds); }
    case Quit(t) => if t in d.txs { CloseTidy(d, t); }
    case _ =>
  }

  lemma {:induction false} PlayDisciplined(d: Db, moves: seq<Move>)
    requires Idle(d)
    ensures Disciplined(Play(d, moves))
  {
    if moves != [] {
      var before, m := Play(d, moves[..|moves| - 1]), moves[|moves| - 1];
      PlayDisciplined(d, moves[..|moves| - 1]);
      MoveTidy(before, m);
      forall u | u in Next(before, m).txs ensures Ordered(Next(before, m), u) {
        MoveOrdered(before, m, u);
      }
    }
  }

  // ---------------------------------------------------------------- no deadlock

  /** `t` asks for a row that `u` has locked. */
  predicate WaitsFor(d: Db, t: nat, u: nat) {
    && t in d.txs && u in d.txs && t != u
    && d.txs[t].todo != []
    && Owns(d, u, d.txs[t].todo[0])
  }

  predicate Chain(d: Db, s: nat, t: nat, u: nat, v: nat) {
    WaitsFor(d, s, t) && WaitsFor(d, t, u) && WaitsFor(d, u, v)
  }

  /** An order of the bookings: each has a place. */
  type Places = nat -> nat

  function Id(b: nat): nat { b }

  /** More than the place of any of the first n bookings. */
  function Beyond(place: Places, n: nat): (r: nat)
    ensures forall b :: 0 <= b < n ==> place(b) < r
  {
    if n == 0 then 0
    else
      var r := Beyond(place, n - 1);
      if place(n - 1) < r then r else place(n - 1) + 1
  }

  /** Users below bookings in their order, below services, below seats in ascending id. */
  function Rank(d: Db, l: Lock, place: Places): nat {
    match l
    case UserRow(_) => 0
    case BookingRow(b) => 1 + place(b)
    case ServiceRow(_) => 1 + Beyond(place, |d.bookings|) + Level(l)
    case SeatRow(_) => 1 + Beyond(place, |d.bookings|) + Level(l)
  }

  function Wanted(d: Db, t: nat, place: Places): nat {
    if t in d.txs && d.txs[t].todo != [] then Rank(d, d.txs[t].todo[0], place) else 0
  }

  /** Along three waits in a row the requested rank rises. */
  ghost predicate RisingWaits(d: Db, place: Places) {
    forall s: nat, t: nat, u: nat, v: nat :: Chain(d, s, t, u, v) ==> Wanted(d, t, place) < Wanted(d, u, place)
  }

  /** At most one sweep is running. */
  ghost predicate OneSweep(d: Db) {
    forall t, u :: t in d.txs && u in d.txs && d.txs[t].job.SweepJob? && d.txs[u].job.SweepJob? ==> t == u
  }

  /** A transaction whose request is a service or seat has locked only rows of a lower rank. */
  lemma ClaimRises(d: Db, t: nat, u: nat, place: Places)
    requires Disciplined(d) && WaitsFor(d, t, u) && d.txs[u].todo != [] && Claimed(d.txs[u].todo[0])
    ensures Wanted(d, t, place) < Wanted(d, u, place)
  {
    assert Ordered(d, u) && Ordered(d, t);
    assert InTable(d, d.txs[t].job);
    FirstLocksPlain(d.txs[t].job);
  }

  /** Only the sweep asks for a booking with full hands, and what it then holds are bookings. */
  lemma FullHandsSweep(d: Db, t: nat, u: nat)
    requires Disciplined(d) && WaitsFor(d, t, u) && d.txs[u].todo != [] && !Claimed(d.txs[u].todo[0])
    ensures d.txs[u].job.SweepJob? && d.txs[u].stage.Locking? && d.txs[u].todo == FirstLocks(d.txs[u].job)
    ensures d.txs[t].todo[0].BookingRow? && d.txs[u].todo[0].BookingRow?
  {
    assert Ordered(d, u);
    FirstLocksPlain(d.txs[u].job);
  }

  lemma OneSweepRises(d: Db, s: nat, t: nat, u: nat, v: nat)
    requires Disciplined(d) && OneSweep(d) && Chain(d, s, t, u, v)
    ensures Wanted(d, t, Id) < Wanted(d, u, Id)
  {
    if Claimed(d.txs[u].todo[0]) {
      ClaimRises(d, t, u, Id);
    } else {
      FullHandsSweep(d, t, u);
      FullHandsSweep(d, s, t);
      assert false;
    }
  }

  /** The order fits the list. */
  predicate Increasing(ids: seq<nat>, place: Places) {
    forall j, k :: 0 <= j < k < |ids| ==> place(ids[j]) < place(ids[k])
  }

  /** A sweep has locked only bookings before the candidate it asks for. */
  ghost predicate FitsOrder(d: Db, t: nat, place: Places)
    requires t in d.txs
  {
    var tx := d.txs[t];
    tx.job.SweepJob? ==>
      && Increasing(tx.job.rest, place)
      && forall b :: Owns(d, t, BookingRow(b)) && tx.job.rest != [] ==>
           && place(b) <= place(tx.job.rest[0])
           && (tx.stage.Locking? && tx.todo != [] ==> place(b) < place(tx.job.rest[0]))
  }

  ghost predicate AllFit(d: Db, place: Places) {
    forall t :: t in d.txs ==> FitsOrder(d, t, place)
  }

  lemma FittingRises(d: Db, t: nat, u: nat, place: Places)
    requires Disciplined(d) && AllFit(d, place) && WaitsFor(d, t, u) && d.txs[u].todo != []
    ensures Wanted(d, t, place) < Wanted(d, u, place)
  {
    if Claimed(d.txs[u].todo[0]) {
      ClaimRises(d, t, u, place);
    } else {
      FullHandsSweep(d, t, u);
      assert FitsOrder(d, u, place);
    }
  }

  /** The element after index k, going around. */
  function Following(ts: seq<nat>, k: nat): nat
    requires k < |ts|
  {
    if k + 1 == |ts| then ts[0] else ts[k + 1]
  }

  /** A circular wait: each transaction waits for the following one, the last for the first. */
  predicate Cycle(d: Db, ts: seq<nat>) {
    ts != [] && forall k :: 0 <= k < |ts| ==> WaitsFor(d, ts[k], Following(ts, k))
  }

  lemma CycleRises(d: Db, ts: seq<nat>, k: nat, place: Places)
    requires RisingWaits(d, place) && Cycle(d, ts) && k < |ts|
    ensures Wanted(d, ts[k], place) < Wanted(d, Following(ts, k), place)
  {
    var before := if k == 0 then |ts| - 1 else k - 1;
    var next := if k + 1 == |ts| then 0 else k + 1;
    assert Following(ts, before) == ts[k] && Following(ts, k) == ts[next];
    assert WaitsFor(d, ts[before], Following(ts, before)) && WaitsFor(d, ts[k], Following(ts, k))
        && WaitsFor(d, ts[next], Following(ts, next));
    assert Chain(d, ts[before], ts[k], ts[next], Following(ts, next));
  }

  lemma {:induction false} RisesFromStart(d: Db, ts: seq<nat>, k: nat, place: Places)
    requires k < |ts|
    requires forall j :: 0 <= j < |ts| ==> Wanted(d, ts[j], place) < Wanted(d, Following(ts, j), place)
    ensures Wanted(d, ts[0], place) + k <= Wanted(d, ts[k], place)
  {
    if k > 0 {
      assert Following(ts, k - 1) == ts[k];
      assert Wanted(d, ts[k - 1], place) < Wanted(d, ts[k], place);
      RisesFromStart(d, ts, k - 1, place);
    }
  }

  lemma NoCycle(d: Db, ts: seq<nat>, place: Places)
    requires RisingWaits(d, place)
    ensures !Cycle(d, ts)
  {
    if Cycle(d, ts) {
      forall k | 0 <= k < |ts| ensures Wanted(d, ts[k], place) < Wanted(d, Following(ts, k), place) {
        CycleRises(d, ts, k, place);
      }
      RisesFromStart(d, ts, |ts| - 1, place);
      assert false;
    }
  }

  lemma OneSweepRisingWaits(d: Db, moves: seq<Move>)
    requires Idle(d) && OneSweep(Play(d, moves))
    ensures RisingWaits(Play(d, moves), Id) && Tidy(Play(d, moves))
  {
    PlayDisciplined(d, moves);
    var f := Play(d, moves);
    forall s: nat, t: nat, u: nat, v: nat | Chain(f, s, t, u, v) ensures Wanted(f, t, Id) < Wanted(f, u, Id) {
      OneSweepRises(f, s, t, u, v);
    }
  }

  /** In every reachable state with at most one sweep the wait-for graph has no cycle. */
  lemma DeadlockFree(d: Db, moves: seq<Move>, ts: seq<nat>)
    requires Idle(d) && OneSweep(Play(d, moves))
    ensures !Cycle(Play(d, moves), ts)
  {
    OneSweepRisingWaits(d, moves);
    NoCycle(Play(d, moves), ts, Id);
  }

  // ---------------------------------------------------------------- sweeps that fit one order

  /** One order of the bookings fits every sweep's list. */
  ghost predicate SweepsFit(moves: seq<Move>, place: Places) {
    forall k :: 0 <= k < |moves| && moves[k].Begin? && moves[k].job.SweepJob? ==> Increasing(moves[k].job.rest, place)
  }

  /** Holding no more, with the same job and stage, keeps a sweep ascending. */
  lemma KeptFits(d: Db, d': Db, u: nat, place: Places)
    requires u in d.txs && FitsOrder(d, u, place)
    requires u in d'.txs && d'.txs[u] == d.txs[u]
    requires forall l :: Owns(d', u, l) ==> Owns(d, u, l)
    ensures FitsOrder(d', u, place)
  {}

  /** Another transaction neither gains a lock nor changes. */
  predicate LeftAlone(d: Db, d': Db, u: nat) {
    && (u in d'.txs ==> u in d.txs && d'.txs[u] == d.txs[u])
    && forall l :: l in d'.locks && d'.locks[l] == u ==> l in d.locks && d.locks[l] == u
  }

  lemma CloseLeavesAlone(d: Db, t: nat, u: nat)
    requires t in d.txs && u != t
    ensures LeftAlone(d, Close(d, t), u) && LeftAlone(d, End(d, t), u)
  {}

  lemma ReadLeavesAlone(d: Db, t: nat, verdict: Verdict, u: nat)
    requires t in d.txs && u != t && d.txs[t].stage.Locking? && d.txs[t].todo == []
    ensures LeftAlone(d, DoRead(d, t, verdict), u)
  {
    CloseLeavesAlone(d, t, u);
    if Target(d.txs[t].job).Some? && Target(d.txs[t].job).value < |d.bookings| {
      CloseLeavesAlone(SetStatus(d, Target(d.txs[t].job).value, Cancelled, Available), t, u);
    }
  }

  lemma CommitLeavesAlone(d: Db, t: nat, refunds: bool, u: nat)
    requires t in d.txs && u != t && d.txs[t].todo == []
    ensures LeftAlone(d, DoCommit(d, t, refunds), u)
  {
    CloseLeavesAlone(d, t, u);
    if Target(d.txs[t].job).Some? && Target(d.txs[t].job).value < |d.bookings| {
      CloseLeavesAlone(SetStatus(d, Target(d.txs[t].job).value, Cancelled, Available), t, u);
      CloseLeavesAlone(SetStatus(d, Target(d.txs[t].job).value, Confirmed, Booked), t, u);
    }
  }

  lemma CheckLeavesAlone(d: Db, t: nat, u: nat)
    requires t in d.txs && u != t && d.txs[t].todo == []
    ensures LeftAlone(d, DoCheck(d, t), u)
  {
    CheckRestages(d, t);
    CloseLeavesAlone(d, t, u);
  }

  lemma OthersKeep(d: Db, m: Move, u: nat)
    requires Mover(m) != Some(u)
    ensures LeftAlone(d, Next(d, m), u)
  {
    match m
    case Read(t, verdict) =>
      if t in d.txs && d.txs[t].stage.Locking? && d.txs[t].todo == [] { ReadLeavesAlone(d, t, verdict, u); }
    case Check(t) => if t in d.txs && d.txs[t].todo == [] { CheckLeavesAlone(d, t, u); }
    case Commit(t, refunds) => if t in d.txs && d.txs[t].todo == [] { CommitLeavesAlone(d, t, refunds, u); }
    case Quit(t) => if t in d.txs { CloseLeavesAlone(d, t, u); }
    case _ =>
  }

  lemma AcquireFits(d: Db, t: nat, place: Places)
    requires Disciplined(d) && t in d.txs && FitsOrder(d, t, place)
    ensures t in Next(d, Acquire(t)).txs && FitsOrder(Next(d, Acquire(t)), t, place)
  {
    var d' := Next(d, Acquire(t));
    if d' != d && d.txs[t].job.SweepJob? {
      assert Ordered(d, t);
      FirstLocksPlain(d.txs[t].job);
      forall b | Owns(d', t, BookingRow(b)) ensures BookingRow(b) == d.txs[t].todo[0] || Owns(d, t, BookingRow(b)) {}
    }
  }

  lemma SkipFits(d: Db, t: nat, place: Places)
    requires t in d.txs && FitsOrder(d, t, place) && d.txs[t].job.SweepJob? && d.txs[t].job.rest != []
    ensures FitsOrder(d.(txs := d.txs[t := NextCandidate(d.txs[t])]), t, place)
  {
    var d' := d.(txs := d.txs[t := NextCandidate(d.txs[t])]);
    forall b | Owns(d', t, BookingRow(b)) ensures Owns(d, t, BookingRow(b)) {}
  }

  /** A new list for a sweep that has let everything go. */
  lemma CloseFits(d: Db, t: nat, place: Places)
    requires t in d.txs && (d.txs[t].job.SweepJob? ==> Increasing(d.txs[t].job.rest, place))
    ensures t in Close(d, t).txs ==> FitsOrder(Close(d, t), t, place)
  {
    assert forall l :: !Owns(Close(d, t), t, l);
  }

  lemma ReadFits(d: Db, t: nat, verdict: Verdict, place: Places)
    requires t in d.txs && FitsOrder(d, t, place) && d.txs[t].stage.Locking? && d.txs[t].todo == []
    ensures t in DoRead(d, t, verdict).txs ==> FitsOrder(DoRead(d, t, verdict), t, place)
  {
    var tx := d.txs[t];
    if tx.job.SweepJob? && tx.job.rest != [] && tx.job.rest[0] < |d.bookings| {
      var b := tx.job.rest[0];
      var bk := d.bookings[b];
      if bk.status.Pending? && bk.createdAt <= tx.job.threshold && verdict.Free? {
        CloseFits(SetStatus(d, b, Cancelled, Available), t, place);
      } else if !bk.status.Pending? || bk.createdAt > tx.job.threshold || verdict.Skip? {
        SkipFits(d, t, place);
      } else {
        var d' := DoRead(d, t, verdict);
        forall c | Owns(d', t, BookingRow(c)) ensures Owns(d, t, BookingRow(c)) {}
      }
    }
  }

  lemma CommitFits(d: Db, t: nat, refunds: bool, place: Places)
    requires t in d.txs && d.txs[t].todo == [] && FitsOrder(d, t, place)
    ensures t in DoCommit(d, t, refunds).txs ==> FitsOrder(DoCommit(d, t, refunds), t, place)
  {
    var tx := d.txs[t];
    if tx.job.SweepJob? && tx.job.rest != [] && tx.job.rest[0] < |d.bookings| {
      var b := tx.job.rest[0];
      CloseFits(d, t, place);
      CloseFits(SetStatus(d, b, Cancelled, Available), t, place);
      CloseFits(SetStatus(d, b, Confirmed, Booked), t, place);
    }
  }

  lemma CheckFits(d: Db, t: nat, place: Places)
    requires t in d.txs && d.txs[t].todo == [] && FitsOrder(d, t, place)
    ensures t in DoCheck(d, t).txs ==> FitsOrder(DoCheck(d, t), t, place)
  {
    CheckRestages(d, t);
    var d' := DoCheck(d, t);
    if t in d'.txs {
      forall l | Owns(d', t, l) ensures Owns(d, t, l) {}
    }
  }

  lemma MoveFits(d: Db, m: Move, u: nat, place: Places)
    requires Disciplined(d) && AllFit(d, place) && u in Next(d, m).txs
    requires m.Begin? && m.job.SweepJob? ==> Increasing(m.job.rest, place)
    ensures FitsOrder(Next(d, m), u, place)
  {
    if Mover(m) != Some(u) {
      OthersKeep(d, m, u);
      KeptFits(d, Next(d, m), u, place);
    } else if u !in d.txs {
      assert forall l :: !Owns(Next(d, m), u, l);
    } else {
      MoverFits(d, m, u, place);
    }
  }

  lemma MoverFits(d: Db, m: Move, u: nat, place: Places)
    requires Disciplined(d) && Mover(m) == Some(u) && u in d.txs && FitsOrder(d, u, place) && u in Next(d, m).txs
    ensures FitsOrder(Next(d, m), u, place)
  {
    match m
    case Acquire(t) => AcquireFits(d, t, place);
    case Read(t, verdict) => if d.txs[t].stage.Locking? && d.txs[t].todo == [] { ReadFits(d, t, verdict, place); }
    case Check(t) => if d.txs[t].todo == [] { CheckFits(d, t, place); }
    case Commit(t, refunds) => if d.txs[t].todo == [] { CommitFits(d, t, refunds, place); }
    case _ =>
  }

  lemma {:induction false} PlayFits(d: Db, moves: seq<Move>, place: Places)
    requires Idle(d) && SweepsFit(moves, place)
    ensures AllFit(Play(d, moves), place)
  {
    if moves != [] {
      var last := |moves| - 1;
      assert SweepsFit(moves[..last], place);
      PlayFits(d, moves[..last], place);
      PlayDisciplined(d, moves[..last]);
      forall u | u in Play(d, moves).txs ensures FitsOrder(Play(d, moves), u, place) {
        MoveFits(Play(d, moves[..last]), moves[last], u, place);
      }
    }
  }

  lemma FittingRisingWaits(d: Db, moves: seq<Move>, place: Places)
    requires Idle(d) && SweepsFit(moves, place)
    ensures RisingWaits(Play(d, moves), place) && Tidy(Play(d, moves))
  {
    PlayDisciplined(d, moves);
    PlayFits(d, moves, place);
    var f := Play(d, moves);
    forall s: nat, t: nat, u: nat, v: nat | Chain(f, s, t, u, v) ensures Wanted(f, t, place) < Wanted(f, u, place) {
      FittingRises(f, t, u, place);
    }
  }

  /** Any number of sweeps is deadlock-free when one order of the bookings fits all their lists, such as by id. */
  lemma FittingSweepsDeadlockFree(d: Db, moves: seq<Move>, ts: seq<nat>, place: Places)
    requires Idle(d) && SweepsFit(moves, place)
    ensures !Cycle(Play(d, moves), ts)
  {
    FittingRisingWaits(d, moves, place);
    NoCycle(Play(d, moves), ts, place);
  }

  // ---------------------------------------------------------------- somebody can always go on

  predicate Blocked(d: Db, t: nat) {
    && t in d.txs && d.txs[t].todo != []
    && d.txs[t].todo[0] in d.locks && d.locks[d.txs[t].todo[0]] != t
  }

  lemma {:induction false} Highest(d: Db, ts: set<nat>, place: Places) returns (top: nat)
    requires ts != {}
    ensures top in ts && forall t :: t in ts ==> Wanted(d, t, place) <= Wanted(d, top, place)
    decreases |ts|
  {
    top :| top in ts;
    if ts != {top} {
      var other := Highest(d, ts - {top}, place);
      if Wanted(d, other, place) > Wanted(d, top, place) {
        top := other;
      }
    }
  }

  ghost predicate AllBlocked(d: Db) {
    forall t :: t in d.txs ==> Blocked(d, t)
  }

  lemma Holder(d: Db, t: nat) returns (u: nat)
    requires Tidy(d) && AllBlocked(d) && t in d.txs
    ensures WaitsFor(d, t, u)
  {
    u := d.locks[d.txs[t].todo[0]];
    assert Blocked(d, t);
  }

  /** If all were blocked, following the waits would reach requests of any rank. */
  lemma {:induction false} Climb(d: Db, s: nat, n: nat, place: Places) returns (x: nat, y: nat)
    requires Tidy(d) && AllBlocked(d) && RisingWaits(d, place) && s in d.txs
    ensures WaitsFor(d, x, y) && Wanted(d, y, place) >= n
  {
    if n == 0 {
      x := s;
      y := Holder(d, s);
    } else {
      var t;
      t, x := Climb(d, s, n - 1, place);
      y := Holder(d, x);
      var v := Holder(d, y);
      assert Chain(d, t, x, y, v);
    }
  }

  lemma NotAllBlocked(d: Db, s: nat, place: Places)
    requires Tidy(d) && RisingWaits(d, place) && s in d.txs
    ensures !AllBlocked(d)
  {
    if AllBlocked(d) {
      var top := Highest(d, d.txs.Keys, place);
      var x, y := Climb(d, s, Wanted(d, top, place) + 1, place);
    }
  }

  /** Not every running transaction is blocked: some lock request can be granted, or some work done. */
  lemma SomeoneCanMove(d: Db, moves: seq<Move>, s: nat, place: Places)
    requires Idle(d) && s in Play(d, moves).txs
    requires OneSweep(Play(d, moves)) || SweepsFit(moves, place)
    ensures exists t :: t in Play(d, moves).txs && !Blocked(Play(d, moves), t)
  {
    if OneSweep(Play(d, moves)) {
      OneSweepRisingWaits(d, moves);
      NotAllBlocked(Play(d, moves), s, Id);
    } else {
      FittingRisingWaits(d, moves, place);
      NotAllBlocked(Play(d, moves), s, place);
    }
  }
}
