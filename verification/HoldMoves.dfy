// The moves by which one customer takes one ticket of event 0 while nobody is in the way: begin, lock the
// user, count the holds, lock the event, check, commit. The concrete interleavings are built from them.

module HoldMoves {
  import opened Entities
  import opened Tally
  import opened Payments
  import opened Interleaving

  lemma Then(d: Db, moves: seq<Move>, n: nat, s: Db)
    requires n < |moves| && Play(d, moves[..n]) == s
    ensures Play(d, moves[..n + 1]) == Next(s, moves[n])
  {
    assert moves[..n + 1][..n] == moves[..n];
  }

  lemma {:induction false} PlayAppend(d: Db, before: seq<Move>, after: seq<Move>)
    ensures Play(d, before + after) == Play(Play(d, before), after)
    decreases |after|
  {
    if after == [] {
      assert before + after == before;
    } else {
      var last := |after| - 1;
      PlayAppend(d, before, after[..last]);
      assert (before + after)[..|before + after| - 1] == before + after[..last];
    }
  }

  function Hold(user: nat, at: Time): Job { CreateJob(user, 0, 1, [], at, at) }

  function Checking(t: nat, user: nat, at: Time): seq<Move> {
    [Begin(t, Hold(user, at)), Acquire(t), Read(t, Skip), Acquire(t), Check(t)]
  }

  function Taking(t: nat, user: nat, at: Time): seq<Move> {
    Checking(t, user, at) + [Commit(t, false)]
  }

  function Ticket(user: nat, status: BookingStatus, createdAt: Time): Booking {
    Booking(user, 0, None, 1, 0, status, createdAt, [], None, [])
  }

  /** The transaction holds the user's and the event's row and has nothing left to ask for. */
  function Locked(d: Db, t: nat, user: nat, stage: Stage): Db {
    d.(locks := d.locks[UserRow(user) := t][ServiceRow(0) := t], txs := d.txs[t := Tx(Hold(user, d.clock), stage, [])])
  }

  /** Nobody is in the way of transaction `t` of this user. */
  predicate Clear(d: Db, t: nat, user: nat) {
    && t !in d.txs && (forall l :: l in d.locks ==> d.locks[l] != t)
    && UserRow(user) !in d.locks && ServiceRow(0) !in d.locks
    && 0 in d.services && d.services[0].mode.SlotCapacity?
    && Sum(Holds(user, d.clock), d.bookings) < MAX_PENDING_HOLDS_PER_USER
    && HoldFits(d, Hold(user, d.clock))
  }

  lemma AcquireStep(d: Db, t: nat, job: Job, stage: Stage, l: Lock)
    requires t in d.txs && d.txs[t] == Tx(job, stage, [l]) && l !in d.locks
    ensures Next(d, Acquire(t)) == d.(locks := d.locks[l := t], txs := d.txs[t := Tx(job, stage, [])])
  {
    assert d.txs[t].todo[1..] == [];
  }

  lemma ReadStep(d: Db, t: nat, user: nat)
    requires t in d.txs && d.txs[t] == Tx(Hold(user, d.clock), Locking, [])
    requires Sum(Holds(user, d.clock), d.bookings) < MAX_PENDING_HOLDS_PER_USER
    ensures Next(d, Read(t, Skip)) == d.(txs := d.txs[t := Tx(Hold(user, d.clock), Claiming, [ServiceRow(0)])])
  {
    assert ClaimLocks(0, []) == [ServiceRow(0)];
  }

  lemma CheckStep(d: Db, t: nat, user: nat)
    requires t in d.txs && d.txs[t] == Tx(Hold(user, d.clock), Claiming, []) && HoldFits(d, Hold(user, d.clock))
    ensures Next(d, Check(t)) == d.(txs := d.txs[t := Tx(Hold(user, d.clock), Passed, [])])
  {}

  /** `d` with transaction `t` at this stage, holding these locks besides. */
  function At(d: Db, t: nat, user: nat, locks: map<Lock, nat>, stage: Stage, todo: seq<Lock>): Db {
    d.(locks := locks, txs := d.txs[t := Tx(Hold(user, d.clock), stage, todo)])
  }

  lemma Begins(d: Db, t: nat, user: nat)
    requires Clear(d, t, user)
    ensures Play(d, Checking(t, user, d.clock)[..2]) == At(d, t, user, d.locks[UserRow(user) := t], Locking, [])
  {
    var moves := Checking(t, user, d.clock);
    Then(d, moves, 0, d);
    var asked := At(d, t, user, d.locks, Locking, [UserRow(user)]);
    assert Next(d, moves[0]) == asked;
    Then(d, moves, 1, asked);
    AcquireStep(asked, t, Hold(user, d.clock), Locking, UserRow(user));
    assert Next(asked, moves[1]).txs == At(d, t, user, d.locks, Locking, []).txs;
  }

  lemma Counts(d: Db, t: nat, user: nat)
    requires Clear(d, t, user)
    ensures Play(d, Checking(t, user, d.clock)[..3])
         == At(d, t, user, d.locks[UserRow(user) := t], Claiming, [ServiceRow(0)])
  {
    var moves := Checking(t, user, d.clock);
    var locked := At(d, t, user, d.locks[UserRow(user) := t], Locking, []);
    Begins(d, t, user);
    Then(d, moves, 2, locked);
    ReadStep(locked, t, user);
    var counted := Tx(Hold(user, d.clock), Claiming, [ServiceRow(0)]);
    assert locked.txs[t := counted] == d.txs[t := counted];
  }

  lemma LocksEvent(d: Db, t: nat, user: nat)
    requires Clear(d, t, user)
    ensures Play(d, Checking(t, user, d.clock)[..4]) == Locked(d, t, user, Claiming)
  {
    var moves := Checking(t, user, d.clock);
    var asked := At(d, t, user, d.locks[UserRow(user) := t], Claiming, [ServiceRow(0)]);
    Counts(d, t, user);
    Then(d, moves, 3, asked);
    AcquireStep(asked, t, Hold(user, d.clock), Claiming, ServiceRow(0));
    var locked := Tx(Hold(user, d.clock), Claiming, []);
    assert asked.txs[t := locked] == d.txs[t := locked];
  }

  lemma Checks(d: Db, t: nat, user: nat)
    requires Clear(d, t, user)
    ensures Play(d, Checking(t, user, d.clock)) == Locked(d, t, user, Passed)
  {
    var moves := Checking(t, user, d.clock);
    LocksEvent(d, t, user);
    Then(d, moves, 4, Locked(d, t, user, Claiming));
    CheckStep(Locked(d, t, user, Claiming), t, user);
    assert Locked(d, t, user, Claiming).txs[t := Tx(Hold(user, d.clock), Passed, [])] == Locked(d, t, user, Passed).txs;
    assert moves[..5] == moves;
  }

  lemma Commits(d: Db, t: nat, user: nat)
    requires t !in d.txs && (forall l :: l in d.locks ==> d.locks[l] != t)
    requires UserRow(user) !in d.locks && ServiceRow(0) !in d.locks
    ensures Next(Locked(d, t, user, Passed), Commit(t, false))
         == d.(bookings := d.bookings + [Ticket(user, Pending, d.clock)])
  {
    var locked := Locked(d, t, user, Passed);
    assert Unlocked(locked.locks, t) == d.locks;
    assert locked.txs - {t} == d.txs;
    assert Mark(d.seats, [], Reserved) == d.seats;
  }

  lemma Takes(d: Db, t: nat, user: nat)
    requires Clear(d, t, user)
    ensures Play(d, Taking(t, user, d.clock)) == d.(bookings := d.bookings + [Ticket(user, Pending, d.clock)])
  {
    Checks(d, t, user);
    Then(d, Taking(t, user, d.clock), 5, Locked(d, t, user, Passed));
    assert Taking(t, user, d.clock)[..5] == Checking(t, user, d.clock);
    assert Taking(t, user, d.clock)[..6] == Taking(t, user, d.clock);
    Commits(d, t, user);
  }

  /** The sums over a table with up to two rows. */
  lemma SumOfTwo(q: Query, a: Booking, b: Booking)
    ensures Sum(q, []) == 0
    ensures Sum(q, [a]) == Weight(q, 0, a)
    ensures Sum(q, [a, b]) == Weight(q, 0, a) + Weight(q, 1, b)
  {
    assert [a][..0] == [];
    assert [a, b][..1] == [a];
  }
}
