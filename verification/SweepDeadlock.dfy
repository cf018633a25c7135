// Two holds taken from an empty table expire, and two sweeps that overlap list them in opposite orders. Each
// skips its first candidate, keeps that row locked, and the two wait for each other.

module SweepDeadlock {
  import opened Entities
  import opened Tally
  import opened Payments
  import opened Interleaving
  import opened InterleavingProofs
  import opened HoldMoves
  import opened LockOrder
  import opened SweepOverlap

  const SHOW := Service(0, 0, SlotCapacity, Some(2), 1000, map[], 100 * HOLD, 200 * HOLD, true)
  const OPENING := Db(map[0 := SHOW], map[], [], 0, map[], map[])

  const FIRST := Ticket(1, Pending, 0)
  const SECOND := Ticket(2, Pending, 0)
  const EXPIRED := OPENING.(bookings := [FIRST, SECOND], clock := HOLD)

  lemma OneHold()
    ensures Play(OPENING, Taking(1, 1, 0)) == OPENING.(bookings := [FIRST])
  {
    SumOfTwo(Claims(0, 0, None), FIRST, SECOND);
    SumOfTwo(Holds(1, 0), FIRST, SECOND);
    Takes(OPENING, 1, 1);
    assert OPENING.bookings + [FIRST] == [FIRST];
  }

  lemma SecondHold()
    ensures Play(OPENING.(bookings := [FIRST]), Taking(2, 2, 0)) == OPENING.(bookings := [FIRST, SECOND])
  {
    SumOfTwo(Claims(0, 0, None), FIRST, SECOND);
    SumOfTwo(Holds(2, 0), FIRST, SECOND);
    Takes(OPENING.(bookings := [FIRST]), 2, 2);
    assert [FIRST] + [SECOND] == [FIRST, SECOND];
  }

  lemma TwoHolds()
    ensures Play(OPENING, Taking(1, 1, 0) + Taking(2, 2, 0) + [Wait(HOLD)]) == EXPIRED
  {
    OneHold();
    SecondHold();
    PlayAppend(OPENING, Taking(1, 1, 0), Taking(2, 2, 0));
    PlayAppend(OPENING, Taking(1, 1, 0) + Taking(2, 2, 0), [Wait(HOLD)]);
    OneMove(OPENING.(bookings := [FIRST, SECOND]), Wait(HOLD));
  }

  /** From an empty table two sweeps that list these two holds in opposite orders reach a circular wait. */
  lemma OverlappingSweepsDeadlock() returns (moves: seq<Move>)
    ensures Opening(OPENING) && Cycle(Play(OPENING, moves), [3, 4])
    ensures OnlyTheseSweep(moves, Begin(3, SweepJob(0, [0, 1])), Begin(4, SweepJob(0, [1, 0])))
  {
    TwoHolds();
    var holds := Taking(1, 1, 0) + Taking(2, 2, 0) + [Wait(HOLD)];
    var up, down := [0, 1], [1, 0];
    var sweeps := ConflictDeadlocks(EXPIRED, 3, 4, 0, 0, up, down, 0, 1, 0, 1);
    PlayAppend(OPENING, holds, sweeps);
    moves := holds + sweeps;
  }
}
