// Two concrete interleavings that oversell an event with one ticket. The pay handler reads its clock at the
// last instant of the hold and waits for Stripe. In the first it confirms after the ticket was held again, in
// the second between another customer's check and commit.

module LatePayment {
  import opened Entities
  import opened Tally
  import opened Payments
  import opened Invariants
  import opened Interleaving
  import opened InterleavingProofs
  import opened HoldMoves

  const SHOW := Service(0, 0, SlotCapacity, Some(1), 1000, map[], 100 * HOLD, 200 * HOLD, true)
  const OPENING := Db(map[0 := SHOW], map[], [], 0, map[], map[])
  const LATE: Time := HOLD + 1

  /** A hold, and a payment that reads its clock in time but is still waiting when the hold has run out. */
  const WAITING: seq<Move> := Taking(1, 1, 0) + [Wait(HOLD), Begin(2, PayJob(0, HOLD)), Acquire(2), Wait(LATE)]

  const AFTER_THE_HOLD: seq<Move> := WAITING + Taking(3, 2, LATE) + [Commit(2, false)]
  const BEFORE_THE_HOLD: seq<Move> := WAITING + Checking(3, 2, LATE) + [Commit(2, false)] + [Commit(3, false)]

  function Paying(bookings: seq<Booking>): Db {
    OPENING.(bookings := bookings, clock := LATE, locks := map[BookingRow(0) := 2],
             txs := map[2 := Tx(PayJob(0, HOLD), Locking, [])])
  }

  const FIRST := Ticket(1, Pending, 0)
  const FIRST_PAID := Ticket(1, Confirmed, 0)
  const SECOND := Ticket(2, Pending, LATE)

  lemma PayWaits(d: Db)
    requires d == OPENING.(bookings := [FIRST])
    ensures Play(d, [Wait(HOLD), Begin(2, PayJob(0, HOLD)), Acquire(2), Wait(LATE)]) == Paying([FIRST])
  {
    var moves := [Wait(HOLD), Begin(2, PayJob(0, HOLD)), Acquire(2), Wait(LATE)];
    Then(d, moves, 0, d);
    var d1 := d.(clock := HOLD);
    Then(d, moves, 1, d1);
    var d2 := d1.(txs := map[2 := Tx(PayJob(0, HOLD), Locking, [BookingRow(0)])]);
    assert Next(d1, moves[1]) == d2;
    Then(d, moves, 2, d2);
    assert d2.txs[2].todo[1..] == [];
    var d3 := d1.(locks := map[BookingRow(0) := 2], txs := map[2 := Tx(PayJob(0, HOLD), Locking, [])]);
    assert Next(d2, moves[2]) == d3;
    Then(d, moves, 3, d3);
    assert moves[..4] == moves;
  }

  lemma Waits()
    ensures Play(OPENING, WAITING) == Paying([FIRST])
  {
    SumOfTwo(Claims(0, 0, None), FIRST, FIRST);
    SumOfTwo(Holds(1, 0), FIRST, FIRST);
    Takes(OPENING, 1, 1);
    assert OPENING.bookings + [FIRST] == [FIRST];
    PayWaits(OPENING.(bookings := [FIRST]));
    PlayAppend(OPENING, Taking(1, 1, 0), [Wait(HOLD), Begin(2, PayJob(0, HOLD)), Acquire(2), Wait(LATE)]);
  }

  /** By then the first hold no longer counts, so a second one finds the way clear. */
  lemma SecondIsClear()
    ensures Clear(Paying([FIRST]), 3, 2)
  {
    SumOfTwo(Claims(0, LATE, None), FIRST, FIRST);
    SumOfTwo(Holds(2, LATE), FIRST, FIRST);
  }

  lemma PayConfirms(d: Db, rest: seq<Booking>)
    requires d.bookings == [FIRST] + rest && 2 in d.txs && d.txs[2] == Tx(PayJob(0, HOLD), Locking, [])
    ensures var f := Next(d, Commit(2, false));
            f.bookings == [FIRST_PAID] + rest && f.services == d.services && f.clock == d.clock && f.seats == d.seats
            && f.locks == Unlocked(d.locks, 2) && f.txs == d.txs - {2}
  {
    assert Mark(d.seats, [], Booked) == d.seats;
  }

  /** The ticket was held again before the payment: one ticket, two holders. */
  lemma Oversold()
    ensures Opening(OPENING) && OPENING.services[0].maxCapacity == Some(1)
    ensures var f := Play(OPENING, AFTER_THE_HOLD);
            f.services == OPENING.services && Sum(Claims(0, f.clock, None), f.bookings) == 2
  {
    Waits();
    SecondIsClear();
    Takes(Paying([FIRST]), 3, 2);
    PlayAppend(OPENING, WAITING, Taking(3, 2, LATE));
    var held := Paying([FIRST, SECOND]);
    assert Play(OPENING, WAITING + Taking(3, 2, LATE)) == held;
    PlayAppend(OPENING, WAITING + Taking(3, 2, LATE), [Commit(2, false)]);
    OneMove(held, Commit(2, false));
    assert held.bookings == [FIRST] + [SECOND];
    PayConfirms(held, [SECOND]);
    SumOfTwo(Claims(0, LATE, None), FIRST_PAID, SECOND);
  }

  lemma Checked()
    ensures Play(OPENING, WAITING + Checking(3, 2, LATE)) == Locked(Paying([FIRST]), 3, 2, Passed)
  {
    Waits();
    SecondIsClear();
    Checks(Paying([FIRST]), 3, 2);
    PlayAppend(OPENING, WAITING, Checking(3, 2, LATE));
  }

  /** The state after the payment of the second interleaving, and the other customer's commit. */
  lemma BothCommit()
    ensures Play(OPENING, WAITING + Checking(3, 2, LATE) + [Commit(2, false)]).bookings == [FIRST_PAID]
    ensures Play(OPENING, BEFORE_THE_HOLD).bookings == [FIRST_PAID, SECOND]
    ensures Play(OPENING, BEFORE_THE_HOLD).clock == LATE && Play(OPENING, BEFORE_THE_HOLD).services == OPENING.services
  {
    Checked();
    var d := Locked(Paying([FIRST]), 3, 2, Passed);
    PlayAppend(OPENING, WAITING + Checking(3, 2, LATE), [Commit(2, false)]);
    OneMove(d, Commit(2, false));
    assert d.bookings == [FIRST] + [];
    PayConfirms(d, []);
    var paid := Next(d, Commit(2, false));
    PlayAppend(OPENING, WAITING + Checking(3, 2, LATE) + [Commit(2, false)], [Commit(3, false)]);
    OneMove(paid, Commit(3, false));
    assert paid.txs[3] == Tx(Hold(2, LATE), Passed, []);
  }

  /**
   * The payment commits between the other customer's check and commit. The webhook's check would have passed
   * for it, one ticket is claimed after it, and two after the other commit.
   */
  lemma OversoldThroughCheck()
    ensures var d := Play(OPENING, WAITING + Checking(3, 2, LATE)); |d.bookings| == 1 && SlotFits(d, 0)
    ensures Sum(Claims(0, LATE, None), Play(OPENING, WAITING + Checking(3, 2, LATE) + [Commit(2, false)]).bookings) == 1
    ensures var f := Play(OPENING, BEFORE_THE_HOLD);
            f.services == OPENING.services && Sum(Claims(0, f.clock, None), f.bookings) == 2
  {
    Checked();
    BothCommit();
    SumOfTwo(Claims(0, LATE, Some(0)), FIRST, FIRST);
    SumOfTwo(Claims(0, LATE, None), FIRST_PAID, SECOND);
  }
}
