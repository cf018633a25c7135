// The interleaved transactions, run one at a time, are the handlers: from tables that mirror a consistent platform,
// each leads to tables that mirror what the handler of the atomic layer commits.

module Serial {
  import opened Entities
  import opened Tally
  import opened Stripe
  import opened Reservations
  import opened Payments
  import Sweeper
  import opened Invariants
  import opened Counting
  import opened Outcomes
  import opened Purchases
  import opened Interleaving
  import HoldMoves

  // ---------------------------------------------------------------- the same tables

  /** What the interleaved layer keeps of a booking. */
  function Bare(bk: Booking): Booking {
    bk.(tier := None, total := 0, payment := None, cancellations := [])
  }

  function BareAll(bookings: seq<Booking>): seq<Booking> {
    seq(|bookings|, k requires 0 <= k < |bookings| => Bare(bookings[k]))
  }

  /** The same tables and clock, and nobody at work. */
  predicate Mirrors(d: Db, s: State) {
    && d.services == s.services && d.seats == s.seats && d.clock == s.now && d.bookings == BareAll(s.bookings)
    && d.locks == map[] && d.txs == map[]
  }

  lemma SumBare(q: Query, bookings: seq<Booking>)
    ensures Sum(q, BareAll(bookings)) == Sum(q, bookings)
  {
    SumLe(q, bookings, q, BareAll(bookings));
    SumLe(q, BareAll(bookings), q, bookings);
  }

  lemma BareUpdate(bookings: seq<Booking>, b: nat, bk: Booking)
    requires b < |bookings|
    ensures BareAll(bookings[b := bk]) == BareAll(bookings)[b := Bare(bk)]
  {}

  lemma ReseatedIsMark(seats: map<nat, Seat>, seats': map<nat, Seat>, units: seq<nat>, status: ItemStatus)
    requires Reseated(seats, seats', units, status)
    ensures seats' == Mark(seats, units, status)
  {}

  // ---------------------------------------------------------------- one transaction alone

  /** Only `t` is at work, with these rows and whatever locks it has. */
  predicate Alone(d: Db, f: Db, t: nat, tx: Tx) {
    && f == d.(locks := f.locks, txs := map[t := tx])
    && forall l :: l in f.locks ==> f.locks[l] == t
  }

  function Acquires(t: nat, n: nat): seq<Move> {
    seq(n, _ => Acquire(t))
  }

  /** The tables after n lock requests of `t`. */
  function Grabbed(d: Db, t: nat, n: nat): Db
    decreases n
  {
    if n == 0 then d else Grabbed(Next(d, Acquire(t)), t, n - 1)
  }

  lemma {:induction false} GrabsAll(d: Db, f: Db, t: nat, tx: Tx)
    requires Alone(d, f, t, tx)
    ensures Alone(d, Grabbed(f, t, |tx.todo|), t, tx.(todo := []))
    decreases |tx.todo|
  {
    if tx.todo != [] {
      GrabsOne(d, f, t, tx);
      GrabsAll(d, Next(f, Acquire(t)), t, tx.(todo := tx.todo[1..]));
    }
  }

  lemma GrabsOne(d: Db, f: Db, t: nat, tx: Tx)
    requires Alone(d, f, t, tx) && tx.todo != []
    ensures Alone(d, Next(f, Acquire(t)), t, tx.(todo := tx.todo[1..]))
  {}

  /** Begin, and the lock on the first row. */
  function Started(d: Db, t: nat, job: Job): Db {
    Next(Next(d, Begin(t, job)), Acquire(t))
  }

  lemma Starts(d: Db, t: nat, job: Job)
    requires d.locks == map[] && d.txs == map[] && MayBegin(d, t, job) && |FirstLocks(job)| == 1
    ensures Alone(d, Started(d, t, job), t, Tx(job, Locking, []))
  {
    var begun := Next(d, Begin(t, job));
    assert begun == d.(txs := map[t := Tx(job, Locking, FirstLocks(job))]);
    GrabsOne(d, begun, t, Tx(job, Locking, FirstLocks(job)));
    assert FirstLocks(job)[1..] == [];
  }

  lemma EndsAlone(d: Db, f: Db, t: nat, tx: Tx)
    requires Alone(d, f, t, tx) && d.locks == map[] && d.txs == map[]
    ensures End(f, t) == d
  {
    assert Unlocked(f.locks, t) == map[];
    assert f.txs - {t} == map[];
  }

  /** The read under that lock, and the locks on the n rows claimed. */
  function Claimed(d: Db, t: nat, job: Job, n: nat, verdict: Verdict): Db {
    Grabbed(Next(Started(d, t, job), Read(t, verdict)), t, n)
  }

  /** A booking's transaction that claims its rows: up to the check. */
  lemma ReachesCheck(d: Db, t: nat, job: Job, claims: seq<Lock>, verdict: Verdict)
    requires d.locks == map[] && d.txs == map[] && MayBegin(d, t, job) && |FirstLocks(job)| == 1
    requires forall f :: Alone(d, f, t, Tx(job, Locking, [])) ==>
               DoRead(f, t, verdict) == f.(txs := f.txs[t := Tx(job, Claiming, claims)])
    ensures Alone(d, Claimed(d, t, job, |claims|, verdict), t, Tx(job, Claiming, []))
  {
    Starts(d, t, job);
    var locked := Started(d, t, job);
    assert Next(locked, Read(t, verdict)) == DoRead(locked, t, verdict);
    assert locked.txs[t := Tx(job, Claiming, claims)] == map[t := Tx(job, Claiming, claims)];
    GrabsAll(d, Next(locked, Read(t, verdict)), t, Tx(job, Claiming, claims));
  }

  // ---------------------------------------------------------------- the moves of such a transaction

  function LongRun(t: nat, job: Job, n: nat, verdict: Verdict, refunds: bool): seq<Move> {
    [Begin(t, job), Acquire(t), Read(t, verdict)] + Acquires(t, n) + [Check(t), Commit(t, refunds)]
  }

  function ShortRun(t: nat, job: Job): seq<Move> {
    [Begin(t, job), Acquire(t), Commit(t, true)]
  }

  lemma TwoMoves(d: Db, one: Move, two: Move)
    ensures Play(d, [one, two]) == Next(Next(d, one), two)
  {
    assert [one, two][..1] == [one];
    assert Play(d, [one]) == Next(Play(d, []), one);
  }

  lemma ThreeMoves(d: Db, one: Move, two: Move, three: Move)
    ensures Play(d, [one, two, three]) == Next(Next(Next(d, one), two), three)
  {
    TwoMoves(d, one, two);
    assert [one, two, three][..2] == [one, two];
  }

  lemma {:induction false} PlayAcquires(d: Db, t: nat, n: nat)
    ensures Play(d, Acquires(t, n)) == Grabbed(d, t, n)
    decreases n
  {
    if n > 0 {
      assert Acquires(t, n) == [Acquire(t)] + Acquires(t, n - 1);
      HoldMoves.PlayAppend(d, [Acquire(t)], Acquires(t, n - 1));
      assert Play(d, [Acquire(t)]) == Next(Play(d, []), Acquire(t));
      PlayAcquires(Next(d, Acquire(t)), t, n - 1);
    }
  }

  lemma PlayLongRun(d: Db, t: nat, job: Job, n: nat, verdict: Verdict, refunds: bool)
    ensures Play(d, LongRun(t, job, n, verdict, refunds))
         == Next(Next(Claimed(d, t, job, n, verdict), Check(t)), Commit(t, refunds))
  {
    var head := [Begin(t, job), Acquire(t), Read(t, verdict)];
    HoldMoves.PlayAppend(d, head + Acquires(t, n), [Check(t), Commit(t, refunds)]);
    HoldMoves.PlayAppend(d, head, Acquires(t, n));
    ThreeMoves(d, Begin(t, job), Acquire(t), Read(t, verdict));
    PlayAcquires(Next(Started(d, t, job), Read(t, verdict)), t, n);
    TwoMoves(Claimed(d, t, job, n, verdict), Check(t), Commit(t, refunds));
  }

  // ---------------------------------------------------------------- rows and seats

  /** For a pending booking the check under its locks asks for the same room. */
  lemma CheckIsRoom(s: State, d: Db, b: nat)
    requires Consistent(s) && Mirrors(d, s) && b < |s.bookings| && s.bookings[b].status.Pending?
    ensures Room(s, b) <==> if d.bookings[b].units != [] then SeatsReserved(d, d.bookings[b].units) else SlotFits(d, b)
  {
    var bk := s.bookings[b];
    assert BookingAnchored(bk, s.services, s.seats);
    forall k | 0 <= k < |bk.units| ensures bk.units[k] in s.seats && s.seats[bk.units[k]].status.Reserved? {
      assert Lists(s.bookings, b, bk.units[k]);
    }
    OwnAndOthers(s.bookings, bk.service, s.now, b);
    SumBare(Claims(bk.service, s.now, Some(b)), s.bookings);
  }

  lemma ChecksAlone(d: Db, f: Db, t: nat, job: Job, b: nat, room: bool)
    requires b < |d.bookings| && Alone(d, f, t, Tx(job, Claiming, [])) && Target(job) == Some(b) && !job.CreateJob?
    requires room == if d.bookings[b].units != [] then SeatsReserved(d, d.bookings[b].units) else SlotFits(d, b)
    ensures Alone(d, Next(f, Check(t)), t, Tx(job, if room then Passed else Lost, []))
  {}

  lemma SetStatusAlone(d: Db, f: Db, t: nat, tx: Tx, b: nat, status: BookingStatus, item: ItemStatus)
    requires Alone(d, f, t, tx) && b < |d.bookings|
    ensures Alone(SetStatus(d, b, status, item), SetStatus(f, b, status, item), t, tx)
  {}

  /** The mirrored row with another status, and the seats that go with it. */
  lemma MirrorsRow(s: State, d: Db, s': State, b: nat, bk: Booking, item: ItemStatus)
    requires Mirrors(d, s) && b < |s.bookings|
    requires s'.services == s.services && s'.now == s.now && s'.bookings == s.bookings[b := bk]
    requires Bare(bk) == Bare(s.bookings[b]).(status := bk.status)
    requires Reseated(s.seats, s'.seats, s.bookings[b].units, item)
    ensures Mirrors(SetStatus(d, b, bk.status, item), s')
  {
    BareUpdate(s.bookings, b, bk);
    ReseatedIsMark(s.seats, s'.seats, s.bookings[b].units, item);
  }

  lemma SoldMirrors(s: State, d: Db, s': State, b: nat)
    requires Mirrors(d, s) && b < |s.bookings| && s.bookings[b].payment.Some? && Sold(s, s', b)
    ensures Mirrors(SetStatus(d, b, Confirmed, Booked), s')
  {
    MirrorsRow(s, d, s', b, s'.bookings[b], Booked);
  }

  lemma RepaidMirrors(s: State, d: Db, s': State, b: nat, i: nat)
    requires Mirrors(d, s) && b < |s.bookings| && s.bookings[b].payment.Some? && Repaid(s, s', b, i)
    requires s.bookings[b].units == []
    ensures Mirrors(SetStatus(d, b, Cancelled, Available), s')
  {
    MirrorsRow(s, d, s', b, s'.bookings[b], Available);
  }

  lemma GivenMirrors(s: State, d: Db, s': State, b: nat, payment: Option<Payment>, rows: seq<nat>)
    requires Mirrors(d, s) && b < |s.bookings| && Given(s, s', b, payment, rows)
    ensures Mirrors(SetStatus(d, b, Cancelled, Available), s')
  {
    MirrorsRow(s, d, s', b, s'.bookings[b], Available);
  }

  // ---------------------------------------------------------------- the webhook and the sweep

  function ClaimCount(d: Db, b: nat): nat
    requires b < |d.bookings|
  {
    |ClaimLocks(d.bookings[b].service, d.bookings[b].units)|
  }

  predicate Settles(job: Job, b: nat, bk: Booking, clock: Time) {
    || job == WebhookJob(b)
    || (job.SweepJob? && job.rest == [b] && bk.createdAt <= job.threshold <= clock - HOLD)
  }

  lemma SettlingReaches(d: Db, t: nat, job: Job, b: nat)
    requires d.locks == map[] && d.txs == map[] && b < |d.bookings| && d.bookings[b].status.Pending?
    requires Settles(job, b, d.bookings[b], d.clock)
    ensures Alone(d, Claimed(d, t, job, ClaimCount(d, b), Claim), t, Tx(job, Claiming, []))
  {
    ReachesCheck(d, t, job, ClaimLocks(d.bookings[b].service, d.bookings[b].units), Claim);
  }

  /** The rows the check decides on. */
  function Decided(d: Db, b: nat, room: bool, refunds: bool): Db
    requires b < |d.bookings|
  {
    if room then SetStatus(d, b, Confirmed, Booked)
    else if refunds then SetStatus(d, b, Cancelled, Available) else d
  }

  lemma SettlingChecks(s: State, d: Db, t: nat, job: Job, b: nat)
    requires Consistent(s) && Mirrors(d, s) && b < |s.bookings| && s.bookings[b].status.Pending?
    requires Settles(job, b, s.bookings[b], s.now)
    ensures Alone(d, Next(Claimed(d, t, job, ClaimCount(d, b), Claim), Check(t)), t,
                  Tx(job, if Room(s, b) then Passed else Lost, []))
  {
    SettlingReaches(d, t, job, b);
    CheckIsRoom(s, d, b);
    ChecksAlone(d, Claimed(d, t, job, ClaimCount(d, b), Claim), t, job, b, Room(s, b));
  }

  /** What the check decides is committed; the sweep, with nobody left on its list, then ends. */
  lemma Decides(s: State, d: Db, t: nat, job: Job, b: nat, refunds: bool)
    requires Consistent(s) && Mirrors(d, s) && b < |s.bookings| && s.bookings[b].status.Pending?
    requires Settles(job, b, s.bookings[b], s.now)
    ensures Next(Play(d, LongRun(t, job, ClaimCount(d, b), Claim, refunds)), Quit(t))
         == Decided(d, b, Room(s, b), refunds)
    ensures job.WebhookJob? ==>
              Play(d, LongRun(t, job, ClaimCount(d, b), Claim, refunds)) == Decided(d, b, Room(s, b), refunds)
  {
    SettlingChecks(s, d, t, job, b);
    PlayLongRun(d, t, job, ClaimCount(d, b), Claim, refunds);
    CommitsVerdict(d, Next(Claimed(d, t, job, ClaimCount(d, b), Claim), Check(t)), t, job, b, Room(s, b), refunds);
  }

  lemma CommitsVerdict(d: Db, f: Db, t: nat, job: Job, b: nat, room: bool, refunds: bool)
    requires d.locks == map[] && d.txs == map[] && b < |d.bookings| && Settles(job, b, d.bookings[b], d.clock)
    requires Alone(d, f, t, Tx(job, if room then Passed else Lost, []))
    ensures Next(Next(f, Commit(t, refunds)), Quit(t)) == Decided(d, b, room, refunds)
    ensures job.WebhookJob? ==> Next(f, Commit(t, refunds)) == Decided(d, b, room, refunds)
  {
    var tx := f.txs[t];
    var after := if room then SetStatus(f, b, Confirmed, Booked)
                 else if refunds then SetStatus(f, b, Cancelled, Available) else f;
    SetStatusAlone(d, f, t, tx, b, Confirmed, Booked);
    SetStatusAlone(d, f, t, tx, b, Cancelled, Available);
    assert Next(f, Commit(t, refunds)) == Close(after, t);
    ClosesAlone(Decided(d, b, room, refunds), after, t, tx);
  }

  /** After its commit a transaction has ended, or is a sweep with an empty list that can only quit. */
  lemma ClosesAlone(d: Db, f: Db, t: nat, tx: Tx)
    requires d.locks == map[] && d.txs == map[] && Alone(d, f, t, tx)
    ensures Next(Close(f, t), Quit(t)) == d
    ensures !tx.job.SweepJob? ==> Close(f, t) == d
  {
    if tx.job.SweepJob? && tx.job.rest != [] {
      var closed := Close(f, t);
      assert Unlocked(f.locks, t) == map[];
      assert Alone(d, closed, t, NextCandidate(tx));
      EndsAlone(d, closed, t, NextCandidate(tx));
    } else {
      EndsAlone(d, f, t, tx);
      assert t !in d.txs;
    }
  }

  /** Run alone, the webhook's transaction for a pending hold commits what the handler does. */
  lemma WebhookIsHandler(s: State, d: Db, t: nat, b: nat, i: nat, refunds: bool)
    requires Consistent(s) && Mirrors(d, s) && b < |s.bookings| && s.bookings[b].status.Pending?
    requires s.bookings[b].Tracks(i) && i < |s.intents| && s.intents[i].status.Captured?
    ensures Mirrors(Play(d, LongRun(t, WebhookJob(b), ClaimCount(d, b), Claim, refunds)),
                    Deliver(s, i, SucceededEvent(refunds)).0)
  {
    Decides(s, d, t, WebhookJob(b), b, refunds);
    PaidHoldSettles(s, b, i, refunds);
    var s' := Deliver(s, i, SucceededEvent(refunds)).0;
    if Room(s, b) {
      SoldMirrors(s, d, s'.(acked := s.acked), b);
    } else if refunds {
      NoSeatsWithoutRoom(s, b);
      RepaidMirrors(s, d, s'.(acked := s.acked), b, i);
    }
  }

  /** What the cancel and retrieve calls make of a candidate. */
  function VerdictOn(s: State, b: nat, answers: Sweeper.Answers): Verdict
    requires b < |s.bookings|
  {
    match s.bookings[b].payment
    case None => Free
    case Some(p) =>
      if p.status.PaymentCanceled? || p.intent.FreeIntent? || p.intent.id >= |s.intents| then Free
      else
        var status := s.intents[p.intent.id].status;
        if answers.cancel.Done? && !status.Captured? then Free
        else if NoVerdict(status, answers) then Skip
        else if status.Voided? then Free else Claim
  }

  function SweepRun(d: Db, t: nat, threshold: Time, b: nat, verdict: Verdict, refunds: bool): seq<Move>
    requires b < |d.bookings|
  {
    var job := SweepJob(threshold, [b]);
    (if verdict.Claim? then LongRun(t, job, ClaimCount(d, b), Claim, refunds)
     else [Begin(t, job), Acquire(t), Read(t, verdict)]) + [Quit(t)]
  }

  /** Without a claim the candidate is released or skipped. */
  lemma FreesOrSkips(d: Db, t: nat, threshold: Time, b: nat, verdict: Verdict, refunds: bool)
    requires d.locks == map[] && d.txs == map[] && b < |d.bookings| && d.bookings[b].status.Pending?
    requires d.bookings[b].createdAt <= threshold <= d.clock - HOLD && !verdict.Claim?
    ensures Play(d, SweepRun(d, t, threshold, b, verdict, refunds)) ==
              if verdict.Free? then SetStatus(d, b, Cancelled, Available) else d
  {
    var job := SweepJob(threshold, [b]);
    var moves := [Begin(t, job), Acquire(t), Read(t, verdict)];
    HoldMoves.PlayAppend(d, moves, [Quit(t)]);
    assert Play(Play(d, moves), [Quit(t)]) == Next(Play(Play(d, moves), []), Quit(t));
    ThreeMoves(d, Begin(t, job), Acquire(t), Read(t, verdict));
    Starts(d, t, job);
    ReadsAlone(d, Started(d, t, job), t, threshold, b, verdict);
  }

  lemma ReadsAlone(d: Db, f: Db, t: nat, threshold: Time, b: nat, verdict: Verdict)
    requires d.locks == map[] && d.txs == map[] && b < |d.bookings| && d.bookings[b].status.Pending?
    requires Alone(d, f, t, Tx(SweepJob(threshold, [b]), Locking, []))
    requires d.bookings[b].createdAt <= threshold && !verdict.Claim?
    ensures Next(Next(f, Read(t, verdict)), Quit(t)) ==
              if verdict.Free? then SetStatus(d, b, Cancelled, Available) else d
  {
    var tx := Tx(SweepJob(threshold, [b]), Locking, []);
    if verdict.Free? {
      SetStatusAlone(d, f, t, tx, b, Cancelled, Available);
      ClosesAlone(SetStatus(d, b, Cancelled, Available), SetStatus(f, b, Cancelled, Available), t, tx);
    } else {
      var read := Next(f, Read(t, verdict));
      assert read == f.(txs := f.txs[t := NextCandidate(tx)]);
      EndsAlone(d, read, t, NextCandidate(tx));
    }
  }

  /** Run alone with one candidate, the sweep's transaction commits what the loop body does. */
  lemma SweepIsHandler(s: State, d: Db, t: nat, threshold: Time, b: nat, answers: Sweeper.Answers)
    requires Consistent(s) && Mirrors(d, s) && b < |s.bookings| && s.bookings[b].status.Pending?
    requires s.bookings[b].createdAt <= threshold <= s.now - HOLD
    ensures Mirrors(Play(d, SweepRun(d, t, threshold, b, VerdictOn(s, b, answers), answers.refunds)),
                    Sweeper.SweepOne(s, b, threshold, answers))
  {
    PendingRow(s, b);
    var verdict := VerdictOn(s, b, answers);
    var s' := Sweeper.SweepOne(s, b, threshold, answers);
    if s.bookings[b].payment.None? || s.bookings[b].payment.value.status.PaymentCanceled? {
      SweptWithoutIntent(s, b, threshold, answers);
      FreesOrSkips(d, t, threshold, b, verdict, answers.refunds);
      GivenMirrors(s, d, s', b, s'.bookings[b].payment, []);
    } else if verdict.Claim? {
      ClaimIsHandler(s, d, t, threshold, b, s.bookings[b].payment.value.intent.id, answers);
    } else {
      FreeIsHandler(s, d, t, threshold, b, s.bookings[b].payment.value.intent.id, answers);
    }
  }

  lemma FreeIsHandler(s: State, d: Db, t: nat, threshold: Time, b: nat, i: nat, answers: Sweeper.Answers)
    requires Consistent(s) && Mirrors(d, s) && b < |s.bookings| && s.bookings[b].status.Pending?
    requires s.bookings[b].createdAt <= threshold <= s.now - HOLD && s.bookings[b].Tracks(i)
    requires !s.bookings[b].payment.value.status.PaymentCanceled? && !VerdictOn(s, b, answers).Claim?
    ensures Mirrors(Play(d, SweepRun(d, t, threshold, b, VerdictOn(s, b, answers), answers.refunds)),
                    Sweeper.SweepOne(s, b, threshold, answers))
  {
    var verdict := VerdictOn(s, b, answers);
    var s' := Sweeper.SweepOne(s, b, threshold, answers);
    SweptWithIntent(s, b, i, threshold, answers);
    FreesOrSkips(d, t, threshold, b, verdict, answers.refunds);
    if verdict.Free? {
      MirrorsRow(s, d, s', b, s'.bookings[b], Available);
    }
  }

  lemma ClaimIsHandler(s: State, d: Db, t: nat, threshold: Time, b: nat, i: nat, answers: Sweeper.Answers)
    requires Consistent(s) && Mirrors(d, s) && b < |s.bookings| && s.bookings[b].status.Pending?
    requires s.bookings[b].createdAt <= threshold <= s.now - HOLD && s.bookings[b].Tracks(i)
    requires VerdictOn(s, b, answers).Claim?
    ensures Mirrors(Play(d, SweepRun(d, t, threshold, b, Claim, answers.refunds)),
                    Sweeper.SweepOne(s, b, threshold, answers))
  {
    PendingRow(s, b);
    SweptWithIntent(s, b, i, threshold, answers);
    var job := SweepJob(threshold, [b]);
    Decides(s, d, t, job, b, answers.refunds);
    var moves := LongRun(t, job, ClaimCount(d, b), Claim, answers.refunds);
    HoldMoves.PlayAppend(d, moves, [Quit(t)]);
    assert Play(Play(d, moves), [Quit(t)]) == Next(Play(Play(d, moves), []), Quit(t));
    var s' := Sweeper.SweepOne(s, b, threshold, answers);
    if Room(s, b) {
      SoldMirrors(s, d, s', b);
    } else if answers.refunds {
      NoSeatsWithoutRoom(s, b);
      RepaidMirrors(s, d, s', b, i);
    }
  }

  // ---------------------------------------------------------------- pay, cancel

  lemma ShortRunSets(d: Db, t: nat, job: Job, b: nat, status: BookingStatus, item: ItemStatus)
    requires d.locks == map[] && d.txs == map[] && b < |d.bookings| && MayBegin(d, t, job)
    requires (job == CancelJob(b) && d.bookings[b].Live() && status.Cancelled? && item.Available?)
             || (job.PayJob? && job.booking == b && Payable(d.bookings[b], job.readAt) && status.Confirmed?
                 && item.Booked?)
    ensures Play(d, ShortRun(t, job)) == SetStatus(d, b, status, item)
  {
    Starts(d, t, job);
    ThreeMoves(d, Begin(t, job), Acquire(t), Commit(t, true));
    CommitsShort(d, Started(d, t, job), t, job, b, status, item);
  }

  lemma CommitsShort(d: Db, f: Db, t: nat, job: Job, b: nat, status: BookingStatus, item: ItemStatus)
    requires d.locks == map[] && d.txs == map[] && b < |d.bookings| && Alone(d, f, t, Tx(job, Locking, []))
    requires (job == CancelJob(b) && d.bookings[b].Live() && status.Cancelled? && item.Available?)
             || (job.PayJob? && job.booking == b && Payable(d.bookings[b], job.readAt) && status.Confirmed?
                 && item.Booked?)
    ensures Next(f, Commit(t, true)) == SetStatus(d, b, status, item)
  {
    SetStatusAlone(d, f, t, Tx(job, Locking, []), b, status, item);
    EndsAlone(SetStatus(d, b, status, item), SetStatus(f, b, status, item), t, Tx(job, Locking, []));
  }

  /** A payment that finds its intent captured. */
  lemma PayIsHandler(s: State, d: Db, t: nat, user: nat, b: nat, creates: bool)
    requires Consistent(s) && Mirrors(d, s) && MayPay(s, user, b) && s.bookings[b].payment.Some?
    requires var p := s.bookings[b].payment.value;
             && !p.status.PaymentCanceled? && p.intent.StripeIntent? && p.intent.id < |s.intents|
             && s.intents[p.intent.id].status.Captured?
    ensures Mirrors(Play(d, ShortRun(t, PayJob(b, s.now))), Pay(s, user, b, true, creates).0)
  {
    NextPayment(s, user, b, true, creates);
    ShortRunSets(d, t, PayJob(b, s.now), b, Confirmed, Booked);
    SoldMirrors(s, d, Pay(s, user, b, true, creates).0, b);
  }

  /** A cancellation that is accepted. */
  lemma CancelIsHandler(s: State, d: Db, t: nat, user: nat, admin: bool, b: nat, reply: CancelReply, refunds: bool)
    requires Consistent(s) && Mirrors(d, s) && MayCancel(s, user, admin, b)
    requires Cancel(s, user, admin, b, reply, refunds).1.Success?
    ensures Mirrors(Play(d, ShortRun(t, CancelJob(b))), Cancel(s, user, admin, b, reply, refunds).0)
  {
    var s' := Cancel(s, user, admin, b, reply, refunds).0;
    ShortRunSets(d, t, CancelJob(b), b, Cancelled, Available);
    if s.bookings[b].status.Pending? {
      CancelledHold(s, user, admin, b, reply, refunds);
    } else {
      CancelledSale(s, user, admin, b, reply, refunds);
    }
    MirrorsRow(s, d, s', b, s'.bookings[b], Available);
  }

  // ---------------------------------------------------------------- create

  function HoldJob(s: State, user: nat, order: Order): Job {
    CreateJob(user, order.service, order.Requested(), order.Units(), s.now, s.now)
  }

  function HoldRun(s: State, t: nat, user: nat, order: Order): seq<Move> {
    LongRun(t, HoldJob(s, user, order), |ClaimLocks(order.service, order.Units())|, Skip, true)
  }

  lemma HoldReaches(s: State, d: Db, t: nat, user: nat, order: Order)
    requires Mirrors(d, s) && MayAsk(s, user, order) && order.quantity >= 1 && Ascending(order.Units())
    ensures Alone(d, Claimed(d, t, HoldJob(s, user, order), |ClaimLocks(order.service, order.Units())|, Skip), t,
                  Tx(HoldJob(s, user, order), Claiming, []))
  {
    HoldsAreRows(s.bookings, user, s.now);
    SumBare(Holds(user, s.now), s.bookings);
    ReachesCheck(d, t, HoldJob(s, user, order), ClaimLocks(order.service, order.Units()), Skip);
  }

  /** The check of a hold asks whether its seats or tickets are still there. */
  lemma HoldChecks(s: State, d: Db, f: Db, t: nat, user: nat, order: Order)
    requires Mirrors(d, s) && MayAsk(s, user, order) && order.quantity >= 1
    requires f.bookings == d.bookings && f.services == d.services && f.seats == d.seats && f.clock == d.clock
    ensures HoldFits(f, HoldJob(s, user, order)) <==> StillThere(s, order)
  {
    ClaimsAreTickets(s.bookings, order.service, s.now);
    SumBare(Claims(order.service, s.now, None), s.bookings);
  }

  lemma HeldMirrors(s: State, d: Db, s': State, user: nat, order: Order)
    requires Mirrors(d, s) && MayAsk(s, user, order) && Held(s, s', user, order)
    ensures Mirrors(d.(bookings := d.bookings + [NewRow(HoldJob(s, user, order))],
                       seats := Mark(d.seats, order.Units(), Reserved)), s')
  {
    ReseatedIsMark(s.seats, s'.seats, order.Units(), Reserved);
    assert BareAll(s.bookings + [s'.bookings[|s.bookings|]])
        == BareAll(s.bookings) + [Bare(s'.bookings[|s.bookings|])];
  }

  /** A hold on seats named in ascending order, or on tickets, that its user may ask for. */
  lemma HoldIsHandler(s: State, d: Db, t: nat, user: nat, order: Order)
    requires Mirrors(d, s) && MayAsk(s, user, order) && order.quantity >= 1 && Ascending(order.Units())
    ensures Mirrors(Play(d, HoldRun(s, t, user, order)), CreateBooking(s, user, order).0)
  {
    var job := HoldJob(s, user, order);
    var n := |ClaimLocks(order.service, order.Units())|;
    HoldReaches(s, d, t, user, order);
    PlayLongRun(d, t, job, n, Skip, true);
    HoldsExactly(s, user, order);
    var f := Claimed(d, t, job, n, Skip);
    HoldChecks(s, d, f, t, user, order);
    CommitsHold(d, f, t, job);
    if StillThere(s, order) {
      HeldMirrors(s, d, CreateBooking(s, user, order).0, user, order);
    }
  }

  /** What fits is added as a pending hold that starts with its transaction. */
  lemma CommitsHold(d: Db, f: Db, t: nat, job: Job)
    requires d.locks == map[] && d.txs == map[] && job.CreateJob? && Alone(d, f, t, Tx(job, Claiming, []))
    ensures var row := Booking(job.user, job.service, None, job.quantity, 0, Pending, job.startedAt, job.units,
                               None, []);
            Next(Next(f, Check(t)), Commit(t, true)) ==
              if HoldFits(f, job) then
                d.(bookings := d.bookings + [row], seats := Mark(d.seats, job.units, Reserved))
              else d
  {
    if HoldFits(f, job) {
      var checked := f.(txs := map[t := Tx(job, Passed, [])]);
      var added := d.(bookings := d.bookings + [NewRow(job)], seats := Mark(d.seats, job.units, Reserved));
      EndsAlone(added, checked.(bookings := added.bookings, seats := added.seats), t, Tx(job, Passed, []));
    } else {
      EndsAlone(d, f, t, Tx(job, Claiming, []));
    }
  }
}
