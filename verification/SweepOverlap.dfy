// Two sweeps that overlap: whatever else runs, they can reach a circular wait if and only if no order of the
// bookings fits both candidate lists.

module SweepOverlap {
  import opened Entities
  import opened Interleaving
  import opened LockOrder
  import opened HoldMoves

  /** A sweep about to ask for the first of the candidates that are left. */
  function Sweep(threshold: Time, ids: seq<nat>): Tx {
    Tx(SweepJob(threshold, ids), Locking, FirstLocks(SweepJob(threshold, ids)))
  }

  predicate About(d: Db, t: nat, threshold: Time, ids: seq<nat>) {
    && t in d.txs && d.txs[t] == Sweep(threshold, ids)
    && forall k :: 0 <= k < |ids| ==> ids[k] < |d.bookings|
  }

  predicate FreeFor(d: Db, t: nat, b: nat) {
    BookingRow(b) in d.locks ==> d.locks[BookingRow(b)] == t
  }

  /** Distinct pending bookings at or past the threshold, as the query lists them. */
  predicate Listed(d: Db, threshold: Time, ids: seq<nat>) {
    && Distinct(ids)
    && forall k :: 0 <= k < |ids| ==> ids[k] < |d.bookings| && Due(d.bookings[ids[k]], threshold)
  }

  predicate Due(bk: Booking, threshold: Time) { bk.status.Pending? && bk.createdAt <= threshold }

  /** The sweeps among the moves are these two; other transactions may be anything. */
  ghost predicate OnlyTheseSweep(moves: seq<Move>, one: Move, two: Move) {
    forall k :: 0 <= k < |moves| && moves[k].Begin? && moves[k].job.SweepJob? ==> moves[k] == one || moves[k] == two
  }

  /** Moves of transactions that are already running. */
  predicate NoneBegins(moves: seq<Move>) {
    forall k :: 0 <= k < |moves| ==> !moves[k].Begin?
  }

  // ---------------------------------------------------------------- one candidate

  lemma TwoMoves(d: Db, one: Move, two: Move)
    ensures Play(d, [one, two]) == Next(Next(d, one), two)
  {
    assert [one, two][..1] == [one];
    assert Play(d, [one]) == Next(Play(d, []), one);
  }

  lemma LocksFirst(d: Db, t: nat, threshold: Time, ids: seq<nat>)
    requires About(d, t, threshold, ids) && ids != [] && FreeFor(d, t, ids[0])
    ensures Next(d, Acquire(t)) == d.(locks := d.locks[BookingRow(ids[0]) := t],
                                      txs := d.txs[t := Tx(SweepJob(threshold, ids), Locking, [])])
  {
    assert d.txs[t].todo[1..] == [];
  }

  /** Stripe gives no verdict: the sweep keeps the row locked and goes on. */
  lemma SkipsOne(d: Db, t: nat, threshold: Time, ids: seq<nat>)
    requires About(d, t, threshold, ids) && ids != [] && FreeFor(d, t, ids[0])
    ensures Play(d, [Acquire(t), Read(t, Skip)])
         == d.(locks := d.locks[BookingRow(ids[0]) := t], txs := d.txs[t := Sweep(threshold, ids[1..])])
  {
    TwoMoves(d, Acquire(t), Read(t, Skip));
    LocksFirst(d, t, threshold, ids);
    var locked := Next(d, Acquire(t));
    assert NextCandidate(locked.txs[t]) == Sweep(threshold, ids[1..]);
    assert locked.txs[t := Sweep(threshold, ids[1..])] == d.txs[t := Sweep(threshold, ids[1..])];
  }

  /** The hold is released and committed, and the sweep lets go of what it had locked. */
  lemma FreesOne(d: Db, t: nat, threshold: Time, ids: seq<nat>)
    requires About(d, t, threshold, ids) && ids != [] && d.locks == map[] && Due(d.bookings[ids[0]], threshold)
    ensures var f := Play(d, [Acquire(t), Read(t, Free)]);
            && f.locks == map[] && f.txs == d.txs[t := Sweep(threshold, ids[1..])]
            && f.bookings == d.bookings[ids[0] := d.bookings[ids[0]].(status := Cancelled)]
  {
    TwoMoves(d, Acquire(t), Read(t, Free));
    LocksFirst(d, t, threshold, ids);
    var locked := Next(d, Acquire(t));
    assert NextCandidate(locked.txs[t]) == Sweep(threshold, ids[1..]);
    assert Unlocked(locked.locks, t) == map[];
    assert locked.txs[t := Sweep(threshold, ids[1..])] == d.txs[t := Sweep(threshold, ids[1..])];
  }

  // ---------------------------------------------------------------- many candidates

  lemma {:induction false} FreesAll(d: Db, t: nat, threshold: Time, ids: seq<nat>, n: nat) returns (moves: seq<Move>)
    requires About(d, t, threshold, ids) && Listed(d, threshold, ids) && n <= |ids| && d.locks == map[]
    ensures NoneBegins(moves)
    ensures var f := Play(d, moves);
            && f.locks == map[] && f.txs == d.txs[t := Sweep(threshold, ids[n..])]
            && |f.bookings| == |d.bookings|
    decreases n
  {
    moves := [];
    if n > 0 {
      var first := [Acquire(t), Read(t, Free)];
      FreesOne(d, t, threshold, ids);
      var f := Play(d, first);
      var rest := FreesAll(f, t, threshold, ids[1..], n - 1);
      PlayAppend(d, first, rest);
      assert ids[1..][n - 1..] == ids[n..];
      assert f.txs[t := Sweep(threshold, ids[n..])] == d.txs[t := Sweep(threshold, ids[n..])];
      moves := first + rest;
    } else {
      assert ids[0..] == ids;
      assert d.txs[t := Sweep(threshold, ids)] == d.txs;
    }
  }

  /** Locks are only added, and only for `t`. */
  ghost predicate Adds(d: Db, f: Db, t: nat) {
    && f.bookings == d.bookings && f.txs.Keys == d.txs.Keys
    && (forall u :: u in d.txs && u != t ==> f.txs[u] == d.txs[u])
    && (forall l :: l in d.locks ==> l in f.locks && f.locks[l] == d.locks[l])
    && (forall l :: l in f.locks && l !in d.locks ==> f.locks[l] == t)
  }

  lemma {:induction false} SkipsAll(d: Db, t: nat, threshold: Time, ids: seq<nat>, n: nat) returns (moves: seq<Move>)
    requires About(d, t, threshold, ids) && n < |ids| && forall k :: 0 <= k <= n ==> FreeFor(d, t, ids[k])
    ensures NoneBegins(moves) && Adds(d, Play(d, moves), t)
    ensures About(Play(d, moves), t, threshold, ids[n + 1..]) && Owns(Play(d, moves), t, BookingRow(ids[n]))
    decreases n
  {
    moves := [Acquire(t), Read(t, Skip)];
    SkipsOne(d, t, threshold, ids);
    if n > 0 {
      var f := Play(d, moves);
      var rest := SkipsAll(f, t, threshold, ids[1..], n - 1);
      PlayAppend(d, moves, rest);
      assert ids[1..][n..] == ids[n + 1..];
      moves := moves + rest;
    }
  }

  /** A sweep with a candidate that the other sweep has locked skips what is free and ends up waiting. */
  lemma {:induction false} RunsIntoLock(d: Db, t: nat, u: nat, threshold: Time, ids: seq<nat>, k: nat)
    returns (moves: seq<Move>)
    requires About(d, t, threshold, ids) && u in d.txs && t != u
    requires forall l :: l in d.locks ==> d.locks[l] == t || d.locks[l] == u
    requires k < |ids| && Owns(d, u, BookingRow(ids[k]))
    ensures NoneBegins(moves) && Adds(d, Play(d, moves), t) && WaitsFor(Play(d, moves), t, u)
    decreases k
  {
    moves := [];
    if !Owns(d, u, BookingRow(ids[0])) {
      moves := [Acquire(t), Read(t, Skip)];
      SkipsOne(d, t, threshold, ids);
      var rest := RunsIntoLock(Play(d, moves), t, u, threshold, ids[1..], k - 1);
      PlayAppend(d, moves, rest);
      moves := moves + rest;
    }
  }

  // ---------------------------------------------------------------- two lists that disagree

  /** The lists name two bookings in opposite orders. */
  predicate Disagree(l: seq<nat>, m: seq<nat>, i: nat, j: nat, k: nat, n: nat) {
    i < j < |l| && k < n < |m| && l[i] == m[n] && l[j] == m[k]
  }

  lemma BothBegin(d: Db, t: nat, u: nat, p: Time, q: Time, l: seq<nat>, m: seq<nat>)
    requires Idle(d) && t != u && Listed(d, p, l) && Listed(d, q, m) && p <= d.clock - HOLD && q <= d.clock - HOLD
    ensures Play(d, [Begin(t, SweepJob(p, l)), Begin(u, SweepJob(q, m))])
         == d.(txs := map[t := Sweep(p, l), u := Sweep(q, m)])
  {
    TwoMoves(d, Begin(t, SweepJob(p, l)), Begin(u, SweepJob(q, m)));
    assert Next(d, Begin(t, SweepJob(p, l))).txs == map[t := Sweep(p, l)];
  }

  /** The first sweep releases what it lists before l[i], and skips l[i]. */
  lemma FirstHoldsOne(d: Db, t: nat, p: Time, l: seq<nat>, i: nat) returns (moves: seq<Move>)
    requires About(d, t, p, l) && Listed(d, p, l) && i < |l| && d.locks == map[]
    ensures NoneBegins(moves)
    ensures var f := Play(d, moves);
            && f.locks == map[BookingRow(l[i]) := t] && f.txs == d.txs[t := Sweep(p, l[i + 1..])]
            && |f.bookings| == |d.bookings|
  {
    var freed := FreesAll(d, t, p, l, i);
    var f := Play(d, freed);
    var skip := [Acquire(t), Read(t, Skip)];
    SkipsOne(f, t, p, l[i..]);
    PlayAppend(d, freed, skip);
    assert l[i..][1..] == l[i + 1..];
    assert f.txs[t := Sweep(p, l[i + 1..])] == d.txs[t := Sweep(p, l[i + 1..])];
    moves := freed + skip;
  }

  /** Then the second sweep skips everything it lists up to m[k], without meeting the first. */
  lemma BothHold(d: Db, t: nat, u: nat, p: Time, q: Time, l: seq<nat>, m: seq<nat>, i: nat, k: nat)
    returns (moves: seq<Move>)
    requires Idle(d) && t != u && Listed(d, p, l) && Listed(d, q, m) && p <= d.clock - HOLD && q <= d.clock - HOLD
    requires i < |l| && k < |m| && l[i] !in m[..k + 1]
    ensures OnlyTheseSweep(moves, Begin(t, SweepJob(p, l)), Begin(u, SweepJob(q, m)))
    ensures var f := Play(d, moves);
            && About(f, t, p, l[i + 1..]) && Owns(f, t, BookingRow(l[i]))
            && About(f, u, q, m[k + 1..]) && Owns(f, u, BookingRow(m[k]))
            && forall r :: r in f.locks ==> f.locks[r] == t || f.locks[r] == u
  {
    var begun := [Begin(t, SweepJob(p, l)), Begin(u, SweepJob(q, m))];
    BothBegin(d, t, u, p, q, l, m);
    var start := Play(d, begun);
    var one := FirstHoldsOne(start, t, p, l, i);
    PlayAppend(d, begun, one);
    forall j | 0 <= j <= k ensures FreeFor(Play(start, one), u, m[j]) {
      assert m[..k + 1][j] == m[j];
    }
    var two := SkipsAll(Play(start, one), u, q, m, k);
    PlayAppend(d, begun + one, two);
    moves := begun + one + two;
  }

  lemma ConflictDeadlocks(d: Db, t: nat, u: nat, p: Time, q: Time, l: seq<nat>, m: seq<nat>,
                          i: nat, j: nat, k: nat, n: nat) returns (moves: seq<Move>)
    requires Idle(d) && t != u && Listed(d, p, l) && Listed(d, q, m) && p <= d.clock - HOLD && q <= d.clock - HOLD
    requires Disagree(l, m, i, j, k, n)
    ensures OnlyTheseSweep(moves, Begin(t, SweepJob(p, l)), Begin(u, SweepJob(q, m)))
    ensures Cycle(Play(d, moves), [t, u])
  {
    var both := BothHold(d, t, u, p, q, l, m, i, k);
    var held := Play(d, both);
    var one := RunsIntoLock(held, t, u, p, l[i + 1..], j - i - 1);
    PlayAppend(d, both, one);
    var two := RunsIntoLock(Play(held, one), u, t, q, m[k + 1..], n - k - 1);
    PlayAppend(d, both + one, two);
    moves := both + one + two;
    assert WaitsFor(Play(d, moves), t, u) && WaitsFor(Play(d, moves), u, t);
  }

  // ---------------------------------------------------------------- two lists that agree

  ghost predicate Agree(l: seq<nat>, m: seq<nat>) {
    forall i: nat, j: nat, k: nat, n: nat :: !Disagree(l, m, i, j, k, n)
  }

  /** The next booking of an order that fits both lists. */
  function Head(l: seq<nat>, m: seq<nat>): nat
    requires l != [] || m != []
  {
    if m == [] || (l != [] && l[0] !in m) then l[0] else m[0]
  }

  function Without(h: nat, ids: seq<nat>): seq<nat> {
    if ids != [] && ids[0] == h then ids[1..] else ids
  }

  /** Where the merge of both lists names a booking. */
  function Place(l: seq<nat>, m: seq<nat>, b: nat): nat
    decreases |l| + |m|
  {
    if l == [] && m == [] then 0
    else
      var h := Head(l, m);
      if b == h then 0 else 1 + Place(Without(h, l), Without(h, m), b)
  }

  lemma HeadGoesFirst(l: seq<nat>, m: seq<nat>)
    requires Distinct(l) && Distinct(m) && Agree(l, m) && (l != [] || m != [])
    ensures var h := Head(l, m); h !in Without(h, l) && h !in Without(h, m)
  {
    var h := Head(l, m);
    if h in Without(h, l) {
      var i :| 0 <= i < |l| && l[i] == h;
      var n :| 0 <= n < |m| && m[n] == l[0];
      assert Disagree(l, m, 0, i, 0, n);
    }
  }

  lemma SuffixesAgree(l: seq<nat>, m: seq<nat>, h: nat)
    requires Agree(l, m)
    ensures Agree(Without(h, l), Without(h, m))
  {
    var x, y := |l| - |Without(h, l)|, |m| - |Without(h, m)|;
    forall i: nat, j: nat, k: nat, n: nat ensures !Disagree(Without(h, l), Without(h, m), i, j, k, n) {
      assert !Disagree(l, m, i + x, j + x, k + y, n + y);
    }
  }

  lemma {:induction false} AgreeingListsFit(l: seq<nat>, m: seq<nat>)
    requires Distinct(l) && Distinct(m) && Agree(l, m)
    ensures Increasing(l, b => Place(l, m, b)) && Increasing(m, b => Place(l, m, b))
    decreases |l| + |m|
  {
    if l != [] || m != [] {
      var h := Head(l, m);
      HeadGoesFirst(l, m);
      SuffixesAgree(l, m, h);
      AgreeingListsFit(Without(h, l), Without(h, m));
      HeadFits(l, l, m);
      HeadFits(m, l, m);
    }
  }

  /** Putting the head back in front of a list keeps it in order. */
  lemma HeadFits(ids: seq<nat>, l: seq<nat>, m: seq<nat>)
    requires l != [] || m != []
    requires var h := Head(l, m);
             h !in Without(h, ids) && Increasing(Without(h, ids), b => Place(Without(h, l), Without(h, m), b))
    ensures Increasing(ids, b => Place(l, m, b))
  {
    var h := Head(l, m);
    var rest := Without(h, ids);
    var x := |ids| - |rest|;
    var place: Places := b => Place(Without(h, l), Without(h, m), b);
    forall i, j | 0 <= i < j < |ids| ensures Place(l, m, ids[i]) < Place(l, m, ids[j]) {
      assert ids[j] == rest[j - x] && ids[j] != h;
      if i >= x {
        assert ids[i] == rest[i - x] && ids[i] != h;
        assert place(rest[i - x]) < place(rest[j - x]);
      }
    }
  }

  // ---------------------------------------------------------------- exactly when two sweeps deadlock

  ghost predicate SomeOrderFits(l: seq<nat>, m: seq<nat>) {
    exists place: Places :: Increasing(l, place) && Increasing(m, place)
  }

  lemma AgreeingHasOrder(l: seq<nat>, m: seq<nat>)
    requires Distinct(l) && Distinct(m) && Agree(l, m)
    ensures SomeOrderFits(l, m)
  {
    AgreeingListsFit(l, m);
    assert Increasing(l, b => Place(l, m, b));
  }

  /** From `d` on, with these two sweeps and whatever else, a circular wait is reachable. */
  ghost predicate MayDeadlock(d: Db, one: Move, two: Move) {
    exists moves: seq<Move>, ts: seq<nat> :: OnlyTheseSweep(moves, one, two) && Cycle(Play(d, moves), ts)
  }

  /**
   * Two sweeps, started whenever, can reach a circular wait if and only if no order of the bookings fits both
   * candidate lists.
   */
  lemma TwoSweepsDeadlockExactly(d: Db, t: nat, u: nat, p: Time, q: Time, l: seq<nat>, m: seq<nat>)
    requires Idle(d) && t != u && Listed(d, p, l) && Listed(d, q, m) && p <= d.clock - HOLD && q <= d.clock - HOLD
    ensures MayDeadlock(d, Begin(t, SweepJob(p, l)), Begin(u, SweepJob(q, m))) <==> !SomeOrderFits(l, m)
  {
    var one, two := Begin(t, SweepJob(p, l)), Begin(u, SweepJob(q, m));
    if SomeOrderFits(l, m) {
      var place: Places :| Increasing(l, place) && Increasing(m, place);
      forall moves: seq<Move>, ts: seq<nat> | OnlyTheseSweep(moves, one, two) ensures !Cycle(Play(d, moves), ts) {
        assert SweepsFit(moves, place);
        FittingSweepsDeadlockFree(d, moves, ts, place);
      }
    } else {
      if Agree(l, m) {
        AgreeingHasOrder(l, m);
      }
      var i: nat, j: nat, k: nat, n: nat :| Disagree(l, m, i, j, k, n);
      var moves := ConflictDeadlocks(d, t, u, p, q, l, m, i, j, k, n);
      assert OnlyTheseSweep(moves, one, two) && Cycle(Play(d, moves), [t, u]);
    }
  }
}
