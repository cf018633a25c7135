// The token-guarded lease: distributed_lock of app/core/redis.py and the leader lock of
// app/core/cache.py. Any number of workers interleave single Redis commands and clock ticks.

module Lease {
  import opened Entities

  /** Where a worker is; each worker draws a fresh token, so its number stands for the token. */
  datatype Phase = Inside(since: Time) | Left

  /** The Redis key: its token and the instant it expires. */
  datatype Key = Key(token: nat, expiry: Time)

  datatype World = World(key: Option<Key>, workers: map<nat, Phase>, now: Time)

  datatype Command =
    | TryAcquire(worker: nat)  // SET key token NX EX ttl
    | Release(worker: nat)     // compare the token, then delete
    | Crash(worker: nat)       // the release never reaches Redis
    | Tick(later: Time)

  predicate Taken(w: World) {
    w.key.Some? && w.now < w.key.value.expiry
  }

  function Next(w: World, c: Command, ttl: Time): World {
    match c
    case TryAcquire(i) =>
      if i in w.workers || Taken(w) then w
      else World(Some(Key(i, w.now + ttl)), w.workers[i := Inside(w.now)], w.now)
    case Release(i) =>
      if i !in w.workers || w.workers[i].Left? then w
      else
        var mine := Taken(w) && w.key.value.token == i;
        World(if mine then None else w.key, w.workers[i := Left], w.now)
    case Crash(i) => if i in w.workers then w.(workers := w.workers[i := Left]) else w
    case Tick(later) => if later < w.now then w else w.(now := later)
  }

  function Play(w: World, cs: seq<Command>, ttl: Time): World
    decreases |cs|
  {
    if cs == [] then w else Next(Play(w, cs[..|cs| - 1], ttl), cs[|cs| - 1], ttl)
  }

  predicate In(w: World, i: nat) {
    i in w.workers && w.workers[i].Inside?
  }

  /** Inside and still within its lease. */
  predicate Timely(w: World, i: nat, ttl: Time) {
    In(w, i) && w.now < w.workers[i].since + ttl
  }

  ghost predicate Good(w: World, ttl: Time) {
    && (forall i :: Timely(w, i, ttl) ==> w.key == Some(Key(i, w.workers[i].since + ttl)))
    && (forall i :: In(w, i) ==> w.workers[i].since <= w.now)
    && (w.key.Some? ==> w.key.value.token in w.workers && w.key.value.expiry <= w.now + ttl)
    && (forall i, j :: In(w, i) && In(w, j) && i != j ==>
          w.workers[i].since + ttl <= w.workers[j].since || w.workers[j].since + ttl <= w.workers[i].since)
  }

  lemma NextKeeps(w: World, c: Command, ttl: Time)
    requires Good(w, ttl) && ttl > 0
    ensures Good(Next(w, c, ttl), ttl)
  {
    match c
    case TryAcquire(i) => AcquireKeeps(w, i, ttl);
    case Release(i) => ReleaseKeeps(w, i, ttl);
    case _ =>
  }

  /** Whoever is let in, everybody else inside has outlived its lease. */
  lemma AcquireKeeps(w: World, i: nat, ttl: Time)
    requires Good(w, ttl) && ttl > 0
    ensures Good(Next(w, TryAcquire(i), ttl), ttl)
  {
    if i !in w.workers && !Taken(w) {
      forall j | In(w, j) ensures w.workers[j].since + ttl <= w.now {
        assert !Timely(w, j, ttl);
      }
    }
  }

  lemma ReleaseKeeps(w: World, i: nat, ttl: Time)
    requires Good(w, ttl) && ttl > 0
    ensures Good(Next(w, Release(i), ttl), ttl)
  {
    if !In(w, i) {
      return;
    }
    var w' := Next(w, Release(i), ttl);
    forall j | In(w', j) ensures In(w, j) && j != i && w'.workers[j] == w.workers[j] {}
    forall j | Timely(w', j, ttl) ensures w'.key == Some(Key(j, w'.workers[j].since + ttl)) {
      assert Timely(w, j, ttl);
    }
  }

  ghost predicate Fresh(w: World) { w.key == None && w.workers == map[] }

  lemma {:induction false} PlayKeeps(w: World, cs: seq<Command>, ttl: Time)
    requires Fresh(w) && ttl > 0
    ensures Good(Play(w, cs, ttl), ttl)
    decreases |cs|
  {
    if cs != [] {
      PlayKeeps(w, cs[..|cs| - 1], ttl);
      NextKeeps(Play(w, cs[..|cs| - 1], ttl), cs[|cs| - 1], ttl);
    }
  }

  /**
   * After every run: two workers are inside together only if one of them entered after the other's
   * whole lease had run out, so workers within their lease are alone.
   */
  lemma OverlapNeedsOverrun(start: World, cs: seq<Command>, ttl: Time, i: nat, j: nat)
    requires Fresh(start) && ttl > 0
    requires var w := Play(start, cs, ttl); In(w, i) && In(w, j) && i != j
    ensures var w := Play(start, cs, ttl);
      || w.workers[i].since + ttl <= w.workers[j].since <= w.now
      || w.workers[j].since + ttl <= w.workers[i].since <= w.now
    ensures !(Timely(Play(start, cs, ttl), i, ttl) && Timely(Play(start, cs, ttl), j, ttl))
  {
    PlayKeeps(start, cs, ttl);
  }

  /** Nobody gets in beside a worker within its lease, and its late predecessors cannot open the door. */
  lemma TimelyHolderIsSafe(start: World, cs: seq<Command>, ttl: Time, i: nat, c: Command)
    requires Fresh(start) && ttl > 0 && Timely(Play(start, cs, ttl), i, ttl)
    requires c.TryAcquire? || (c.Release? && c.worker != i)
    ensures var w := Play(start, cs, ttl); var w' := Next(w, c, ttl);
      w'.key == w.key && Timely(w', i, ttl) && (forall j :: In(w', j) ==> In(w, j))
  {
    PlayKeeps(start, cs, ttl);
  }

  /** A worker that releases within its lease frees the key at once: the next one gets in at the same instant. */
  lemma ReleaseLetsTheNextIn(start: World, cs: seq<Command>, ttl: Time, i: nat, j: nat)
    requires Fresh(start) && ttl > 0 && Timely(Play(start, cs, ttl), i, ttl) && j !in Play(start, cs, ttl).workers
    ensures var w := Play(start, cs, ttl);
            var released := Next(w, Release(i), ttl);
            var next := Next(released, TryAcquire(j), ttl);
            && released.key == None && !In(released, i)
            && In(next, j) && next.key == Some(Key(j, w.now + ttl))
            && Timely(next, j, ttl) && forall k :: In(next, k) ==> k == j || In(w, k)
  {
    PlayKeeps(start, cs, ttl);
  }

  /** Whoever crashed while holding it, a lease is up for grabs after one lifetime. */
  lemma CrashesDoNotBlock(start: World, cs: seq<Command>, ttl: Time, i: nat)
    requires Fresh(start) && ttl > 0 && i !in Play(start, cs, ttl).workers
    ensures var later := Next(Play(start, cs, ttl), Tick(Play(start, cs, ttl).now + ttl), ttl);
      Timely(Next(later, TryAcquire(i), ttl), i, ttl)
  {
    PlayKeeps(start, cs, ttl);
  }
}
