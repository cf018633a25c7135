// process_single_job and the drain loop of app/workers/worker.py. Enqueuing and requeuing push to the
// tail of queue:jobs and BRPOP pops the tail, so a failed job is the next one popped.

module Worker {

  /**
   * One queue entry as json.loads finds it: broken text, a value that is not an object, or a job. A job whose
   * payload is not an object raises before its handler is called.
   */
  datatype Raw =
    | Broken(text: string)
    | NotObject(text: string)
    | Job(id: nat, task: string, callable: bool, retries: int)

  const MAX_RETRIES := 3
  const HANDLERS := {"send_otp_email", "send_password_reset_email", "send_invoice_email", "send_cancellation_email"}

  /** The entry apart from its retry counter. */
  function Identity(raw: Raw): Raw {
    if raw.Job? then raw.(retries := 0) else raw
  }

  function Identities(raws: seq<Raw>): multiset<Raw> {
    if raws == [] then multiset{} else Identities(raws[..|raws| - 1]) + multiset{Identity(raws[|raws| - 1])}
  }

  /** How often the entry can still be popped. */
  function Attempts(raw: Raw): nat {
    if raw.Job? && raw.retries < MAX_RETRIES then MAX_RETRIES + 1 - raw.retries else 1
  }

  function AllAttempts(raws: seq<Raw>): nat {
    if raws == [] then 0 else AllAttempts(raws[..|raws| - 1]) + Attempts(raws[|raws| - 1])
  }

  lemma PushIdentity(raws: seq<Raw>, raw: Raw)
    ensures Identities(raws + [raw]) == Identities(raws) + multiset{Identity(raw)}
    ensures AllAttempts(raws + [raw]) == AllAttempts(raws) + Attempts(raw)
  {
    assert (raws + [raw])[..|raws|] == raws;
  }

  function CountOf(counts: map<nat, nat>, id: nat): nat {
    if id in counts then counts[id] else 0
  }

  predicate Handled(raw: Raw) { raw.Job? && raw.task in HANDLERS }

  ghost predicate DistinctJobs(raws: seq<Raw>) {
    forall j, k :: 0 <= j < k < |raws| && raws[j].Job? && raws[k].Job? ==> raws[j].id != raws[k].id
  }

  /** Whether the handler of a job raises at an attempt: both are numbered from 0. */
  type Oracle = (nat, nat) -> bool

  predicate RaisedSoFar(raises: Oracle, id: nat, attempts: nat) {
    forall a: nat :: a < attempts ==> raises(id, a)
  }

  /** A job still queued has been tried once per retry it counts, and its handler called as often if it can be. */
  ghost predicate Counted(raws: seq<Raw>, tries: map<nat, nat>, calls: map<nat, nat>, raises: Oracle) {
    forall k :: 0 <= k < |raws| && Handled(raws[k]) ==> QueuedRight(raws[k], tries, calls, raises)
  }

  ghost predicate QueuedRight(raw: Raw, tries: map<nat, nat>, calls: map<nat, nat>, raises: Oracle)
    requires raw.Job?
  {
    && 0 <= raw.retries <= 3
    && CountOf(tries, raw.id) == raw.retries
    && CountOf(calls, raw.id) == (if raw.callable then raw.retries else 0)
    && (raw.callable ==> RaisedSoFar(raises, raw.id, raw.retries))
  }

  /** A dead letter is malformed, or has been tried exactly four times and its handler raised, or was never called. */
  ghost predicate GivenUp(raws: seq<Raw>, tries: map<nat, nat>, calls: map<nat, nat>, raises: Oracle) {
    forall k :: 0 <= k < |raws| && raws[k].Job? ==> GivenUpRight(raws[k], tries, calls, raises)
  }

  ghost predicate GivenUpRight(raw: Raw, tries: map<nat, nat>, calls: map<nat, nat>, raises: Oracle)
    requires raw.Job?
  {
    && raw.task in HANDLERS
    && CountOf(tries, raw.id) == 4
    && CountOf(calls, raw.id) == (if raw.callable then 4 else 0)
    && (raw.callable ==> RaisedSoFar(raises, raw.id, 4))
  }

  /** A completed job's handler returned at one of the first four attempts, its last call, and raised before. */
  ghost predicate AllDone(raws: seq<Raw>, calls: map<nat, nat>, raises: Oracle) {
    forall k :: 0 <= k < |raws| ==> DoneRight(raws[k], calls, raises)
  }

  ghost predicate DoneRight(raw: Raw, calls: map<nat, nat>, raises: Oracle) {
    && raw.Job? && raw.task in HANDLERS && raw.callable
    && 1 <= CountOf(calls, raw.id) <= 4
    && RaisedSoFar(raises, raw.id, CountOf(calls, raw.id) - 1) && !raises(raw.id, CountOf(calls, raw.id) - 1)
  }

  /** Only jobs with an unknown task are discarded. */
  predicate AllUnknown(raws: seq<Raw>) {
    forall k :: 0 <= k < |raws| ==> raws[k].Job? && raws[k].task !in HANDLERS
  }

  /** No job is in both places. */
  ghost predicate Apart(jobs: seq<Raw>, others: seq<Raw>) {
    forall j, k :: 0 <= j < |jobs| && 0 <= k < |others| && jobs[j].Job? && others[k].Job? ==> jobs[j].id != others[k].id
  }

  /** No job is tried, and no handler called for it, more than four times. */
  ghost predicate Bounded(tries: map<nat, nat>, calls: map<nat, nat>) {
    forall id: nat :: CountOf(calls, id) <= CountOf(tries, id) <= 4
  }

  ghost predicate Sound(jobs: seq<Raw>, dead: seq<Raw>, done: seq<Raw>, tries: map<nat, nat>, calls: map<nat, nat>,
                        raises: Oracle) {
    && DistinctJobs(jobs) && Apart(jobs, dead) && Apart(jobs, done)
    && Counted(jobs, tries, calls, raises) && GivenUp(dead, tries, calls, raises) && AllDone(done, calls, raises)
    && Bounded(tries, calls)
  }

  /** The attempt ends with an exception: from the payload, or from the handler if `raises` says so. */
  predicate Fails(raw: Raw, raises: bool) {
    raw.Job? && (raises || !raw.callable)
  }

  /** What the oracle says about the attempt that a job's retry counter stands for. */
  predicate RaisesNow(raw: Raw, raises: Oracle) {
    raw.Job? && raw.retries >= 0 && raises(raw.id, raw.retries)
  }

  /** What goes back to the queue, to the dead letter list, and into the counts of attempts and handler calls. */
  function Requeued(raw: Raw, raises: bool): seq<Raw> {
    if Handled(raw) && Fails(raw, raises) && raw.retries + 1 <= MAX_RETRIES
    then [raw.(retries := raw.retries + 1)] else []
  }

  function Buried(raw: Raw, raises: bool): seq<Raw> {
    if !raw.Job? || (Handled(raw) && Fails(raw, raises) && raw.retries + 1 > MAX_RETRIES) then [raw] else []
  }

  function Tried(tries: map<nat, nat>, raw: Raw): map<nat, nat> {
    if Handled(raw) then tries[raw.id := CountOf(tries, raw.id) + 1] else tries
  }

  function Called(calls: map<nat, nat>, raw: Raw): map<nat, nat> {
    if Handled(raw) && raw.callable then calls[raw.id := CountOf(calls, raw.id) + 1] else calls
  }

  function Completed(raw: Raw, raises: bool): seq<Raw> {
    if Handled(raw) && !Fails(raw, raises) then [raw] else []
  }

  function Discarded(raw: Raw): seq<Raw> {
    if raw.Job? && !Handled(raw) then [raw] else []
  }

  lemma AttemptEnds(raw: Raw, raises: bool, done: bool)
    requires done <==> raw.Job? && raw.task in HANDLERS && raw.callable && !raises
    ensures Completed(raw, raises) == if done then [raw] else []
    ensures Discarded(raw) == if raw.Job? && raw.task !in HANDLERS then [raw] else []
    ensures Requeued(raw, raises) ==
              if raw.Job? && raw.task in HANDLERS && !done && raw.retries < 3
              then [raw.(retries := raw.retries + 1)] else []
    ensures Buried(raw, raises) ==
              if !raw.Job? || (raw.task in HANDLERS && !done && raw.retries >= 3) then [raw] else []
  {}

  /** One turn keeps every count, and what is known about each job's attempts. */
  lemma TurnSound(rest: seq<Raw>, raw: Raw, dead: seq<Raw>, done: seq<Raw>, tries: map<nat, nat>,
                  calls: map<nat, nat>, raises: Oracle)
    requires Sound(rest + [raw], dead, done, tries, calls, raises)
    ensures var now := RaisesNow(raw, raises);
            Sound(rest + Requeued(raw, now), dead + Buried(raw, now), done + Completed(raw, now),
                  Tried(tries, raw), Called(calls, raw), raises)
  {
    var now := RaisesNow(raw, raises);
    RestIsApart(rest, raw, dead, done);
    TurnApart(rest, raw, dead, done, now);
    if Handled(raw) {
      assert (rest + [raw])[|rest|] == raw;
      assert QueuedRight(raw, tries, calls, raises);
    }
    var jobs, tries', calls' := rest + Requeued(raw, now), Tried(tries, raw), Called(calls, raw);
    forall k | 0 <= k < |jobs| && Handled(jobs[k]) ensures QueuedRight(jobs[k], tries', calls', raises) {
      if k < |rest| {
        assert (rest + [raw])[k] == rest[k];
      }
    }
    TurnEnds(raw, dead, done, tries, calls, raises);
  }

  /** The other queued jobs, the dead letters and the completed jobs are not the one popped. */
  lemma RestIsApart(rest: seq<Raw>, raw: Raw, dead: seq<Raw>, done: seq<Raw>)
    requires DistinctJobs(rest + [raw]) && Apart(rest + [raw], dead) && Apart(rest + [raw], done)
    ensures DistinctJobs(rest) && Apart(rest, dead) && Apart(rest, done)
    ensures raw.Job? ==> Apart(rest, [raw]) && Apart([raw], dead) && Apart([raw], done)
  {
    var all := rest + [raw];
    assert all[|rest|] == raw;
    assert forall k :: 0 <= k < |rest| ==> all[k] == rest[k];
  }

  /** After a turn too, no job is in two places. */
  lemma TurnApart(rest: seq<Raw>, raw: Raw, dead: seq<Raw>, done: seq<Raw>, now: bool)
    requires DistinctJobs(rest) && Apart(rest, dead) && Apart(rest, done)
    requires raw.Job? ==> Apart(rest, [raw]) && Apart([raw], dead) && Apart([raw], done)
    ensures DistinctJobs(rest + Requeued(raw, now))
    ensures Apart(rest + Requeued(raw, now), dead + Buried(raw, now))
    ensures Apart(rest + Requeued(raw, now), done + Completed(raw, now))
  {
    if Requeued(raw, now) != [] {
      assert forall j :: 0 <= j < |rest| && rest[j].Job? ==> rest[j].id != [raw][0].id;
      assert forall k :: 0 <= k < |dead| && dead[k].Job? ==> [raw][0].id != dead[k].id;
      assert forall k :: 0 <= k < |done| && done[k].Job? ==> [raw][0].id != done[k].id;
    }
  }

  lemma UnknownAppend(gone: seq<Raw>, raw: Raw)
    requires AllUnknown(gone)
    ensures AllUnknown(gone + Discarded(raw))
  {}

  lemma TurnEnds(raw: Raw, dead: seq<Raw>, done: seq<Raw>, tries: map<nat, nat>, calls: map<nat, nat>, raises: Oracle)
    requires Handled(raw) ==> QueuedRight(raw, tries, calls, raises)
    requires raw.Job? ==> Apart([raw], dead) && Apart([raw], done)
    requires GivenUp(dead, tries, calls, raises) && AllDone(done, calls, raises)
    ensures var now := RaisesNow(raw, raises);
            && GivenUp(dead + Buried(raw, now), Tried(tries, raw), Called(calls, raw), raises)
            && AllDone(done + Completed(raw, now), Called(calls, raw), raises)
  {
    var now := RaisesNow(raw, raises);
    var graves, finished := dead + Buried(raw, now), done + Completed(raw, now);
    forall k | 0 <= k < |graves| && graves[k].Job?
      ensures GivenUpRight(graves[k], Tried(tries, raw), Called(calls, raw), raises)
    {
      if k < |dead| {
        assert GivenUpRight(dead[k], tries, calls, raises);
        assert raw.Job? ==> [raw][0].id != dead[k].id;
      }
    }
    forall k | 0 <= k < |finished| ensures DoneRight(finished[k], Called(calls, raw), raises) {
      if k < |done| {
        assert DoneRight(done[k], calls, raises);
        assert raw.Job? ==> [raw][0].id != done[k].id;
      }
    }
  }

  /** One turn uses up an attempt. */
  lemma TurnUsesAttempt(rest: seq<Raw>, raw: Raw, raises: bool)
    ensures AllAttempts(rest + Requeued(raw, raises)) < AllAttempts(rest + [raw])
  {
    PushIdentity(rest, raw);
    if Requeued(raw, raises) == [] {
      assert rest + [] == rest;
    } else {
      PushIdentity(rest, Requeued(raw, raises)[0]);
    }
  }

  /** An entry lands in exactly one of the four places. */
  lemma LandsOnce(raw: Raw, raises: bool)
    ensures Identities(Requeued(raw, raises)) + Identities(Buried(raw, raises))
         + Identities(Completed(raw, raises)) + Identities(Discarded(raw)) == multiset{Identity(raw)}
  {
    PushIdentity([], raw);
    PushIdentity([], if raw.Job? then raw.(retries := raw.retries + 1) else raw);
    assert [] + [raw] == [raw];
    assert raw.Job? ==> [] + [raw.(retries := raw.retries + 1)] == [raw.(retries := raw.retries + 1)];
  }

  /** Appending at most one entry adds what it counts for. */
  lemma IdentitiesAppend(left: seq<Raw>, right: seq<Raw>)
    requires |right| <= 1
    ensures Identities(left + right) == Identities(left) + Identities(right)
  {
    if right == [] {
      assert left + right == left;
    } else {
      assert right == [right[0]] && [] + right == right;
      PushIdentity(left, right[0]);
      PushIdentity([], right[0]);
    }
  }

  lemma Regroup(a: multiset<Raw>, b: multiset<Raw>, c: multiset<Raw>, d: multiset<Raw>,
                w: multiset<Raw>, x: multiset<Raw>, y: multiset<Raw>, z: multiset<Raw>)
    ensures (a + w) + (b + x) + (c + y) + (d + z) == (a + (w + x + y + z)) + b + c + d
  {
    var left, right := (a + w) + (b + x) + (c + y) + (d + z), (a + (w + x + y + z)) + b + c + d;
    forall raw: Raw
      ensures left[raw] == right[raw]
    {
      assert left[raw] == a[raw] + w[raw] + b[raw] + x[raw] + c[raw] + y[raw] + d[raw] + z[raw];
    }
  }

  /** Popping an entry and putting it where it belongs loses and invents nothing. */
  lemma {:induction false} TurnConserves(rest: seq<Raw>, raw: Raw, dead: seq<Raw>, done: seq<Raw>, gone: seq<Raw>,
                                         raises: bool)
    ensures Identities(rest + Requeued(raw, raises)) + Identities(dead + Buried(raw, raises))
         + Identities(done + Completed(raw, raises)) + Identities(gone + Discarded(raw))
         == Identities(rest + [raw]) + Identities(dead) + Identities(done) + Identities(gone)
  {
    IdentitiesAppend(rest, Requeued(raw, raises));
    IdentitiesAppend(dead, Buried(raw, raises));
    IdentitiesAppend(done, Completed(raw, raises));
    IdentitiesAppend(gone, Discarded(raw));
    PushIdentity(rest, raw);
    LandsOnce(raw, raises);
    Regroup(Identities(rest), Identities(dead), Identities(done), Identities(gone),
      Identities(Requeued(raw, raises)), Identities(Buried(raw, raises)),
      Identities(Completed(raw, raises)), Identities(Discarded(raw)));
  }

  /** The same entry, whatever its retry counter says. */
  predicate SameEntry(a: Raw, b: Raw) {
    if a.Job? && b.Job? then a.id == b.id && a.task == b.task && a.callable == b.callable else a == b
  }

  ghost predicate Among(raw: Raw, raws: seq<Raw>) {
    exists k :: 0 <= k < |raws| && SameEntry(raw, raws[k])
  }

  lemma {:induction false} InIdentities(raws: seq<Raw>, raw: Raw)
    ensures Identity(raw) in Identities(raws) <==> Among(raw, raws)
  {
    if raws != [] {
      var last := |raws| - 1;
      InIdentities(raws[..last], raw);
      if Among(raw, raws) && !SameEntry(raw, raws[last]) {
        var k :| 0 <= k < |raws| && SameEntry(raw, raws[k]);
        assert raws[..last][k] == raws[k];
      }
    }
  }

  lemma {:induction false} IdentitiesSize(raws: seq<Raw>)
    ensures |Identities(raws)| == |raws|
  {
    if raws != [] {
      IdentitiesSize(raws[..|raws| - 1]);
    }
  }

  /** Conservation entry by entry: as many in the three places as there were, and each of them in one. */
  lemma EveryEntryEnds(jobs: seq<Raw>, done: seq<Raw>, gone: seq<Raw>, dead: seq<Raw>)
    requires Identities(jobs) == Identities(done) + Identities(gone) + Identities(dead)
    ensures |jobs| == |done| + |gone| + |dead|
    ensures forall k :: 0 <= k < |jobs| ==> Among(jobs[k], done) || Among(jobs[k], gone) || Among(jobs[k], dead)
  {
    IdentitiesSize(jobs);
    IdentitiesSize(done);
    IdentitiesSize(gone);
    IdentitiesSize(dead);
    forall k | 0 <= k < |jobs|
      ensures Among(jobs[k], done) || Among(jobs[k], gone) || Among(jobs[k], dead)
    {
      assert SameEntry(jobs[k], jobs[k]);
      InIdentities(jobs, jobs[k]);
      InIdentities(done, jobs[k]);
      InIdentities(gone, jobs[k]);
      InIdentities(dead, jobs[k]);
    }
  }

  class Queue {
    var jobs: seq<Raw>
    var deadLetter: seq<Raw>
    ghost var completed: seq<Raw>
    ghost var discarded: seq<Raw>
    ghost var tries: map<nat, nat>  // how often each job was attempted
    ghost var calls: map<nat, nat>  // how often its handler was called

    constructor (jobs: seq<Raw>)
      ensures this.jobs == jobs && deadLetter == [] && completed == [] && discarded == []
      ensures tries == map[] && calls == map[]
    {
      this.jobs, deadLetter := jobs, [];
      completed, discarded, tries, calls := [], [], map[], map[];
    }

    /** Everything ever put into the queue, wherever it is now. */
    ghost function Everything(): multiset<Raw>
      reads this
    {
      Identities(jobs) + Identities(deadLetter) + Identities(completed) + Identities(discarded)
    }

    /** `raises` says whether the handler, if it is called, raises this time. */
    method ProcessSingleJob(raw: Raw, raises: bool) returns (done: bool)
      modifies this
      // true exactly for a known task whose handler was called and returned
      ensures done <==> raw.Job? && raw.task in HANDLERS && raw.callable && !raises
      ensures tries == Tried(old(tries), raw) && calls == Called(old(calls), raw)
      // what fails goes back to the queue with one more retry, or to the dead letters as it was, with what is malformed
      ensures jobs == old(jobs) + (if raw.Job? && raw.task in HANDLERS && !done && raw.retries < 3
                                   then [raw.(retries := raw.retries + 1)] else [])
      ensures deadLetter == old(deadLetter) + (if !raw.Job? || (raw.task in HANDLERS && !done && raw.retries >= 3)
                                               then [raw] else [])
      ensures completed == old(completed) + (if done then [raw] else [])
      ensures discarded == old(discarded) + (if raw.Job? && raw.task !in HANDLERS then [raw] else [])
    {
      if raw.Job? {
        if raw.task !in HANDLERS {
          discarded := discarded + [raw];
          return false;
        }
        tries := tries[raw.id := CountOf(tries, raw.id) + 1];
        if raw.callable {
          calls := calls[raw.id := CountOf(calls, raw.id) + 1];
          if !raises {
            completed := completed + [raw];
            return true;
          }
        }
      }
      var retries := if raw.Job? then raw.retries + 1 else 99;
      if retries <= MAX_RETRIES && raw.Job? {
        jobs := jobs + [raw.(retries := retries)];
      } else {
        deadLetter := deadLetter + [raw];
      }
      return false;
    }

    /** BRPOP, then the job: nothing is lost or invented, some attempt is used up, and every count is kept. */
    method Turn(raises: Oracle)
      requires jobs != [] && Sound(jobs, deadLetter, completed, tries, calls, raises) && AllUnknown(discarded)
      modifies this
      ensures Everything() == old(Everything())
      ensures AllAttempts(jobs) < AllAttempts(old(jobs))
      ensures Sound(jobs, deadLetter, completed, tries, calls, raises) && AllUnknown(discarded)
    {
      var raw := jobs[|jobs| - 1];
      jobs := jobs[..|jobs| - 1];
      assert old(jobs) == jobs + [raw];
      var now := RaisesNow(raw, raises);
      TurnSound(jobs, raw, deadLetter, completed, tries, calls, raises);
      TurnUsesAttempt(jobs, raw, now);
      TurnConserves(jobs, raw, deadLetter, completed, discarded, now);
      UnknownAppend(discarded, raw);
      var done := ProcessSingleJob(raw, now);
      AttemptEnds(raw, now, done);
    }

    /**
     * The loop with no new jobs arriving: it terminates, every entry ends up in exactly one place, and which one
     * depends on the entry and its handler alone. Unknown tasks are discarded. A job whose handler returns at one of
     * its first four attempts is completed by the first that does, and called no more. Dead letters are malformed
     * entries, and jobs tried four times whose handler raised each time or could not be called at all.
     */
    method Drain(raises: Oracle)
      requires deadLetter == [] && completed == [] && discarded == [] && tries == map[] && calls == map[]
      requires DistinctJobs(jobs) && forall k :: 0 <= k < |jobs| && jobs[k].Job? ==> jobs[k].retries == 0
      modifies this
      ensures jobs == []
      ensures Identities(old(jobs)) == Identities(completed) + Identities(discarded) + Identities(deadLetter)
      ensures |old(jobs)| == |completed| + |discarded| + |deadLetter|
      ensures forall k :: 0 <= k < |old(jobs)| ==>
                var raw := old(jobs)[k]; Among(raw, completed) || Among(raw, discarded) || Among(raw, deadLetter)
      ensures Bounded(tries, calls)
      ensures AllDone(completed, calls, raises) && AllUnknown(discarded) && GivenUp(deadLetter, tries, calls, raises)
    {
      while jobs != []
        invariant Everything() == Identities(old(jobs))
        invariant Sound(jobs, deadLetter, completed, tries, calls, raises) && AllUnknown(discarded)
        decreases AllAttempts(jobs)
      {
        Turn(raises);
      }
      EveryEntryEnds(old(jobs), completed, discarded, deadLetter);
    }
  }
}
