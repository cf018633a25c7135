// IPRateLimiting and check_email_and_otp_rate_limiting of app/core/redis.py: INCR and EXPIRE NX in one
// transaction, per key, with a fixed limit.

module RateLimiter {

  type Time = int

  /** A Redis counter with its expiry; past the expiry the key does not exist. */
  datatype Counter = Counter(count: nat, expiry: Time)

  /** INCR creates a missing key at 1; EXPIRE NX sets a time to live only where there is none. */
  function Hit(counters: map<string, Counter>, key: string, now: Time, window: nat): Counter {
    if key in counters && now < counters[key].expiry then Counter(counters[key].count + 1, counters[key].expiry)
    else Counter(1, now + window)
  }

  datatype Request = Request(key: string, at: Time)

  function After(requests: seq<Request>, window: nat): map<string, Counter> {
    if requests == [] then map[]
    else
      var last := |requests| - 1;
      var before := After(requests[..last], window);
      before[requests[last].key := Hit(before, requests[last].key, requests[last].at, window)]
  }

  predicate Admitted(requests: seq<Request>, k: nat, max: nat, window: nat)
    requires k < |requests|
  {
    Hit(After(requests[..k], window), requests[k].key, requests[k].at, window).count <= max
  }

  class Limiter {
    const maxRequests: nat
    const window: nat
    var counters: map<string, Counter>

    constructor (maxRequests: nat, window: nat)
      ensures this.maxRequests == maxRequests && this.window == window && counters == map[]
    {
      this.maxRequests, this.window := maxRequests, window;
      counters := map[];
    }

    /** True when the request goes through, false for 429. */
    method Admit(key: string, now: Time) returns (admitted: bool)
      modifies this`counters
      ensures counters == old(counters)[key := Hit(old(counters), key, now, window)]
      ensures admitted == (counters[key].count <= maxRequests)
    {
      if key in counters && counters[key].expiry <= now {
        counters := counters - {key};
      }
      if key in counters {
        counters := counters[key := counters[key].(count := counters[key].count + 1)];
      } else {
        counters := counters[key := Counter(1, now + window)];
      }
      admitted := counters[key].count <= maxRequests;
    }

    /** A whole trace of requests, oldest first. */
    method AdmitAll(requests: seq<Request>) returns (verdicts: seq<bool>)
      requires counters == map[]
      modifies this`counters
      ensures |verdicts| == |requests|
      ensures forall k :: 0 <= k < |requests| ==> verdicts[k] == Admitted(requests, k, maxRequests, window)
    {
      verdicts := [];
      for k := 0 to |requests|
        invariant |verdicts| == k
        invariant counters == After(requests[..k], window)
        invariant forall j :: 0 <= j < k ==> verdicts[j] == Admitted(requests, j, maxRequests, window)
      {
        var verdict := Admit(requests[k].key, requests[k].at);
        verdicts := verdicts + [verdict];
        assert requests[..k + 1][..k] == requests[..k];
      }
    }
  }

  /** Time does not run backwards. */
  predicate Chronological(requests: seq<Request>) {
    forall j, k :: 0 <= j < k < |requests| ==> requests[j].at <= requests[k].at
  }

  /** Admitted requests of one key with a time in [from, until]. */
  function AdmittedWithin(requests: seq<Request>, key: string, from: Time, until: Time, max: nat, window: nat): nat {
    if requests == [] then 0
    else
      var last := |requests| - 1;
      AdmittedWithin(requests[..last], key, from, until, max, window)
      + (if requests[last].key == key && from <= requests[last].at <= until
          && Admitted(requests, last, max, window) then 1 else 0)
  }

  /** Admitted requests of one key served by the counter that exists after the trace. */
  function AdmittedByCounter(requests: seq<Request>, key: string, max: nat, window: nat): nat {
    if requests == [] then 0
    else
      var last := |requests| - 1;
      var before := After(requests[..last], window);
      if requests[last].key != key then AdmittedByCounter(requests[..last], key, max, window)
      else
        (if key in before && requests[last].at < before[key].expiry
            then AdmittedByCounter(requests[..last], key, max, window) else 0)
        + (if Admitted(requests, last, max, window) then 1 else 0)
  }

  function Min(a: nat, b: nat): nat { if a <= b then a else b }

  /** One lifetime of a counter admits its first max requests and no other. */
  lemma {:induction false} LifetimeBound(requests: seq<Request>, key: string, max: nat, window: nat)
    ensures var after := After(requests, window);
            if key in after then AdmittedByCounter(requests, key, max, window) == Min(after[key].count, max)
                && after[key].count >= 1
            else AdmittedByCounter(requests, key, max, window) == 0
  {
    if requests != [] {
      LifetimeBound(requests[..|requests| - 1], key, max, window);
    }
  }

  /**
   * What is known about the interval [from, from + window] after a trace, by where the current counter
   * started: earlier counters admitted nothing in it when that was at or before `from`, at most the
   * limit when it was inside, and a counter that starts after it adds nothing.
   */
  ghost predicate IntervalSound(requests: seq<Request>, key: string, from: Time, max: nat, window: nat) {
    var after := After(requests, window);
    var total := AdmittedWithin(requests, key, from, from + window, max, window);
    if key !in after then total == 0
    else
      var start := after[key].expiry - window;
      && (after[key].expiry <= from ==> total == 0)
      && (start <= from ==> total <= Min(after[key].count, max))
      && (from < start <= from + window ==> total <= max + Min(after[key].count, max))
      && total <= 2 * max
      && (requests != [] ==> start <= requests[|requests| - 1].at)
  }

  lemma {:induction false} IntervalInvariant(requests: seq<Request>, key: string, from: Time, max: nat, window: nat)
    requires Chronological(requests) && window >= 1
    ensures IntervalSound(requests, key, from, max, window)
  {
    if requests != [] {
      var last := |requests| - 1;
      IntervalInvariant(requests[..last], key, from, max, window);
    }
  }

  /** Everything the current counter admitted came within a window before its expiry. */
  lemma {:induction false} CounterIsRecent(requests: seq<Request>, key: string, until: Time, max: nat, window: nat)
    requires Chronological(requests) && key in After(requests, window)
    requires requests != [] ==> requests[|requests| - 1].at <= until
    ensures AdmittedByCounter(requests, key, max, window)
         <= AdmittedWithin(requests, key, After(requests, window)[key].expiry - window, until, max, window)
  {
    if requests != [] {
      var last := |requests| - 1;
      var before := After(requests[..last], window);
      if key in before && (requests[last].key != key || requests[last].at < before[key].expiry) {
        CounterIsRecent(requests[..last], key, until, max, window);
      }
      CounterStarts(requests, key, window);
    }
  }

  /** A counter starts at the time of a request, at or before the last one. */
  lemma {:induction false} CounterStarts(requests: seq<Request>, key: string, window: nat)
    requires Chronological(requests) && key in After(requests, window)
    ensures requests != [] && After(requests, window)[key].expiry - window <= requests[|requests| - 1].at
  {
    var last := |requests| - 1;
    if requests[last].key != key || key in After(requests[..last], window) {
      if key in After(requests[..last], window) {
        CounterStarts(requests[..last], key, window);
      }
    }
  }

  /** Nobody is refused unless the limit was reached within the last window: refused requests do not extend it. */
  lemma NoUndueRefusal(requests: seq<Request>, k: nat, max: nat, window: nat)
    requires Chronological(requests) && window >= 1 && k < |requests|
    requires !Admitted(requests, k, max, window)
    ensures var r := requests[k];
            AdmittedWithin(requests[..k], r.key, r.at - window + 1, r.at, max, window) >= max
  {
    var key, at, before := requests[k].key, requests[k].at, requests[..k];
    var after := After(before, window);
    if max == 0 {
      return;
    }
    LifetimeBound(before, key, max, window);
    assert key in after && at < after[key].expiry && after[key].count >= max;
    CounterIsRecent(before, key, at, max, window);
    LaterStartAdmitsFewer(before, key, at - window + 1, after[key].expiry - window, at, max, window);
  }

  lemma {:induction false} LaterStartAdmitsFewer(requests: seq<Request>, key: string, from: Time, later: Time,
                                                 until: Time, max: nat, window: nat)
    requires from <= later
    ensures AdmittedWithin(requests, key, later, until, max, window)
         <= AdmittedWithin(requests, key, from, until, max, window)
  {
    if requests != [] {
      LaterStartAdmitsFewer(requests[..|requests| - 1], key, from, later, until, max, window);
    }
  }

  /** For any trace, a window-long interval admits at most twice the limit of any one key. */
  lemma WindowBound(requests: seq<Request>, key: string, from: Time, max: nat, window: nat)
    requires Chronological(requests) && window >= 1
    ensures AdmittedWithin(requests, key, from, from + window, max, window) <= 2 * max
  {
    IntervalInvariant(requests, key, from, max, window);
  }
}
