// The two aggregates the handlers ask of the booking table: tickets claimed from a service
// (confirmed plus unexpired pending, optionally counting one booking unconditionally) and
// unexpired pending holds of a user.

module Tally {
  import opened Entities

  datatype Query =
    | Claims(service: nat, now: Time, self: Option<nat>)
    | Holds(user: nat, now: Time)

  /** `created_at >= now - timedelta(minutes=HOLD_DURATION_MINUTES)` on a pending row. */
  predicate ActiveHold(bk: Booking, now: Time) {
    bk.status.Pending? && bk.createdAt >= now - HOLD
  }

  function Weight(q: Query, id: nat, bk: Booking): nat {
    match q
    case Claims(service, now, self) =>
      if bk.service == service && (bk.status.Confirmed? || self == Some(id) || ActiveHold(bk, now))
      then bk.quantity else 0
    case Holds(user, now) =>
      if bk.user == user && ActiveHold(bk, now) then 1 else 0
  }

  function Sum(q: Query, bookings: seq<Booking>): nat {
    if bookings == [] then 0
    else
      var last := |bookings| - 1;
      Sum(q, bookings[..last]) + Weight(q, last, bookings[last])
  }

  /** The `func.sum` the code runs, as the loop the database runs. */
  method ComputeSum(q: Query, bookings: seq<Booking>) returns (total: nat)
    ensures total == Sum(q, bookings)
  {
    total := 0;
    for k := 0 to |bookings|
      invariant total == Sum(q, bookings[..k])
    {
      assert bookings[..k + 1][..k] == bookings[..k];
      total := total + Weight(q, k, bookings[k]);
    }
    assert bookings[..|bookings|] == bookings;
  }

  /** Row-wise comparison of two tables of the same length, under two queries. */
  lemma {:induction false} SumLe(p: Query, before: seq<Booking>, q: Query, after: seq<Booking>)
    requires |before| == |after|
    requires forall k :: 0 <= k < |after| ==> Weight(p, k, before[k]) <= Weight(q, k, after[k])
    ensures Sum(p, before) <= Sum(q, after)
  {
    if before != [] {
      var last := |before| - 1;
      SumLe(p, before[..last], q, after[..last]);
    }
  }

  lemma {:induction false} SumZero(q: Query, bs: seq<Booking>)
    requires forall k :: 0 <= k < |bs| ==> Weight(q, k, bs[k]) == 0
    ensures Sum(q, bs) == 0
  {
    if bs != [] {
      SumZero(q, bs[..|bs| - 1]);
    }
  }

  lemma SumAppend(q: Query, bs: seq<Booking>, bk: Booking)
    ensures Sum(q, bs + [bk]) == Sum(q, bs) + Weight(q, |bs|, bk)
  {
    assert (bs + [bk])[..|bs|] == bs;
  }

  /** Replacing one row changes the sum by the difference of that row's weights. */
  lemma {:induction false} SumUpdate(q: Query, bs: seq<Booking>, b: nat, bk: Booking)
    requires b < |bs|
    ensures Sum(q, bs[b := bk]) == Sum(q, bs) - Weight(q, b, bs[b]) + Weight(q, b, bk)
  {
    var last := |bs| - 1;
    if b == last {
      assert bs[b := bk][..last] == bs[..last];
    } else {
      assert bs[b := bk][..last] == bs[..last][b := bk];
      SumUpdate(q, bs[..last], b, bk);
    }
  }

  lemma {:induction false} SumAtLeast(q: Query, bs: seq<Booking>, b: nat)
    requires b < |bs|
    ensures Weight(q, b, bs[b]) <= Sum(q, bs)
  {
    var last := |bs| - 1;
    if b != last {
      SumAtLeast(q, bs[..last], b);
      assert bs[..last][b] == bs[b];
    }
  }
}
