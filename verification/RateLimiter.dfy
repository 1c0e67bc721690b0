/**
 The sliding-window rate limiter (sandbox/rate-limit.ts; dashboard/lib/rate-limit.ts is the same).

 A run is a sequence of requests, each a key and the clock when it came. Times are whole
 milliseconds. `resetSec` is `None` where the source computes NaN: a limit of zero or less refuses
 everything and has no oldest request to wait for.
*/
module RateLimiter {
  import opened Wrappers
  import Collections

  datatype Outcome = Admitted | Refused(resetSec: Option<int>)
  datatype Request = Request(key: string, t: int)
  datatype Limit = Limit(max: int, windowMs: int)

  function Ceil(n: int, d: int): int
    requires d > 0
  {
    -((-n) / d)
  }

  /** The ring without the times that left the window. */
  function Expire(ring: seq<int>, cutoff: int): (r: seq<int>)
    ensures r == [] || r[0] > cutoff
    ensures |r| <= |ring| && r == ring[|ring| - |r|..]
    ensures forall i :: 0 <= i < |ring| - |r| ==> ring[i] <= cutoff
    decreases |ring|
  {
    if ring != [] && ring[0] <= cutoff then Expire(ring[1..], cutoff) else ring
  }

  /** Whole seconds until the oldest live request leaves the window, at least one. */
  function ResetSec(l: Limit, live: seq<int>, t: int): Option<int> {
    if live == [] then None
    else var s := Ceil(live[0] + l.windowMs - t, 1000); Some(if s > 1 then s else 1)
  }

  function CheckRing(l: Limit, ring: seq<int>, t: int): (Outcome, seq<int>) {
    var live := Expire(ring, t - l.windowMs);
    if |live| >= l.max then (Refused(ResetSec(l, live, t)), live) else (Admitted, live + [t])
  }

  // ---- One key -------------------------------------------------------------------------------

  /** All requests on one key: the ring, and the times of every request ever admitted. */
  datatype Track = Track(ring: seq<int>, admitted: seq<int>)

  function TrackStep(l: Limit, x: Track, t: int): Track {
    var (outcome, ring) := CheckRing(l, x.ring, t);
    Track(ring, if outcome.Admitted? then x.admitted + [t] else x.admitted)
  }

  function TrackOf(l: Limit, ts: seq<int>): Track {
    if ts == [] then Track([], []) else TrackStep(l, TrackOf(l, ts[..|ts| - 1]), ts[|ts| - 1])
  }

  // ---- All keys ------------------------------------------------------------------------------

  function RingOf(buckets: map<string, seq<int>>, key: string): seq<int> { if key in buckets then buckets[key] else [] }

  function BucketsOf(l: Limit, rs: seq<Request>): map<string, seq<int>> {
    if rs == [] then map[]
    else
      var b, r := BucketsOf(l, rs[..|rs| - 1]), rs[|rs| - 1];
      b[r.key := CheckRing(l, RingOf(b, r.key), r.t).1]
  }

  lemma BucketsStep(l: Limit, rs: seq<Request>, r: Request)
    ensures BucketsOf(l, rs + [r]) ==
            BucketsOf(l, rs)[r.key := CheckRing(l, RingOf(BucketsOf(l, rs), r.key), r.t).1]
  {
    assert (rs + [r])[..|rs|] == rs;
  }

  /** The clock at each request on one key. */
  function TimesOf(rs: seq<Request>, key: string): seq<int> {
    if rs == [] then []
    else TimesOf(rs[..|rs| - 1], key) + if rs[|rs| - 1].key == key then [rs[|rs| - 1].t] else []
  }

  /** Keys do not affect each other: what the limiter holds for a key is made by that key's requests. */
  lemma {:induction false} KeysAreIndependent(l: Limit, rs: seq<Request>, key: string)
    ensures RingOf(BucketsOf(l, rs), key) == TrackOf(l, TimesOf(rs, key)).ring
    decreases |rs|
  {
    if rs != [] {
      var init, r := rs[..|rs| - 1], rs[|rs| - 1];
      KeysAreIndependent(l, init, key);
      var ts := TimesOf(init, key);
      hide CheckRing;
      if r.key == key {
        assert (ts + [r.t])[..|ts|] == ts;
      } else {
        assert TimesOf(rs, key) == ts;
      }
    }
  }

  // ---- What a nondecreasing clock keeps ------------------------------------------------------

  ghost predicate Sorted(ts: seq<int>) { forall i, j :: 0 <= i <= j < |ts| ==> ts[i] <= ts[j] }

  /** Of any two admissions `max` or more places apart, the later came a whole window after the earlier. */
  ghost predicate Spaced(l: Limit, ts: seq<int>) {
    forall i, j :: 0 <= i < j < |ts| && i + l.max <= j ==> ts[i] + l.windowMs <= ts[j]
  }

  /** `ring` is the tail of `ts` that is left when the times up to `cutoff` are dropped. */
  ghost predicate TailAfter(ts: seq<int>, ring: seq<int>, cutoff: int) {
    && |ring| <= |ts| && ring == ts[|ts| - |ring|..]
    && forall i :: 0 <= i < |ts| - |ring| ==> ts[i] <= cutoff
  }

  ghost predicate Inv(l: Limit, x: Track, now: int) {
    && Sorted(x.admitted) && UpTo(x.admitted, now)
    && TailAfter(x.admitted, x.ring, now - l.windowMs) && Spaced(l, x.admitted)
  }

  /** Dropping the oldest of a ring whose oldest is not after `cutoff`. */
  lemma DropOldest(ts: seq<int>, ring: seq<int>, cutoff: int)
    requires TailAfter(ts, ring, cutoff) && ring != [] && ring[0] <= cutoff
    ensures TailAfter(ts, ring[1..], cutoff)
  {
    var n := |ts| - |ring|;
    assert ring[0] == ts[n] && ring[1..] == ts[n + 1..];
  }

  lemma OldestIsLeast(ts: seq<int>, ring: seq<int>, cutoff: int)
    requires Sorted(ts) && TailAfter(ts, ring, cutoff) && ring != [] && ring[0] > cutoff
    ensures AllAfter(ring, cutoff)
  {
    var n := |ts| - |ring|;
    forall i | 0 <= i < |ring| ensures ring[i] > cutoff { assert ring[i] == ts[n + i] && ring[0] == ts[n]; }
  }

  lemma {:induction false} ExpireKeepsTail(ts: seq<int>, ring: seq<int>, before: int, cutoff: int)
    requires Sorted(ts) && TailAfter(ts, ring, before) && before <= cutoff
    ensures TailAfter(ts, Expire(ring, cutoff), cutoff) && AllAfter(Expire(ring, cutoff), cutoff)
    decreases |ring|
  {
    assert TailAfter(ts, ring, cutoff);
    hide Sorted, TailAfter;
    if ring != [] && ring[0] <= cutoff {
      DropOldest(ts, ring, cutoff);
      ExpireKeepsTail(ts, ring[1..], cutoff, cutoff);
    } else if ring != [] {
      OldestIsLeast(ts, ring, cutoff);
    }
  }

  lemma PushKeeps(l: Limit, ts: seq<int>, live: seq<int>, t: int)
    requires Sorted(ts) && Spaced(l, ts) && TailAfter(ts, live, t - l.windowMs)
    requires |live| < l.max && UpTo(ts, t)
    ensures Sorted(ts + [t]) && Spaced(l, ts + [t]) && TailAfter(ts + [t], live + [t], t - l.windowMs)
  {
    var u := ts + [t];
    forall i | 0 <= i < |ts| ensures u[i] == ts[i] {}
    assert live + [t] == u[|u| - |live| - 1..];
    forall i, j | 0 <= i < j < |u| && i + l.max <= j ensures u[i] + l.windowMs <= u[j] {
      if j == |ts| { assert i < |ts| - |live|; }
    }
  }

  ghost predicate AllAfter(ring: seq<int>, cutoff: int) { forall i :: 0 <= i < |ring| ==> ring[i] > cutoff }

  lemma TrackStepIs(l: Limit, x: Track, t: int)
    ensures var live := Expire(x.ring, t - l.windowMs);
            TrackStep(l, x, t) == if |live| < l.max then Track(live + [t], x.admitted + [t])
                                  else Track(live, x.admitted)
  {
    hide ResetSec, Expire;
  }

  ghost predicate UpTo(ts: seq<int>, now: int) { forall i :: 0 <= i < |ts| ==> ts[i] <= now }

  lemma UpToPushed(ts: seq<int>, now: int, t: int)
    requires UpTo(ts, now) && now <= t
    ensures UpTo(ts, t) && UpTo(ts + [t], t)
  {
  }

  lemma StepKeepsInv(l: Limit, x: Track, now: int, t: int)
    requires Inv(l, x, now) && now <= t
    ensures Inv(l, TrackStep(l, x, t), t)
    ensures AllAfter(Expire(x.ring, t - l.windowMs), t - l.windowMs)
  {
    hide Expire, TrackStep, Sorted, Spaced, TailAfter, UpTo, AllAfter;
    ExpireKeepsTail(x.admitted, x.ring, now - l.windowMs, t - l.windowMs);
    UpToPushed(x.admitted, now, t);
    TrackStepIs(l, x, t);
    if |Expire(x.ring, t - l.windowMs)| < l.max { PushKeeps(l, x.admitted, Expire(x.ring, t - l.windowMs), t); }
  }

  lemma {:induction false} RunKeepsInv(l: Limit, ts: seq<int>, now: int)
    requires Sorted(ts) && UpTo(ts, now)
    ensures Inv(l, TrackOf(l, ts), now)
    decreases |ts|
  {
    if ts != [] {
      var init, t := ts[..|ts| - 1], ts[|ts| - 1];
      RunKeepsInv(l, init, t);
      StepKeepsInv(l, TrackOf(l, init), t, t);
      InvLater(l, TrackOf(l, ts), t, now);
    }
  }

  lemma InvLater(l: Limit, x: Track, t: int, now: int)
    requires Inv(l, x, t) && t <= now
    ensures Inv(l, x, now)
  {
  }

  // ---- The theorems --------------------------------------------------------------------------

  function InWindow(ts: seq<int>, a: int, b: int): set<int> { set i | 0 <= i < |ts| && a < ts[i] <= b }

  /** The `n` indices from `lo` on. */
  function Range(lo: int, n: nat): (r: set<int>)
    ensures |r| == n && forall i :: i in r <==> lo <= i < lo + n
  {
    if n == 0 then {} else Range(lo, n - 1) + {lo + n - 1}
  }

  function FirstAfter(ts: seq<int>, a: int): (n: nat)
    ensures n <= |ts| && (forall i :: 0 <= i < n ==> ts[i] <= a) && (n < |ts| ==> ts[n] > a)
  {
    if ts == [] || ts[0] > a then 0 else 1 + FirstAfter(ts[1..], a)
  }

  lemma SpacedFitsWindow(l: Limit, ts: seq<int>, a: int)
    requires l.max > 0 && Sorted(ts) && Spaced(l, ts)
    ensures |InWindow(ts, a, a + l.windowMs)| <= l.max
  {
    var lo := FirstAfter(ts, a);
    var inside := InWindow(ts, a, a + l.windowMs);
    forall i | lo + l.max <= i < |ts| ensures i !in inside {
      assert ts[lo] + l.windowMs <= ts[i];
    }
    Collections.SubsetSize(inside, Range(lo, l.max));
  }

  /**
   With a clock that never goes back, no key has more than `max` admitted requests in any window
   (a, a + windowMs], wherever the window lies.
   */
  lemma NeverMoreThanMax(l: Limit, ts: seq<int>, a: int)
    requires l.max >= 0 && Sorted(ts)
    ensures |InWindow(TrackOf(l, ts).admitted, a, a + l.windowMs)| <= l.max
  {
    RunKeepsInv(l, ts, if ts == [] then 0 else ts[|ts| - 1]);
    if l.max == 0 { NothingAdmitted(l, ts); }
    hide TrackOf, Sorted, Spaced, InWindow;
    if l.max > 0 { SpacedFitsWindow(l, TrackOf(l, ts).admitted, a); }
  }

  lemma {:induction false} NothingAdmitted(l: Limit, ts: seq<int>)
    requires l.max <= 0
    ensures TrackOf(l, ts).admitted == []
    ensures InWindow([], 0, 0) == {}
    decreases |ts|
  {
    if ts != [] { NothingAdmitted(l, ts[..|ts| - 1]); }
  }

  /** The clock over all requests never goes back. */
  ghost predicate ClockRuns(rs: seq<Request>) { forall i, j :: 0 <= i <= j < |rs| ==> rs[i].t <= rs[j].t }

  lemma {:induction false} TimesRun(rs: seq<Request>, key: string, now: int)
    requires ClockRuns(rs) && forall i :: 0 <= i < |rs| ==> rs[i].t <= now
    ensures Sorted(TimesOf(rs, key)) && UpTo(TimesOf(rs, key), now)
    decreases |rs|
  {
    if rs != [] {
      var init := rs[..|rs| - 1];
      TimesRun(init, key, rs[|rs| - 1].t);
    }
  }

  /** The same over whole runs with many keys: each key keeps to its own limit. */
  lemma NoKeyExceedsItsLimit(l: Limit, rs: seq<Request>, key: string, a: int)
    requires l.max >= 0 && ClockRuns(rs)
    ensures |InWindow(TrackOf(l, TimesOf(rs, key)).admitted, a, a + l.windowMs)| <= l.max
    ensures RingOf(BucketsOf(l, rs), key) == TrackOf(l, TimesOf(rs, key)).ring
  {
    TimesRun(rs, key, if rs == [] then 0 else rs[|rs| - 1].t);
    NeverMoreThanMax(l, TimesOf(rs, key), a);
    KeysAreIndependent(l, rs, key);
    hide *;
  }

  lemma TrackSnoc(l: Limit, ts: seq<int>, t: int)
    ensures TrackOf(l, ts + [t]) == TrackStep(l, TrackOf(l, ts), t)
  {
    assert (ts + [t])[..|ts|] == ts;
  }

  /** Up to a last request at `t`, the clock did not pass `t`. */
  lemma SortedBefore(ts: seq<int>, t: int)
    requires Sorted(ts + [t])
    ensures Sorted(ts) && UpTo(ts, t)
  {
    var all := ts + [t];
    forall i, j | 0 <= i <= j < |ts| ensures ts[i] <= ts[j] { assert all[i] <= all[j]; }
    forall i | 0 <= i < |ts| ensures ts[i] <= t { assert all[i] <= all[|ts|]; }
  }

  /** `ring` is exactly what `ts` has after `cutoff` and up to `t`. */
  ghost predicate IsWindow(ts: seq<int>, ring: seq<int>, cutoff: int, t: int) {
    var n := |ts| - |ring|;
    n >= 0 && ring == ts[n..] && forall i :: 0 <= i < |ts| ==> (i >= n <==> cutoff < ts[i] <= t)
  }

  lemma TailIsWindow(ts: seq<int>, ring: seq<int>, cutoff: int, t: int)
    requires TailAfter(ts, ring, cutoff) && AllAfter(ring, cutoff) && UpTo(ts, t)
    ensures IsWindow(ts, ring, cutoff, t)
  {
    var n := |ts| - |ring|;
    forall i | n <= i < |ts| ensures ts[i] > cutoff { assert ts[i] == ring[i - n]; }
  }

  lemma PushedAllAfter(live: seq<int>, cutoff: int, t: int)
    requires AllAfter(live, cutoff) && t > cutoff
    ensures AllAfter(live + [t], cutoff)
  {
  }

  /** After each check the ring holds exactly the admissions of the current window, oldest first. */
  lemma RingIsTheWindow(l: Limit, ts: seq<int>, t: int)
    requires l.windowMs > 0 && Sorted(ts + [t])
    ensures var x := TrackOf(l, ts + [t]);
            IsWindow(x.admitted, x.ring, t - l.windowMs, t)
  {
    hide TrackOf, TrackStep, Expire, Sorted, Spaced, TailAfter, UpTo, AllAfter, IsWindow;
    SortedBefore(ts, t);
    RunKeepsInv(l, ts, t);
    TrackSnoc(l, ts, t);
    StepKeepsInv(l, TrackOf(l, ts), t, t);
    TrackStepIs(l, TrackOf(l, ts), t);
    var x := TrackOf(l, ts + [t]);
    PushedAllAfter(Expire(TrackOf(l, ts).ring, t - l.windowMs), t - l.windowMs, t);
    TailIsWindow(x.admitted, x.ring, t - l.windowMs, t);
  }

  /**
   A refused request, tried again at `t2` with no traffic on its key in between, is admitted exactly
   when the oldest request of the ring has left the window; `resetSec` is the least whole number of
   seconds, at least one, after which that is so.
   */
  lemma RetryAfterReset(l: Limit, ts: seq<int>, t: int, t2: int)
    requires l.max > 0 && Sorted(ts + [t]) && t <= t2
    requires CheckRing(l, TrackOf(l, ts).ring, t).0.Refused?
    ensures var (outcome, ring) := CheckRing(l, TrackOf(l, ts).ring, t);
            && ring != [] && outcome.resetSec.Some?
            && (CheckRing(l, ring, t2).0 == Admitted <==> t2 >= ring[0] + l.windowMs)
            && (t2 >= t + 1000 * outcome.resetSec.value ==> CheckRing(l, ring, t2).0 == Admitted)
            && (outcome.resetSec.value > 1 && t2 <= t + 1000 * (outcome.resetSec.value - 1) ==>
                  CheckRing(l, ring, t2).0.Refused?)
  {
    FullRing(l, ts, t);
    hide TrackOf, Ceil, Expire;
    var ring := CheckRing(l, TrackOf(l, ts).ring, t).1;
    ResetIsLeast(ring[0] + l.windowMs - t, t2 - t);
    FullRingRetried(l, ring, t2);
  }

  lemma FullRingRetried(l: Limit, ring: seq<int>, t2: int)
    requires |ring| == l.max > 0
    ensures CheckRing(l, ring, t2).0 == Admitted <==> t2 >= ring[0] + l.windowMs
  {
    hide ResetSec;
    var live := Expire(ring, t2 - l.windowMs);
    if t2 >= ring[0] + l.windowMs { assert |live| < |ring|; } else { assert live == ring; }
  }

  lemma ResetIsLeast(n: int, d: int)
    ensures var s := if Ceil(n, 1000) > 1 then Ceil(n, 1000) else 1;
            && (d >= 1000 * s ==> d >= n)
            && (s > 1 && d <= 1000 * (s - 1) ==> d < n)
  {
    assert n <= 1000 * Ceil(n, 1000) < n + 1000;
  }

  /** The ring never holds more than `max` times. */
  lemma {:induction false} FullRing(l: Limit, ts: seq<int>, t: int)
    requires l.max >= 0
    ensures |TrackOf(l, ts).ring| <= l.max && |CheckRing(l, TrackOf(l, ts).ring, t).1| <= l.max
    decreases |ts|
  {
    hide ResetSec;
    if ts != [] { FullRing(l, ts[..|ts| - 1], ts[|ts| - 1]); }
  }

  // ---- The limiter, changed in place ---------------------------------------------------------

  class Limiter {
    const limit: Limit
    var buckets: map<string, seq<int>>
    ghost var history: seq<Request>

    ghost predicate Valid()
      reads this
    {
      buckets == BucketsOf(limit, history)
    }

    constructor (max: int, windowMs: int)
      ensures Valid() && history == [] && limit == Limit(max, windowMs)
    {
      limit := Limit(max, windowMs);
      buckets, history := map[], [];
    }

    /** Shift the expired times off a ring. */
    method Shift(ring: seq<int>, cutoff: int) returns (live: seq<int>)
      ensures live == Expire(ring, cutoff)
    {
      live := ring;
      while |live| > 0 && live[0] <= cutoff
        invariant Expire(live, cutoff) == Expire(ring, cutoff)
        decreases |live|
      {
        live := live[1..];
      }
    }

    /** One request on one ring: shift, then refuse or push. */
    method CheckOne(before: seq<int>, t: int) returns (outcome: Outcome, ring: seq<int>)
      ensures (outcome, ring) == CheckRing(limit, before, t)
    {
      hide ResetSec, Expire;
      ring := Shift(before, t - limit.windowMs);
      if |ring| >= limit.max {
        outcome := Refused(ResetSec(limit, ring, t));
      } else {
        ring := ring + [t];
        outcome := Admitted;
      }
    }

    method Check(key: string, t: int) returns (outcome: Outcome)
      requires Valid()
      modifies this
      ensures Valid() && history == old(history) + [Request(key, t)]
      ensures outcome == CheckRing(limit, TrackOf(limit, TimesOf(old(history), key)).ring, t).0
    {
      hide BucketsOf, TrackOf, TimesOf, CheckRing;
      KeysAreIndependent(limit, history, key);
      BucketsStep(limit, history, Request(key, t));
      var ring;
      outcome, ring := CheckOne(RingOf(buckets, key), t);
      buckets := buckets[key := ring];
      history := history + [Request(key, t)];
    }

    method Reset()
      modifies this
      ensures Valid() && history == []
    {
      buckets, history := map[], [];
    }
  }
}
