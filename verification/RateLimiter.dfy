/** The upload rate limiter: a lock-protected scheduler of upload slots.
    Time is measured in seconds, as a real number. */
module RateLimiter {
  import opened Prelude

  /** What one call leaves behind: the delay it returns and the next free slot. */
  datatype Grant = Grant(delay: real, next: Option<real>)

  /** The body of the lock: decide one call whose clock reading is now. */
  function Decide(interval: real, next: Option<real>, now: real): (g: Grant) {
    if next.None? || now >= next.value then Grant(0.0, Some(now + interval))
    else
      var wait := next.value - now;
      Grant(if wait > 0.0 then wait else 0.0, Some(next.value + interval))
  }

  class UploadRateLimiter {
    const requestsPerSecond: Option<real>
    var nextAvailableAt: Option<real>

    ghost predicate Valid() {
      requestsPerSecond.Some? ==> requestsPerSecond.value > 0.0
    }

    constructor (requestsPerSecond: Option<real>)
      requires requestsPerSecond.Some? ==> requestsPerSecond.value > 0.0
      ensures Valid() && nextAvailableAt == None && this.requestsPerSecond == requestsPerSecond
    {
      this.requestsPerSecond := requestsPerSecond;
      nextAvailableAt := None;
    }

    /** Construction with the validation the dataclass performs. */
    static method Create(requestsPerSecond: Option<real>) returns (r: Result<UploadRateLimiter, string>)
      ensures r.Ok? <==> !(requestsPerSecond.Some? && requestsPerSecond.value <= 0.0)
      ensures r.Ok? ==> fresh(r.value) && r.value.Valid() && r.value.nextAvailableAt == None
    {
      if requestsPerSecond.Some? && requestsPerSecond.value <= 0.0 {
        return Err("requests_per_second must be greater than 0 when configured.");
      }
      var limiter := new UploadRateLimiter(requestsPerSecond);
      return Ok(limiter);
    }

    /** One call. The clock is read before the lock is taken, so now may be stale. */
    method AcquireDelaySeconds(now: real) returns (delay: real)
      requires Valid()
      modifies this`nextAvailableAt
      ensures requestsPerSecond.None? ==> delay == 0.0 && nextAvailableAt == old(nextAvailableAt)
      ensures requestsPerSecond.Some? ==>
                Grant(delay, nextAvailableAt)
                == Decide(1.0 / requestsPerSecond.value, old(nextAvailableAt), now)
    {
      if requestsPerSecond.None? {
        return 0.0;
      }
      var interval := 1.0 / requestsPerSecond.value;
      if nextAvailableAt.None? || now >= nextAvailableAt.value {
        nextAvailableAt := Some(now + interval);
        return 0.0;
      }
      var retryAfter := nextAvailableAt.value - now;
      nextAvailableAt := Some(nextAvailableAt.value + interval);
      return if retryAfter > 0.0 then retryAfter else 0.0;
    }
  }

  // ----- concurrent callers -----

  /** A caller reads the clock, then takes the lock. The two actions of different
      callers interleave freely, and the clock may return any value. */
  datatype Action = ReadClock(caller: nat, time: real) | TakeLock(caller: nat)

  /** slots records, in lock order, the clock reading plus the returned delay. */
  datatype Callers = Callers(next: Option<real>, readings: map<nat, real>, slots: seq<real>)

  function Act(interval: real, s: Callers, a: Action): Callers {
    match a
    case ReadClock(caller, time) => s.(readings := s.readings[caller := time])
    case TakeLock(caller) =>
      if caller !in s.readings then s
      else
        var now := s.readings[caller];
        var grant := Decide(interval, s.next, now);
        Callers(grant.next, s.readings - {caller}, s.slots + [now + grant.delay])
  }

  function Interleave(interval: real, s: Callers, actions: seq<Action>): Callers {
    if actions == [] then s
    else Act(interval, Interleave(interval, s, actions[..|actions| - 1]), actions[|actions| - 1])
  }

  ghost predicate Spaced(interval: real, slots: seq<real>) {
    forall i :: 0 <= i < |slots| - 1 ==> slots[i + 1] - slots[i] >= interval
  }

  ghost predicate Scheduled(interval: real, s: Callers) {
    && Spaced(interval, s.slots)
    && (s.slots != [] ==> s.next == Some(s.slots[|s.slots| - 1] + interval))
  }

  /** Whatever the interleaving and whatever the clock returns, consecutive
      granted slots are at least one interval apart. */
  lemma {:induction false} SlotsAreSpaced(interval: real, next: Option<real>, actions: seq<Action>)
    requires interval > 0.0
    ensures Scheduled(interval, Interleave(interval, Callers(next, map[], []), actions))
  {
    if actions != [] {
      var init := actions[..|actions| - 1];
      SlotsAreSpaced(interval, next, init);
      var before := Interleave(interval, Callers(next, map[], []), init);
      var after := Act(interval, before, actions[|actions| - 1]);
      if after.slots != before.slots {
        var n := |before.slots|;
        assert after.slots[..n] == before.slots;
        forall i | 0 <= i < n ensures after.slots[i + 1] - after.slots[i] >= interval {
          assert after.slots[i] == before.slots[i];
        }
      }
    }
  }

  lemma {:induction false} SpacedFarApart(interval: real, slots: seq<real>, i: nat, j: nat)
    requires Spaced(interval, slots) && i <= j < |slots|
    ensures slots[j] - slots[i] >= (j - i) as real * interval
  {
    if i < j {
      SpacedFarApart(interval, slots, i, j - 1);
      assert (j - i) as real * interval == (j - 1 - i) as real * interval + interval;
      assert slots[j - 1 + 1] - slots[j - 1] >= interval;
    }
  }

  lemma FloorOfQuotient(k: int, width: real, interval: real)
    requires interval > 0.0 && k as real * interval <= width
    ensures k <= (width / interval).Floor
  {
    assert k as real == (k as real * interval) / interval <= width / interval;
  }

  lemma SpacedWindow(interval: real, slots: seq<real>, start: real, width: real, i: nat, j: nat)
    requires interval > 0.0 && Spaced(interval, slots) && i <= j < |slots|
    requires start <= slots[i] && slots[j] <= start + width
    ensures j - i + 1 <= (width / interval).Floor + 1
  {
    SpacedFarApart(interval, slots, i, j);
    FloorOfQuotient(j - i, width, interval);
  }

  /** The slots granted to interleaved callers of a limiter, in lock order. */
  function Slots(interval: real, next: Option<real>, actions: seq<Action>): seq<real> {
    Interleave(interval, Callers(next, map[], []), actions).slots
  }

  /** Any closed window of the given width holds at most floor(width / interval) + 1 granted slots. */
  lemma WindowBound(interval: real, next: Option<real>, actions: seq<Action>,
                    start: real, width: real, i: nat, j: nat)
    requires interval > 0.0
    requires i <= j < |Slots(interval, next, actions)|
    requires start <= Slots(interval, next, actions)[i]
    requires Slots(interval, next, actions)[j] <= start + width
    ensures j - i + 1 <= (width / interval).Floor + 1
  {
    SlotsAreSpaced(interval, next, actions);
    SpacedWindow(interval, Slots(interval, next, actions), start, width, i, j);
  }

  // ----- closed forms -----

  /** The delays returned to calls made, one after another, at the given clock readings. */
  function Delays(interval: real, next: Option<real>, readings: seq<real>): (r: (seq<real>, Option<real>))
    ensures |r.0| == |readings|
  {
    if readings == [] then ([], next)
    else
      var n := |readings| - 1;
      var (delays, before) := Delays(interval, next, readings[..n]);
      var grant := Decide(interval, before, readings[n]);
      (delays + [grant.delay], grant.next)
  }

  /** k intervals. */
  function Intervals(k: nat, interval: real): real {
    if k == 0 then 0.0 else Intervals(k - 1, interval) + interval
  }

  lemma {:induction false} IntervalsIsProduct(k: nat, interval: real)
    ensures Intervals(k, interval) == k as real * interval
  {
    if k > 0 {
      IntervalsIsProduct(k - 1, interval);
      assert k as real * interval == (k - 1) as real * interval + interval;
    }
  }

  lemma {:induction false} IntervalsPositive(k: nat, interval: real)
    requires interval > 0.0
    ensures Intervals(k, interval) >= 0.0 && (k > 0 ==> Intervals(k, interval) > 0.0)
  {
    if k > 0 {
      IntervalsPositive(k - 1, interval);
    }
  }

  /** n calls at one instant on an idle limiter are told to wait 0, I, 2I, ..., (n-1)I. */
  lemma {:induction false} BurstDelays(interval: real, now: real, n: nat)
    requires interval > 0.0
    ensures var (delays, next) := Delays(interval, None, seq(n, _ => now));
            && (forall i: nat :: i < n ==> delays[i] == Intervals(i, interval))
            && next == if n == 0 then None else Some(now + Intervals(n, interval))
  {
    if n > 0 {
      var readings := seq(n, _ => now);
      assert readings[..n - 1] == seq(n - 1, _ => now);
      BurstDelays(interval, now, n - 1);
      IntervalsPositive(n - 1, interval);
      var (delays, before) := Delays(interval, None, readings[..n - 1]);
      assert Decide(interval, before, now).delay == Intervals(n - 1, interval);
      assert Delays(interval, None, readings).0 == delays + [Intervals(n - 1, interval)];
    }
  }

  /** A refused caller that comes back exactly when it was told to. */
  function RetryExactly(interval: real, next: Option<real>, now: real, times: nat): (Grant, real) {
    if times == 0 then (Decide(interval, next, now), now)
    else
      var (grant, at) := RetryExactly(interval, next, now, times - 1);
      (Decide(interval, grant.next, at + grant.delay), at + grant.delay)
  }

  /** Coming back exactly after each delay never gets a lone caller admitted:
      from the second call on it is refused by exactly one interval, forever. */
  lemma ExactRetryIsRefusedForever(interval: real, next: Option<real>, now: real, times: nat)
    requires interval > 0.0
    requires Decide(interval, next, now).delay > 0.0
    ensures var (grant, at) := RetryExactly(interval, next, now, times);
            grant.delay > 0.0
            && grant.next == Some(at + grant.delay + interval)
            && (times > 0 ==> grant.delay == interval)
  {
  }

  /** Waiting one interval longer than told is enough, and one interval is
      exactly what is missing: a lone refused caller that returns after any
      further wait is admitted if and only if it adds at least one interval. */
  lemma AdmittedExactlyAfterOneMoreInterval(interval: real, next: Option<real>, now: real, extra: real)
    requires interval > 0.0
    requires Decide(interval, next, now).delay > 0.0
    ensures var first := Decide(interval, next, now);
            Decide(interval, first.next, now + first.delay + extra).delay == 0.0 <==> extra >= interval
  {
  }

  /** An upload attempt whose calls all read the same instant is refused as soon
      as it makes two of them, whatever happened before: repeating such a batch
      of two or more documents never gets it through. */
  lemma FrozenClockBatchIsRefused(interval: real, next: Option<real>, now: real, readings: seq<real>)
    requires interval > 0.0 && |readings| >= 2
    requires forall i :: 0 <= i < |readings| ==> readings[i] == now
    ensures exists i :: 0 <= i < 2 && Delays(interval, next, readings).0[i] > 0.0
  {
    var firstTwo := readings[..2];
    DelaysPrefix(interval, next, readings, 2);
    var first := firstTwo[..1];
    assert first[..0] == [] && first[0] == now;
    assert Delays(interval, next, first[..0]) == ([], next);
    var (one, mid) := Delays(interval, next, first);
    assert Delays(interval, next, firstTwo).0 == one + [Decide(interval, mid, now).delay];
    assert mid == Decide(interval, next, now).next;
    assert Decide(interval, mid, now).delay > 0.0;
    assert Delays(interval, next, readings).0[1] == Delays(interval, next, firstTwo).0[1];
  }

  lemma {:induction false} DelaysPrefix(interval: real, next: Option<real>, readings: seq<real>, n: nat)
    requires n <= |readings|
    ensures Delays(interval, next, readings).0[..n] == Delays(interval, next, readings[..n]).0
  {
    if n < |readings| {
      var init := readings[..|readings| - 1];
      DelaysPrefix(interval, next, init, n);
      assert init[..n] == readings[..n];
    } else {
      assert readings[..n] == readings;
    }
  }
}
