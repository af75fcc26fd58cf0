/**
  What the pacer promises over whole runs (src/gdrive_turbo_copy/pacer.py:45-70, 110-147), with
  any number of threads taking tokens and any throttles and successes in between.
 */
module PacerTheory {
  import opened DriveModel
  import opened Pacer

  /** The critical sections, in lock order, with the clock reading each one made. */
  datatype Event =
    | Grant(now: real)                                  // refill, enough, take one
    | Deny(now: real)                                   // refill, not enough: the thread sleeps
    | Throttled(now: real, retryAfter: Option<real>)
    | Succeeded

  /** A ceiling at or above the floor, and a backoff that lowers the rate. */
  predicate Proper(law: Law) {
    0.0 < law.minRate <= law.maxRate && 0.0 <= law.backoff <= 1.0 && law.recoverStep >= 0.0 && law.recoverAfter >= 1
  }

  predicate Enabled(b: Bucket, e: Event) {
    match e
    case Grant(now) => Enough(Refill(b, now), 1.0)
    case Deny(now) => !Enough(Refill(b, now), 1.0)
    case _ => true
  }

  function Apply(law: Law, b: Bucket, e: Event): Bucket {
    match e
    case Grant(now) => Take(Refill(b, now), 1.0)
    case Deny(now) => Refill(b, now)
    case Throttled(now, retryAfter) => Throttle(law, b, now, retryAfter)
    case Succeeded => Succeed(law, b)
  }

  ghost predicate Runs(law: Law, b: Bucket, events: seq<Event>)
    decreases |events|
  {
    events == [] || (Enabled(b, events[0]) && Runs(law, Apply(law, b, events[0]), events[1..]))
  }

  ghost function After(law: Law, b: Bucket, events: seq<Event>): Bucket
    requires Runs(law, b, events)
    decreases |events|
  {
    if events == [] then b else After(law, Apply(law, b, events[0]), events[1..])
  }

  predicate TimedIn(e: Event, from: real, to: real) {
    e.Succeeded? || from <= e.now <= to
  }

  function Grants(events: seq<Event>): nat {
    if events == [] then 0 else (if events[0].Grant? then 1 else 0) + Grants(events[1..])
  }

  /* ------------------------------ the invariant ---------------------------- */

  /** The rate stays under the ceiling and the tokens under the burst. */
  predicate Inv(law: Law, b: Bucket) {
    && 0.0 < b.rate <= law.maxRate
    && b.capacity == Max(1.0, b.rate)
    && 0.0 <= b.tokens <= b.capacity
    && b.successes < law.recoverAfter
  }

  lemma Scaled(r: real, f: real)
    requires r >= 0.0 && 0.0 <= f <= 1.0
    ensures 0.0 <= Times(r, f) <= r
  {
  }

  lemma LoweredWithin(floor: real, ceiling: real, r: real, f: real)
    requires floor <= ceiling && 0.0 <= r <= ceiling && 0.0 <= f <= 1.0
    ensures floor <= Max(floor, Times(r, f)) <= ceiling
  {
    Scaled(r, f);
  }

  lemma ThrottleKeepsInv(law: Law, b: Bucket, now: real, retryAfter: Option<real>)
    requires Proper(law) && Inv(law, b)
    ensures Inv(law, Throttle(law, b, now, retryAfter))
  {
    LoweredWithin(law.minRate, law.maxRate, b.rate, law.backoff);
  }

  lemma RefillWithin(b: Bucket, now: real)
    requires 0.0 < b.rate && 0.0 <= b.tokens <= b.capacity
    ensures 0.0 <= Refill(b, now).tokens <= b.capacity
    ensures Refill(b, now) == b.(tokens := Refill(b, now).tokens, last := Refill(b, now).last)
  {
    if now > b.last {
      TimesPositive(b.rate, now - b.last);
    }
  }

  lemma RefillKeepsInv(law: Law, b: Bucket, now: real)
    requires Inv(law, b)
    ensures Inv(law, Refill(b, now))
  {
    RefillWithin(b, now);
  }

  lemma StepKeepsInv(law: Law, b: Bucket, e: Event)
    requires Proper(law) && Inv(law, b)
    ensures Inv(law, Apply(law, b, e))
    ensures Apply(law, b, e).cooldownUntil >= b.cooldownUntil
  {
    match e {
      case Grant(now) => RefillKeepsInv(law, b, now);
      case Deny(now) => RefillKeepsInv(law, b, now);
      case Throttled(now, retryAfter) => ThrottleKeepsInv(law, b, now, retryAfter);
      case Succeeded =>
    }
  }

  lemma {:induction false} RunKeepsInv(law: Law, b: Bucket, events: seq<Event>)
    requires Proper(law) && Inv(law, b) && Runs(law, b, events)
    ensures Inv(law, After(law, b, events))
    ensures After(law, b, events).cooldownUntil >= b.cooldownUntil
    decreases |events|
  {
    if events != [] {
      StepKeepsInv(law, b, events[0]);
      RunKeepsInv(law, Apply(law, b, events[0]), events[1..]);
    }
  }

  /**
    Once a throttle with Retry-After has been recorded, its deadline stays within the cooldown
    for the rest of the run, and Acquire does not return before the cooldown it starts under.
   */
  lemma {:induction false} DeadlineIsRemembered(law: Law, b: Bucket, events: seq<Event>, k: nat)
    requires Proper(law) && Inv(law, b) && Runs(law, b, events) && k < |events|
    requires events[k].Throttled? && events[k].retryAfter.Some? && events[k].retryAfter.value > 0.0
    ensures After(law, b, events).cooldownUntil >= events[k].now + events[k].retryAfter.value
    decreases |events|
  {
    StepKeepsInv(law, b, events[0]);
    if k == 0 {
      RunKeepsInv(law, Apply(law, b, events[0]), events[1..]);
    } else {
      DeadlineIsRemembered(law, Apply(law, b, events[0]), events[1..], k - 1);
    }
  }

  /* ---------------------------- the window bound --------------------------- */

  /** Tokens in hand, plus all that time until `end` could still credit at the ceiling. */
  function Potential(law: Law, b: Bucket, end: real): real {
    b.tokens + Times(law.maxRate, end - b.last)
  }

  /** Whenever the credit for elapsed time is taken, and at whatever rate, it is no more than this. */
  lemma RefillSpends(law: Law, b: Bucket, now: real, end: real)
    requires Inv(law, b)
    ensures Potential(law, Refill(b, now), end) <= Potential(law, b, end)
  {
    if now > b.last {
      TimesMonotone(now - b.last, b.rate, law.maxRate);
      TimesCommutes(now - b.last, b.rate);
      TimesCommutes(now - b.last, law.maxRate);
      TimesSplits(law.maxRate, now - b.last, end - now, end - b.last);
    }
  }

  lemma StepSpends(law: Law, b: Bucket, e: Event, end: real)
    requires Proper(law) && Inv(law, b) && Enabled(b, e)
    ensures Potential(law, Apply(law, b, e), end) <= Potential(law, b, end) - if e.Grant? then 1.0 - EPS else 0.0
  {
    match e {
      case Grant(now) => RefillSpends(law, b, now, end);
      case Deny(now) => RefillSpends(law, b, now, end);
      case Throttled(_, _) =>
      case Succeeded =>
    }
  }

  lemma StepLast(law: Law, b: Bucket, e: Event, from: real, end: real)
    requires TimedIn(e, from, end) && b.last <= end
    ensures Apply(law, b, e).last <= end
  {
  }

  lemma PotentialPositive(law: Law, b: Bucket, end: real)
    requires Inv(law, b) && b.last <= end
    ensures Potential(law, b, end) >= 0.0
  {
    TimesPositive(law.maxRate, end - b.last);
  }

  lemma PotentialWithin(law: Law, b: Bucket, from: real, end: real)
    requires Inv(law, b) && from <= b.last
    ensures Potential(law, b, end) <= Max(1.0, law.maxRate) + Times(law.maxRate, end - from)
  {
    TimesMonotone(law.maxRate, end - b.last, end - from);
  }

  /** Every grant pays for itself out of the potential. */
  lemma {:induction false} GrantsSpendPotential(law: Law, b: Bucket, events: seq<Event>, from: real, end: real)
    requires Proper(law) && Inv(law, b) && Runs(law, b, events) && b.last <= end
    requires forall i :: 0 <= i < |events| ==> TimedIn(events[i], from, end)
    ensures Grants(events) as real * (1.0 - EPS) <= Potential(law, b, end)
    decreases |events|
  {
    if events == [] {
      PotentialPositive(law, b, end);
    } else {
      var b' := Apply(law, b, events[0]);
      StepKeepsInv(law, b, events[0]);
      StepSpends(law, b, events[0], end);
      StepLast(law, b, events[0], from, end);
      assert forall i :: 0 <= i < |events[1..]| ==> events[1..][i] == events[i + 1];
      GrantsSpendPotential(law, b', events[1..], from, end);
      if events[0].Grant? {
        assert Grants(events) as real == Grants(events[1..]) as real + 1.0;
      }
    }
  }

  /** From a grant on, no more than one burst plus the ceiling rate for the time that follows. */
  lemma BoundFromGrant(law: Law, b: Bucket, events: seq<Event>, from: real, end: real)
    requires Proper(law) && Inv(law, b) && Runs(law, b, events) && events != [] && events[0].Grant? && b.last <= end
    requires forall i :: 0 <= i < |events| ==> TimedIn(events[i], from, end)
    ensures Grants(events) as real * (1.0 - EPS) <= Max(1.0, law.maxRate) + Times(law.maxRate, end - from)
  {
    var now := events[0].now;
    var full := Refill(b, now);
    RefillKeepsInv(law, b, now);
    assert Runs(law, full, events) by {
      assert Refill(full, now) == full;
      assert Apply(law, full, events[0]) == Apply(law, b, events[0]);
    }
    GrantsSpendPotential(law, full, events, from, end);
    PotentialWithin(law, full, from, end);
  }

  /**
    Whatever throttles and successes interleave, and although a lazy refill may credit elapsed
    time at a rate that changed meanwhile: the grants in any window of the run are at most one
    burst plus the ceiling rate times its length.
   */
  lemma {:induction false} WindowBound(law: Law, b: Bucket, window: seq<Event>, from: real, end: real, length: real)
    requires Proper(law) && Inv(law, b) && Runs(law, b, window) && b.last <= end && length == end - from >= 0.0
    requires forall i :: 0 <= i < |window| ==> TimedIn(window[i], from, end)
    ensures Grants(window) as real * (1.0 - EPS) <= Max(1.0, law.maxRate) + Times(law.maxRate, length)
    decreases |window|
  {
    if window == [] {
      TimesPositive(law.maxRate, length);
    } else if window[0].Grant? {
      BoundFromGrant(law, b, window, from, end);
    } else {
      StepKeepsInv(law, b, window[0]);
      StepLast(law, b, window[0], from, end);
      assert forall i :: 0 <= i < |window[1..]| ==> window[1..][i] == window[i + 1];
      WindowBound(law, Apply(law, b, window[0]), window[1..], from, end, length);
    }
  }

  lemma {:induction false} RunsSplit(law: Law, b: Bucket, before: seq<Event>, window: seq<Event>)
    requires Runs(law, b, before + window)
    ensures Runs(law, b, before) && Runs(law, After(law, b, before), window)
    decreases |before|
  {
    if before == [] {
      assert before + window == window;
    } else {
      assert (before + window)[1..] == before[1..] + window;
      RunsSplit(law, Apply(law, b, before[0]), before[1..], window);
    }
  }

  lemma {:induction false} LastBefore(law: Law, b: Bucket, events: seq<Event>, to: real)
    requires Runs(law, b, events) && b.last <= to
    requires forall i :: 0 <= i < |events| ==> events[i].Succeeded? || events[i].now <= to
    ensures After(law, b, events).last <= to
    decreases |events|
  {
    if events != [] {
      assert forall i :: 0 <= i < |events[1..]| ==> events[1..][i] == events[i + 1];
      LastBefore(law, Apply(law, b, events[0]), events[1..], to);
    }
  }

  /** The bound for every window of every run of a new pacer. */
  lemma PacerNeverExceedsCeiling(law: Law, start: real, before: seq<Event>, window: seq<Event>, from: real, length: real)
    requires Proper(law) && length >= 0.0 && start <= from
    requires Runs(law, New(law.maxRate, start), before + window)
    requires forall i :: 0 <= i < |before| ==> before[i].Succeeded? || before[i].now <= from
    requires forall i :: 0 <= i < |window| ==> TimedIn(window[i], from, from + length)
    ensures Grants(window) as real * (1.0 - EPS) <= Max(1.0, law.maxRate) + Times(law.maxRate, length)
  {
    var b := New(law.maxRate, start);
    RunsSplit(law, b, before, window);
    RunKeepsInv(law, b, before);
    LastBefore(law, b, before, from);
    WindowBound(law, After(law, b, before), window, from, from + length, length);
  }

  /* ----------------------------- the control law --------------------------- */

  /** r * f^n. */
  function Decayed(r: real, f: real, n: nat): real {
    if n == 0 then r else Times(Decayed(r, f, n - 1), f)
  }

  /** r + n * step, as n additions. */
  function Raised(r: real, step: real, n: nat): real {
    if n == 0 then r else Raised(r, step, n - 1) + step
  }

  lemma {:induction false} RaisedIsLinear(r: real, step: real, n: nat)
    ensures Raised(r, step, n) == r + n as real * step
  {
    if n > 0 {
      RaisedIsLinear(r, step, n - 1);
      assert n as real * step == (n - 1) as real * step + step;
    }
  }

  lemma {:induction false} DecayedWithin(r: real, f: real, n: nat)
    requires r >= 0.0 && 0.0 <= f <= 1.0
    ensures 0.0 <= Decayed(r, f, n) <= r
  {
    if n > 0 {
      DecayedWithin(r, f, n - 1);
      Scaled(Decayed(r, f, n - 1), f);
    }
  }

  function Throttles(law: Law, b: Bucket, now: real, n: nat): Bucket {
    if n == 0 then b else Throttle(law, Throttles(law, b, now, n - 1), now, None)
  }

  /** Lowering a lowered rate is lowering it once by both factors. */
  lemma LoweredTwice(floor: real, x: real, f: real)
    requires floor > 0.0 && 0.0 <= f <= 1.0
    ensures Max(floor, Times(Max(floor, x), f)) == Max(floor, Times(x, f))
  {
    Scaled(floor, f);
    if x <= floor {
      TimesMonotone(f, x, floor);
      TimesCommutes(f, x);
      TimesCommutes(f, floor);
    }
  }

  /** n throttles multiply the rate by backoff^n, down to the floor. */
  lemma {:induction false} MultiplicativeDecrease(law: Law, b: Bucket, now: real, n: nat)
    requires Proper(law) && b.rate >= law.minRate
    ensures Throttles(law, b, now, n).rate == Max(law.minRate, Decayed(b.rate, law.backoff, n))
  {
    if n > 0 {
      MultiplicativeDecrease(law, b, now, n - 1);
      LoweredTwice(law.minRate, Decayed(b.rate, law.backoff, n - 1), law.backoff);
    }
  }

  function Successes(law: Law, b: Bucket, n: nat): Bucket {
    if n == 0 then b else Succeed(law, Successes(law, b, n - 1))
  }

  /** Within a streak nothing changes but the count. */
  lemma {:induction false} UnfinishedStreak(law: Law, b: Bucket, n: nat)
    requires b.successes == 0 && n < law.recoverAfter && b.rate < law.maxRate
    ensures Successes(law, b, n) == b.(successes := n)
  {
    if n > 0 {
      UnfinishedStreak(law, b, n - 1);
    }
  }

  lemma {:induction false} AtCeiling(law: Law, b: Bucket, n: nat)
    requires b.successes == 0 && b.rate >= law.maxRate
    ensures Successes(law, b, n) == b
  {
    if n > 0 {
      AtCeiling(law, b, n - 1);
    }
  }

  lemma {:induction false} SuccessesAdd(law: Law, b: Bucket, m: nat, n: nat)
    ensures Successes(law, b, m + n) == Successes(law, Successes(law, b, m), n)
  {
    if n > 0 {
      SuccessesAdd(law, b, m, n - 1);
    }
  }

  lemma OneStreak(law: Law, b: Bucket)
    requires Proper(law) && b.successes == 0 && b.rate <= law.maxRate
    ensures var b' := Successes(law, b, law.recoverAfter);
            b'.successes == 0 && b'.rate == Min(law.maxRate, b.rate + law.recoverStep)
  {
    if b.rate < law.maxRate {
      UnfinishedStreak(law, b, law.recoverAfter - 1);
    } else {
      AtCeiling(law, b, law.recoverAfter);
    }
  }

  lemma StreakCount(m: nat, n: nat)
    requires m > 0
    ensures m * n == (m - 1) * n + n
  {
  }

  /** m full streaks add m steps to the rate, up to the ceiling. */
  lemma {:induction false} AdditiveIncrease(law: Law, b: Bucket, m: nat)
    requires Proper(law) && b.successes == 0 && b.rate <= law.maxRate
    ensures Successes(law, b, m * law.recoverAfter).successes == 0
    ensures Successes(law, b, m * law.recoverAfter).rate == Min(law.maxRate, Raised(b.rate, law.recoverStep, m))
  {
    if m == 0 {
      assert m * law.recoverAfter == 0;
    } else {
      var done := (m - 1) * law.recoverAfter;
      AdditiveIncrease(law, b, m - 1);
      SuccessesAdd(law, b, done, law.recoverAfter);
      OneStreak(law, Successes(law, b, done));
      StreakCount(m, law.recoverAfter);
    }
  }

  lemma {:induction false} ThrottledStreakIsEmpty(law: Law, b: Bucket, now: real, j: nat)
    requires j > 0
    ensures Throttles(law, b, now, j).successes == 0
  {
  }

  /** The law from a throttled start: j throttles, then m full streaks of successes. */
  lemma ControlLaw(law: Law, b: Bucket, now: real, j: nat, m: nat)
    requires Proper(law) && Inv(law, b) && b.rate >= law.minRate && j > 0
    ensures var low := Max(law.minRate, Decayed(b.rate, law.backoff, j));
            Successes(law, Throttles(law, b, now, j), m * law.recoverAfter).rate
            == Min(law.maxRate, Raised(low, law.recoverStep, m))
  {
    MultiplicativeDecrease(law, b, now, j);
    var t := Throttles(law, b, now, j);
    DecayedWithin(b.rate, law.backoff, j);
    ThrottledStreakIsEmpty(law, b, now, j);
    AdditiveIncrease(law, t, m);
  }

  /**
    A throttle never lifts the rate over the ceiling, from any rate up to it, exactly if the
    floor is not above the ceiling. A ceiling below the default floor of one per second is
    exceeded by the first throttle.
   */
  lemma FloorMustNotExceedCeiling(law: Law, now: real)
    requires 0.0 <= law.backoff <= 1.0 && law.maxRate > 0.0
    ensures (forall b: Bucket :: 0.0 <= b.rate <= law.maxRate ==> Throttle(law, b, now, None).rate <= law.maxRate)
            <==> law.minRate <= law.maxRate
  {
    if law.minRate <= law.maxRate {
      forall b: Bucket | 0.0 <= b.rate <= law.maxRate ensures Throttle(law, b, now, None).rate <= law.maxRate {
        LoweredWithin(law.minRate, law.maxRate, b.rate, law.backoff);
      }
    } else {
      var b := New(law.maxRate, now);
      assert Throttle(law, b, now, None).rate >= law.minRate;
    }
  }

  /* ----------------------------- what is granted --------------------------- */

  /** n grants at one instant. */
  function Burst(n: nat, now: real): seq<Event> {
    if n == 0 then [] else [Grant(now)] + Burst(n - 1, now)
  }

  /**
    A bucket that holds at least n tokens, and fewer than n+1 but for the tolerance, grants exactly
    n times at one instant: the (n+1)-th thread has to wait.
   */
  lemma {:induction false} BurstIsExact(law: Law, b: Bucket, n: nat)
    requires n as real <= b.tokens < (n + 1) as real - EPS
    ensures Runs(law, b, Burst(n, b.last)) && After(law, b, Burst(n, b.last)).tokens == b.tokens - n as real
    ensures !Enabled(After(law, b, Burst(n, b.last)), Grant(b.last)) && Enabled(After(law, b, Burst(n, b.last)), Deny(b.last))
    decreases n
  {
    if n > 0 {
      assert Burst(n, b.last)[1..] == Burst(n - 1, b.last);
      BurstIsExact(law, Apply(law, b, Grant(b.last)), n - 1);
    }
  }

  /** A new pacer grants its whole burst at once: floor(max(1, ceiling)) tokens, and no more. */
  lemma NewBucketGrantsItsBurst(law: Law, now: real)
    requires law.maxRate >= 0.0 && Max(1.0, law.maxRate) < (Max(1.0, law.maxRate).Floor + 1) as real - EPS
    ensures var b := New(law.maxRate, now);
            var n := Max(1.0, law.maxRate).Floor;
            n >= 1 && Runs(law, b, Burst(n, now)) && Enabled(After(law, b, Burst(n, now)), Deny(now))
  {
    var n := Max(1.0, law.maxRate).Floor;
    assert n >= 1;
    BurstIsExact(law, New(law.maxRate, now), n);
  }
}
