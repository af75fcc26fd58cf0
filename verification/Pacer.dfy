/**
  The adaptive token bucket (src/gdrive_turbo_copy/pacer.py:26-147): lazy refill, additive
  increase and multiplicative decrease of the rate, and a shared Retry-After cooldown. Time,
  rate and tokens are reals.
 */
module Pacer {
  import opened DriveModel

  function Min(a: real, b: real): real {
    if b < a then b else a
  }

  function Max(a: real, b: real): real {
    if a < b then b else a
  }

  /** A product by name, so that proofs can treat it as one quantity. */
  function Times(a: real, b: real): real {
    a * b
  }

  lemma TimesPositive(a: real, b: real)
    requires a >= 0.0 && b >= 0.0
    ensures Times(a, b) >= 0.0
  {
  }

  lemma TimesSplits(a: real, x: real, y: real, sum: real)
    requires sum == x + y
    ensures Times(a, sum) == Times(a, x) + Times(a, y)
  {
  }

  lemma TimesMonotone(a: real, x: real, y: real)
    requires a >= 0.0 && x <= y
    ensures Times(a, x) <= Times(a, y)
  {
    TimesPositive(a, y - x);
    TimesSplits(a, x, y - x, y);
  }

  lemma TimesCommutes(a: real, b: real)
    ensures Times(a, b) == Times(b, a)
  {
  }

  const EPS: real := 0.000000001

  /** Fixed at construction; the floor is at least 0.1 and the streak at least 1. */
  datatype Law = Law(maxRate: real, minRate: real, backoff: real, recoverStep: real, recoverAfter: nat)

  datatype Bucket = Bucket(
    rate: real,
    capacity: real,
    tokens: real,
    last: real,
    successes: nat,
    cooldownUntil: real)

  function New(maxRate: real, now: real): Bucket {
    Bucket(maxRate, Max(1.0, maxRate), Max(1.0, maxRate), now, 0, 0.0)
  }

  function Refill(b: Bucket, now: real): Bucket {
    if now - b.last > 0.0
    then b.(tokens := Min(b.capacity, b.tokens + Times(b.rate, now - b.last)), last := now)
    else b
  }

  predicate Enough(b: Bucket, tokens: real) {
    b.tokens >= tokens - EPS
  }

  function Take(b: Bucket, tokens: real): Bucket {
    b.(tokens := Max(0.0, b.tokens - tokens))
  }

  function Throttle(law: Law, b: Bucket, now: real, retryAfter: Option<real>): Bucket {
    var rate := Max(law.minRate, Times(b.rate, law.backoff));
    var capacity := Max(1.0, rate);
    b.(rate := rate, capacity := capacity, tokens := Min(capacity, b.tokens), successes := 0,
       cooldownUntil := if retryAfter.Some? && retryAfter.value > 0.0
                        then Max(b.cooldownUntil, now + retryAfter.value) else b.cooldownUntil)
  }

  function Succeed(law: Law, b: Bucket): Bucket {
    if b.rate >= law.maxRate then b.(successes := 0)
    else if b.successes + 1 >= law.recoverAfter then
      var rate := Min(law.maxRate, b.rate + law.recoverStep);
      b.(rate := rate, capacity := Max(1.0, rate), successes := 0)
    else b.(successes := b.successes + 1)
  }

  /* ---------------------------- the two objects ---------------------------- */

  /** A monotonic clock; sleeping lasts at least as long as asked. */
  class Clock {
    var now: real

    constructor (start: real)
      ensures now == start
    {
      now := start;
    }

    method Monotonic() returns (t: real)
      modifies this
      ensures t == now >= old(now)
    {
      t := now;
    }

    method Sleep(seconds: real)
      modifies this
      ensures now >= old(now) + seconds && now >= old(now)
    {
      now := Max(now, now + seconds);
    }
  }

  /** Refilling in two steps is refilling once. */
  lemma RefillTwice(b: Bucket, s: real, t: real)
    requires s <= t && b.rate >= 0.0
    ensures Refill(Refill(b, s), t) == Refill(b, t)
  {
    if s > b.last && t > s {
      var mid := Refill(b, s);
      TimesSplits(b.rate, s - b.last, t - s, t - b.last);
      TimesPositive(b.rate, t - s);
    }
  }

  lemma PositiveQuotient(a: real, b: real)
    requires a > 0.0 && b > 0.0
    ensures a / b > 0.0 && Times(b, a / b) == a
  {
  }

  /** Sleeping off the deficit makes a bucket that is large enough hold enough. */
  lemma SleptEnough(b: Bucket, now: real, tokens: real)
    requires b.rate > 0.0 && tokens - EPS <= b.capacity && b.tokens < tokens
    requires now >= b.last + (tokens - b.tokens) / b.rate
    ensures Enough(Refill(b, now), tokens)
  {
    var wait := (tokens - b.tokens) / b.rate;
    PositiveQuotient(tokens - b.tokens, b.rate);
    TimesMonotone(b.rate, wait, now - b.last);
  }

  class AdaptivePacer {
    const law: Law
    const clock: Clock
    var rate: real
    var capacity: real
    var tokens: real
    var last: real
    var successes: nat
    var cooldownUntil: real

    function View(): Bucket
      reads this
    {
      Bucket(rate, capacity, tokens, last, successes, cooldownUntil)
    }

    constructor (clock: Clock, maxRate: real, minRate: real, backoff: real, recoverStep: real, recoverAfter: int)
      ensures this.clock == clock && View() == New(maxRate, clock.now)
      ensures law == Law(maxRate, Max(0.1, minRate), backoff, recoverStep, if recoverAfter < 1 then 1 else recoverAfter)
    {
      this.clock := clock;
      law := Law(maxRate, Max(0.1, minRate), backoff, recoverStep, if recoverAfter < 1 then 1 else recoverAfter);
      rate, capacity, tokens := maxRate, Max(1.0, maxRate), Max(1.0, maxRate);
      last, successes, cooldownUntil := clock.now, 0, 0.0;
    }

    method RefillLocked()
      modifies this, clock
      ensures clock.now >= old(clock.now)
      ensures View() == Refill(old(View()), clock.now)
    {
      var now := clock.Monotonic();
      var elapsed := now - last;
      if elapsed > 0.0 {
        tokens := Min(capacity, tokens + elapsed * rate);
        last := now;
      }
    }

    /** TokenBucket.acquire, undisturbed: it sleeps at most once and then takes its tokens. */
    method TakeTokens(wanted: real) returns (slept: real)
      requires rate > 0.0 && wanted - EPS <= capacity && clock.now >= last
      modifies this, clock
      ensures clock.now >= old(clock.now) + slept && slept >= 0.0
      ensures View() == Take(Refill(old(View()), clock.now), wanted)
      ensures Enough(Refill(old(View()), clock.now), wanted)
    {
      slept := 0.0;
      ghost var start := View();
      ghost var rested := false;
      while true
        invariant slept >= 0.0 && clock.now >= old(clock.now) + slept
        invariant rate == start.rate && capacity == start.capacity && clock.now >= last
        invariant forall t :: t >= clock.now ==> Refill(View(), t) == Refill(start, t)
        invariant rested ==> tokens < wanted && clock.now >= last + (wanted - tokens) / rate
        decreases !rested
      {
        ghost var before := View();
        RefillLocked();
        if rested {
          SleptEnough(before, clock.now, wanted);
        }
        if tokens >= wanted - EPS {
          assert View() == Refill(start, clock.now);
          tokens := Max(0.0, tokens - wanted);
          return;
        }
        var deficit := wanted - tokens;
        var wait := deficit / rate;
        PositiveQuotient(deficit, rate);
        ghost var refilled, at := View(), clock.now;
        forall t | t >= at ensures Refill(refilled, t) == Refill(start, t) {
          RefillTwice(before, at, t);
        }
        clock.Sleep(wait);
        slept := slept + wait;
        rested := true;
      }
    }

    /** AdaptivePacer.acquire: never before the cooldown deadline it started under. */
    method Acquire(wanted: real) returns (slept: real)
      requires rate > 0.0 ==> wanted - EPS <= capacity && clock.now >= last
      modifies this, clock
      ensures rate == old(rate) && cooldownUntil == old(cooldownUntil)
      ensures old(rate) <= 0.0 ==> slept == 0.0 && View() == old(View())
      ensures old(rate) > 0.0 ==>
                && clock.now >= old(cooldownUntil)
                && clock.now >= old(clock.now) + slept
                && View() == Take(Refill(old(View()), clock.now), wanted)
                && Enough(Refill(old(View()), clock.now), wanted)
    {
      slept := 0.0;
      if rate <= 0.0 {
        return;
      }
      var wait := 1.0;
      while true
        invariant View() == old(View()) && clock.now >= old(clock.now) + slept && slept >= 0.0
        decreases clock.now < cooldownUntil
      {
        var now := clock.Monotonic();
        wait := cooldownUntil - now;
        if wait <= 0.0 {
          break;
        }
        clock.Sleep(wait);
        slept := slept + wait;
      }
      var more := TakeTokens(wanted);
      slept := slept + more;
    }

    method RecordThrottle(retryAfter: Option<real>)
      modifies this, clock
      ensures clock.now >= old(clock.now)
      ensures View() == Throttle(law, old(View()), clock.now, retryAfter)
    {
      successes := 0;
      rate := Max(law.minRate, rate * law.backoff);
      capacity := Max(1.0, rate);
      if tokens > capacity {
        tokens := capacity;
      }
      if retryAfter.Some? && retryAfter.value > 0.0 {
        var now := clock.Monotonic();
        var deadline := now + retryAfter.value;
        cooldownUntil := Max(cooldownUntil, deadline);
      }
    }

    method RecordSuccess()
      modifies this
      ensures View() == Succeed(law, old(View()))
    {
      if rate >= law.maxRate {
        successes := 0;
        return;
      }
      successes := successes + 1;
      if successes >= law.recoverAfter {
        rate := Min(law.maxRate, rate + law.recoverStep);
        capacity := Max(1.0, rate);
        successes := 0;
      }
    }
  }
}
