/**
  Adaptive concurrency limits (src/gdrive_turbo_copy/concurrency.py:18-87): per operation type
  a limit that halves on throttling and creeps back, and threads that wait on one condition
  variable shared by all types.
 */
module Limiter {

  datatype Op = CopyOp | ListOp | CreateFolderOp | LogUpdateOp | MetadataOp

  datatype Limit = Limit(limit: int, minLimit: int, maxLimit: int, inFlight: int, successes: int, increaseAfter: int)

  predicate Full(l: Limit) {
    l.inFlight >= l.limit
  }

  function Take(l: Limit): Limit {
    l.(inFlight := l.inFlight + 1)
  }

  function Give(l: Limit): Limit {
    l.(inFlight := l.inFlight - 1)
  }

  /** A full streak below the ceiling raises the limit by one; the streak goes on otherwise. */
  predicate Raises(l: Limit) {
    l.successes + 1 >= l.increaseAfter && l.limit < l.maxLimit
  }

  function Succeed(l: Limit): Limit {
    if Raises(l) then l.(limit := l.limit + 1, successes := 0) else l.(successes := l.successes + 1)
  }

  function Throttle(l: Limit): Limit {
    l.(successes := 0, limit := if l.limit / 2 < l.minLimit then l.minLimit else l.limit / 2)
  }

  function New(max: int, increaseAfter: int): Limit {
    var m := if max < 1 then 1 else max;
    Limit(m, 1, m, 0, 0, increaseAfter)
  }

  /** The limiter as its critical sections update it. */
  class SharedLimit {
    var limit: int
    var inFlight: int
    var successes: int
    const minLimit: int
    const maxLimit: int
    const increaseAfter: int

    function View(): Limit
      reads this
    {
      Limit(limit, minLimit, maxLimit, inFlight, successes, increaseAfter)
    }

    constructor (workers: int, increaseAfter: int)
      ensures View() == New(workers, increaseAfter)
    {
      var m := if workers < 1 then 1 else workers;
      limit, minLimit, maxLimit := m, 1, m;
      inFlight, successes, this.increaseAfter := 0, 0, increaseAfter;
    }

    /** One pass of the wait loop: false means the caller waits and tries again. */
    method TryAcquire() returns (acquired: bool)
      modifies this
      ensures acquired == !Full(old(View()))
      ensures View() == if acquired then Take(old(View())) else old(View())
    {
      if inFlight >= limit {
        return false;
      }
      inFlight := inFlight + 1;
      return true;
    }

    method Release()
      modifies this
      ensures View() == Give(old(View()))
    {
      inFlight := inFlight - 1;
    }

    method RecordSuccess() returns (notify: bool)
      modifies this
      ensures View() == Succeed(old(View()))
      ensures notify == Raises(old(View()))
    {
      successes := successes + 1;
      if successes >= increaseAfter && limit < maxLimit {
        limit := limit + 1;
        successes := 0;
        return true;
      }
      return false;
    }

    method RecordThrottle()
      modifies this
      ensures View() == Throttle(old(View()))
    {
      successes := 0;
      limit := if limit / 2 < minLimit then minLimit else limit / 2;
    }
  }

  /** A new limit stands at its ceiling, the number of workers or one, with nothing in flight. */
  lemma NewStartsAtCeiling(workers: int, increaseAfter: int)
    ensures var l := New(workers, increaseAfter);
            && l.limit == l.maxLimit && l.minLimit == 1 && l.inFlight == 0 && l.successes == 0
            && l.maxLimit == (if workers >= 1 then workers else 1) && l.increaseAfter == increaseAfter
  {
  }

  /* ----------------------------- the control law --------------------------- */

  function Throttles(l: Limit, n: nat): Limit {
    if n == 0 then l else Throttle(Throttles(l, n - 1))
  }

  function Successes(l: Limit, n: nat): Limit {
    if n == 0 then l else Succeed(Successes(l, n - 1))
  }

  function Pow2(n: nat): (p: nat)
    ensures p > 0
  {
    if n == 0 then 1 else 2 * Pow2(n - 1)
  }

  function AtLeast(floor: int, x: int): int {
    if x < floor then floor else x
  }

  lemma NonzeroMultiple(d: int, b: int)
    requires b > 0 && d != 0
    ensures d * b >= b || d * b <= -b
  {
    if d >= 1 {
      assert (d - 1) * b >= 0;
    } else {
      assert (-d - 1) * b >= 0;
    }
  }

  lemma QuotientIs(a: int, b: int, q: int, r: int)
    requires b > 0 && a == q * b + r && 0 <= r < b
    ensures a / b == q
  {
    var d := a / b - q;
    assert a == (a / b) * b + a % b;
    assert d * b == r - a % b;
    if d != 0 {
      NonzeroMultiple(d, b);
    }
  }

  /** Halving a floor is taking the floor of half. */
  lemma HalvedQuotient(a: int, k: nat)
    requires k > 0
    ensures (a / k) / 2 == a / (2 * k)
  {
    var q, r := a / k, a % k;
    var p, s := q / 2, q % 2;
    assert a == q * k + r && q == 2 * p + s;
    assert q * k == (2 * p) * k + s * k;
    assert (2 * p) * k == p * (2 * k);
    QuotientIs(a, 2 * k, p, s * k + r);
  }

  /** n throttles divide the limit by 2^n, down to the minimum. */
  lemma {:induction false} ThrottlesHalve(l: Limit, n: nat)
    requires 1 <= l.minLimit <= l.limit
    ensures Throttles(l, n).limit == AtLeast(l.minLimit, l.limit / Pow2(n))
    ensures Throttles(l, n).minLimit == l.minLimit
  {
    if n > 0 {
      ThrottlesHalve(l, n - 1);
      HalvedQuotient(l.limit, Pow2(n - 1));
    }
  }

  /** Within a streak nothing changes but the count. */
  lemma {:induction false} UnfinishedStreak(l: Limit, n: nat)
    requires l.successes == 0 && n < l.increaseAfter
    ensures Successes(l, n) == l.(successes := n)
  {
    if n > 0 {
      UnfinishedStreak(l, n - 1);
    }
  }

  lemma {:induction false} AtCeiling(l: Limit, n: nat)
    requires l.limit == l.maxLimit
    ensures Successes(l, n) == l.(successes := l.successes + n)
  {
    if n > 0 {
      AtCeiling(l, n - 1);
    }
  }

  lemma {:induction false} SuccessesAdd(l: Limit, m: nat, n: nat)
    ensures Successes(l, m + n) == Successes(Successes(l, m), n)
  {
    if n > 0 {
      SuccessesAdd(l, m, n - 1);
    }
  }

  lemma StreakCount(m: nat, n: int)
    requires m > 0
    ensures m * n == (m - 1) * n + n
  {
  }

  /** m full streaks of successes raise the limit by m, up to the ceiling. */
  lemma {:induction false} StreaksRaise(l: Limit, m: nat)
    requires l.successes == 0 && l.increaseAfter >= 1 && l.limit <= l.maxLimit
    ensures m * l.increaseAfter >= 0
    ensures Successes(l, m * l.increaseAfter).limit == (if l.limit + m < l.maxLimit then l.limit + m else l.maxLimit)
    decreases m
  {
    if l.limit == l.maxLimit {
      AtCeiling(l, m * l.increaseAfter);
    } else if m > 0 {
      UnfinishedStreak(l, l.increaseAfter - 1);
      var raised := Successes(l, l.increaseAfter);
      assert raised == l.(limit := l.limit + 1, successes := 0);
      StreaksRaise(raised, m - 1);
      StreakCount(m, l.increaseAfter);
      SuccessesAdd(l, l.increaseAfter, (m - 1) * l.increaseAfter);
    }
  }

  /* ------------------------- the threads around it ------------------------- */

  /** `Ready` runs or has been notified; `Asleep` is inside wait() and not notified. */
  datatype Phase = Idle | Ready(op: Op) | Asleep(op: Op) | Holding(op: Op)

  datatype State = State(limits: map<Op, Limit>, threads: seq<Phase>)

  datatype Step =
    | Request(t: nat, op: Op)
    | TryAcquire(t: nat)
    | SpuriousWakeup(t: nat)
    | Release(t: nat)
    | RecordSuccess(op: Op)
    | RecordThrottle(op: Op)

  predicate Enabled(s: State, step: Step) {
    match step
    case Request(t, op) => t < |s.threads| && s.threads[t].Idle? && op in s.limits
    case TryAcquire(t) => t < |s.threads| && s.threads[t].Ready? && s.threads[t].op in s.limits
    case SpuriousWakeup(t) => t < |s.threads| && s.threads[t].Asleep?
    case Release(t) => t < |s.threads| && s.threads[t].Holding? && s.threads[t].op in s.limits
    case RecordSuccess(op) => op in s.limits
    case RecordThrottle(op) => op in s.limits
  }

  /** notify_all. */
  function WakeAll(threads: seq<Phase>): seq<Phase> {
    seq(|threads|, i requires 0 <= i < |threads| =>
      if threads[i].Asleep? then Ready(threads[i].op) else threads[i])
  }

  function Apply(s: State, step: Step): State
    requires Enabled(s, step)
  {
    match step
    case Request(t, op) => s.(threads := s.threads[t := Ready(op)])
    case TryAcquire(t) =>
      var op := s.threads[t].op;
      if Full(s.limits[op]) then s.(threads := s.threads[t := Asleep(op)])
      else State(s.limits[op := Take(s.limits[op])], s.threads[t := Holding(op)])
    case SpuriousWakeup(t) => s.(threads := s.threads[t := Ready(s.threads[t].op)])
    case Release(t) =>
      var op := s.threads[t].op;
      State(s.limits[op := Give(s.limits[op])], WakeAll(s.threads[t := Idle]))
    case RecordSuccess(op) =>
      State(s.limits[op := Succeed(s.limits[op])], if Raises(s.limits[op]) then WakeAll(s.threads) else s.threads)
    case RecordThrottle(op) => s.(limits := s.limits[op := Throttle(s.limits[op])])
  }

  ghost predicate Runs(s: State, steps: seq<Step>)
    decreases |steps|
  {
    steps == [] || (Enabled(s, steps[0]) && Runs(Apply(s, steps[0]), steps[1..]))
  }

  ghost function After(s: State, steps: seq<Step>): State
    requires Runs(s, steps)
    decreases |steps|
  {
    if steps == [] then s else After(Apply(s, steps[0]), steps[1..])
  }

  function Holders(threads: seq<Phase>, op: Op): nat {
    if threads == [] then 0
    else (if threads[0] == Holding(op) then 1 else 0) + Holders(threads[1..], op)
  }

  lemma {:induction false} HoldersUpdate(threads: seq<Phase>, t: nat, p: Phase, op: Op)
    requires t < |threads|
    ensures Holders(threads[t := p], op)
            == Holders(threads, op) - (if threads[t] == Holding(op) then 1 else 0) + (if p == Holding(op) then 1 else 0)
  {
    if t == 0 {
      assert threads[t := p][1..] == threads[1..];
    } else {
      assert threads[t := p][1..] == threads[1..][t - 1 := p];
      HoldersUpdate(threads[1..], t - 1, p, op);
    }
  }

  lemma {:induction false} HoldersWakeAll(threads: seq<Phase>, op: Op)
    ensures Holders(WakeAll(threads), op) == Holders(threads, op)
  {
    if threads != [] {
      assert WakeAll(threads)[1..] == WakeAll(threads[1..]);
      HoldersWakeAll(threads[1..], op);
    }
  }

  lemma {:induction false} SomeHolder(threads: seq<Phase>, op: Op)
    requires Holders(threads, op) > 0
    ensures exists t :: 0 <= t < |threads| && threads[t] == Holding(op)
  {
    if threads[0] != Holding(op) {
      SomeHolder(threads[1..], op);
      var t :| 0 <= t < |threads[1..]| && threads[1..][t] == Holding(op);
      assert threads[t + 1] == Holding(op);
    }
  }

  ghost predicate LimitInv(l: Limit, holders: nat) {
    && l.minLimit == 1 && 1 <= l.limit <= l.maxLimit
    && l.inFlight == holders && l.inFlight <= l.maxLimit
    && l.successes >= 0
    && (l.increaseAfter >= 1 && l.limit < l.maxLimit ==> l.successes < l.increaseAfter)
  }

  /** Nobody sleeps while its operation has a free slot. */
  ghost predicate NoLostWakeup(s: State) {
    forall t :: 0 <= t < |s.threads| && s.threads[t].Asleep? ==>
      s.threads[t].op in s.limits && Full(s.limits[s.threads[t].op])
  }

  ghost predicate Inv(s: State) {
    && (forall op :: op in s.limits ==> LimitInv(s.limits[op], Holders(s.threads, op)))
    && NoLostWakeup(s)
  }

  lemma StepKeepsInv(s: State, step: Step)
    requires Inv(s) && Enabled(s, step)
    ensures Inv(Apply(s, step))
    ensures Apply(s, step).limits.Keys == s.limits.Keys
    ensures forall op :: op in s.limits && Full(s.limits[op]) ==> Apply(s, step).limits[op].inFlight <= s.limits[op].inFlight
  {
    var s' := Apply(s, step);
    forall op | op in s'.limits ensures LimitInv(s'.limits[op], Holders(s'.threads, op)) {
      LimitKept(s, step, op);
    }
    SleepersKept(s, step);
  }

  lemma LimitKeptByRelease(s: State, t: nat, op: Op)
    requires Inv(s) && Enabled(s, Release(t)) && op in s.limits
    ensures op in Apply(s, Release(t)).limits
    ensures LimitInv(Apply(s, Release(t)).limits[op], Holders(Apply(s, Release(t)).threads, op))
  {
    HoldersUpdate(s.threads, t, Idle, op);
    HoldersWakeAll(s.threads[t := Idle], op);
  }

  lemma LimitKept(s: State, step: Step, op: Op)
    requires Inv(s) && Enabled(s, step) && op in s.limits
    ensures op in Apply(s, step).limits
    ensures LimitInv(Apply(s, step).limits[op], Holders(Apply(s, step).threads, op))
  {
    var s' := Apply(s, step);
    match step {
      case Request(t, _) => HoldersUpdate(s.threads, t, s'.threads[t], op);
      case TryAcquire(t) => HoldersUpdate(s.threads, t, s'.threads[t], op);
      case SpuriousWakeup(t) => HoldersUpdate(s.threads, t, s'.threads[t], op);
      case Release(t) => LimitKeptByRelease(s, t, op);
      case RecordSuccess(_) => HoldersWakeAll(s.threads, op);
      case RecordThrottle(_) =>
    }
  }

  lemma SleepersKept(s: State, step: Step)
    requires Inv(s) && Enabled(s, step)
    ensures NoLostWakeup(Apply(s, step))
  {
  }

  lemma {:induction false} RunKeepsInv(s: State, steps: seq<Step>)
    requires Inv(s) && Runs(s, steps)
    ensures Inv(After(s, steps))
    decreases |steps|
  {
    if steps != [] {
      StepKeepsInv(s, steps[0]);
      RunKeepsInv(Apply(s, steps[0]), steps[1..]);
    }
  }

  function Init(limits: map<Op, Limit>, threads: nat): State {
    State(limits, seq(threads, _ => Idle))
  }

  lemma {:induction false} NoHoldersInitially(threads: seq<Phase>, op: Op)
    requires forall t :: 0 <= t < |threads| ==> threads[t].Idle?
    ensures Holders(threads, op) == 0
  {
    if threads != [] {
      assert forall t :: 0 <= t < |threads[1..]| ==> threads[1..][t] == threads[t + 1];
      NoHoldersInitially(threads[1..], op);
    }
  }

  /**
    In every reachable state: limits stay within [1, max], no more than max calls are in flight,
    a limit below the ceiling has an unfinished streak, and whoever sleeps has a running call
    of the same type whose release will wake it, so nobody sleeps on a free slot.
   */
  lemma LimiterIsSafeAndLive(limits: map<Op, Limit>, workers: nat, steps: seq<Step>, op: Op, t: nat)
    requires forall o :: o in limits ==> exists max, after :: limits[o] == New(max, after)
    requires Runs(Init(limits, workers), steps) && op in limits && op in After(Init(limits, workers), steps).limits
    ensures var s := After(Init(limits, workers), steps);
            var l := s.limits[op];
            && 1 <= l.limit <= l.maxLimit && 0 <= l.inFlight <= l.maxLimit
            && (l.increaseAfter >= 1 && l.limit < l.maxLimit ==> l.successes < l.increaseAfter)
            && (t < |s.threads| && s.threads[t] == Asleep(op) ==>
                  Full(l) && exists u :: 0 <= u < |s.threads| && s.threads[u] == Holding(op))
  {
    var s0 := Init(limits, workers);
    forall o | o in limits ensures LimitInv(limits[o], Holders(s0.threads, o)) {
      NoHoldersInitially(s0.threads, o);
    }
    RunKeepsInv(s0, steps);
    var s := After(s0, steps);
    if t < |s.threads| && s.threads[t] == Asleep(op) {
      SomeHolder(s.threads, op);
    }
  }
}
