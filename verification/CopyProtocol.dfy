/**
  The file-copy protocol as a state machine over its critical sections
  (src/gdrive_turbo_copy/copier.py:562-753): any number of threads (the workers and the main
  thread), every interleaving of successes, failures and stop requests.
 */
module CopyProtocol {
  import opened CopyLedger

  /** Why a server-side copy was not kept. */
  datatype Failure = RateLimit | OtherError | FatalQuota | Unverified

  /** Where a thread is inside _copy_file. */
  datatype Phase =
    | Idle
    | Deciding(size: nat)      // past the stop check, no duplicate found, not yet reserved
    | Copying(size: nat)       // reserved, server call running
    | Verifying(size: nat)     // server call returned, metadata being checked
    | Settling(why: Failure)   // reservation released, streak not yet updated
    | Tripping                 // streak reached the threshold, stop flag not yet set

  datatype Outcome = Copied | RateLimited | Failed

  /**
    `queue` holds the sizes of the files no thread has picked up. The last four components
    record the run: outcomes in lock order, bytes whose reservation an exception skipped
    releasing, whether the breaker fired, and copies each thread finished after the stop.
   */
  datatype State = State(
    threads: seq<Phase>,
    ledger: Ledger,
    stop: bool,
    queue: multiset<nat>,
    outcomes: seq<Outcome>,
    leaked: nat,
    fired: bool,
    late: seq<nat>)

  datatype Step =
    | Pick(t: nat, size: nat)
    | Skip(t: nat, size: nat)                // duplicate, too large, or dropped by a stopped worker
    | TryReserve(t: nat)
    | CopyReturned(t: nat)
    | CopyFailed(t: nat, why: Failure)
    | Abandon(t: nat)                        // QuotaStopped or a validation error, not released
    | VerifyFailed(t: nat)
    | Mark(t: nat)
    | Settle(t: nat)
    | Trip(t: nat)
    | RequestStop

  function Init(threads: nat, queue: multiset<nat>): State {
    State(seq(threads, _ => Idle), EMPTY_LEDGER, false, queue, [], 0, false, seq(threads, _ => 0))
  }

  predicate Enabled(s: State, step: Step) {
    match step
    case Pick(t, size) => t < |s.threads| && s.threads[t].Idle? && !s.stop && size in s.queue
    case Skip(t, size) => t < |s.threads| && s.threads[t].Idle? && size in s.queue
    case TryReserve(t) => t < |s.threads| && s.threads[t].Deciding?
    case CopyReturned(t) => t < |s.threads| && s.threads[t].Copying?
    case CopyFailed(t, why) => t < |s.threads| && s.threads[t].Copying? && !why.Unverified?
    case Abandon(t) => t < |s.threads| && s.threads[t].Copying?
    case VerifyFailed(t) => t < |s.threads| && s.threads[t].Verifying?
    case Mark(t) => t < |s.threads| && s.threads[t].Verifying? && t < |s.late|
    case Settle(t) => t < |s.threads| && s.threads[t].Settling?
    case Trip(t) => t < |s.threads| && s.threads[t].Tripping?
    case RequestStop => true
  }

  function Apply(budget: real, s: State, step: Step): State
    requires Enabled(s, step)
  {
    match step
    case Pick(t, size) =>
      s.(threads := s.threads[t := Deciding(size)], queue := s.queue - multiset{size})
    case Skip(t, size) =>
      s.(queue := s.queue - multiset{size})
    case TryReserve(t) =>
      var size := s.threads[t].size;
      if Fits(budget, s.ledger, size) then
        s.(threads := s.threads[t := Copying(size)], ledger := Reserve(s.ledger, size))
      else
        s.(threads := s.threads[t := Idle], stop := true)
    case CopyReturned(t) =>
      s.(threads := s.threads[t := Verifying(s.threads[t].size)])
    case CopyFailed(t, why) =>
      s.(threads := s.threads[t := Settling(why)], ledger := Release(s.ledger, s.threads[t].size))
    case Abandon(t) =>
      s.(threads := s.threads[t := Idle], leaked := s.leaked + s.threads[t].size)
    case VerifyFailed(t) =>
      s.(threads := s.threads[t := Settling(Unverified)], ledger := Release(s.ledger, s.threads[t].size))
    case Mark(t) =>
      s.(threads := s.threads[t := Idle],
         ledger := MarkCopied(s.ledger, s.threads[t].size),
         outcomes := s.outcomes + [Copied],
         late := if s.stop then s.late[t := s.late[t] + 1] else s.late)
    case Settle(t) =>
      (match s.threads[t].why
       case RateLimit =>
         var l := CountRateFailure(s.ledger);
         s.(threads := s.threads[t := if Tripped(l) then Tripping else Idle],
            ledger := l,
            outcomes := s.outcomes + [RateLimited],
            fired := s.fired || Tripped(l))
       case FatalQuota =>
         s.(threads := s.threads[t := Idle], stop := true)
       case _ =>
         s.(threads := s.threads[t := Idle],
            ledger := BreakStreak(s.ledger),
            outcomes := s.outcomes + [Failed]))
    case Trip(t) =>
      s.(threads := s.threads[t := Idle], stop := true)
    case RequestStop =>
      s.(stop := true)
  }

  /** `steps` can be taken one after another from s. */
  ghost predicate Runs(budget: real, s: State, steps: seq<Step>)
    decreases |steps|
  {
    steps == [] || (Enabled(s, steps[0]) && Runs(budget, Apply(budget, s, steps[0]), steps[1..]))
  }

  ghost function After(budget: real, s: State, steps: seq<Step>): State
    requires Runs(budget, s, steps)
    decreases |steps|
  {
    if steps == [] then s else After(budget, Apply(budget, s, steps[0]), steps[1..])
  }

  /* ------------------------------ conservation ----------------------------- */

  function Held(p: Phase): nat {
    if p.Copying? || p.Verifying? then p.size else 0
  }

  /** Bytes reserved by copies still in flight. */
  function InFlight(threads: seq<Phase>): nat {
    if threads == [] then 0 else Held(threads[0]) + InFlight(threads[1..])
  }

  lemma {:induction false} InFlightUpdate(threads: seq<Phase>, t: nat, p: Phase)
    requires t < |threads|
    ensures InFlight(threads[t := p]) == InFlight(threads) - Held(threads[t]) + Held(p)
  {
    if t == 0 {
      assert threads[t := p][1..] == threads[1..];
    } else {
      assert threads[t := p][1..] == threads[1..][t - 1 := p];
      InFlightUpdate(threads[1..], t - 1, p);
    }
  }

  lemma {:induction false} InFlightIdle(threads: seq<Phase>)
    requires forall t :: 0 <= t < |threads| ==> Held(threads[t]) == 0
    ensures InFlight(threads) == 0
  {
    if threads != [] {
      assert forall t :: 0 <= t < |threads[1..]| ==> threads[1..][t] == threads[t + 1];
      InFlightIdle(threads[1..]);
    }
  }

  /** Length of the trailing run of rate-limited outcomes. */
  function Streak(outcomes: seq<Outcome>): nat {
    if outcomes == [] || !outcomes[|outcomes|-1].RateLimited? then 0
    else 1 + Streak(outcomes[..|outcomes|-1])
  }

  predicate AllLimited(outcomes: seq<Outcome>, from: nat, n: nat) {
    from + n <= |outcomes| && forall j :: from <= j < from + n ==> outcomes[j].RateLimited?
  }

  /** Somewhere in the run, that many outcomes in a row were rate-limited. */
  ghost predicate HadStreak(outcomes: seq<Outcome>, n: nat) {
    exists from: nat :: AllLimited(outcomes, from, n)
  }

  predicate Busy(p: Phase) {
    p.Deciding? || p.Copying? || p.Verifying?
  }

  ghost predicate Accounted(s: State) {
    s.ledger.runBytes == s.ledger.copiedBytes + InFlight(s.threads) + s.leaked
  }

  ghost predicate WithinBudget(budget: real, s: State) {
    budget > 0.0 ==> s.ledger.runBytes as real <= budget
  }

  ghost predicate StreakExact(s: State) {
    && s.ledger.consecRateFail == Streak(s.outcomes)
    && (s.fired <==> HadStreak(s.outcomes, RATE_LIMIT_STOP_THRESHOLD))
  }

  ghost predicate FewLateCopies(s: State) {
    && |s.late| == |s.threads|
    && forall t :: 0 <= t < |s.threads| ==>
         if s.stop then s.late[t] + (if Busy(s.threads[t]) then 1 else 0) <= 1 else s.late[t] == 0
  }

  ghost predicate Inv(budget: real, s: State) {
    && Accounted(s) && WithinBudget(budget, s) && StreakExact(s) && FewLateCopies(s)
    && s.ledger.copiedBytes >= 0
  }

  lemma StreakIsSuffix(outcomes: seq<Outcome>)
    ensures Streak(outcomes) <= |outcomes|
    ensures forall j :: |outcomes| - Streak(outcomes) <= j < |outcomes| ==> outcomes[j].RateLimited?
    ensures Streak(outcomes) < |outcomes| ==> !outcomes[|outcomes| - Streak(outcomes) - 1].RateLimited?
  {
    if outcomes != [] && outcomes[|outcomes|-1].RateLimited? {
      StreakIsSuffix(outcomes[..|outcomes|-1]);
    }
  }

  /** A run of n ends somewhere: either it was there before, or the last outcome completes it. */
  lemma StreakAppend(outcomes: seq<Outcome>, o: Outcome, n: nat)
    requires n > 0
    ensures Streak(outcomes + [o]) == if o.RateLimited? then Streak(outcomes) + 1 else 0
    ensures HadStreak(outcomes + [o], n) <==> HadStreak(outcomes, n) || Streak(outcomes + [o]) >= n
  {
    var all := outcomes + [o];
    assert all[..|outcomes|] == outcomes;
    StreakIsSuffix(all);
    if HadStreak(outcomes, n) {
      var from: nat :| AllLimited(outcomes, from, n);
      assert AllLimited(all, from, n);
    }
    if Streak(all) >= n {
      assert AllLimited(all, |all| - n, n);
    }
    if HadStreak(all, n) && Streak(all) < n {
      assert !all[|all| - Streak(all) - 1].RateLimited?;
      var from: nat :| AllLimited(all, from, n);
      assert from + n != |all|;
      assert AllLimited(outcomes, from, n);
    }
  }

  /** Bytes stay accounted for when one thread's holding moves along with the counters. */
  lemma BytesMove(s: State, s': State, t: nat, p: Phase)
    requires t < |s.threads| && Accounted(s) && s'.threads == s.threads[t := p]
    requires s'.ledger.runBytes - s'.ledger.copiedBytes - s'.leaked
             == s.ledger.runBytes - s.ledger.copiedBytes - s.leaked - Held(s.threads[t]) + Held(p)
    ensures Accounted(s')
  {
    InFlightUpdate(s.threads, t, p);
  }

  ghost predicate BytesKept(budget: real, s: State, s': State) {
    Accounted(s') && WithinBudget(budget, s') && s'.ledger.copiedBytes >= s.ledger.copiedBytes
  }

  lemma ReserveKeepsBytes(budget: real, s: State, t: nat)
    requires Enabled(s, TryReserve(t)) && Accounted(s) && WithinBudget(budget, s)
    ensures BytesKept(budget, s, Apply(budget, s, TryReserve(t)))
  {
    var size := s.threads[t].size;
    BytesMove(s, Apply(budget, s, TryReserve(t)), t, if Fits(budget, s.ledger, size) then Copying(size) else Idle);
  }

  /** A copy that failed or did not verify gives its bytes back. */
  lemma ReleaseKeepsBytes(budget: real, s: State, step: Step, why: Failure)
    requires Enabled(s, step) && Accounted(s) && WithinBudget(budget, s)
    requires (step.CopyFailed? && step.why == why) || (step.VerifyFailed? && why == Unverified)
    ensures BytesKept(budget, s, Apply(budget, s, step))
  {
    BytesMove(s, Apply(budget, s, step), step.t, Settling(why));
  }

  /** A verified copy, or one left reserved, moves its bytes from in flight to where they stay. */
  lemma EndKeepsBytes(budget: real, s: State, step: Step)
    requires Enabled(s, step) && Accounted(s) && WithinBudget(budget, s) && (step.Mark? || step.Abandon?)
    ensures BytesKept(budget, s, Apply(budget, s, step))
  {
    BytesMove(s, Apply(budget, s, step), step.t, Idle);
  }

  lemma SettleKeepsBytes(budget: real, s: State, t: nat)
    requires Enabled(s, Settle(t)) && Accounted(s) && WithinBudget(budget, s)
    ensures BytesKept(budget, s, Apply(budget, s, Settle(t)))
  {
    var s' := Apply(budget, s, Settle(t));
    BytesMove(s, s', t, s'.threads[t]);
  }

  lemma QuietKeepsBytes(budget: real, s: State, step: Step)
    requires Enabled(s, step) && Accounted(s) && WithinBudget(budget, s)
    requires step.Pick? || step.Skip? || step.CopyReturned? || step.Trip? || step.RequestStop?
    ensures BytesKept(budget, s, Apply(budget, s, step))
  {
    if step.Pick? {
      BytesMove(s, Apply(budget, s, step), step.t, Deciding(step.size));
    } else if step.CopyReturned? {
      BytesMove(s, Apply(budget, s, step), step.t, Verifying(s.threads[step.t].size));
    } else if step.Trip? {
      BytesMove(s, Apply(budget, s, step), step.t, Idle);
    }
  }

  lemma StepKeepsBytes(budget: real, s: State, step: Step)
    requires Enabled(s, step) && Accounted(s) && WithinBudget(budget, s)
    ensures BytesKept(budget, s, Apply(budget, s, step))
  {
    if step.TryReserve? {
      ReserveKeepsBytes(budget, s, step.t);
    } else if step.CopyFailed? {
      ReleaseKeepsBytes(budget, s, step, step.why);
    } else if step.VerifyFailed? {
      ReleaseKeepsBytes(budget, s, step, Unverified);
    } else if step.Mark? || step.Abandon? {
      EndKeepsBytes(budget, s, step);
    } else if step.Settle? {
      SettleKeepsBytes(budget, s, step.t);
    } else {
      QuietKeepsBytes(budget, s, step);
    }
  }

  /** What one more outcome does to the streak and the breaker. */
  lemma OutcomeKeepsStreak(s: State, s': State, o: Outcome)
    requires StreakExact(s) && s'.outcomes == s.outcomes + [o]
    requires s'.ledger.consecRateFail == if o.RateLimited? then s.ledger.consecRateFail + 1 else 0
    requires s'.fired == (s.fired || (o.RateLimited? && s'.ledger.consecRateFail >= RATE_LIMIT_STOP_THRESHOLD))
    ensures StreakExact(s')
  {
    StreakAppend(s.outcomes, o, RATE_LIMIT_STOP_THRESHOLD);
  }

  lemma SettleKeepsStreak(budget: real, s: State, t: nat)
    requires Enabled(s, Settle(t)) && StreakExact(s)
    ensures StreakExact(Apply(budget, s, Settle(t)))
  {
    var s' := Apply(budget, s, Settle(t));
    var why := s.threads[t].why;
    if why.RateLimit? {
      OutcomeKeepsStreak(s, s', RateLimited);
    } else if !why.FatalQuota? {
      OutcomeKeepsStreak(s, s', Failed);
    }
  }

  lemma StepKeepsStreak(budget: real, s: State, step: Step)
    requires Enabled(s, step) && StreakExact(s)
    ensures StreakExact(Apply(budget, s, step))
  {
    if step.Settle? {
      SettleKeepsStreak(budget, s, step.t);
    } else if step.Mark? {
      OutcomeKeepsStreak(s, Apply(budget, s, step), Copied);
    } else {
      OtherKeepsStreak(budget, s, step);
    }
  }

  lemma OtherKeepsStreak(budget: real, s: State, step: Step)
    requires Enabled(s, step) && StreakExact(s) && !step.Settle? && !step.Mark?
    ensures StreakExact(Apply(budget, s, step))
  {
    var s' := Apply(budget, s, step);
    assert s'.outcomes == s.outcomes && s'.fired == s.fired && s'.ledger.consecRateFail == s.ledger.consecRateFail;
  }

  lemma StepKeepsLate(budget: real, s: State, step: Step)
    requires Enabled(s, step) && FewLateCopies(s)
    ensures FewLateCopies(Apply(budget, s, step))
  {
  }

  lemma {:induction false} RunKeepsInv(budget: real, s: State, steps: seq<Step>)
    requires Inv(budget, s) && Runs(budget, s, steps)
    ensures Inv(budget, After(budget, s, steps))
    decreases |steps|
  {
    if steps != [] {
      StepKeepsBytes(budget, s, steps[0]);
      StepKeepsStreak(budget, s, steps[0]);
      StepKeepsLate(budget, s, steps[0]);
      RunKeepsInv(budget, Apply(budget, s, steps[0]), steps[1..]);
    }
  }

  lemma InitInv(budget: real, threads: nat, queue: multiset<nat>)
    ensures Inv(budget, Init(threads, queue))
  {
    InFlightIdle(Init(threads, queue).threads);
  }

  /**
    In every interleaving: reserved bytes are the verified bytes plus what is in flight plus
    what was deliberately left reserved, and verified bytes never exceed a positive budget.
   */
  lemma ReservedIsVerifiedPlusInFlight(budget: real, threads: nat, queue: multiset<nat>, steps: seq<Step>)
    requires Runs(budget, Init(threads, queue), steps)
    ensures var s := After(budget, Init(threads, queue), steps);
            && s.ledger.runBytes == s.ledger.copiedBytes + InFlight(s.threads) + s.leaked
            && (budget > 0.0 ==> s.ledger.copiedBytes as real <= budget)
  {
    InitInv(budget, threads, queue);
    RunKeepsInv(budget, Init(threads, queue), steps);
  }

  /**
    The streak counter is the length of the trailing run of rate-limited outcomes, and the
    breaker has fired exactly if eight outcomes in a row were rate-limited.
   */
  lemma BreakerFiresExactlyOnStreak(budget: real, threads: nat, queue: multiset<nat>, steps: seq<Step>)
    requires Runs(budget, Init(threads, queue), steps)
    ensures var s := After(budget, Init(threads, queue), steps);
            && s.ledger.consecRateFail == Streak(s.outcomes)
            && (s.fired <==> HadStreak(s.outcomes, 8))
  {
    InitInv(budget, threads, queue);
    RunKeepsInv(budget, Init(threads, queue), steps);
  }

  /** A breaker that fired has stopped the run, or the thread that tripped it is about to. */
  ghost predicate FiredStops(s: State) {
    s.fired ==> s.stop || exists t :: 0 <= t < |s.threads| && s.threads[t].Tripping?
  }

  lemma StepKeepsFiredStops(budget: real, s: State, step: Step)
    requires Enabled(s, step) && FiredStops(s)
    ensures FiredStops(Apply(budget, s, step))
  {
    var s' := Apply(budget, s, step);
    if s'.fired && !s'.stop {
      if s.fired {
        var t :| 0 <= t < |s.threads| && s.threads[t].Tripping?;
        assert s'.threads[t].Tripping?;
      } else {
        assert s'.threads[step.t].Tripping?;
      }
    }
  }

  lemma {:induction false} RunKeepsFiredStops(budget: real, s: State, steps: seq<Step>)
    requires Runs(budget, s, steps) && FiredStops(s)
    ensures FiredStops(After(budget, s, steps))
    decreases |steps|
  {
    if steps != [] {
      StepKeepsFiredStops(budget, s, steps[0]);
      RunKeepsFiredStops(budget, Apply(budget, s, steps[0]), steps[1..]);
    }
  }

  /** Eight rate-limited outcomes in a row stop the run as soon as the thread that saw the eighth goes on. */
  lemma BreakerStopsTheRun(budget: real, threads: nat, queue: multiset<nat>, steps: seq<Step>)
    requires Runs(budget, Init(threads, queue), steps)
    ensures var s := After(budget, Init(threads, queue), steps);
            HadStreak(s.outcomes, 8) && (forall t :: 0 <= t < |s.threads| ==> !s.threads[t].Tripping?) ==> s.stop
  {
    BreakerFiresExactlyOnStreak(budget, threads, queue, steps);
    RunKeepsFiredStops(budget, Init(threads, queue), steps);
  }

  /** What stops a run, and nothing else: a request, the breaker, the quota, or a file that does not fit the budget. */
  lemma WhatStops(budget: real, s: State, step: Step)
    requires Enabled(s, step)
    ensures Apply(budget, s, step).stop <==>
            (|| s.stop || step.RequestStop? || step.Trip?
             || (step.Settle? && s.threads[step.t].why.FatalQuota?)
             || (step.TryReserve? && budget > 0.0 && (s.ledger.runBytes + s.threads[step.t].size) as real > budget))
  {
  }

  /** The copies counted are the outcomes that were copies. */
  function Copies(outcomes: seq<Outcome>): nat {
    if outcomes == [] then 0
    else Copies(outcomes[..|outcomes|-1]) + if outcomes[|outcomes|-1].Copied? then 1 else 0
  }

  predicate CopiesCounted(s: State) {
    s.ledger.copiedCount == Copies(s.outcomes)
  }

  lemma CopiesAppend(outcomes: seq<Outcome>, o: Outcome)
    ensures Copies(outcomes + [o]) == Copies(outcomes) + if o.Copied? then 1 else 0
  {
    assert (outcomes + [o])[..|outcomes|] == outcomes;
  }

  /** A step adds at most one outcome, and to the count exactly if that is a copy. */
  lemma StepAddsOutcome(budget: real, s: State, step: Step)
    requires Enabled(s, step)
    ensures var s' := Apply(budget, s, step);
            var added := if step.Mark? then [Copied] else if step.Settle? then OutcomeOf(s.threads[step.t].why) else [];
            && s'.outcomes == s.outcomes + added
            && s'.ledger.copiedCount == s.ledger.copiedCount + if step.Mark? then 1 else 0
  {
  }

  function OutcomeOf(why: Failure): seq<Outcome> {
    match why
    case RateLimit => [RateLimited]
    case FatalQuota => []
    case _ => [Failed]
  }

  lemma StepKeepsCopiesCounted(budget: real, s: State, step: Step)
    requires Enabled(s, step) && CopiesCounted(s)
    ensures CopiesCounted(Apply(budget, s, step))
  {
    var s' := Apply(budget, s, step);
    StepAddsOutcome(budget, s, step);
    if s'.outcomes != s.outcomes {
      CopiesAppend(s.outcomes, s'.outcomes[|s.outcomes|]);
    }
  }

  lemma {:induction false} CountIsCopies(budget: real, s: State, steps: seq<Step>)
    requires Runs(budget, s, steps) && CopiesCounted(s)
    ensures CopiesCounted(After(budget, s, steps))
    decreases |steps|
  {
    if steps != [] {
      StepKeepsCopiesCounted(budget, s, steps[0]);
      CountIsCopies(budget, Apply(budget, s, steps[0]), steps[1..]);
    }
  }

  /** Once stop is set, each thread finishes at most the one copy it is already in. */
  lemma AtMostOneLateCopyPerThread(budget: real, threads: nat, queue: multiset<nat>, steps: seq<Step>)
    requires Runs(budget, Init(threads, queue), steps)
    ensures var s := After(budget, Init(threads, queue), steps);
            |s.late| == threads && forall t :: 0 <= t < threads ==> s.late[t] <= 1
  {
    InitInv(budget, threads, queue);
    RunKeepsInv(budget, Init(threads, queue), steps);
    ThreadCountFixed(budget, Init(threads, queue), steps);
  }

  lemma {:induction false} ThreadCountFixed(budget: real, s: State, steps: seq<Step>)
    requires Runs(budget, s, steps)
    ensures |After(budget, s, steps).threads| == |s.threads|
    decreases |steps|
  {
    if steps != [] {
      ThreadCountFixed(budget, Apply(budget, s, steps[0]), steps[1..]);
    }
  }

  /* ------------------------- equal files fill the budget ------------------- */

  /** Steps of a run with no failure, no duplicate and no outside stop request. */
  predicate Clean(s: State, step: Step) {
    match step
    case Skip(_, _) => s.stop
    case CopyFailed(_, _) => false
    case Abandon(_) => false
    case VerifyFailed(_) => false
    case RequestStop => false
    case _ => true
  }

  ghost predicate EachClean(budget: real, s: State, steps: seq<Step>)
    requires Runs(budget, s, steps)
    decreases |steps|
  {
    steps == [] || (Clean(s, steps[0]) && EachClean(budget, Apply(budget, s, steps[0]), steps[1..]))
  }

  function CountBusy(threads: seq<Phase>): nat {
    if threads == [] then 0 else (if Busy(threads[0]) then 1 else 0) + CountBusy(threads[1..])
  }

  function CountHolding(threads: seq<Phase>): nat {
    if threads == [] then 0
    else (if threads[0].Copying? || threads[0].Verifying? then 1 else 0) + CountHolding(threads[1..])
  }

  lemma {:induction false} CountsUpdate(threads: seq<Phase>, t: nat, p: Phase)
    requires t < |threads|
    ensures CountBusy(threads[t := p]) == CountBusy(threads) - (if Busy(threads[t]) then 1 else 0) + (if Busy(p) then 1 else 0)
    ensures CountHolding(threads[t := p])
            == CountHolding(threads) - (if threads[t].Copying? || threads[t].Verifying? then 1 else 0)
               + (if p.Copying? || p.Verifying? then 1 else 0)
  {
    if t == 0 {
      assert threads[t := p][1..] == threads[1..];
    } else {
      assert threads[t := p][1..] == threads[1..][t - 1 := p];
      CountsUpdate(threads[1..], t - 1, p);
    }
  }

  lemma {:induction false} CountsIdle(threads: seq<Phase>)
    requires forall t :: 0 <= t < |threads| ==> threads[t].Idle?
    ensures CountBusy(threads) == 0 && CountHolding(threads) == 0
  {
    if threads != [] {
      assert forall t :: 0 <= t < |threads[1..]| ==> threads[1..][t] == threads[t + 1];
      CountsIdle(threads[1..]);
    }
  }

  ghost predicate AllSize(size: nat, s: State) {
    && (forall q :: q in s.queue ==> q == size)
    && (forall t :: 0 <= t < |s.threads| ==> Sized(size, s.threads[t]))
  }

  predicate Sized(size: nat, p: Phase) {
    (Busy(p) ==> p.size == size) && !p.Settling? && !p.Tripping?
  }

  /** `total` files in all; before the stop none is lost, and the stop means the next one is too much. */
  ghost predicate Counted(budget: real, size: nat, total: nat, s: State) {
    var n := |s.queue| + s.ledger.copiedCount + CountBusy(s.threads);
    && s.ledger.copiedCount >= 0
    && s.ledger.runBytes == size * (s.ledger.copiedCount + CountHolding(s.threads))
    && (budget > 0.0 ==> s.ledger.runBytes as real <= budget)
    && (if s.stop then budget > 0.0 && (s.ledger.runBytes + size) as real > budget && n < total else n == total)
  }

  ghost predicate Filling(budget: real, size: nat, total: nat, s: State) {
    AllSize(size, s) && Counted(budget, size, total, s)
  }

  lemma AllSizeUpdate(size: nat, s: State, s': State, t: nat, p: Phase)
    requires AllSize(size, s) && t < |s.threads| && s'.threads == s.threads[t := p] && Sized(size, p)
    requires s'.queue <= s.queue
    ensures AllSize(size, s')
  {
    forall q | q in s'.queue ensures q == size {
      assert q in s.queue;
    }
  }

  lemma PickKeeps(budget: real, size: nat, total: nat, s: State, step: Step)
    requires Enabled(s, step) && Clean(s, step) && Filling(budget, size, total, s) && (step.Pick? || step.Skip?)
    ensures Filling(budget, size, total, Apply(budget, s, step))
  {
    assert step.size == size;
    assert |s.queue - multiset{size}| == |s.queue| - 1;
    if step.Pick? {
      CountsUpdate(s.threads, step.t, Deciding(size));
      AllSizeUpdate(size, s, Apply(budget, s, step), step.t, Deciding(size));
    } else {
      assert s.threads[step.t := s.threads[step.t]] == s.threads;
      AllSizeUpdate(size, s, Apply(budget, s, step), step.t, s.threads[step.t]);
    }
  }

  lemma ReserveKeepsFilling(budget: real, size: nat, total: nat, s: State, t: nat)
    requires Enabled(s, TryReserve(t)) && Filling(budget, size, total, s)
    ensures Filling(budget, size, total, Apply(budget, s, TryReserve(t)))
  {
    assert Sized(size, s.threads[t]);
    TimesNext(size, s.ledger.copiedCount + CountHolding(s.threads));
    var p := if Fits(budget, s.ledger, size) then Copying(size) else Idle;
    CountsUpdate(s.threads, t, p);
    AllSizeUpdate(size, s, Apply(budget, s, TryReserve(t)), t, p);
  }

  lemma CopyKeepsFilling(budget: real, size: nat, total: nat, s: State, step: Step)
    requires Enabled(s, step) && Filling(budget, size, total, s) && (step.CopyReturned? || step.Mark?)
    ensures Filling(budget, size, total, Apply(budget, s, step))
  {
    assert Sized(size, s.threads[step.t]);
    var p := if step.Mark? then Idle else Verifying(size);
    CountsUpdate(s.threads, step.t, p);
    AllSizeUpdate(size, s, Apply(budget, s, step), step.t, p);
  }

  lemma StepKeepsFilling(budget: real, size: nat, total: nat, s: State, step: Step)
    requires Enabled(s, step) && Clean(s, step) && Filling(budget, size, total, s)
    ensures Filling(budget, size, total, Apply(budget, s, step))
  {
    assert step.Settle? || step.Trip? ==> Sized(size, s.threads[step.t]);
    if step.Pick? || step.Skip? {
      PickKeeps(budget, size, total, s, step);
    } else if step.TryReserve? {
      ReserveKeepsFilling(budget, size, total, s, step.t);
    } else if step.CopyReturned? || step.Mark? {
      CopyKeepsFilling(budget, size, total, s, step);
    }
  }

  lemma TimesNext(size: int, n: int)
    ensures size * (n + 1) == size * n + size
  {
  }

  lemma {:induction false} RunKeepsFilling(budget: real, size: nat, total: nat, s: State, steps: seq<Step>)
    requires Runs(budget, s, steps) && EachClean(budget, s, steps) && Filling(budget, size, total, s)
    ensures Filling(budget, size, total, After(budget, s, steps))
    decreases |steps|
  {
    if steps != [] {
      StepKeepsFilling(budget, size, total, s, steps[0]);
      RunKeepsFilling(budget, size, total, Apply(budget, s, steps[0]), steps[1..]);
    }
  }

  lemma Times(a: real, b: real, c: real)
    requires c > 0.0
    ensures a < b <==> a * c < b * c
  {
  }

  /** Comparing n with a quotient is comparing n * size with the dividend. */
  lemma QuotientOrder(budget: real, size: nat, n: nat)
    requires size > 0
    ensures (size * n) as real <= budget <==> n as real <= budget / size as real
  {
    var q := budget / size as real;
    assert q * size as real == budget;
    assert (size * n) as real == n as real * size as real;
    Times(q, n as real, size as real);
  }

  predicate Finished(s: State) {
    && (forall t :: 0 <= t < |s.threads| ==> s.threads[t].Idle?)
    && (s.stop || s.queue == multiset{})
  }

  lemma FilledWhenFinished(budget: real, size: nat, total: nat, s: State)
    requires size > 0 && budget >= 0.0
    requires Filling(budget, size, total, s) && Finished(s)
    ensures s.ledger.copiedCount == if budget > 0.0 && (budget / size as real).Floor < total
                                    then (budget / size as real).Floor else total
  {
    CountsIdle(s.threads);
    var n := s.ledger.copiedCount;
    assert s.ledger.runBytes == size * n;
    if s.stop {
      assert size * (n + 1) == size * n + size;
      QuotientOrder(budget, size, n);
      QuotientOrder(budget, size, n + 1);
    } else if budget > 0.0 {
      QuotientOrder(budget, size, total);
    }
  }

  /**
    Equal files, no failures, no duplicates: however the threads interleave, a finished run has
    copied exactly min(n, floor(budget / size)) files, or all n when the budget is unlimited.
   */
  lemma EqualFilesFillTheBudget(budget: real, threads: nat, size: nat, queue: multiset<nat>, steps: seq<Step>)
    requires size > 0 && budget >= 0.0
    requires forall q :: q in queue ==> q == size
    requires Runs(budget, Init(threads, queue), steps)
    requires EachClean(budget, Init(threads, queue), steps)
    requires Finished(After(budget, Init(threads, queue), steps))
    ensures var copied := After(budget, Init(threads, queue), steps).ledger.copiedCount;
            copied == if budget > 0.0 && (budget / size as real).Floor < |queue|
                      then (budget / size as real).Floor else |queue|
  {
    var s0 := Init(threads, queue);
    CountsIdle(s0.threads);
    assert Filling(budget, size, |queue|, s0);
    RunKeepsFilling(budget, size, |queue|, s0, steps);
    FilledWhenFinished(budget, size, |queue|, After(budget, s0, steps));
  }
}
