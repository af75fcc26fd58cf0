/**
  Retrying one API call, and what the client around it reports
  (src/gdrive_turbo_copy/retry.py:144-232, src/gdrive_turbo_copy/drive_client.py:65-104).

  The server's answers, the classification of errors and the random jitter are given as
  sequences; everything the code does is recorded as a log of effects.
 */
module Retry {
  import opened DriveModel
  import opened Pacer
  import L = Limiter

  datatype ErrorClass = Transient | FatalQuota | FatalPermission | FatalOther

  /** One attempt's answer; `throttled` is the 429 or rate-limit test of the client's callback. */
  datatype Answer = Success | Failure(cls: ErrorClass, throttled: bool, retryAfter: Option<real>)

  datatype Policy = Policy(maxAttempts: int, baseDelay: real, maxDelay: real)

  datatype Effect =
    | TakeSlot
    | GiveSlotBack
    | AcquireToken
    | Call(answer: Answer)
    | ThrottleFeedback(retryAfter: Option<real>)
    | Slept(delay: real)
    | SuccessFeedback

  /** base * 2^(attempt-1), capped. */
  function Backoff(policy: Policy, attempt: nat): real {
    Min(policy.maxDelay, policy.baseDelay * Doubling(attempt))
  }

  function Doubling(attempt: nat): real {
    if attempt <= 1 then 1.0 else 2.0 * Doubling(attempt - 1)
  }

  /** full_jitter_delay: somewhere between zero and the capped backoff. */
  predicate Jittered(policy: Policy, attempt: nat, delay: real) {
    0.0 <= delay <= Backoff(policy, attempt)
  }

  predicate Retries(policy: Policy, attempt: nat, a: Answer) {
    a.Failure? && a.cls.Transient? && attempt < policy.maxAttempts
  }

  function DelayOf(a: Answer, jitter: real): real {
    if a.Failure? && a.retryAfter.Some? then a.retryAfter.value else jitter
  }

  /** What a retried attempt does: pace, call, report a throttle, sleep. */
  function RetriedAttempt(a: Answer, jitter: real): seq<Effect> {
    [AcquireToken] + [Call(a)]
    + (if a.Failure? && a.throttled then [ThrottleFeedback(a.retryAfter)] else [])
    + [Slept(DelayOf(a, jitter))]
  }

  /** What the last attempt does. */
  function LastAttempt(a: Answer): seq<Effect> {
    [AcquireToken] + [Call(a)] + if a.Success? then [SuccessFeedback] else []
  }

  /** The first n attempts, all of them retried. */
  function Retried(answers: seq<Answer>, jitters: seq<real>, n: nat): seq<Effect>
    requires n <= |answers| && n <= |jitters|
  {
    if n == 0 then [] else Retried(answers, jitters, n - 1) + RetriedAttempt(answers[n-1], jitters[n-1])
  }

  /** How many answers at the front are transient errors. */
  function LeadingTransient(answers: seq<Answer>): nat {
    if answers != [] && answers[0].Failure? && answers[0].cls.Transient? then 1 + LeadingTransient(answers[1..]) else 0
  }

  /** Once per leading transient error plus once, capped at max_attempts (at least one call is made). */
  function CallsMade(policy: Policy, answers: seq<Answer>): nat {
    var cap := if policy.maxAttempts < 1 then 1 else policy.maxAttempts;
    if LeadingTransient(answers) + 1 < cap then LeadingTransient(answers) + 1 else cap
  }

  predicate EnoughAnswers(policy: Policy, answers: seq<Answer>, jitters: seq<real>) {
    |answers| == |jitters| > 0 && |answers| >= policy.maxAttempts
  }

  lemma {:induction false} LeadingRun(answers: seq<Answer>, k: nat)
    requires k <= |answers|
    requires forall j :: 0 <= j < k ==> answers[j].Failure? && answers[j].cls.Transient?
    ensures LeadingTransient(answers) >= k
    ensures k < |answers| && !(answers[k].Failure? && answers[k].cls.Transient?) ==> LeadingTransient(answers) == k
    decreases k
  {
    if k > 0 {
      assert forall j :: 0 <= j < k - 1 ==> answers[1..][j] == answers[j + 1];
      LeadingRun(answers[1..], k - 1);
    }
  }

  lemma StopsAfter(policy: Policy, answers: seq<Answer>, k: nat)
    requires k < |answers| && !Retries(policy, k + 1, answers[k])
    requires forall j :: 0 <= j < k ==> Retries(policy, j + 1, answers[j])
    ensures CallsMade(policy, answers) == k + 1
  {
    LeadingRun(answers, k);
    assert k > 0 ==> Retries(policy, (k - 1) + 1, answers[k-1]);
    if answers[k].Failure? && answers[k].cls.Transient? {
      LeadingRun(answers, k + 1);
    }
  }

  /**
    execute_with_retry inside _exec: the calls made, everything done around them in order, and
    as result the last answer, returned or raised.
   */
  method Exec(policy: Policy, answers: seq<Answer>, jitters: seq<real>) returns (result: Answer, log: seq<Effect>)
    requires EnoughAnswers(policy, answers, jitters)
    ensures 1 <= CallsMade(policy, answers) <= |answers|
    ensures result == answers[CallsMade(policy, answers) - 1]
    ensures log == Retried(answers, jitters, CallsMade(policy, answers) - 1) + LastAttempt(result)
  {
    log := [];
    var attempt := 0;
    while true
      invariant 0 <= attempt < |answers|
      invariant forall j :: 0 <= j < attempt ==> Retries(policy, j + 1, answers[j])
      invariant log == Retried(answers, jitters, attempt)
      decreases |answers| - attempt
    {
      attempt := attempt + 1;
      var answer, jitter := answers[attempt-1], jitters[attempt-1];
      log := log + [AcquireToken];
      log := log + [Call(answer)];
      if answer.Success? {
        log := log + [SuccessFeedback];
        StopsAfter(policy, answers, attempt - 1);
        return answer, log;
      }
      if !answer.cls.Transient? || attempt >= policy.maxAttempts {
        StopsAfter(policy, answers, attempt - 1);
        return answer, log;
      }
      var delay := if answer.retryAfter.Some? then answer.retryAfter.value else jitter;
      if answer.throttled {
        log := log + [ThrottleFeedback(answer.retryAfter)];
      }
      log := log + [Slept(delay)];
    }
  }

  /** _run: the same inside the operation's concurrency slot, given back on return and on raise alike. */
  method Run(policy: Policy, answers: seq<Answer>, jitters: seq<real>) returns (result: Answer, log: seq<Effect>)
    requires EnoughAnswers(policy, answers, jitters)
    ensures 1 <= CallsMade(policy, answers) <= |answers|
    ensures result == answers[CallsMade(policy, answers) - 1]
    ensures log == Operation(policy, answers, jitters)
  {
    log := [TakeSlot];
    var done;
    result, done := Exec(policy, answers, jitters);
    log := log + done;
    log := log + [GiveSlotBack];
  }

  /** Everything one operation does, in order. */
  function Operation(policy: Policy, answers: seq<Answer>, jitters: seq<real>): seq<Effect>
    requires CallsMade(policy, answers) <= |answers| && |answers| == |jitters|
  {
    var n := CallsMade(policy, answers);
    [TakeSlot] + (Retried(answers, jitters, n - 1) + LastAttempt(answers[n-1])) + [GiveSlotBack]
  }

  /** Slots held after these effects. */
  function SlotsHeld(log: seq<Effect>): int {
    if log == [] then 0
    else SlotsHeld(log[..|log|-1]) + match log[|log|-1] case TakeSlot => 1 case GiveSlotBack => -1 case _ => 0
  }

  predicate NoSlots(log: seq<Effect>) {
    forall i :: 0 <= i < |log| ==> !log[i].TakeSlot? && !log[i].GiveSlotBack?
  }

  lemma {:induction false} RetriedTakesNoSlots(answers: seq<Answer>, jitters: seq<real>, n: nat)
    requires n <= |answers| && n <= |jitters|
    ensures NoSlots(Retried(answers, jitters, n))
  {
    if n > 0 {
      RetriedTakesNoSlots(answers, jitters, n - 1);
    }
  }

  lemma {:induction false} HeldInside(inner: seq<Effect>, k: nat)
    requires NoSlots(inner) && k <= |inner|
    ensures SlotsHeld([TakeSlot] + inner[..k]) == 1
  {
    if k == 0 {
      assert SlotsHeld([TakeSlot]) == SlotsHeld([]) + 1 by {
        assert [TakeSlot][..0] == [];
      }
      assert [TakeSlot] + inner[..0] == [TakeSlot];
    } else {
      HeldInside(inner, k - 1);
      var log := [TakeSlot] + inner[..k];
      assert log[..|log|-1] == [TakeSlot] + inner[..k-1];
      assert log[|log|-1] == inner[k-1];
    }
  }

  /**
    One operation holds exactly one slot from its first effect to its last, through every
    attempt and every sleep, and none afterwards, however it ends.
   */
  lemma SlotHeldThroughout(policy: Policy, answers: seq<Answer>, jitters: seq<real>, k: nat)
    requires EnoughAnswers(policy, answers, jitters) && CallsMade(policy, answers) <= |answers|
    requires k <= |Operation(policy, answers, jitters)|
    ensures SlotsHeld(Operation(policy, answers, jitters)[..k])
            == if 0 < k < |Operation(policy, answers, jitters)| then 1 else 0
  {
    var n := CallsMade(policy, answers);
    var inner := Retried(answers, jitters, n - 1) + LastAttempt(answers[n-1]);
    var log := Operation(policy, answers, jitters);
    RetriedTakesNoSlots(answers, jitters, n - 1);
    assert NoSlots(inner);
    if k == |log| {
      HeldInside(inner, |inner|);
      assert log[..k] == log && inner[..|inner|] == inner;
      assert log[..|log|-1] == [TakeSlot] + inner;
    } else if k > 0 {
      HeldInside(inner, k - 1);
      assert log[..k] == [TakeSlot] + inner[..k-1];
    }
  }

  /* ------------------------------ what it means ---------------------------- */

  datatype Tally = Tally(tokens: nat, calls: nat, sleeps: seq<real>, throttles: seq<Option<real>>, successes: nat)

  function TallyOf(log: seq<Effect>): Tally {
    if log == [] then Tally(0, 0, [], [], 0) else Count(TallyOf(log[..|log|-1]), log[|log|-1])
  }

  function Count(t: Tally, e: Effect): Tally {
    match e
    case AcquireToken => t.(tokens := t.tokens + 1)
    case Call(_) => t.(calls := t.calls + 1)
    case ThrottleFeedback(retryAfter) => t.(throttles := t.throttles + [retryAfter])
    case Slept(delay) => t.(sleeps := t.sleeps + [delay])
    case SuccessFeedback => t.(successes := t.successes + 1)
    case _ => t
  }

  lemma TallyOne(log: seq<Effect>, e: Effect)
    ensures TallyOf(log + [e]) == Count(TallyOf(log), e)
  {
    assert (log + [e])[..|log|] == log;
  }

  /** The delays of the first n attempts: Retry-After where the server gave one, jitter elsewhere. */
  function Delays(answers: seq<Answer>, jitters: seq<real>, n: nat): seq<real>
    requires n <= |answers| && n <= |jitters|
  {
    if n == 0 then [] else Delays(answers, jitters, n - 1) + [DelayOf(answers[n-1], jitters[n-1])]
  }

  /** The Retry-After of every throttle among the first n answers. */
  function ThrottlesOf(answers: seq<Answer>, n: nat): seq<Option<real>>
    requires n <= |answers|
  {
    if n == 0 then []
    else ThrottlesOf(answers, n - 1)
         + if answers[n-1].Failure? && answers[n-1].throttled then [answers[n-1].retryAfter] else []
  }

  lemma TallyCalled(log: seq<Effect>, a: Answer)
    ensures var t := TallyOf(log);
            TallyOf(log + [AcquireToken] + [Call(a)]) == t.(tokens := t.tokens + 1, calls := t.calls + 1)
  {
    TallyOne(log, AcquireToken);
    TallyOne(log + [AcquireToken], Call(a));
  }

  /** The feedback of an attempt that is going to be retried. */
  function Told(log: seq<Effect>, a: Answer): seq<Effect> {
    if a.Failure? && a.throttled then log + [ThrottleFeedback(a.retryAfter)] else log
  }

  lemma AttemptUnfolds(log: seq<Effect>, a: Answer, jitter: real)
    ensures log + RetriedAttempt(a, jitter)
            == Told(log + [AcquireToken] + [Call(a)], a) + [Slept(DelayOf(a, jitter))]
  {
  }

  lemma TallyTold(log: seq<Effect>, a: Answer)
    ensures var t := TallyOf(log);
            TallyOf(Told(log, a))
            == t.(throttles := t.throttles + if a.Failure? && a.throttled then [a.retryAfter] else [])
  {
    if a.Failure? && a.throttled {
      TallyOne(log, ThrottleFeedback(a.retryAfter));
    } else {
      assert TallyOf(log).throttles + [] == TallyOf(log).throttles;
    }
  }

  lemma TallyAttempt(log: seq<Effect>, a: Answer, jitter: real)
    ensures var t := TallyOf(log);
            TallyOf(log + RetriedAttempt(a, jitter))
            == Tally(t.tokens + 1, t.calls + 1, t.sleeps + [DelayOf(a, jitter)],
                     t.throttles + (if a.Failure? && a.throttled then [a.retryAfter] else []), t.successes)
  {
    var called := log + [AcquireToken] + [Call(a)];
    AttemptUnfolds(log, a, jitter);
    TallyCalled(log, a);
    TallyTold(called, a);
    TallyOne(Told(called, a), Slept(DelayOf(a, jitter)));
  }

  lemma {:induction false} TallyRetried(answers: seq<Answer>, jitters: seq<real>, n: nat)
    requires n <= |answers| && n <= |jitters|
    ensures TallyOf(Retried(answers, jitters, n))
            == Tally(n, n, Delays(answers, jitters, n), ThrottlesOf(answers, n), 0)
  {
    if n > 0 {
      TallyRetried(answers, jitters, n - 1);
      TallyAttempt(Retried(answers, jitters, n - 1), answers[n-1], jitters[n-1]);
    }
  }

  lemma TallyLast(log: seq<Effect>, a: Answer)
    ensures var t := TallyOf(log);
            TallyOf(log + LastAttempt(a))
            == t.(tokens := t.tokens + 1, calls := t.calls + 1, successes := t.successes + if a.Success? then 1 else 0)
  {
    var called := log + [AcquireToken] + [Call(a)];
    TallyCalled(log, a);
    if a.Success? {
      TallyOne(called, SuccessFeedback);
      assert log + LastAttempt(a) == called + [SuccessFeedback];
    } else {
      assert log + LastAttempt(a) == called;
    }
  }

  /**
    The call runs once per leading transient error plus once, capped by the policy, and every
    run takes one token; there is one sleep between runs; and exactly the throttles among the
    retried errors are reported, each with its Retry-After.
   */
  lemma RetryComposition(policy: Policy, answers: seq<Answer>, jitters: seq<real>)
    requires EnoughAnswers(policy, answers, jitters) && CallsMade(policy, answers) <= |answers|
    ensures var n := CallsMade(policy, answers);
            TallyOf(Retried(answers, jitters, n - 1) + LastAttempt(answers[n-1]))
            == Tally(n, n, Delays(answers, jitters, n - 1), ThrottlesOf(answers, n - 1), if answers[n-1].Success? then 1 else 0)
  {
    var n := CallsMade(policy, answers);
    TallyRetried(answers, jitters, n - 1);
    TallyLast(Retried(answers, jitters, n - 1), answers[n-1]);
  }

  function Sum(delays: seq<real>): real {
    if delays == [] then 0.0 else Sum(delays[..|delays|-1]) + delays[|delays|-1]
  }

  /** The capped backoffs of the first n attempts. */
  function BackoffSum(policy: Policy, n: nat): real {
    if n == 0 then 0.0 else BackoffSum(policy, n - 1) + Backoff(policy, n)
  }

  /** Without Retry-After headers, n sleeps last at most the sum of the first n capped backoffs. */
  lemma {:induction false} JitterTotalBounded(policy: Policy, answers: seq<Answer>, jitters: seq<real>, n: nat)
    requires n <= |answers| && n <= |jitters|
    requires forall i :: 0 <= i < n ==> answers[i].Failure? && answers[i].retryAfter.None?
    requires forall i :: 0 <= i < n ==> Jittered(policy, i + 1, jitters[i])
    ensures |Delays(answers, jitters, n)| == n
    ensures 0.0 <= Sum(Delays(answers, jitters, n)) <= BackoffSum(policy, n)
  {
    if n > 0 {
      JitterTotalBounded(policy, answers, jitters, n - 1);
      var before := Delays(answers, jitters, n - 1);
      assert Delays(answers, jitters, n)[..n-1] == before;
      assert Jittered(policy, (n - 1) + 1, jitters[n-1]);
    }
  }

  /* ----------------------- what reaches the limiter ------------------------ */

  /** The limiter of the operation after the feedback in the log. */
  function Feed(log: seq<Effect>, l: L.Limit): L.Limit {
    if log == [] then l
    else
      var before := Feed(log[..|log|-1], l);
      match log[|log|-1]
      case ThrottleFeedback(_) => L.Throttle(before)
      case SuccessFeedback => L.Succeed(before)
      case _ => before
  }

  lemma FeedOne(log: seq<Effect>, e: Effect, l: L.Limit)
    ensures Feed(log + [e], l) == if e.ThrottleFeedback? then L.Throttle(Feed(log, l))
                                  else if e.SuccessFeedback? then L.Succeed(Feed(log, l)) else Feed(log, l)
  {
    assert (log + [e])[..|log|] == log;
  }

  lemma FeedAttempt(log: seq<Effect>, a: Answer, jitter: real, l: L.Limit)
    ensures Feed(log + RetriedAttempt(a, jitter), l)
            == if a.Failure? && a.throttled then L.Throttle(Feed(log, l)) else Feed(log, l)
  {
    var called := log + [AcquireToken] + [Call(a)];
    FeedOne(log, AcquireToken, l);
    FeedOne(log + [AcquireToken], Call(a), l);
    if a.Failure? && a.throttled {
      FeedOne(called, ThrottleFeedback(a.retryAfter), l);
    }
    FeedOne(Told(called, a), Slept(DelayOf(a, jitter)), l);
    AttemptUnfolds(log, a, jitter);
  }

  lemma {:induction false} FeedRetried(answers: seq<Answer>, jitters: seq<real>, n: nat, l: L.Limit)
    requires n <= |answers| && n <= |jitters|
    ensures Feed(Retried(answers, jitters, n), l) == L.Throttles(l, |ThrottlesOf(answers, n)|)
  {
    if n > 0 {
      FeedRetried(answers, jitters, n - 1, l);
      FeedAttempt(Retried(answers, jitters, n - 1), answers[n-1], jitters[n-1], l);
    }
  }

  lemma FeedLast(log: seq<Effect>, a: Answer, l: L.Limit)
    ensures Feed(log + LastAttempt(a), l) == if a.Success? then L.Succeed(Feed(log, l)) else Feed(log, l)
  {
    var called := log + [AcquireToken] + [Call(a)];
    FeedOne(log, AcquireToken, l);
    FeedOne(log + [AcquireToken], Call(a), l);
    if a.Success? {
      FeedOne(called, SuccessFeedback, l);
      assert log + LastAttempt(a) == called + [SuccessFeedback];
    } else {
      assert log + LastAttempt(a) == called;
    }
  }

  /** One operation halves its limit once per retried throttle, and counts one success if it got through. */
  lemma OperationFeedback(policy: Policy, answers: seq<Answer>, jitters: seq<real>, l: L.Limit)
    requires EnoughAnswers(policy, answers, jitters) && CallsMade(policy, answers) <= |answers|
    ensures var n := CallsMade(policy, answers);
            var halved := L.Throttles(l, |ThrottlesOf(answers, n - 1)|);
            Feed(Retried(answers, jitters, n - 1) + LastAttempt(answers[n-1]), l)
            == if answers[n-1].Success? then L.Succeed(halved) else halved
  {
    var n := CallsMade(policy, answers);
    FeedRetried(answers, jitters, n - 1, l);
    FeedLast(Retried(answers, jitters, n - 1), answers[n-1], l);
  }

  /* --------------------------- order and durations ------------------------- */

  /** The backoff of the n-th attempt is base * 2^(n-1), or the cap if that is less. */
  lemma {:induction false} BackoffDoubles(policy: Policy, n: nat)
    requires n >= 1
    ensures Doubling(n) == L.Pow2(n - 1) as real
    ensures Backoff(policy, n) == var full := policy.baseDelay * L.Pow2(n - 1) as real;
                                  if full < policy.maxDelay then full else policy.maxDelay
  {
    if n > 1 {
      BackoffDoubles(policy, n - 1);
    }
  }

  /** After a retried answer the wait is its Retry-After, to the second, and the jitter only without one. */
  lemma {:induction false} RetryAfterIsSlept(answers: seq<Answer>, jitters: seq<real>, n: nat, i: nat)
    requires i < n <= |answers| && n <= |jitters| && answers[i].Failure?
    ensures |TallyOf(Retried(answers, jitters, n)).sleeps| == n
    ensures answers[i].retryAfter.Some? ==> TallyOf(Retried(answers, jitters, n)).sleeps[i] == answers[i].retryAfter.value
    ensures answers[i].retryAfter.None? ==> TallyOf(Retried(answers, jitters, n)).sleeps[i] == jitters[i]
    decreases n
  {
    TallyRetried(answers, jitters, n);
    DelaysAre(answers, jitters, n, i);
  }

  lemma {:induction false} DelaysAre(answers: seq<Answer>, jitters: seq<real>, n: nat, i: nat)
    requires i < n <= |answers| && n <= |jitters| && answers[i].Failure?
    ensures |Delays(answers, jitters, n)| == n
    ensures Delays(answers, jitters, n)[i] == if answers[i].retryAfter.Some? then answers[i].retryAfter.value else jitters[i]
    decreases n
  {
    if i + 1 < n {
      DelaysAre(answers, jitters, n - 1, i);
    } else {
      DelaysLength(answers, jitters, n - 1);
    }
  }

  lemma {:induction false} DelaysLength(answers: seq<Answer>, jitters: seq<real>, n: nat)
    requires n <= |answers| && n <= |jitters|
    ensures |Delays(answers, jitters, n)| == n
  {
    if n > 0 {
      DelaysLength(answers, jitters, n - 1);
    }
  }

  /**
    What comes right before an effect: a call after its token, a throttle report after the call
    that was throttled and with its Retry-After, a sleep after the call or its report, and a
    success report after the call that succeeded.
   */
  predicate Follows(before: Option<Effect>, e: Effect) {
    match e
    case Call(_) => before == Some(AcquireToken)
    case ThrottleFeedback(retryAfter) =>
      before.Some? && before.value.Call? && before.value.answer.Failure? && before.value.answer.throttled
      && before.value.answer.retryAfter == retryAfter
    case Slept(_) => before.Some? && (before.value.Call? || before.value.ThrottleFeedback?)
    case SuccessFeedback => before == Some(Call(Success))
    case _ => true
  }

  function Before(log: seq<Effect>, i: nat): Option<Effect>
    requires i <= |log|
  {
    if i == 0 then None else Some(log[i-1])
  }

  predicate InOrder(log: seq<Effect>) {
    forall i :: 0 <= i < |log| ==> Follows(Before(log, i), log[i])
  }

  lemma InOrderConcat(a: seq<Effect>, b: seq<Effect>)
    requires InOrder(a) && InOrder(b)
    ensures InOrder(a + b)
  {
    var log := a + b;
    forall i | 0 <= i < |log| ensures Follows(Before(log, i), log[i]) {
      if i < |a| {
        assert Follows(Before(a, i), a[i]) && Before(log, i) == Before(a, i);
      } else {
        assert Follows(Before(b, i - |a|), b[i - |a|]);
      }
    }
  }

  lemma {:induction false} RetriedInOrder(answers: seq<Answer>, jitters: seq<real>, n: nat)
    requires n <= |answers| && n <= |jitters|
    ensures InOrder(Retried(answers, jitters, n))
  {
    if n > 0 {
      RetriedInOrder(answers, jitters, n - 1);
      AttemptInOrder(answers[n-1], jitters[n-1]);
      InOrderConcat(Retried(answers, jitters, n - 1), RetriedAttempt(answers[n-1], jitters[n-1]));
    }
  }

  lemma AttemptInOrder(a: Answer, jitter: real)
    ensures InOrder(RetriedAttempt(a, jitter))
  {
  }

  lemma EffectsInOrder(policy: Policy, answers: seq<Answer>, jitters: seq<real>)
    requires EnoughAnswers(policy, answers, jitters) && CallsMade(policy, answers) <= |answers|
    ensures InOrder(Operation(policy, answers, jitters))
  {
    var n := CallsMade(policy, answers);
    RetriedInOrder(answers, jitters, n - 1);
    InOrderConcat(Retried(answers, jitters, n - 1), LastAttempt(answers[n-1]));
    InOrderConcat([TakeSlot], Retried(answers, jitters, n - 1) + LastAttempt(answers[n-1]));
    InOrderConcat([TakeSlot] + (Retried(answers, jitters, n - 1) + LastAttempt(answers[n-1])), [GiveSlotBack]);
  }
}
