/**
  The pacer with its threads told apart (src/gdrive_turbo_copy/pacer.py:52-70, 110-147): each
  acquire first passes the cooldown check, then waits for its tokens without looking at the
  cooldown again.
 */
module PacerThreads {
  import opened DriveModel
  import opened Pacer
  import opened PacerTheory

  /** `cleared` holds, for each thread past its cooldown check, the clock it read there. */
  datatype State = State(bucket: Bucket, cleared: map<nat, real>)

  datatype Event =
    | Checked(t: nat, now: real)         // the cooldown is over: on to the bucket
    | Waited(t: nat, now: real)          // not over: the thread sleeps and will check again
    | Granted(t: nat, now: real)
    | Denied(t: nat, now: real)          // not enough tokens: sleeps, stays cleared
    | ByServer(e: PacerTheory.Event)     // a throttle or a success some thread records

  predicate Enabled(s: State, e: Event) {
    match e
    case Checked(_, now) => now >= s.bucket.cooldownUntil
    case Waited(_, now) => now < s.bucket.cooldownUntil
    case Granted(t, now) => t in s.cleared && now >= s.cleared[t] && PacerTheory.Enabled(s.bucket, Grant(now))
    case Denied(t, now) => t in s.cleared && now >= s.cleared[t] && PacerTheory.Enabled(s.bucket, Deny(now))
    case ByServer(b) => b.Throttled? || b.Succeeded?
  }

  function Apply(law: Law, s: State, e: Event): State {
    match e
    case Checked(t, now) => s.(cleared := s.cleared[t := now])
    case Waited(_, _) => s
    case Granted(t, now) => State(PacerTheory.Apply(law, s.bucket, Grant(now)), s.cleared - {t})
    case Denied(_, now) => s.(bucket := PacerTheory.Apply(law, s.bucket, Deny(now)))
    case ByServer(b) => s.(bucket := PacerTheory.Apply(law, s.bucket, b))
  }

  ghost predicate Runs(law: Law, s: State, events: seq<Event>)
    decreases |events|
  {
    events == [] || (Enabled(s, events[0]) && Runs(law, Apply(law, s, events[0]), events[1..]))
  }

  ghost function After(law: Law, s: State, events: seq<Event>): State
    requires Runs(law, s, events)
    decreases |events|
  {
    if events == [] then s else After(law, Apply(law, s, events[0]), events[1..])
  }

  /* ---------------------- the bucket does not know threads ----------------- */

  /** What the bucket sees of a run. */
  function Projected(events: seq<Event>): seq<PacerTheory.Event> {
    if events == [] then []
    else
      (match events[0]
       case Granted(_, now) => [Grant(now)]
       case Denied(_, now) => [Deny(now)]
       case ByServer(b) => [b]
       case _ => [])
      + Projected(events[1..])
  }

  lemma {:induction false} ProjectionRuns(law: Law, s: State, events: seq<Event>)
    requires Runs(law, s, events)
    ensures PacerTheory.Runs(law, s.bucket, Projected(events))
    ensures PacerTheory.After(law, s.bucket, Projected(events)) == After(law, s, events).bucket
    decreases |events|
  {
    if events != [] {
      ProjectionRuns(law, Apply(law, s, events[0]), events[1..]);
      var rest := Projected(events[1..]);
      if events[0].Checked? || events[0].Waited? {
        assert Projected(events) == rest;
      } else {
        var e := Projected(events)[0];
        assert Projected(events) == [e] + rest && Projected(events)[1..] == rest;
      }
    }
  }

  function GrantedIn(events: seq<Event>): nat {
    if events == [] then 0 else (if events[0].Granted? then 1 else 0) + GrantedIn(events[1..])
  }

  predicate Within(e: Event, from: real, to: real) {
    match e
    case Checked(_, _) => true
    case Waited(_, _) => true
    case Granted(_, now) => from <= now <= to
    case Denied(_, now) => from <= now <= to
    case ByServer(b) => TimedIn(b, from, to)
  }

  lemma {:induction false} ProjectionCounts(events: seq<Event>, from: real, to: real)
    requires forall i :: 0 <= i < |events| ==> Within(events[i], from, to)
    requires forall i :: 0 <= i < |events| && events[i].ByServer? ==> !events[i].e.Grant?
    ensures Grants(Projected(events)) == GrantedIn(events)
    ensures forall i :: 0 <= i < |Projected(events)| ==> TimedIn(Projected(events)[i], from, to)
  {
    if events != [] {
      assert forall i :: 0 <= i < |events[1..]| ==> events[1..][i] == events[i+1];
      ProjectionCounts(events[1..], from, to);
      var rest := Projected(events[1..]);
      assert Within(events[0], from, to);
      if events[0].Checked? || events[0].Waited? {
        assert Projected(events) == rest;
      } else {
        var e := Projected(events)[0];
        assert TimedIn(e, from, to);
        assert Projected(events) == [e] + rest && Projected(events)[1..] == rest;
      }
    }
  }

  lemma {:induction false} ServerEventsOnly(law: Law, s: State, events: seq<Event>)
    requires Runs(law, s, events)
    ensures forall i :: 0 <= i < |events| && events[i].ByServer? ==> !events[i].e.Grant?
    decreases |events|
  {
    if events != [] {
      ServerEventsOnly(law, Apply(law, s, events[0]), events[1..]);
      assert forall i :: 0 < i < |events| ==> events[i] == events[1..][i-1];
    }
  }

  /** The window bound for any number of threads, told apart. */
  lemma ThreadsNeverExceedCeiling(law: Law, s: State, window: seq<Event>, from: real, length: real)
    requires Proper(law) && Inv(law, s.bucket) && Runs(law, s, window) && s.bucket.last <= from + length && length >= 0.0
    requires forall i :: 0 <= i < |window| ==> Within(window[i], from, from + length)
    ensures GrantedIn(window) as real * (1.0 - EPS) <= Max(1.0, law.maxRate) + Times(law.maxRate, length)
  {
    ServerEventsOnly(law, s, window);
    ProjectionRuns(law, s, window);
    ProjectionCounts(window, from, from + length);
    WindowBound(law, s.bucket, Projected(window), from, from + length, length);
  }

  /* ------------------------------ the deadline ----------------------------- */

  /** The last check of a thread before its grant; in between it is neither checked nor granted. */
  predicate LastCheck(events: seq<Event>, j: nat, m: nat, t: nat) {
    && j < m < |events| && events[j].Checked? && events[j].t == t && events[m].Granted? && events[m].t == t
    && forall i :: j < i < m ==> !(events[i].Checked? && events[i].t == t) && !(events[i].Granted? && events[i].t == t)
  }

  lemma {:induction false} CooldownOnlyGrows(law: Law, s: State, events: seq<Event>, k: nat)
    requires Runs(law, s, events) && k <= |events|
    ensures Runs(law, s, events[..k]) && After(law, s, events[..k]).bucket.cooldownUntil >= s.bucket.cooldownUntil
    ensures Runs(law, After(law, s, events[..k]), events[k..])
    decreases |events|
  {
    if k == 0 {
      assert events[..0] == [] && events[0..] == events;
    } else {
      var s1 := Apply(law, s, events[0]);
      CooldownOnlyGrows(law, s1, events[1..], k - 1);
      assert events[..k][0] == events[0] && events[..k][1..] == events[1..][..k-1];
      assert events[k..] == events[1..][k-1..];
    }
  }

  /** While a thread waits for its tokens, the clock it read at its check is kept. */
  lemma {:induction false} ClearedIsKept(law: Law, s: State, events: seq<Event>, m: nat, t: nat, at: real)
    requires Runs(law, s, events) && m < |events| && events[m].Granted? && events[m].t == t
    requires t in s.cleared && s.cleared[t] == at
    requires forall i :: 0 <= i < m ==> !(events[i].Checked? && events[i].t == t) && !(events[i].Granted? && events[i].t == t)
    ensures events[m].now >= at
    decreases m
  {
    if m > 0 {
      assert !(events[0].Checked? && events[0].t == t) && !(events[0].Granted? && events[0].t == t);
      assert forall i :: 0 <= i < m - 1 ==> events[1..][i] == events[i+1];
      ClearedIsKept(law, Apply(law, s, events[0]), events[1..], m - 1, t, at);
    }
  }

  predicate ThrottledUntil(e: Event, deadline: real) {
    && e.ByServer? && e.e.Throttled? && e.e.retryAfter.Some? && e.e.retryAfter.value > 0.0
    && e.e.now + e.e.retryAfter.value == deadline
  }

  lemma CheckIsLate(law: Law, s: State, events: seq<Event>, k: nat, j: nat, deadline: real)
    requires Runs(law, s, events) && k < j < |events| && events[j].Checked? && ThrottledUntil(events[k], deadline)
    ensures events[j].now >= deadline
  {
    CooldownOnlyGrows(law, s, events, k);
    var before, rest := After(law, s, events[..k]), events[k..];
    assert rest[0] == events[k];
    var s1 := Apply(law, before, rest[0]);
    CooldownOnlyGrows(law, s1, rest[1..], j - k - 1);
    assert rest[1..][j - k - 1..][0] == events[j];
  }

  /**
    In every interleaving of threads, throttles and successes: a grant whose cooldown check came
    after a throttle with Retry-After is not before that throttle's deadline.
   */
  lemma GrantRespectsDeadline(law: Law, s: State, events: seq<Event>, k: nat, j: nat, m: nat, t: nat, deadline: real)
    requires Runs(law, s, events) && k < j && LastCheck(events, j, m, t) && ThrottledUntil(events[k], deadline)
    ensures events[m].now >= deadline
  {
    CheckIsLate(law, s, events, k, j, deadline);
    CooldownOnlyGrows(law, s, events, j);
    var before, rest := After(law, s, events[..j]), events[j..];
    assert rest[0] == events[j];
    assert forall i :: 0 <= i < |rest| ==> rest[i] == events[j + i];
    ClearedIsKept(law, Apply(law, before, rest[0]), rest[1..], m - j - 1, t, events[j].now);
  }

  /** A check that came before the throttle does not help: the grant may be inside the cooldown. */
  lemma EarlyCheckIsGrantedInside(law: Law, t: nat)
    requires Proper(law)
    ensures var s := State(New(law.maxRate, 0.0), map[]);
            var events := [Checked(t, 0.0), ByServer(Throttled(0.0, Some(10.0))), Granted(t, 1.0)];
            && Runs(law, s, events) && ThrottledUntil(events[1], 10.0) && LastCheck(events, 0, 2, t)
            && events[2].now < 10.0
  {
    var s := State(New(law.maxRate, 0.0), map[]);
    var events := [Checked(t, 0.0), ByServer(Throttled(0.0, Some(10.0))), Granted(t, 1.0)];
    var s1 := Apply(law, s, events[0]);
    var s2 := Apply(law, s1, events[1]);
    assert events[1..] == [events[1], events[2]] && events[1..][1..] == [events[2]] && [events[2]][1..] == [];
    InitialInv(law, 0.0);
    ThrottleKeepsInv(law, s1.bucket, 0.0, Some(10.0));
    RefillWithin(s2.bucket, 1.0);
    assert s2.bucket.tokens >= 1.0;
    RefillKeepsTokens(s2.bucket, 1.0);
    assert Runs(law, Apply(law, s2, events[2]), []);
    assert Runs(law, s2, [events[2]]);
    assert Runs(law, s1, [events[1], events[2]]);
  }

  lemma InitialInv(law: Law, now: real)
    requires Proper(law)
    ensures Inv(law, New(law.maxRate, now))
  {
  }

  lemma RefillKeepsTokens(b: Bucket, now: real)
    requires b.rate > 0.0 && b.tokens <= b.capacity
    ensures Refill(b, now).tokens >= b.tokens
  {
    if now > b.last {
      TimesPositive(b.rate, now - b.last);
    }
  }
}
