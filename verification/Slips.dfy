/**
  How far the destination can be pushed over its target, and that it is
  (src/gdrive_turbo_copy/copier.py:531-562, 648-695, 955-973, src/gdrive_turbo_copy/retry.py:92-109,192-232).

  A destination listing that breaks off is only logged: the index is built from the pages read
  so far and files on the others are copied again. A copy call that fails with a retryable
  status is repeated, also when the copy had been made. And a folder that the walk comes to a
  second time, while the workers still copy its files, is listed without them. SyncRuns bounds
  the surplus of every class by the files that slipped in one of these ways; here the bound is
  reached.
 */
module Slips {
  import opened DriveModel
  import opened IndexTheory
  import opened FolderSync
  import opened SyncRuns
  import opened Histories

  ghost predicate Within(src: Source, initial: Dest, s: State, f: Id, t: Request) {
    && f in src.tasks && f in s.dest && f in initial
    && Present(s.dest[f], ClassOf(t)) <= Max(Count(src.tasks[f], ClassOf(t)), Present(initial[f], ClassOf(t)))
  }

  ghost predicate AllWithin(src: Source, initial: Dest, s: State) {
    forall f, t :: f in src.tasks && t in src.tasks[f] ==> Within(src, initial, s, f, t)
  }

  /** No history with these faults has a surplus file at any moment. */
  ghost predicate NeverASurplus(src: Source, faults: set<Fault>) {
    forall initial, skip, s ::
      ValidDest(src, initial) && Reaches(src, faults, Start(initial, skip), s) ==> AllWithin(src, initial, s)
  }

  predicate NothingToCopy(src: Source) {
    forall f :: f in src.tasks ==> src.tasks[f] == {}
  }

  /** The walk comes to f on two different paths. */
  ghost predicate ReachedTwice(src: Source, f: Id) {
    exists p, q :: p != q && WalkTo(src, p, f) && WalkTo(src, q, f)
  }

  /** What can go wrong does not concern this source. */
  ghost predicate Harmless(src: Source, faults: set<Fault>) {
    || NothingToCopy(src)
    || (&& CutListing !in faults && LostConfirmation !in faults
        && (OverlappingVisits in faults ==> forall f :: f in src.tasks && ReachedTwice(src, f) ==> src.tasks[f] == {}))
  }

  /** Only folders reached twice have visits behind them. */
  ghost predicate EarlierTwice(src: Source, s: State) {
    forall p :: p in s.earlier ==> ReachedTwice(src, p.0)
  }

  lemma EarlierStaysTwice(src: Source, s: State, step: Step)
    requires Enabled(src, s, step) && EarlierTwice(src, s)
    ensures EarlierTwice(src, Apply(src, s, step))
  {
    if step.Enter? && step.f in s.runs {
      assert ReachedTwice(src, step.f);
      forall p | p in Apply(src, s, step).earlier ensures ReachedTwice(src, p.0) {
      }
    }
  }

  lemma NoLateCopies(src: Source, faults: set<Fault>, s: State, f: Id, t: Request)
    requires Harmless(src, faults) && !NothingToCopy(src) && OverlappingVisits in faults
    requires EarlierTwice(src, s) && f in src.tasks && t in src.tasks[f]
    ensures (f, t) !in s.earlier
  {
    assert (f, t) in s.earlier ==> ReachedTwice(src, (f, t).0);
  }

  lemma HarmlessStep(src: Source, faults: set<Fault>, s: State, step: Step)
    requires Harmless(src, faults) && !NothingToCopy(src) && Allowed(faults, step)
    requires NoSlips(s) && EarlierTwice(src, s) && Enabled(src, s, step)
    ensures NoSlips(Apply(src, s, step))
  {
    if step.LateCopy? {
      NoLateCopies(src, faults, s, step.f, step.t);
      assert false;
    }
  }

  lemma {:induction false} HarmlessRun(src: Source, faults: set<Fault>, s: State, steps: seq<Step>)
    requires Harmless(src, faults) && !NothingToCopy(src) && AllAllowed(faults, steps)
    requires NoSlips(s) && EarlierTwice(src, s) && Runs(src, s, steps)
    ensures NoSlips(After(src, s, steps))
    decreases |steps|
  {
    if steps != [] {
      assert Allowed(faults, steps[0]);
      HarmlessStep(src, faults, s, steps[0]);
      EarlierStaysTwice(src, s, steps[0]);
      assert forall i :: 0 <= i < |steps[1..]| ==> steps[1..][i] == steps[i+1];
      HarmlessRun(src, faults, Apply(src, s, steps[0]), steps[1..]);
    }
  }

  lemma HarmlessReached(src: Source, faults: set<Fault>, initial: Dest, skip: bool, s: State)
    requires Harmless(src, faults) && !NothingToCopy(src) && Reaches(src, faults, Start(initial, skip), s)
    ensures NoSlips(s)
  {
    var steps :| Leads(src, faults, Start(initial, skip), steps, s);
    HarmlessRun(src, faults, Start(initial, skip), steps);
  }

  lemma HarmlessNoSurplus(src: Source, faults: set<Fault>)
    requires ValidSource(src) && Harmless(src, faults) && !NothingToCopy(src)
    ensures NeverASurplus(src, faults)
  {
    forall initial, skip, s | ValidDest(src, initial) && Reaches(src, faults, Start(initial, skip), s)
      ensures AllWithin(src, initial, s)
    {
      forall f, t | f in src.tasks && t in src.tasks[f] ensures Within(src, initial, s, f, t) {
        ReachedInv(src, faults, initial, skip, s);
        HarmlessReached(src, faults, initial, skip, s);
        WithinBound(src, initial, s, f, t);
      }
    }
  }

  lemma WithinBound(src: Source, initial: Dest, s: State, f: Id, t: Request)
    requires Inv(src, initial, s) && NoSlips(s) && f in src.tasks && t in src.tasks[f]
    ensures Within(src, initial, s, f, t)
  {
    assert ClassIn(ClassOf(t), src.tasks[f]);
    assert s.slipped[f] == [];
  }

  /* ---------------------------- listings cut off --------------------------- */

  /** A folder at its target is listed in part; once its files are settled, each hidden one has a double. */
  lemma CutListingAdds(src: Source, faults: set<Fault>, initial: Dest, s: State, f: Id, t: Request,
                       seen: seq<DriveFile>, hidden: seq<DriveFile>) returns (s': State)
    requires ValidSource(src) && Inv(src, initial, s) && AtHand(src, s, f) && !Skips(src, s, f) && t in src.tasks[f]
    requires CutListing in faults && Shows(s.dest[f], seen, hidden)
    requires Present(s.dest[f], ClassOf(t)) == Count(src.tasks[f], ClassOf(t))
    ensures Reaches(src, faults, s, s') && Doubles(s, s', f, t, hidden)
  {
    var s1 := EnterCut(src, faults, initial, s, f, seen, hidden);
    s' := SettleCut(src, faults, initial, s, s1, f, seen, hidden);
    CutDoubles(src, initial, s, s1, s', f, t, seen, hidden);
  }

  /** f was listed in part. */
  ghost predicate CutVisit(s: State, s': State, f: Id, seen: seq<DriveFile>, hidden: seq<DriveFile>) {
    && f in s.dest && f in s.slipped && f in s'.runs && f in s'.slipped
    && s'.runs[f] == EnterRun(s.dest[f], seen, hidden) && s'.slipped[f] == s.slipped[f] + hidden
  }

  lemma SettleCut(src: Source, faults: set<Fault>, initial: Dest, s: State, s1: State, f: Id,
                  seen: seq<DriveFile>, hidden: seq<DriveFile>) returns (s': State)
    requires ValidSource(src) && Inv(src, initial, s1) && Reaches(src, faults, s, s1) && CutVisit(s, s1, f, seen, hidden)
    ensures Reaches(src, faults, s, s') && Inv(src, initial, s') && VisitSettled(src, s1, s', f)
  {
    s' := SettleFolder(src, faults, initial, s1, f);
    Follow(src, faults, s, s1, s');
  }

  lemma CutDoubles(src: Source, initial: Dest, s: State, s1: State, s': State, f: Id, t: Request,
                   seen: seq<DriveFile>, hidden: seq<DriveFile>)
    requires CutVisit(s, s1, f, seen, hidden) && VisitSettled(src, s1, s', f) && t in src.tasks[f]
    requires ValidSource(src) && Inv(src, initial, s')
    requires Present(s.dest[f], ClassOf(t)) == Count(src.tasks[f], ClassOf(t))
    ensures Doubles(s, s', f, t, hidden)
  {
    SettledAfterCut(src, initial, s', f, t);
    PresentConcat(s.slipped[f], hidden, ClassOf(t));
  }

  /** As many more files of t's class, and as many more slips, as were hidden. */
  predicate Doubles(s: State, s': State, f: Id, t: Request, hidden: seq<DriveFile>) {
    && f in s.dest && f in s'.dest && f in s.slipped && f in s'.slipped
    && Present(s'.dest[f], ClassOf(t)) == Present(s.dest[f], ClassOf(t)) + Present(hidden, ClassOf(t))
    && Present(s'.slipped[f], ClassOf(t)) == Present(s.slipped[f], ClassOf(t)) + Present(hidden, ClassOf(t))
  }

  lemma EnterCut(src: Source, faults: set<Fault>, initial: Dest, s: State, f: Id,
                 seen: seq<DriveFile>, hidden: seq<DriveFile>) returns (s': State)
    requires ValidSource(src) && Inv(src, initial, s) && AtHand(src, s, f) && !Skips(src, s, f)
    requires CutListing in faults && Shows(s.dest[f], seen, hidden)
    ensures Reaches(src, faults, s, s') && Inv(src, initial, s') && CutVisit(s, s', f, seen, hidden)
  {
    var enter := Enter(f, seen, hidden);
    Take(src, faults, s, enter);
    s' := Apply(src, s, enter);
    StepKeepsInv(src, initial, s, enter);
  }

  /** The same visit of f, with every file settled. */
  ghost predicate VisitSettled(src: Source, s: State, s': State, f: Id) {
    && f in src.tasks && f in s.runs && f in s'.runs && s'.slipped == s.slipped
    && s'.runs[f].base == s.runs[f].base && s'.runs[f].seen == s.runs[f].seen
    && s'.runs[f].hidden == s.runs[f].hidden && s'.runs[f].lost == s.runs[f].lost
    && src.tasks[f] <= s'.runs[f].took + s'.runs[f].landed
  }

  lemma SettleFolder(src: Source, faults: set<Fault>, initial: Dest, s: State, f: Id) returns (s': State)
    requires ValidSource(src) && Inv(src, initial, s) && f in s.runs
    requires forall t :: t in src.tasks[f] ==> Untouched(s.runs[f], t)
    ensures Reaches(src, faults, s, s') && Inv(src, initial, s') && VisitSettled(src, s, s', f)
  {
    var todo := PairsOf(src, f);
    forall p | p in todo ensures Settleable(src, s, p) {
      assert InRun(src, s, p.0, p.1);
    }
    s' := SettleAll(src, faults, s, todo);
    assert Grown(s.runs[f], s'.runs[f], f, todo);
    forall t | t in src.tasks[f] ensures t in s'.runs[f].took + s'.runs[f].landed {
      var p := (f, t);
      assert p in todo && SettledIn(s'.runs[p.0], p.1);
    }
    StepsKeepInv(src, faults, initial, s, s');
  }

  lemma SettledAfterCut(src: Source, initial: Dest, s: State, f: Id, t: Request)
    requires ValidSource(src) && Inv(src, initial, s) && f in s.runs && t in src.tasks[f] && s.runs[f].lost == []
    requires src.tasks[f] <= s.runs[f].took + s.runs[f].landed
    requires Present(s.runs[f].base, ClassOf(t)) == Count(src.tasks[f], ClassOf(t))
    ensures Present(s.dest[f], ClassOf(t)) == Present(s.runs[f].base, ClassOf(t)) + Present(s.runs[f].hidden, ClassOf(t))
  {
    VisitInv(src, initial, s, f, t);
    TookFromSeen(s.dest[f], s.runs[f], initial[f], src.tasks[f], s.slipped[f], ClassOf(t));
  }

  /* --------------------------- confirmations lost -------------------------- */

  /** A file that has missed is copied n times in vain before the call succeeds: n files too many. */
  lemma {:induction false} LoseTimes(src: Source, faults: set<Fault>, s: State, f: Id, t: Request, n: nat) returns (s': State)
    requires InRun(src, s, f, t) && t in s.runs[f].missed && t !in s.runs[f].landed && f in s.slipped
    requires LostConfirmation in faults && Requests(src.tasks[f])
    ensures Reaches(src, faults, s, s') && InRun(src, s', f, t) && f in s'.slipped
    ensures t in s'.runs[f].missed && t !in s'.runs[f].landed
    ensures Present(s'.dest[f], ClassOf(t)) == Present(s.dest[f], ClassOf(t)) + n
    ensures Present(s'.slipped[f], ClassOf(t)) == Present(s.slipped[f], ClassOf(t)) + n
  {
    if n == 0 {
      s' := s;
      Stay(src, faults, s);
    } else {
      var before := LoseTimes(src, faults, s, f, t, n - 1);
      var step := LoseConfirmation(f, t, "copy");
      Then(src, faults, s, before, step);
      s' := Apply(src, before, step);
      CopyCounts(before.dest[f], src.tasks[f], t);
      CopyCounts(before.slipped[f], src.tasks[f], t);
    }
  }

  lemma CopyCounts(files: seq<DriveFile>, ts: set<Request>, t: Request)
    requires Requests(ts) && t in ts
    ensures Present(files + [CopyOf(t, "copy")], ClassOf(t)) == Present(files, ClassOf(t)) + 1
  {
    assert ClassIn(ClassOf(t), ts);
    LandPresent(files, ts, t, "copy", ClassOf(t));
  }

  /** From an empty destination: n lost confirmations leave exactly n files too many. */
  lemma LostConfirmationsAdd(src: Source, faults: set<Fault>, f: Id, t: Request, n: nat) returns (s: State)
    requires ValidSource(src) && AllReachable(src) && f in src.tasks && t in src.tasks[f] && LostConfirmation in faults
    ensures TooMany(src, faults, s, f, t, n)
  {
    var s1 := OthersSettled(src, faults, f, t);
    s := LoseThenLand(src, faults, s1, f, t, n);
    Follow(src, faults, Start(Blank(src), false), s1, s);
  }

  lemma LoseThenLand(src: Source, faults: set<Fault>, s: State, f: Id, t: Request, n: nat) returns (s': State)
    requires InRun(src, s, f, t) && Missing(s, f, t) && f in s.slipped && s.slipped[f] == []
    requires LostConfirmation in faults && Requests(src.tasks[f])
    ensures Reaches(src, faults, s, s') && f in s'.dest && f in s'.slipped
    ensures Present(s'.dest[f], ClassOf(t)) == Present(s.dest[f], ClassOf(t)) + n + 1
    ensures Present(s'.slipped[f], ClassOf(t)) == n
  {
    var s1 := LoseTimes(src, faults, s, f, t, n);
    Then(src, faults, s, s1, Land(f, t, "copy"));
    s' := Apply(src, s1, Land(f, t, "copy"));
    CopyCounts(s1.dest[f], src.tasks[f], t);
  }

  /** Reached from an empty destination: n files of t's class too many, for n that slipped. */
  ghost predicate TooMany(src: Source, faults: set<Fault>, s: State, f: Id, t: Request, n: nat) {
    && Reaches(src, faults, Start(Blank(src), false), s) && f in src.tasks && t in src.tasks[f]
    && f in s.dest && f in s.slipped && Present(s.slipped[f], ClassOf(t)) == n
    && Present(s.dest[f], ClassOf(t)) == Count(src.tasks[f], ClassOf(t)) + n
  }

  /** All other files are copied; t was looked for and not found. */
  ghost predicate OneMissing(src: Source, faults: set<Fault>, s: State, f: Id, t: Request) {
    && Reaches(src, faults, Start(Blank(src), false), s) && WellFormed(src, s) && s.runs.Keys == src.tasks.Keys && !s.skip
    && InRun(src, s, f, t) && f in s.slipped && s.slipped[f] == []
    && t in s.runs[f].missed && t !in s.runs[f].landed
    && Present(s.dest[f], ClassOf(t)) == Count(src.tasks[f], ClassOf(t)) - 1
  }

  lemma OthersSettled(src: Source, faults: set<Fault>, f: Id, t: Request) returns (s: State)
    requires ValidSource(src) && AllReachable(src) && f in src.tasks && t in src.tasks[f]
    ensures OneMissing(src, faults, s, f, t)
  {
    var s1 := AllButOne(src, faults, false, f, t);
    s := LookFor(src, faults, Blank(src), s1, f, t);
    NowMissing(src, faults, s1, s, f, t);
  }

  lemma NowMissing(src: Source, faults: set<Fault>, s: State, s': State, f: Id, t: Request)
    requires AllButThis(src, faults, false, f, t, s)
    requires Present(s.dest[f], ClassOf(t)) == Count(src.tasks[f], ClassOf(t)) - 1
    requires Reaches(src, faults, s, s') && SameButVisit(s, s', f) && Missing(s', f, t)
    ensures OneMissing(src, faults, s', f, t)
  {
    Follow(src, faults, Start(Blank(src), false), s, s');
  }

  /** Only the visit of f differs. */
  predicate SameButVisit(s: State, s': State, f: Id) {
    f in s.runs && f in s'.runs && s' == s.(copied := s'.copied, runs := s.runs[f := s'.runs[f]])
  }

  predicate Missing(s: State, f: Id, t: Request) {
    f in s.runs && t in s.runs[f].missed && t !in s.runs[f].landed
  }

  lemma LookFor(src: Source, faults: set<Fault>, initial: Dest, s: State, f: Id, t: Request) returns (s': State)
    requires ValidSource(src) && Inv(src, initial, s) && OneLeft(src, s, f, t)
    ensures Reaches(src, faults, s, s') && SameButVisit(s, s', f) && Missing(s', f, t)
  {
    var s1 := CheckFirst(src, faults, initial, s, f, t);
    s' := MatchMisses(src, faults, initial, s1, f, t);
    Follow(src, faults, s, s1, s');
    SameButVisits(s, s1, s', f);
  }

  lemma SameButVisits(s: State, s1: State, s': State, f: Id)
    requires SameButVisit(s, s1, f) && SameButVisit(s1, s', f)
    ensures SameButVisit(s, s', f)
  {
    assert s'.runs == s.runs[f := s'.runs[f]];
  }

  lemma CheckFirst(src: Source, faults: set<Fault>, initial: Dest, s: State, f: Id, t: Request) returns (s': State)
    requires ValidSource(src) && Inv(src, initial, s) && OneLeft(src, s, f, t)
    ensures Reaches(src, faults, s, s') && Inv(src, initial, s') && SameButVisit(s, s', f)
    ensures s'.runs[f].seen == [] && NotYet(src, s', f, t) && t !in s'.runs[f].missed
  {
    Take(src, faults, s, Check(f, t));
    s' := Apply(src, s, Check(f, t));
    CheckStepKeeps(src, initial, s, f, t);
    NothingToTake(src, initial, s', f, t);
  }

  lemma MatchMisses(src: Source, faults: set<Fault>, initial: Dest, s: State, f: Id, t: Request) returns (s': State)
    requires ValidSource(src) && Inv(src, initial, s) && NotYet(src, s, f, t)
    requires s.runs[f].seen == [] && t !in s.runs[f].missed
    ensures Reaches(src, faults, s, s') && SameButVisit(s, s', f) && Missing(s', f, t)
  {
    NothingToTake(src, initial, s, f, t);
    Take(src, faults, s, TryMatch(f, t));
    s' := Apply(src, s, TryMatch(f, t));
    ServedExactlyWhenAvailable(s.runs[f].index, t, src.tasks[f], false);
  }

  lemma NothingToTake(src: Source, initial: Dest, s: State, f: Id, t: Request)
    requires ValidSource(src) && Inv(src, initial, s) && f in s.runs && t in src.tasks[f] && s.runs[f].seen == []
    ensures t !in s.runs[f].took && Avail(s.runs[f].index, ClassOf(t)) == 0
  {
    assert ClassIn(ClassOf(t), src.tasks[f]);
    assert ClassInv(s.dest[f], s.runs[f], src.tasks[f], ClassOf(t));
    BuildAvail([], ClassOf(t));
    if t in s.runs[f].took {
      CountPositive(s.runs[f].took, t);
    }
  }

  /* ------------------------- overlapping visits ---------------------------- */

  /** f is listed again while t is being copied; t comes in, and the new visit copies it once more. */
  lemma LateCopyAdds(src: Source, faults: set<Fault>, f: Id, t: Request) returns (s: State)
    requires ValidSource(src) && AllReachable(src) && f in src.tasks && t in src.tasks[f]
    requires OverlappingVisits in faults && ReachedTwice(src, f)
    ensures TooMany(src, faults, s, f, t, 1)
  {
    var s1 := OthersSettled(src, faults, f, t);
    var s2 := ListedAgain(src, faults, s1, f, t);
    var s3 := ComesLate(src, faults, s2, f, t);
    s := SettleFolder(src, faults, Blank(src), s3, f);
    Follow(src, faults, Start(Blank(src), false), s3, s);
    SettledAfterLate(src, s, f, t);
  }

  /** The second visit of f has begun: it has seen all but t. */
  ghost predicate SecondVisit(src: Source, faults: set<Fault>, s: State, f: Id, t: Request) {
    && Reaches(src, faults, Start(Blank(src), false), s) && InRun(src, s, f, t) && f in s.slipped
    && (forall u :: u in src.tasks[f] ==> Untouched(s.runs[f], u))
    && s.runs[f].base == s.runs[f].seen && s.runs[f].hidden == []
    && Present(s.runs[f].base, ClassOf(t)) == Count(src.tasks[f], ClassOf(t)) - 1
  }

  lemma ListedAgain(src: Source, faults: set<Fault>, s: State, f: Id, t: Request) returns (s': State)
    requires OneMissing(src, faults, s, f, t) && ReachedTwice(src, f)
    ensures SecondVisit(src, faults, s', f, t) && (f, t) in s'.earlier
    ensures s'.slipped[f] == [] && s'.runs[f].lost == []
  {
    var p, q :| p != q && WalkTo(src, p, f) && WalkTo(src, q, f);
    assert Entered(s, p) && Entered(s, q);
    var enter := EnterFull(s, f);
    Then(src, faults, Start(Blank(src), false), s, enter);
    s' := Apply(src, s, enter);
    assert (f, t) in PairsOf(src, f);
  }

  lemma ComesLate(src: Source, faults: set<Fault>, s: State, f: Id, t: Request) returns (s': State)
    requires SecondVisit(src, faults, s, f, t) && (f, t) in s.earlier && ValidSource(src)
    requires OverlappingVisits in faults && s.slipped[f] == [] && s.runs[f].lost == []
    ensures SecondVisit(src, faults, s', f, t) && Inv(src, Blank(src), s')
    ensures Present(s'.slipped[f], ClassOf(t)) == 1 && Present(s'.runs[f].lost, ClassOf(t)) == 1
  {
    Then(src, faults, Start(Blank(src), false), s, LateCopy(f, t, "copy"));
    s' := Apply(src, s, LateCopy(f, t, "copy"));
    CopyCounts([], src.tasks[f], t);
    assert [] + [CopyOf(t, "copy")] == [CopyOf(t, "copy")];
    BlankReachedInv(src, faults, false, s');
  }

  lemma SettledAfterLate(src: Source, s: State, f: Id, t: Request)
    requires ValidSource(src) && Inv(src, Blank(src), s) && f in s.runs && f in src.tasks && t in src.tasks[f]
    requires src.tasks[f] <= s.runs[f].took + s.runs[f].landed
    requires s.runs[f].base == s.runs[f].seen && s.runs[f].hidden == [] && Present(s.runs[f].lost, ClassOf(t)) == 1
    requires Present(s.runs[f].base, ClassOf(t)) == Count(src.tasks[f], ClassOf(t)) - 1
    ensures Present(s.dest[f], ClassOf(t)) == Count(src.tasks[f], ClassOf(t)) + 1
  {
    var r, c := s.runs[f], ClassOf(t);
    VisitInv(src, Blank(src), s, f, t);
    TookFromSeen(s.dest[f], r, [], src.tasks[f], s.slipped[f], c);
  }

  lemma VisitInv(src: Source, initial: Dest, s: State, f: Id, t: Request)
    requires Inv(src, initial, s) && f in s.runs && f in src.tasks && t in src.tasks[f]
    ensures RunInv(s.dest[f], s.runs[f], initial[f], src.tasks[f], s.slipped[f])
    ensures ClassIn(ClassOf(t), src.tasks[f]) && ClassInv(s.dest[f], s.runs[f], src.tasks[f], ClassOf(t))
    ensures EntryInv(s.runs[f], initial[f], src.tasks[f], s.slipped[f], ClassOf(t))
  {
    assert ClassIn(ClassOf(t), src.tasks[f]);
  }

  /* ------------------------------ the exact case --------------------------- */

  /** A folder copied in full, and a second run about to list it. */
  ghost predicate ReadyAgain(src: Source, faults: set<Fault>, s: State, f: Id, t: Request) {
    && Reaches(src, faults, Start(Blank(src), false), s) && Inv(src, Blank(src), s) && AtHand(src, s, f) && !Skips(src, s, f)
    && t in src.tasks[f] && Present(s.dest[f], ClassOf(t)) == Count(src.tasks[f], ClassOf(t))
  }

  lemma CopiedOnce(src: Source, faults: set<Fault>, f: Id, t: Request) returns (s: State)
    requires ValidSource(src) && AllReachable(src) && f in src.tasks && t in src.tasks[f]
    ensures ReadyAgain(src, faults, s, f, t)
  {
    var s1 := FirstCopied(src, faults, f, t);
    s := StartOver(src, faults, s1, f);
    Follow(src, faults, Start(Blank(src), false), s1, s);
    BlankReachedInv(src, faults, false, s);
  }

  /** The visit of f that has just listed an empty folder. */
  ghost predicate EmptyVisit(src: Source, s: State, f: Id) {
    && f in src.tasks && f in s.runs && s.runs[f].base == [] && s.runs[f].seen == [] && s.runs[f].lost == []
    && forall t :: t in src.tasks[f] ==> Untouched(s.runs[f], t)
  }

  lemma FirstCopied(src: Source, faults: set<Fault>, f: Id, t: Request) returns (s: State)
    requires ValidSource(src) && AllReachable(src) && f in src.tasks && t in src.tasks[f]
    ensures Reaches(src, faults, Start(Blank(src), false), s) && Inv(src, Blank(src), s)
    ensures Present(s.dest[f], ClassOf(t)) == Count(src.tasks[f], ClassOf(t))
  {
    var s1 := FirstVisit(src, faults, f);
    s := SettleEmpty(src, faults, Blank(src), s1, f, t);
    Follow(src, faults, Start(Blank(src), false), s1, s);
  }

  lemma SettleEmpty(src: Source, faults: set<Fault>, initial: Dest, s: State, f: Id, t: Request) returns (s': State)
    requires ValidSource(src) && Inv(src, initial, s) && EmptyVisit(src, s, f) && t in src.tasks[f]
    ensures Reaches(src, faults, s, s') && Inv(src, initial, s')
    ensures Present(s'.dest[f], ClassOf(t)) == Count(src.tasks[f], ClassOf(t))
  {
    s' := SettleFolder(src, faults, initial, s, f);
    SettledFromBlank(src, initial, s', f, t);
  }

  lemma FirstVisit(src: Source, faults: set<Fault>, f: Id) returns (s: State)
    requires ValidSource(src) && AllReachable(src) && f in src.tasks
    ensures Reaches(src, faults, Start(Blank(src), false), s) && Inv(src, Blank(src), s) && EmptyVisit(src, s, f)
  {
    s := ListAll(src, faults, false);
    BlankReachedInv(src, faults, false, s);
    assert s.runs[f] == EnterRun([], [], []);
  }

  lemma StartOver(src: Source, faults: set<Fault>, s: State, f: Id) returns (s': State)
    requires WellFormed(src, s) && AllReachable(src) && f in src.tasks
    ensures Reaches(src, faults, s, s') && AtHand(src, s', f) && !s'.skip && s'.dest == s.dest
  {
    Take(src, faults, s, Restart(false));
    var s1 := Apply(src, s, Restart(false));
    s' := EnterTo(src, faults, s1, f);
    Follow(src, faults, s, s1, s');
  }

  lemma SettledFromBlank(src: Source, initial: Dest, s: State, f: Id, t: Request)
    requires ValidSource(src) && Inv(src, initial, s) && f in s.runs && f in src.tasks && t in src.tasks[f]
    requires s.runs[f].base == [] && s.runs[f].seen == [] && s.runs[f].lost == []
    requires src.tasks[f] <= s.runs[f].took + s.runs[f].landed
    ensures Present(s.dest[f], ClassOf(t)) == Count(src.tasks[f], ClassOf(t))
  {
    VisitInv(src, initial, s, f, t);
    TookFromSeen(s.dest[f], s.runs[f], initial[f], src.tasks[f], s.slipped[f], ClassOf(t));
  }

  lemma CutMakesSurplus(src: Source, faults: set<Fault>, f: Id, t: Request)
    requires ValidSource(src) && AllReachable(src) && CutListing in faults && f in src.tasks && t in src.tasks[f]
    ensures !NeverASurplus(src, faults)
  {
    var s1 := CopiedOnce(src, faults, f, t);
    assert Shows(s1.dest[f], [], s1.dest[f]);
    var s := CutListingAdds(src, faults, Blank(src), s1, f, t, [], s1.dest[f]);
    Follow(src, faults, Start(Blank(src), false), s1, s);
    CountPositive(src.tasks[f], t);
    SurplusRefutes(src, faults, s, f, t);
  }

  lemma SurplusRefutes(src: Source, faults: set<Fault>, s: State, f: Id, t: Request)
    requires Reaches(src, faults, Start(Blank(src), false), s) && f in src.tasks && t in src.tasks[f] && f in s.dest
    requires Present(s.dest[f], ClassOf(t)) > Count(src.tasks[f], ClassOf(t))
    ensures !NeverASurplus(src, faults)
  {
    assert ValidDest(src, Blank(src));
    assert !Within(src, Blank(src), s, f, t);
    assert !AllWithin(src, Blank(src), s);
  }

  lemma HarmMakesSurplus(src: Source, faults: set<Fault>)
    requires ValidSource(src) && AllReachable(src) && !Harmless(src, faults)
    ensures !NeverASurplus(src, faults)
  {
    if LostConfirmation in faults || CutListing in faults {
      var f :| f in src.tasks && src.tasks[f] != {};
      var t :| t in src.tasks[f];
      if LostConfirmation in faults {
        var s := LostConfirmationsAdd(src, faults, f, t, 1);
        SurplusRefutes(src, faults, s, f, t);
      } else {
        CutMakesSurplus(src, faults, f, t);
      }
    } else {
      var f :| f in src.tasks && ReachedTwice(src, f) && src.tasks[f] != {};
      var t :| t in src.tasks[f];
      var s := LateCopyAdds(src, faults, f, t);
      SurplusRefutes(src, faults, s, f, t);
    }
  }

  /**
    The plain bound, no class ever above max(source, initial), holds in every history exactly
    if there is nothing to copy, or neither fault of the server can happen and, with several
    workers, the walk comes to no folder with files twice.
   */
  lemma NeverASurplusExactlyWhen(src: Source, faults: set<Fault>)
    requires ValidSource(src) && AllReachable(src)
    ensures NeverASurplus(src, faults) <==> Harmless(src, faults)
  {
    if NothingToCopy(src) {
      assert forall initial, s :: AllWithin(src, initial, s);
    } else if Harmless(src, faults) {
      HarmlessNoSurplus(src, faults);
    } else {
      HarmMakesSurplus(src, faults);
    }
  }
}
