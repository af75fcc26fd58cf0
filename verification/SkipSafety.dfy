/**
  Exactly when skipping completed folders is safe
  (src/gdrive_turbo_copy/copier.py:270-272, 501-509, 589-614, 997-1034).

  A folder below the root is marked as completed when every file id below it is in copied_ids,
  and a later run does not look at it again. Every complete run, with any skips in its past,
  leaves each folder with exactly max(source, initial) files of each class if and only if the
  source is separable: no folder below the root that can be completed at all holds two files of
  equal name and checksum, or a file that is tracked elsewhere too, in another folder or in the
  copy of this one that a shortcut leads to. For any other source there is a history whose last
  run is complete and a file short.
 */
module SkipSafety {
  import opened DriveModel
  import opened IndexSpec
  import opened IndexTheory
  import opened FolderSync
  import opened CompletedFolders
  import opened SyncRuns
  import opened Histories

  /* -------------------- which folders can be completed --------------------- */

  function AllIds(src: Source): set<Id> {
    set f, t | f in src.tasks && t in src.tasks[f] :: t.eff
  }

  /** The best any run can record: all folders listed, all files copied, no failures. */
  ghost function Ideal(src: Source): Facts {
    Facts(TreeOf(src, src.tasks.Keys), {}, AllIds(src), {})
  }

  ghost predicate CanComplete(src: Source, f: Id) {
    Complete(Ideal(src), f)
  }

  /** No shortcut in the folder, and the same for each subfolder ... */
  lemma CanCompleteMeans(src: Source, f: Id)
    requires ValidSource(src) && f in src.tasks
    ensures CanComplete(src, Real(src, f)) <==> Eligible(src, f) && forall g :: g in src.subs[f] ==> CanComplete(src, g)
  {
    CompleteIsFixedPoint(Ideal(src), Real(src, f));
    RecordedAs(src, src.tasks.Keys, f);
    assert forall id :: id in NodeOf(src, f).fileEffIds ==> id in AllIds(src);
  }

  /** Only folders of the source can, and those are no shortcuts. */
  lemma CanCompleteIsReal(src: Source, x: Id)
    requires ValidSource(src) && CanComplete(src, x)
    ensures x !in src.targets && exists f :: NameOf(src, f, x)
  {
    CompleteIsFixedPoint(Ideal(src), x);
    assert NameOf(src, SomeName(src, x), x);
  }

  /** ... and not on a cycle. */
  lemma CycleCannotComplete(src: Source, cycle: seq<Id>)
    requires ValidSource(src) && cycle != []
    requires forall i :: 0 <= i < |cycle| ==> cycle[i] in src.tasks && cycle[i] !in src.targets
    requires forall i :: 0 < i < |cycle| ==> Edge(src, cycle, i)
    requires Sub(src, cycle[|cycle|-1], cycle[0])
    ensures !CanComplete(src, cycle[0])
  {
    forall i | 0 <= i < |cycle|
      ensures cycle[i] in Ideal(src).tree && Ideal(src).tree[cycle[i]].subfolderIds == src.subs[cycle[i]]
    {
      RecordedAs(src, src.tasks.Keys, cycle[i]);
    }
    forall i | 0 < i < |cycle| ensures cycle[i] in Ideal(src).tree[cycle[i-1]].subfolderIds {
      assert Edge(src, cycle, i);
    }
    GuardedFolderIsIncomplete(Ideal(src), cycle, cycle[0]);
  }

  /** Whatever a run records, only folders that can complete are found complete. */
  lemma CompletableOnly(src: Source, d: Facts, names: set<Id>, x: Id)
    requires ValidSource(src) && d.tree == TreeOf(src, names) && Complete(d, x)
    requires forall g :: g in d.known ==> CanComplete(src, g)
    ensures CanComplete(src, x)
  {
    var s := iset g | CanComplete(src, g);
    forall g | g in d.known || (Trackable(d, g) && FilesDone(d, d.tree[g])
                                && forall sub :: sub in d.tree[g].subfolderIds ==> sub in s)
      ensures g in s
    {
      if g !in d.known {
        CanCompleteMeans(src, SomeName(src, g));
      }
    }
    CompleteIsLeast(d, s);
  }

  /** When every folder was listed and every id recorded, all that can complete is found complete. */
  lemma CompletableAll(src: Source, d: Facts, x: Id)
    requires ValidSource(src) && d.tree == TreeOf(src, src.tasks.Keys) && AllIds(src) <= d.copied && d.failed == {}
    requires CanComplete(src, x)
    ensures Complete(d, x)
  {
    var s := iset g | Complete(d, g);
    forall g | Trackable(Ideal(src), g) && FilesDone(Ideal(src), Ideal(src).tree[g])
               && forall sub :: sub in Ideal(src).tree[g].subfolderIds ==> sub in s
      ensures g in s
    {
      CompleteIsFixedPoint(d, g);
    }
    CompleteIsLeast(Ideal(src), s);
  }

  /* ----------------------------- the condition ----------------------------- */

  /** No two files of one folder are interchangeable. */
  ghost predicate ClassesDistinct(ts: set<Request>) {
    forall t, u :: t in ts && u in ts && ClassOf(t) == ClassOf(u) ==> t == u
  }

  /** t of folder f and u of folder g are tracked under one id. */
  predicate SharedId(src: Source, f: Id, t: Request, g: Id, u: Request) {
    f in src.tasks && t in src.tasks[f] && g in src.tasks && u in src.tasks[g] && t.eff == u.eff
  }

  ghost predicate OwnIds(src: Source, f: Id) {
    forall t, g, u :: SharedId(src, f, t, g, u) ==> g == f
  }

  /** A folder that some run may skip: neither the root nor one reached through a shortcut ever is. */
  ghost predicate Skippable(src: Source, f: Id) {
    f in src.tasks && f != src.root && f !in src.targets && CanComplete(src, f)
  }

  ghost predicate Separable(src: Source) {
    forall f :: Skippable(src, f) ==> ClassesDistinct(src.tasks[f]) && OwnIds(src, f)
  }

  /** So a shortcut to a skippable folder that has files is enough to make the source inseparable. */
  lemma ShortcutTargetIsInseparable(src: Source, f: Id, g: Id, t: Request)
    requires ValidSource(src) && Skippable(src, f) && t in src.tasks[f]
    requires g in src.tasks && g in src.targets && src.targets[g] == f
    ensures !Separable(src)
  {
    assert SameFolder(src, f, g);
    assert SharedId(src, f, t, g, t);
  }

  /* ------------------------------ the property ----------------------------- */

  /** Neither too few files nor too many of the class of t in f. */
  ghost predicate Exact(src: Source, initial: Dest, s: State, f: Id, t: Request) {
    && f in src.tasks && f in s.dest && f in initial
    && Present(s.dest[f], ClassOf(t)) == Max(Count(src.tasks[f], ClassOf(t)), Present(initial[f], ClassOf(t)))
  }

  ghost predicate AllExact(src: Source, initial: Dest, s: State) {
    forall f, t :: f in src.tasks && t in src.tasks[f] ==> Exact(src, initial, s, f, t)
  }

  /** A history without faults whose last run, skipping or not, was not stopped. */
  ghost predicate EndsComplete(src: Source, initial: Dest, skip: bool, s: State) {
    ValidDest(src, initial) && Reaches(src, {}, Start(initial, skip), s) && RunComplete(src, s)
  }

  ghost predicate SkipSafe(src: Source) {
    forall initial, skip, s :: EndsComplete(src, initial, skip, s) ==> AllExact(src, initial, s)
  }

  /* -------------------------- separable means safe ------------------------- */

  /** In a skippable folder, an id recorded as copied has a file of its class. */
  ghost predicate CopiedIsPresent(src: Source, dest: Dest, copied: set<Id>)
    requires dest.Keys == src.tasks.Keys
  {
    forall f, t :: Skippable(src, f) && t in src.tasks[f] && t.eff in copied ==> Present(dest[f], ClassOf(t)) > 0
  }

  /** Where the walk comes to this folder directly, it is there with all its files and completed subfolders. */
  ghost predicate Covered(src: Source, dest: Dest, completed: set<Id>, f: Id)
    requires dest.Keys == src.tasks.Keys
  {
    f in src.tasks && f != src.root ==>
      && f in src.subs && src.subs[f] <= completed
      && forall t :: t in src.tasks[f] ==> Present(dest[f], ClassOf(t)) > 0
  }

  ghost predicate CompletedIsCovered(src: Source, dest: Dest, completed: set<Id>)
    requires dest.Keys == src.tasks.Keys
  {
    forall f :: f in completed ==> f !in src.targets && CanComplete(src, f) && Covered(src, dest, completed, f)
  }

  ghost predicate SkipInv(src: Source, s: State) {
    && s.dest.Keys == src.tasks.Keys
    && CopiedIsPresent(src, s.dest, s.copied) && CopiedIsPresent(src, s.dest, s.log.copied)
    && CompletedIsCovered(src, s.dest, s.completed) && CompletedIsCovered(src, s.dest, s.log.completed)
  }

  lemma RecordKeepsPresent(src: Source, dest: Dest, copied: set<Id>, f: Id, t: Request)
    requires dest.Keys == src.tasks.Keys && Separable(src) && CopiedIsPresent(src, dest, copied)
    requires f in src.tasks && Requests(src.tasks[f]) && t in src.tasks[f] && Present(dest[f], ClassOf(t)) > 0
    ensures CopiedIsPresent(src, dest, copied + {t.eff})
  {
    forall g, u | Skippable(src, g) && u in src.tasks[g] && u.eff in copied + {t.eff}
      ensures Present(dest[g], ClassOf(u)) > 0
    {
      if u.eff == t.eff {
        assert SharedId(src, g, u, f, t);
      }
    }
  }

  lemma RecordStepKeeps(src: Source, initial: Dest, s: State, step: Step)
    requires ValidSource(src) && Separable(src) && Inv(src, initial, s) && SkipInv(src, s) && Enabled(src, s, step)
    requires step.RecordExisting? || step.MarkCopied? || step.LateRecord?
    ensures SkipInv(src, Apply(src, s, step))
  {
    RecordedIsPresent(src, initial, s, step);
    RecordKeepsPresent(src, s.dest, s.copied, step.f, step.t);
  }

  lemma RecordedIsPresent(src: Source, initial: Dest, s: State, step: Step)
    requires ValidSource(src) && Inv(src, initial, s) && Enabled(src, s, step)
    requires step.RecordExisting? || step.MarkCopied? || step.LateRecord?
    ensures InRun(src, s, step.f, step.t) && Present(s.dest[step.f], ClassOf(step.t)) > 0
    ensures Apply(src, s, step) == s.(copied := s.copied + {step.t.eff})
  {
    RecordIs(src, s, step);
    if !step.LateRecord? {
      SettledIsPresent(src, initial, s, step.f, step.t);
    }
  }

  lemma RecordIs(src: Source, s: State, step: Step)
    requires Enabled(src, s, step) && (step.RecordExisting? || step.MarkCopied? || step.LateRecord?)
    ensures Apply(src, s, step) == s.(copied := s.copied + {step.t.eff}) && InRun(src, s, step.f, step.t)
    ensures !step.LateRecord? ==> SettledIn(s.runs[step.f], step.t)
    ensures step.LateRecord? ==> Present(s.dest[step.f], ClassOf(step.t)) > 0
  {
  }

  lemma SettledIsPresent(src: Source, initial: Dest, s: State, f: Id, t: Request)
    requires ValidSource(src) && Inv(src, initial, s) && InRun(src, s, f, t) && SettledIn(s.runs[f], t)
    ensures Present(s.dest[f], ClassOf(t)) > 0
  {
    DoneIsPresent(s.dest[f], s.runs[f], initial[f], src.tasks[f], s.slipped[f], t);
  }

  /** More files at the destination keep everything. */
  lemma MoreFilesKeep(src: Source, s: State, f: Id, t: Request, newId: Id, copied: set<Id>, completed: set<Id>)
    requires ValidSource(src) && s.dest.Keys == src.tasks.Keys && InRun(src, s, f, t)
    requires CopiedIsPresent(src, s.dest, copied) && CompletedIsCovered(src, s.dest, completed)
    ensures var dest := s.dest[f := s.dest[f] + [CopyOf(t, newId)]];
            dest.Keys == src.tasks.Keys && CopiedIsPresent(src, dest, copied) && CompletedIsCovered(src, dest, completed)
  {
    var dest := s.dest[f := s.dest[f] + [CopyOf(t, newId)]];
    forall g, u | g in src.tasks && u in src.tasks[g]
      ensures Present(dest[g], ClassOf(u)) >= Present(s.dest[g], ClassOf(u))
    {
      if g == f {
        PresentConcat(s.dest[f], [CopyOf(t, newId)], ClassOf(u));
      }
    }
  }

  lemma NewFileKeeps(src: Source, s: State, f: Id, t: Request, newId: Id, step: Step)
    requires ValidSource(src) && SkipInv(src, s) && Enabled(src, s, step)
    requires step == Land(f, t, newId) || step == LoseConfirmation(f, t, newId) || step == LateCopy(f, t, newId)
    ensures SkipInv(src, Apply(src, s, step))
  {
    MoreFilesKeep(src, s, f, t, newId, s.copied, s.completed);
    MoreFilesKeep(src, s, f, t, newId, s.log.copied, s.log.completed);
  }

  lemma FinishKeepsCovered(src: Source, s: State, failed: set<Id>)
    requires ValidSource(src) && s.dest.Keys == src.tasks.Keys
    requires CopiedIsPresent(src, s.dest, s.copied) && CompletedIsCovered(src, s.dest, s.completed)
    ensures CompletedIsCovered(src, s.dest, s.completed + NewlyCompleted(src, s, failed))
  {
    var done := s.completed + NewlyCompleted(src, s, failed);
    forall f | f in done && f !in s.completed
      ensures f !in src.targets && CanComplete(src, f) && Covered(src, s.dest, done, f)
    {
      var d := Facts(Recorded(src, s), s.completed, s.copied, failed);
      CompletableOnly(src, d, s.runs.Keys, f);
      CanCompleteIsReal(src, f);
      if f in src.tasks && f != src.root {
        NewlyCovered(src, s, failed, f);
      }
    }
  }

  lemma NewlyCovered(src: Source, s: State, failed: set<Id>, f: Id)
    requires ValidSource(src) && s.dest.Keys == src.tasks.Keys && CopiedIsPresent(src, s.dest, s.copied)
    requires f in NewlyCompleted(src, s, failed) && f !in s.completed && Skippable(src, f)
    ensures Covered(src, s.dest, s.completed + NewlyCompleted(src, s, failed), f)
  {
    var d := Facts(Recorded(src, s), s.completed, s.copied, failed);
    assert SameFolder(src, f, SomeName(src, f));
    assert d.tree[f] == NodeOf(src, f);
    CompleteIsFixedPoint(d, f);
    forall g | g in src.subs[f] ensures g in s.completed + NewlyCompleted(src, s, failed) {
      CompleteIsFixedPoint(d, g);
    }
    assert forall t :: t in src.tasks[f] ==> t.eff in d.tree[f].fileEffIds;
  }

  lemma FinishStepKeeps(src: Source, s: State, failed: set<Id>)
    requires ValidSource(src) && SkipInv(src, s)
    ensures SkipInv(src, Apply(src, s, Finish(failed)))
  {
    FinishKeepsCovered(src, s, failed);
    SameRecordsInLog(src, s, s.completed + NewlyCompleted(src, s, failed));
  }

  /** A log that holds what the run holds is as good as the run's own records. */
  lemma SameRecordsInLog(src: Source, s: State, done: set<Id>)
    requires s.dest.Keys == src.tasks.Keys && CopiedIsPresent(src, s.dest, s.copied) && CompletedIsCovered(src, s.dest, done)
    ensures SkipInv(src, s.(completed := done, log := Log(s.copied, done), runs := map[], earlier := {}))
  {
  }

  lemma CheckKeepsCovered(src: Source, s: State, f: Id, t: Request, step: Step)
    requires SkipInv(src, s) && Enabled(src, s, step) && (step == Check(f, t) || step == LateCheck(f, t))
    ensures SkipInv(src, Apply(src, s, step))
  {
    assert Apply(src, s, step).copied <= s.copied;
  }

  lemma StepKeepsSkipInv(src: Source, initial: Dest, s: State, step: Step)
    requires ValidSource(src) && Separable(src)
    requires Inv(src, initial, s) && SkipInv(src, s) && Enabled(src, s, step)
    ensures SkipInv(src, Apply(src, s, step))
  {
    if step.RecordExisting? || step.MarkCopied? || step.LateRecord? {
      RecordStepKeeps(src, initial, s, step);
    } else {
      UnrecordedStepKeeps(src, s, step);
    }
  }

  lemma UnrecordedStepKeeps(src: Source, s: State, step: Step)
    requires ValidSource(src) && SkipInv(src, s) && Enabled(src, s, step)
    requires !step.RecordExisting? && !step.MarkCopied? && !step.LateRecord?
    ensures SkipInv(src, Apply(src, s, step))
  {
    if step.Land? || step.LoseConfirmation? || step.LateCopy? {
      NewFileKeeps(src, s, step.f, step.t, step.newId, step);
    } else {
      OtherStepKeeps(src, s, step);
    }
  }

  lemma OtherStepKeeps(src: Source, s: State, step: Step)
    requires ValidSource(src) && SkipInv(src, s) && Enabled(src, s, step)
    requires !step.RecordExisting? && !step.MarkCopied? && !step.LateRecord?
    requires !step.Land? && !step.LoseConfirmation? && !step.LateCopy?
    ensures SkipInv(src, Apply(src, s, step))
  {
    if step.Check? || step.LateCheck? {
      CheckKeepsCovered(src, s, step.f, step.t, step);
    } else if step.Finish? {
      FinishStepKeeps(src, s, step.failed);
    } else {
      QuietStepKeeps(src, s, step);
    }
  }

  /** Steps that change neither the files nor, except to what the log holds, the records. */
  lemma QuietStepKeeps(src: Source, s: State, step: Step)
    requires SkipInv(src, s) && Enabled(src, s, step)
    requires step.Enter? || step.TryMatch? || step.SaveLog? || step.DropLog? || step.Restart?
    ensures SkipInv(src, Apply(src, s, step))
  {
  }

  lemma {:induction false} RunKeepsSkipInv(src: Source, initial: Dest, s: State, steps: seq<Step>)
    requires ValidSource(src) && Separable(src)
    requires Inv(src, initial, s) && SkipInv(src, s) && Runs(src, s, steps)
    ensures SkipInv(src, After(src, s, steps))
    decreases |steps|
  {
    if steps != [] {
      StepKeepsInv(src, initial, s, steps[0]);
      StepKeepsSkipInv(src, initial, s, steps[0]);
      RunKeepsSkipInv(src, initial, Apply(src, s, steps[0]), steps[1..]);
    }
  }

  lemma ReachedSkipInv(src: Source, faults: set<Fault>, initial: Dest, skip: bool, s: State)
    requires ValidSource(src) && Separable(src) && ValidDest(src, initial)
    requires Reaches(src, faults, Start(initial, skip), s)
    ensures SkipInv(src, s)
  {
    var steps :| Leads(src, faults, Start(initial, skip), steps, s);
    StartInv(src, initial, skip);
    RunKeepsSkipInv(src, initial, Start(initial, skip), steps);
  }

  /** Below a completed folder, on any path, everything is completed. */
  lemma {:induction false} BelowCompleted(src: Source, s: State, path: seq<Id>, i: nat, k: nat)
    requires SkipInv(src, s) && Walk(src, path) && 0 < i <= k < |path| && path[i] in s.completed
    ensures path[k] in s.completed && Skippable(src, path[k])
    decreases k
  {
    assert path[0] == src.root && Real(src, path[0]) != Real(src, path[k]);
    if i < k {
      BelowCompleted(src, s, path, i, k - 1);
      assert Covered(src, s.dest, s.completed, path[k-1]);
      assert Edge(src, path, k);
    }
  }

  /** In a complete run every folder was either entered or is a completed one that may be skipped. */
  lemma EnteredOrCompleted(src: Source, s: State, path: seq<Id>, f: Id)
    requires RunComplete(src, s) && WalkTo(src, path, f) && SkipInv(src, s)
    ensures f in s.runs || (f in s.completed && Skippable(src, f))
  {
    if !Clear(src, s, path) {
      SkippedOn(src, s, path);
    }
  }

  lemma SkippedOn(src: Source, s: State, path: seq<Id>)
    requires SkipInv(src, s) && Walk(src, path) && !Clear(src, s, path)
    ensures path[|path|-1] in s.completed && Skippable(src, path[|path|-1])
  {
    var i :| 0 <= i < |path| && Skips(src, s, path[i]);
    BelowCompleted(src, s, path, i, |path| - 1);
  }

  lemma DistinctCountsOnce(ts: set<Request>, t: Request)
    requires ClassesDistinct(ts) && t in ts
    ensures Count(ts, ClassOf(t)) == 1
  {
    var s := OfClass(ts, ClassOf(t));
    assert forall u :: u in s ==> u == t;
    assert t in s;
    assert s == {t};
  }

  /** A folder that was entered, or skipped as completed, is at least at its target. */
  lemma SettledFolder(src: Source, initial: Dest, s: State, f: Id, t: Request)
    requires ValidSource(src) && Separable(src) && Inv(src, initial, s) && SkipInv(src, s) && RunComplete(src, s)
    requires f in src.tasks && t in src.tasks[f] && (f in s.runs || (f in s.completed && Skippable(src, f)))
    ensures Converged(src, initial, s, f, t)
  {
    var ts := src.tasks[f];
    assert ClassIn(ClassOf(t), ts);
    if f in s.runs {
      RunStaysBounded(s.dest[f], s.runs[f], initial[f], ts, s.slipped[f], ClassOf(t));
    } else {
      assert Covered(src, s.dest, s.completed, f);
      DistinctCountsOnce(ts, t);
      assert Bounded(s.dest[f], initial[f], ts, s.slipped[f], ClassOf(t));
    }
  }

  /** Skipping is safe under any faults, but for the slips themselves. */
  lemma SkippingConverges(src: Source, faults: set<Fault>, initial: Dest, skip: bool, s: State, path: seq<Id>, f: Id, t: Request)
    requires ValidSource(src) && Separable(src) && ValidDest(src, initial)
    requires Reaches(src, faults, Start(initial, skip), s) && RunComplete(src, s) && LeadsTo(src, path, f, t)
    ensures f in initial && f in s.dest && f in s.slipped && Converged(src, initial, s, f, t)
  {
    ReachedInv(src, faults, initial, skip, s);
    ReachedSkipInv(src, faults, initial, skip, s);
    CompleteRunConverged(src, initial, s, path, f, t);
  }

  lemma CompleteRunConverged(src: Source, initial: Dest, s: State, path: seq<Id>, f: Id, t: Request)
    requires ValidSource(src) && Separable(src) && Inv(src, initial, s) && SkipInv(src, s) && RunComplete(src, s)
    requires LeadsTo(src, path, f, t)
    ensures Converged(src, initial, s, f, t)
  {
    EnteredOrCompleted(src, s, path, f);
    SettledFolder(src, initial, s, f, t);
  }

  lemma ExactWhenSeparable(src: Source, initial: Dest, skip: bool, s: State, f: Id, t: Request)
    requires ValidSource(src) && AllReachable(src) && Separable(src) && EndsComplete(src, initial, skip, s)
    requires f in src.tasks && t in src.tasks[f]
    ensures Exact(src, initial, s, f, t)
  {
    ReachedInv(src, {}, initial, skip, s);
    var path :| WalkTo(src, path, f);
    SkippingConverges(src, {}, initial, skip, s, path, f, t);
    assert s.slipped[f] == [];
  }

  lemma SeparableIsSafe(src: Source)
    requires ValidSource(src) && AllReachable(src) && Separable(src)
    ensures SkipSafe(src)
  {
    forall initial, skip, s | EndsComplete(src, initial, skip, s) ensures AllExact(src, initial, s) {
      forall f, t | f in src.tasks && t in src.tasks[f] ensures Exact(src, initial, s, f, t) {
        ExactWhenSeparable(src, initial, skip, s, f, t);
      }
    }
  }

  /* ---------------------- not separable: a losing history ------------------ */

  /** Every folder listed and every id recorded, although a class of f is short. */
  ghost predicate WronglyRecorded(src: Source, s: State, f: Id, t: Request) {
    && Reaches(src, {}, Start(Blank(src), true), s) && s.skip && s.completed == {}
    && WellFormed(src, s) && s.runs.Keys == src.tasks.Keys && AllIds(src) <= s.copied
    && f in src.tasks && t in src.tasks[f] && Present(s.dest[f], ClassOf(t)) < Count(src.tasks[f], ClassOf(t))
  }

  /** A complete run that skipped f although a file of t's class is missing from it. */
  ghost predicate Loses(src: Source, s: State, f: Id, t: Request) {
    && EndsComplete(src, Blank(src), true, s) && Leaves(s, f) && f in src.tasks && t in src.tasks[f]
    && Present(s.dest[f], ClassOf(t)) < Count(src.tasks[f], ClassOf(t))
  }

  /** The run skips completed folders, f is one, and it was not entered. */
  predicate Leaves(s: State, f: Id) {
    s.skip && f in s.completed && f !in s.runs && f in s.dest
  }

  lemma FinishSkipping(src: Source, s: State, f: Id) returns (s': State)
    requires InProgress(src, s) && Leaves(s, f) && Skips(src, s, f)
    ensures Reaches(src, {}, s, s') && RunComplete(src, s') && Leaves(s', f) && s'.dest[f] == s.dest[f]
  {
    s' := FinishRun(src, {}, s);
  }

  lemma EndsFromBlank(src: Source, s: State, s': State)
    requires Reaches(src, {}, Start(Blank(src), true), s) && Reaches(src, {}, s, s') && RunComplete(src, s')
    ensures EndsComplete(src, Blank(src), true, s')
  {
    Follow(src, {}, Start(Blank(src), true), s, s');
    assert ValidDest(src, Blank(src));
  }

  /** Such a state ends its run by marking f as completed; the next run skips it and is complete. */
  lemma SkippedForGood(src: Source, s: State, f: Id, t: Request) returns (s': State)
    requires ValidSource(src) && Skippable(src, f) && WronglyRecorded(src, s, f, t)
    ensures Loses(src, s', f, t)
  {
    var s1 := MarkedCompleted(src, s, f);
    s' := FinishSkipping(src, s1, f);
    Follow(src, {}, s, s1, s');
    EndsFromBlank(src, s, s');
  }

  /** The next run has started, and skips f. */
  lemma MarkedCompleted(src: Source, s: State, f: Id) returns (s': State)
    requires ValidSource(src) && Skippable(src, f) && WellFormed(src, s)
    requires s.skip && s.runs.Keys == src.tasks.Keys && AllIds(src) <= s.copied
    ensures Reaches(src, {}, s, s') && InProgress(src, s') && Leaves(s', f) && Skips(src, s', f) && s'.dest == s.dest
  {
    Take(src, {}, s, Finish({}));
    var s1 := Apply(src, s, Finish({}));
    CompletableAll(src, Facts(Recorded(src, s), s.completed, s.copied, {}), f);
    RecordedAs(src, src.tasks.Keys, f);
    Then(src, {}, s, s1, Restart(true));
    s' := Apply(src, s1, Restart(true));
  }

  /** An id tracked in another folder too: that folder's copy records it. */
  lemma OtherFolderRecordsIt(src: Source, f: Id, t: Request, g: Id, u: Request) returns (s: State)
    requires ValidSource(src) && AllReachable(src) && SharedId(src, f, t, g, u) && g != f
    ensures WronglyRecorded(src, s, f, t)
  {
    s := AllButOne(src, {}, true, f, t);
    AllIdsLearned(src, f, t, g, u, s.copied);
  }

  lemma AllIdsLearned(src: Source, f: Id, t: Request, g: Id, u: Request, copied: set<Id>)
    requires SharedId(src, f, t, g, u) && g != f && Learned({}, copied, AllPairs(src) - {(f, t)})
    ensures AllIds(src) <= copied
  {
    var done := AllPairs(src) - {(f, t)};
    forall id | id in AllIds(src) ensures id in copied {
      var h, v :| h in src.tasks && v in src.tasks[h] && v.eff == id;
      var p := if (h, v) == (f, t) then (g, u) else (h, v);
      assert p in done && p.1.eff == id;
      assert HasId(done, id);
    }
  }

  /** The visit of f has just begun, with a full listing. */
  ghost predicate Begun(src: Source, s: State, f: Id) {
    && f in src.tasks && f in s.runs && f in s.dest && s.runs[f] == EnterRun(s.dest[f], s.dest[f], [])
    && Requests(src.tasks[f]) && ListingHonest(s.dest[f], src.tasks[f])
  }

  /** u is served by a file of its class already there, and recorded. */
  lemma ServeOne(src: Source, s: State, f: Id, u: Request) returns (s': State)
    requires Begun(src, s, f) && u in src.tasks[f] && u.eff !in s.copied && Present(s.dest[f], ClassOf(u)) > 0
    ensures Reaches(src, {}, s, s')
    ensures s' == s.(copied := s.copied + {u.eff}, runs := s'.runs) && s'.runs.Keys == s.runs.Keys
  {
    Take(src, {}, s, Check(f, u));
    var s1 := Apply(src, s, Check(f, u));
    MatchIsServed(s.dest[f], s1.runs[f], u, src.tasks[f]);
    s' := MatchAndRecord(src, s1, f, u);
    Follow(src, {}, s, s1, s');
  }

  lemma MatchAndRecord(src: Source, s: State, f: Id, u: Request) returns (s': State)
    requires NotYet(src, s, f, u) && u !in s.runs[f].missed && u in Match(s.runs[f], u).took
    ensures Reaches(src, {}, s, s')
    ensures s' == s.(copied := s.copied + {u.eff}, runs := s'.runs) && s'.runs.Keys == s.runs.Keys
  {
    Take(src, {}, s, TryMatch(f, u));
    var s1 := Apply(src, s, TryMatch(f, u));
    Then(src, {}, s, s1, RecordExisting(f, u));
    s' := Apply(src, s1, RecordExisting(f, u));
  }

  lemma MatchIsServed(files: seq<DriveFile>, r: FolderRun, u: Request, ts: set<Request>)
    requires Requests(ts) && u in ts && ListingHonest(files, ts) && Present(files, ClassOf(u)) > 0
    requires r.index == Build(files)
    ensures u in Match(r, u).took
  {
    BuildAvail(files, ClassOf(u));
    BuildAgrees(files);
    BuildTagsHonest(files, ts);
    ServedExactlyWhenAvailable(Build(files), u, ts, false);
  }

  /** After a crash with the log saved, a second run lists every folder again. */
  lemma RunAgain(src: Source, s: State) returns (s': State)
    requires WellFormed(src, s) && AllReachable(src) && s.skip && s.completed == {}
    ensures Reaches(src, {}, s, s') && JustListed(src, s')
    ensures s'.dest == s.dest && s'.copied == s.copied && s'.skip && s'.completed == {}
  {
    Take(src, {}, s, SaveLog);
    var s1 := Apply(src, s, SaveLog);
    Then(src, {}, s, s1, Restart(true));
    var s2 := Apply(src, s1, Restart(true));
    s' := EnterAll(src, {}, s2);
    Follow(src, {}, s, s2, s');
  }

  /** Two interchangeable files: in a second run the copy of one serves for the other, and the run stops. */
  lemma TwinStealsCopy(src: Source, f: Id, t: Request, u: Request) returns (s: State)
    requires ValidSource(src) && AllReachable(src) && f in src.tasks && t in src.tasks[f] && u in src.tasks[f]
    requires t != u && ClassOf(t) == ClassOf(u) && OwnIds(src, f)
    ensures WronglyRecorded(src, s, f, u)
  {
    var s2 := SecondRun(src, f, t, u);
    NotRecorded(src, f, u, s2.copied);
    s := ServeOne(src, s2, f, u);
    Follow(src, {}, Start(Blank(src), true), s2, s);
    AllButOneRecorded(src, f, u, s2.copied);
  }

  /** A second run has just listed every folder: one copy of the class of u is missing, but one is there. */
  ghost predicate OneShort(src: Source, s: State, f: Id, u: Request) {
    && Reaches(src, {}, Start(Blank(src), true), s) && JustListed(src, s) && s.skip && s.completed == {}
    && f in src.tasks && u in src.tasks[f] && ListingHonest(s.dest[f], src.tasks[f])
    && Learned({}, s.copied, AllPairs(src) - {(f, u)})
    && 0 < Present(s.dest[f], ClassOf(u)) < Count(src.tasks[f], ClassOf(u))
  }

  lemma SecondRun(src: Source, f: Id, t: Request, u: Request) returns (s: State)
    requires ValidSource(src) && AllReachable(src) && f in src.tasks && t in src.tasks[f] && u in src.tasks[f]
    requires t != u && ClassOf(t) == ClassOf(u)
    ensures OneShort(src, s, f, u)
  {
    var s1 := AllButOne(src, {}, true, f, u);
    s := RunAgain(src, s1);
    Follow(src, {}, Start(Blank(src), true), s1, s);
    TwinCounts(src.tasks[f], t, u);
  }

  lemma TwinCounts(ts: set<Request>, t: Request, u: Request)
    requires t in ts && u in ts && t != u && ClassOf(t) == ClassOf(u)
    ensures Count(ts, ClassOf(u)) >= 2
  {
    CountPositive(ts - {u}, t);
    CountAdd(ts - {u}, u, ClassOf(u));
    assert ts - {u} + {u} == ts;
  }

  lemma NotRecorded(src: Source, f: Id, u: Request, copied: set<Id>)
    requires ValidSource(src) && f in src.tasks && u in src.tasks[f] && OwnIds(src, f)
    requires Learned({}, copied, AllPairs(src) - {(f, u)})
    ensures u.eff !in copied
  {
    forall g, v | g in src.tasks && v in src.tasks[g] && (g, v) != (f, u) ensures v.eff != u.eff {
      assert SharedId(src, f, u, g, v) ==> g == f;
    }
  }

  lemma AllButOneRecorded(src: Source, f: Id, u: Request, copied: set<Id>)
    requires Learned({}, copied, AllPairs(src) - {(f, u)})
    ensures AllIds(src) <= copied + {u.eff}
  {
    var done := AllPairs(src) - {(f, u)};
    forall id | id in AllIds(src) && id != u.eff ensures id in copied {
      var h, v :| h in src.tasks && v in src.tasks[h] && v.eff == id;
      var p := (h, v);
      assert p in done && p.1.eff == id;
      assert HasId(done, id);
    }
  }

  lemma WrongRecord(src: Source, f: Id) returns (s: State, t: Request)
    requires ValidSource(src) && AllReachable(src) && f in src.tasks
    requires !ClassesDistinct(src.tasks[f]) || !OwnIds(src, f)
    ensures WronglyRecorded(src, s, f, t)
  {
    if !OwnIds(src, f) {
      var t0, g, u :| SharedId(src, f, t0, g, u) && g != f;
      t := t0;
      s := OtherFolderRecordsIt(src, f, t, g, u);
    } else {
      var t0, u :| t0 in src.tasks[f] && u in src.tasks[f] && ClassOf(t0) == ClassOf(u) && t0 != u;
      t := u;
      s := TwinStealsCopy(src, f, t0, u);
    }
  }

  /**
    For any source that is not separable, a history without faults whose last run skips, is
    complete, and leaves a class of some folder short: `max(source, initial)` is not reached.
   */
  lemma LosingSkipRun(src: Source, f: Id) returns (s: State, t: Request)
    requires ValidSource(src) && AllReachable(src) && Skippable(src, f)
    requires !ClassesDistinct(src.tasks[f]) || !OwnIds(src, f)
    ensures Loses(src, s, f, t)
  {
    var before, t0 := WrongRecord(src, f);
    t := t0;
    s := SkippedForGood(src, before, f, t);
  }

  lemma LossIsUnsafe(src: Source, s: State, f: Id, t: Request)
    requires Loses(src, s, f, t)
    ensures !SkipSafe(src)
  {
    assert !Exact(src, Blank(src), s, f, t);
    assert !AllExact(src, Blank(src), s);
  }

  lemma InseparableIsUnsafe(src: Source, f: Id)
    requires ValidSource(src) && AllReachable(src) && Skippable(src, f)
    requires !ClassesDistinct(src.tasks[f]) || !OwnIds(src, f)
    ensures !SkipSafe(src)
  {
    var s, t := LosingSkipRun(src, f);
    LossIsUnsafe(src, s, f, t);
  }

  /** Skipping is safe exactly for separable sources. */
  lemma SkipSafeExactlyWhenSeparable(src: Source)
    requires ValidSource(src) && AllReachable(src)
    ensures SkipSafe(src) <==> Separable(src)
  {
    if Separable(src) {
      SeparableIsSafe(src);
    } else {
      var f :| Skippable(src, f) && (!ClassesDistinct(src.tasks[f]) || !OwnIds(src, f));
      InseparableIsUnsafe(src, f);
    }
  }
}
