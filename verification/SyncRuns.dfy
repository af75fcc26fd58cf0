/**
  Whole runs over a source, with crashes and restarts
  (src/gdrive_turbo_copy/copier.py:254-276, 458-529, 576-695, 977-1063).

  The state machine lets folders be entered and files be processed in any order a traversal or
  a pool of workers could produce, lets copies fail, lets the log be saved or trashed at any
  moment, and lets the process die at any moment and restart from what log there is. Three
  things leave a trace: a listing of a destination folder may break off (copier.py:962-969), a
  copy may be made although the call reports a failure, and a folder may be listed again while
  copies from an earlier visit in the same run are on their way.

  A folder of the walk goes by the id its destination is filed under (the effective key of
  copier.py:800): its own, or that of the shortcut it is reached through. One folder may thus
  have several names, each with a destination of its own. StoreRuns joins this to the
  destination folders as they are.
 */
module SyncRuns {
  import opened DriveModel
  import opened IndexTheory
  import opened FolderSync
  import opened CompletedFolders

  /**
    Per name: the files its folder lists, and the names of the folders and of the shortcuts to
    folders it lists. `targets` are the folders behind the shortcuts, `broken` the names of
    folders that also list a shortcut to nothing.
   */
  datatype Source = Source(
    root: Id,
    tasks: map<Id, set<Request>>,
    subs: map<Id, set<Id>>,
    targets: map<Id, Id>,
    broken: set<Id>)

  /** The folder behind a name. */
  function Real(src: Source, f: Id): Id {
    if f in src.targets then src.targets[f] else f
  }

  type Pair = (Id, Request)

  function PairsOf(src: Source, f: Id): set<Pair>
    requires f in src.tasks
  {
    set t | t in src.tasks[f] :: (f, t)
  }

  type Dest = map<Id, seq<DriveFile>>

  datatype Log = Log(copied: set<Id>, completed: set<Id>)

  /**
    `runs` holds the latest visit of each folder entered since the last restart, `earlier` the
    files of visits before that; `skip` is skip_completed_folders; `slipped` collects, per
    folder, files a listing did not show, copies reported as failed and copies that came late.
   */
  datatype State = State(
    dest: Dest,
    copied: set<Id>,
    completed: set<Id>,
    log: Log,
    skip: bool,
    runs: map<Id, FolderRun>,
    earlier: set<Pair>,
    slipped: Dest)

  ghost predicate ValidSource(src: Source) {
    && src.root in src.tasks && src.root !in src.targets
    && src.tasks.Keys == src.subs.Keys
    && (forall g :: g in src.targets ==> src.targets[g] !in src.targets)
    && (forall f :: f in src.tasks ==> Requests(src.tasks[f]))
    && (forall f, g :: SameFolder(src, f, g) ==> SameListing(src, f, g))
  }

  predicate SameFolder(src: Source, f: Id, g: Id) {
    f in src.tasks && g in src.tasks && Real(src, f) == Real(src, g)
  }

  predicate SameListing(src: Source, f: Id, g: Id) {
    && f in src.tasks && g in src.tasks && f in src.subs && g in src.subs
    && src.tasks[f] == src.tasks[g] && src.subs[f] == src.subs[g] && (f in src.broken <==> g in src.broken)
  }

  /** A destination for every source folder (empty before it is created) with honest tags. */
  ghost predicate ValidDest(src: Source, dest: Dest) {
    && dest.Keys == src.tasks.Keys
    && forall f :: f in src.tasks ==> ListingHonest(dest[f], src.tasks[f])
  }

  function Start(dest: Dest, skip: bool): State {
    State(dest, {}, {}, Log({}, {}), skip, map[], {}, map f | f in dest :: [])
  }

  datatype Step =
    | Enter(f: Id, seen: seq<DriveFile>, hidden: seq<DriveFile>)
    | Check(f: Id, t: Request)
    | TryMatch(f: Id, t: Request)
    | RecordExisting(f: Id, t: Request)
    | Land(f: Id, t: Request, newId: Id)
    | LoseConfirmation(f: Id, t: Request, newId: Id)
    | MarkCopied(f: Id, t: Request)
    | LateCopy(f: Id, t: Request, newId: Id)   // by an earlier visit, as the next two
    | LateRecord(f: Id, t: Request)
    | LateCheck(f: Id, t: Request)
    | Finish(failed: set<Id>)
    | SaveLog
    | DropLog
    | Restart(skip: bool)

  /* -------------------------------- the walk ------------------------------- */

  predicate Sub(src: Source, f: Id, g: Id) {
    f in src.subs && g in src.subs[f]
  }

  predicate Edge(src: Source, path: seq<Id>, i: int) {
    0 < i < |path| && Sub(src, path[i-1], path[i])
  }

  /** The guard against loops: no folder below itself, under any name. */
  predicate Simple(src: Source, path: seq<Id>) {
    forall i, j :: 0 <= i < j < |path| ==> Real(src, path[i]) != Real(src, path[j])
  }

  /** A path the traversal can take from the root. */
  ghost predicate Walk(src: Source, path: seq<Id>) {
    && path != [] && path[0] == src.root && Simple(src, path)
    && (forall i :: 0 <= i < |path| ==> path[i] in src.tasks)
    && forall i :: 0 < i < |path| ==> Edge(src, path, i)
  }

  ghost predicate WalkTo(src: Source, path: seq<Id>, f: Id) {
    Walk(src, path) && path[|path|-1] == f
  }

  /** Everything before the end of the path was entered in this run. */
  predicate Entered(s: State, path: seq<Id>) {
    forall i :: 0 <= i < |path| - 1 ==> path[i] in s.runs
  }

  ghost predicate OneWay(src: Source, s: State, f: Id) {
    exists path :: WalkTo(src, path, f) && Entered(s, path)
  }

  ghost predicate TwoWays(src: Source, s: State, f: Id) {
    exists p, q :: p != q && WalkTo(src, p, f) && WalkTo(src, q, f) && Entered(s, p) && Entered(s, q)
  }

  /** A completed folder is not entered, except as the root or through a shortcut. */
  predicate Skips(src: Source, s: State, f: Id) {
    s.skip && f in s.completed && f != src.root && f !in src.targets
  }

  predicate InRun(src: Source, s: State, f: Id, t: Request) {
    f in src.tasks && f in s.runs && f in s.dest && t in src.tasks[f]
  }

  ghost predicate Enabled(src: Source, s: State, step: Step) {
    match step
    case Enter(f, seen, hidden) =>
      && f in src.tasks && f in s.dest && f in s.slipped && Shows(s.dest[f], seen, hidden)
      && !Skips(src, s, f) && if f in s.runs then TwoWays(src, s, f) else OneWay(src, s, f)
    case Check(f, t) => InRun(src, s, f, t) && t !in s.runs[f].checked && t !in s.runs[f].took
    case TryMatch(f, t) =>
      InRun(src, s, f, t) && t in s.runs[f].checked && t !in s.runs[f].took && t !in s.runs[f].missed
    case RecordExisting(f, t) => InRun(src, s, f, t) && t in s.runs[f].took
    case Land(f, t, newId) => InRun(src, s, f, t) && t in s.runs[f].missed && t !in s.runs[f].landed
    case LoseConfirmation(f, t, newId) =>
      InRun(src, s, f, t) && t in s.runs[f].missed && t !in s.runs[f].landed && f in s.slipped
    case MarkCopied(f, t) => InRun(src, s, f, t) && t in s.runs[f].landed
    case LateCopy(f, t, newId) => InRun(src, s, f, t) && (f, t) in s.earlier && f in s.slipped
    case LateRecord(f, t) => InRun(src, s, f, t) && (f, t) in s.earlier && Present(s.dest[f], ClassOf(t)) > 0
    case LateCheck(f, t) => (f, t) in s.earlier
    case Finish(_) => true
    case SaveLog => true
    case DropLog => true
    case Restart(_) => true
  }

  /** Reached directly, not through a shortcut: only then is a file tracked under its own id. */
  predicate NoShortcuts(ts: set<Request>) {
    forall t :: t in ts ==> t.eff == t.file.id
  }

  predicate Eligible(src: Source, f: Id) {
    && f in src.tasks && f in src.subs && f !in src.broken && NoShortcuts(src.tasks[f])
    && forall g :: g in src.subs[f] ==> g !in src.targets
  }

  /** What _record_tree_node keeps of a folder: a shortcut makes it ineligible. */
  function NodeOf(src: Source, f: Id): FolderNode
    requires f in src.tasks && f in src.subs
  {
    FolderNode(true, Eligible(src, f), set t | t in src.tasks[f] :: t.eff, src.subs[f])
  }

  predicate NameOf(src: Source, f: Id, x: Id) {
    f in src.tasks && f in src.subs && Real(src, f) == x
  }

  ghost function SomeName(src: Source, x: Id): Id
    requires x in Reals(src, src.tasks.Keys)
    ensures NameOf(src, SomeName(src, x), x)
  {
    assert exists f :: NameOf(src, f, x) by {
      var f :| f in src.tasks && f in src.subs && Real(src, f) == x;
      assert NameOf(src, f, x);
    }
    var f :| NameOf(src, f, x);
    f
  }

  function Reals(src: Source, names: set<Id>): set<Id> {
    set f | f in names && f in src.tasks && f in src.subs :: Real(src, f)
  }

  /** The record of some folders, by what they really are. */
  ghost function TreeOf(src: Source, names: set<Id>): Tree {
    map x | x in Reals(src, names * src.tasks.Keys) :: NodeOf(src, SomeName(src, x))
  }

  /** Whatever name it was entered by, a folder is recorded with what it lists. */
  lemma RecordedAs(src: Source, names: set<Id>, f: Id)
    requires ValidSource(src) && f in names && f in src.tasks
    ensures Real(src, f) in TreeOf(src, names) && TreeOf(src, names)[Real(src, f)] == NodeOf(src, f)
  {
    var x := Real(src, f);
    assert x in Reals(src, names * src.tasks.Keys);
    assert SameFolder(src, f, SomeName(src, x));
  }

  /** The record of the folders entered in this run. */
  ghost function Recorded(src: Source, s: State): Tree {
    TreeOf(src, s.runs.Keys)
  }

  /** Folders are recorded, and found complete, only with skip_completed_folders on. */
  ghost function NewlyCompleted(src: Source, s: State, failed: set<Id>): set<Id> {
    if s.skip then set x | x in Recorded(src, s) && Complete(Facts(Recorded(src, s), s.completed, s.copied, failed), x)
    else {}
  }

  /** A copy too many of t in f. */
  function Doubled(s: State, f: Id, t: Request, newId: Id): State
    requires f in s.dest && f in s.runs && f in s.slipped
  {
    var copy := [CopyOf(t, newId)];
    s.(dest := s.dest[f := s.dest[f] + copy],
       runs := s.runs[f := s.runs[f].(lost := s.runs[f].lost + copy)],
       slipped := s.slipped[f := s.slipped[f] + copy])
  }

  ghost function Apply(src: Source, s: State, step: Step): State
    requires Enabled(src, s, step)
  {
    match step
    case Enter(f, seen, hidden) =>
      s.(runs := s.runs[f := EnterRun(s.dest[f], seen, hidden)], slipped := s.slipped[f := s.slipped[f] + hidden],
         earlier := if f in s.runs then s.earlier + PairsOf(src, f) else s.earlier)
    case Check(f, t) =>
      var (r, copied) := CheckResume(s.runs[f], t, s.copied);
      s.(runs := s.runs[f := r], copied := copied)
    case TryMatch(f, t) => s.(runs := s.runs[f := Match(s.runs[f], t)])
    case RecordExisting(f, t) => s.(copied := s.copied + {t.eff})
    case Land(f, t, newId) =>
      s.(dest := s.dest[f := s.dest[f] + [CopyOf(t, newId)]],
         runs := s.runs[f := s.runs[f].(landed := s.runs[f].landed + {t})])
    case LoseConfirmation(f, t, newId) => Doubled(s, f, t, newId)
    case MarkCopied(f, t) => s.(copied := s.copied + {t.eff})
    case LateCopy(f, t, newId) => Doubled(s, f, t, newId)
    case LateRecord(f, t) => s.(copied := s.copied + {t.eff})
    case LateCheck(f, t) => s.(copied := s.copied - {t.eff})
    case Finish(failed) =>
      var done := s.completed + NewlyCompleted(src, s, failed);
      s.(completed := done, log := Log(s.copied, done), runs := map[], earlier := {})
    case SaveLog => s.(log := Log(s.copied, s.completed))
    case DropLog => s.(log := Log({}, {}))
    case Restart(skip) =>
      s.(copied := s.log.copied, completed := s.log.completed, skip := skip, runs := map[], earlier := {})
  }

  ghost predicate Runs(src: Source, s: State, steps: seq<Step>)
    decreases |steps|
  {
    steps == [] || (Enabled(src, s, steps[0]) && Runs(src, Apply(src, s, steps[0]), steps[1..]))
  }

  ghost function After(src: Source, s: State, steps: seq<Step>): State
    requires Runs(src, s, steps)
    decreases |steps|
  {
    if steps == [] then s else After(src, Apply(src, s, steps[0]), steps[1..])
  }

  /* --------------------------- nothing over target ------------------------- */

  /** One folder: its tags, its bounds, and its visit if there is one. */
  ghost predicate FolderInv(ts: set<Request>, initial: seq<DriveFile>, files: seq<DriveFile>, slipped: seq<DriveFile>,
                            run: Option<FolderRun>) {
    && ListingHonest(files, ts) && (run.Some? ==> RunInv(files, run.value, initial, ts, slipped))
    && forall c :: ClassIn(c, ts) ==> Bounded(files, initial, ts, slipped, c)
  }

  function RunOf(s: State, f: Id): Option<FolderRun> {
    if f in s.runs then Some(s.runs[f]) else None
  }

  predicate Keyed(src: Source, s: State) {
    s.dest.Keys == src.tasks.Keys && s.slipped.Keys == src.tasks.Keys && s.runs.Keys <= src.tasks.Keys
  }

  ghost predicate Inv(src: Source, initial: Dest, s: State) {
    && ValidDest(src, initial) && Keyed(src, s)
    && forall f :: f in src.tasks ==> FolderInv(src.tasks[f], initial[f], s.dest[f], s.slipped[f], RunOf(s, f))
  }

  lemma StartInv(src: Source, initial: Dest, skip: bool)
    requires ValidSource(src) && ValidDest(src, initial)
    ensures Inv(src, initial, Start(initial, skip))
  {
  }

  /** A step that touches one folder keeps the invariant if it keeps that folder's. */
  lemma FolderStepKeeps(src: Source, initial: Dest, s: State, f: Id, files: seq<DriveFile>, r: FolderRun,
                        slipped: seq<DriveFile>, s': State)
    requires ValidSource(src) && Inv(src, initial, s) && f in src.tasks
    requires ListingHonest(files, src.tasks[f]) && RunInv(files, r, initial[f], src.tasks[f], slipped)
    requires s'.dest == s.dest[f := files] && s'.runs == s.runs[f := r] && s'.slipped == s.slipped[f := slipped]
    ensures Inv(src, initial, s')
  {
    VisitIsBounded(src.tasks[f], initial[f], files, slipped, r);
  }

  lemma VisitIsBounded(ts: set<Request>, initial: seq<DriveFile>, files: seq<DriveFile>, slipped: seq<DriveFile>, r: FolderRun)
    requires Requests(ts) && ListingHonest(files, ts) && RunInv(files, r, initial, ts, slipped)
    ensures FolderInv(ts, initial, files, slipped, Some(r))
  {
    forall c | ClassIn(c, ts) ensures Bounded(files, initial, ts, slipped, c) {
      RunStaysBounded(files, r, initial, ts, slipped, c);
    }
  }

  /** The files or slips of f stay as they are when a step does not touch them. */
  lemma SameFiles(s: State, f: Id)
    requires f in s.dest && f in s.slipped
    ensures s.dest[f := s.dest[f]] == s.dest && s.slipped[f := s.slipped[f]] == s.slipped
  {
  }

  lemma EnterStepKeeps(src: Source, initial: Dest, s: State, f: Id, seen: seq<DriveFile>, hidden: seq<DriveFile>)
    requires ValidSource(src) && Inv(src, initial, s) && Enabled(src, s, Enter(f, seen, hidden))
    ensures Inv(src, initial, Apply(src, s, Enter(f, seen, hidden)))
  {
    EnterKeeps(s.dest[f], seen, hidden, initial[f], src.tasks[f], s.slipped[f]);
    SameFiles(s, f);
    FolderStepKeeps(src, initial, s, f, s.dest[f], EnterRun(s.dest[f], seen, hidden), s.slipped[f] + hidden,
                    Apply(src, s, Enter(f, seen, hidden)));
  }

  lemma CheckStepKeeps(src: Source, initial: Dest, s: State, f: Id, t: Request)
    requires ValidSource(src) && Inv(src, initial, s) && Enabled(src, s, Check(f, t))
    ensures Inv(src, initial, Apply(src, s, Check(f, t)))
  {
    CheckResumeKeeps(s.dest[f], s.runs[f], initial[f], src.tasks[f], s.slipped[f], t, s.copied);
    SameFiles(s, f);
    FolderStepKeeps(src, initial, s, f, s.dest[f], CheckResume(s.runs[f], t, s.copied).0, s.slipped[f],
                    Apply(src, s, Check(f, t)));
  }

  lemma MatchStepKeeps(src: Source, initial: Dest, s: State, f: Id, t: Request)
    requires ValidSource(src) && Inv(src, initial, s) && Enabled(src, s, TryMatch(f, t))
    ensures Inv(src, initial, Apply(src, s, TryMatch(f, t)))
  {
    MatchKeeps(s.dest[f], s.runs[f], initial[f], src.tasks[f], s.slipped[f], t);
    SameFiles(s, f);
    FolderStepKeeps(src, initial, s, f, s.dest[f], Match(s.runs[f], t), s.slipped[f], Apply(src, s, TryMatch(f, t)));
  }

  lemma LandStepKeeps(src: Source, initial: Dest, s: State, f: Id, t: Request, newId: Id)
    requires ValidSource(src) && Inv(src, initial, s) && Enabled(src, s, Land(f, t, newId))
    ensures Inv(src, initial, Apply(src, s, Land(f, t, newId)))
  {
    var r := s.runs[f];
    LandKeeps(s.dest[f], r, initial[f], src.tasks[f], s.slipped[f], t, newId);
    LandHonest(s.dest[f], src.tasks[f], t, newId);
    SameFiles(s, f);
    FolderStepKeeps(src, initial, s, f, s.dest[f] + [CopyOf(t, newId)], r.(landed := r.landed + {t}), s.slipped[f],
                    Apply(src, s, Land(f, t, newId)));
  }

  lemma DoublingKeeps(src: Source, initial: Dest, s: State, f: Id, t: Request, newId: Id)
    requires ValidSource(src) && Inv(src, initial, s) && InRun(src, s, f, t)
    ensures Inv(src, initial, Doubled(s, f, t, newId))
  {
    var r, copy := s.runs[f], [CopyOf(t, newId)];
    LoseKeeps(s.dest[f], r, initial[f], src.tasks[f], s.slipped[f], t, newId);
    LandHonest(s.dest[f], src.tasks[f], t, newId);
    FolderStepKeeps(src, initial, s, f, s.dest[f] + copy, r.(lost := r.lost + copy), s.slipped[f] + copy,
                    Doubled(s, f, t, newId));
  }

  /** Steps that touch no file, and no visit except to end them all. */
  predicate OnlyRecords(step: Step) {
    || step.RecordExisting? || step.MarkCopied? || step.LateRecord? || step.LateCheck? || step.Finish?
    || step.SaveLog? || step.DropLog? || step.Restart?
  }

  lemma RecordsTouchNoFiles(src: Source, s: State, step: Step)
    requires Enabled(src, s, step) && OnlyRecords(step)
    ensures var s' := Apply(src, s, step);
            s'.dest == s.dest && s'.slipped == s.slipped && (s'.runs == s.runs || s'.runs == map[])
  {
  }

  lemma SameFilesKeep(src: Source, initial: Dest, s: State, s': State)
    requires Inv(src, initial, s)
    requires s'.dest == s.dest && s'.slipped == s.slipped && (s'.runs == s.runs || s'.runs == map[])
    ensures Inv(src, initial, s')
  {
  }

  lemma StepKeepsInv(src: Source, initial: Dest, s: State, step: Step)
    requires ValidSource(src) && Inv(src, initial, s) && Enabled(src, s, step)
    ensures Inv(src, initial, Apply(src, s, step))
  {
    if OnlyRecords(step) {
      RecordsTouchNoFiles(src, s, step);
      SameFilesKeep(src, initial, s, Apply(src, s, step));
    } else if step.Enter? || step.Check? || step.TryMatch? {
      LookStepKeeps(src, initial, s, step);
    } else {
      CopyStepKeeps(src, initial, s, step);
    }
  }

  lemma CopyStepKeeps(src: Source, initial: Dest, s: State, step: Step)
    requires ValidSource(src) && Inv(src, initial, s) && Enabled(src, s, step)
    requires step.Land? || step.LoseConfirmation? || step.LateCopy?
    ensures Inv(src, initial, Apply(src, s, step))
  {
    if step.Land? {
      LandStepKeeps(src, initial, s, step.f, step.t, step.newId);
    } else {
      DoublingKeeps(src, initial, s, step.f, step.t, step.newId);
      DoublingIs(src, s, step);
    }
  }

  lemma DoublingIs(src: Source, s: State, step: Step)
    requires Enabled(src, s, step) && (step.LoseConfirmation? || step.LateCopy?)
    ensures Apply(src, s, step) == Doubled(s, step.f, step.t, step.newId)
  {
  }

  lemma LookStepKeeps(src: Source, initial: Dest, s: State, step: Step)
    requires ValidSource(src) && Inv(src, initial, s) && Enabled(src, s, step)
    requires step.Enter? || step.Check? || step.TryMatch?
    ensures Inv(src, initial, Apply(src, s, step))
  {
    if step.Enter? {
      EnterStepKeeps(src, initial, s, step.f, step.seen, step.hidden);
    } else if step.Check? {
      CheckStepKeeps(src, initial, s, step.f, step.t);
    } else {
      MatchStepKeeps(src, initial, s, step.f, step.t);
    }
  }

  lemma {:induction false} RunKeepsInv(src: Source, initial: Dest, s: State, steps: seq<Step>)
    requires ValidSource(src) && Inv(src, initial, s) && Runs(src, s, steps)
    ensures Inv(src, initial, After(src, s, steps))
    decreases |steps|
  {
    if steps != [] {
      StepKeepsInv(src, initial, s, steps[0]);
      RunKeepsInv(src, initial, Apply(src, s, steps[0]), steps[1..]);
    }
  }

  /**
    At every moment of every history of runs, crashes, restarts and trashed logs, no content
    class of any folder has lost a file, or has more than the larger of its source and initial
    counts by more than its slips: the files of the class that some listing of the folder
    missed, plus the copies of it that were made although the call reported a failure, or that
    came in after the folder had been listed again.
   */
  lemma SurplusIsSlips(src: Source, initial: Dest, skip: bool, steps: seq<Step>, f: Id, t: Request)
    requires ValidSource(src) && ValidDest(src, initial)
    requires Runs(src, Start(initial, skip), steps)
    requires f in src.tasks && t in src.tasks[f]
    ensures var s := After(src, Start(initial, skip), steps);
            f in s.dest && f in s.slipped && Bounded(s.dest[f], initial[f], src.tasks[f], s.slipped[f], ClassOf(t))
  {
    StartInv(src, initial, skip);
    RunKeepsInv(src, initial, Start(initial, skip), steps);
    assert ClassIn(ClassOf(t), src.tasks[f]);
  }

  /* ------------------------------ convergence ------------------------------ */

  /** Nothing on the path is skipped. */
  predicate Clear(src: Source, s: State, path: seq<Id>) {
    forall i :: 0 <= i < |path| ==> !Skips(src, s, path[i])
  }

  /** A traversal that was not stopped: every walk past no skipped folder was taken, and every file reached is settled. */
  ghost predicate RunComplete(src: Source, s: State) {
    && (forall f :: f in s.runs && f in src.tasks ==> src.tasks[f] <= s.runs[f].took + s.runs[f].landed)
    && (forall path :: Walk(src, path) && Clear(src, s, path) ==> path[|path|-1] in s.runs)
  }

  /** The path leads to folder f, and t is one of its files. */
  ghost predicate LeadsTo(src: Source, path: seq<Id>, f: Id, t: Request) {
    WalkTo(src, path, f) && f in src.tasks && t in src.tasks[f]
  }

  /** At least the larger of the source count and the initial count, and more only by slips. */
  ghost predicate Converged(src: Source, initial: Dest, s: State, f: Id, t: Request)
    requires f in src.tasks && f in initial && f in s.dest && f in s.slipped
  {
    var target := Max(Count(src.tasks[f], ClassOf(t)), Present(initial[f], ClassOf(t)));
    target <= Present(s.dest[f], ClassOf(t)) <= target + Present(s.slipped[f], ClassOf(t))
  }

  /**
    After any number of crashes and restarts, a run that re-lists everything and completes
    leaves every class of every reachable folder at max(source, initial), plus at most its slips.
   */
  lemma CrashRestartConverges(
    src: Source, initial: Dest, skip: bool, steps: seq<Step>, path: seq<Id>, f: Id, t: Request)
    requires ValidSource(src) && ValidDest(src, initial)
    requires Runs(src, Start(initial, skip), steps)
    requires LeadsTo(src, path, f, t)
    requires var s := After(src, Start(initial, skip), steps); RunComplete(src, s) && !s.skip
    ensures var s := After(src, Start(initial, skip), steps);
            f in s.dest && f in s.slipped && Converged(src, initial, s, f, t)
  {
    StartInv(src, initial, skip);
    RunKeepsInv(src, initial, Start(initial, skip), steps);
    RelistedRunConverged(src, initial, After(src, Start(initial, skip), steps), path, f, t);
  }

  lemma RelistedRunConverged(src: Source, initial: Dest, s: State, path: seq<Id>, f: Id, t: Request)
    requires ValidSource(src) && Inv(src, initial, s) && RunComplete(src, s) && !s.skip && LeadsTo(src, path, f, t)
    ensures Converged(src, initial, s, f, t)
  {
    assert Clear(src, s, path);
    assert ClassIn(ClassOf(t), src.tasks[f]);
    RunStaysBounded(s.dest[f], s.runs[f], initial[f], src.tasks[f], s.slipped[f], ClassOf(t));
  }

  /* ------------------------------- the faults ------------------------------ */

  /** The last is no failure: several workers, and a folder that the walk comes to more than once. */
  datatype Fault = CutListing | LostConfirmation | OverlappingVisits

  predicate Allowed(faults: set<Fault>, step: Step) {
    && (step.Enter? && step.hidden != [] ==> CutListing in faults)
    && (step.LoseConfirmation? ==> LostConfirmation in faults)
    && (step.LateCopy? || step.LateRecord? || step.LateCheck? ==> OverlappingVisits in faults)
  }

  ghost predicate NoSlips(s: State) {
    forall f :: f in s.slipped ==> s.slipped[f] == []
  }

  /** Without faults nothing slips, so every bound above is exact. */
  lemma {:induction false} NoFaultsNoSlips(src: Source, s: State, steps: seq<Step>)
    requires NoSlips(s) && Runs(src, s, steps) && forall i :: 0 <= i < |steps| ==> Allowed({}, steps[i])
    ensures NoSlips(After(src, s, steps))
    decreases |steps|
  {
    if steps != [] {
      assert Allowed({}, steps[0]);
      assert forall i :: 0 <= i < |steps[1..]| ==> steps[1..][i] == steps[i+1];
      NoFaultsNoSlips(src, Apply(src, s, steps[0]), steps[1..]);
    }
  }
}
