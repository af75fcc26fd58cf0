/**
  Whole runs over the destination as it is: folders found or created (FolderResolution) and
  filled (SyncRuns) in one machine (src/gdrive_turbo_copy/copier.py:254-276, 458-529, 576-695,
  787-877).
 */
module StoreRuns {
  import opened DriveModel
  import opened IndexTheory
  import opened FolderSync
  import R = FolderResolution
  import S = SyncRuns
  import K = SkipSafety

  datatype State = State(folders: R.State, files: S.State)

  datatype Arrival = Confirmed | Unconfirmed | Late

  datatype Step =
    | Open(f: Id, under: R.FolderKey, calls: R.Calls, seen: seq<DriveFile>, hidden: seq<DriveFile>)
    | GiveUp(f: Id, under: R.FolderKey, calls: R.Calls)   // no folder found, and no creation confirmed
    | Put(f: Id, t: Request, newId: Id, arrival: Arrival)
    | Inside(step: S.Step)
    | Crash(skip: bool, folderMap: map<Id, Id>)

  /** A folder reached through a shortcut has a destination of its own, tagged with the shortcut. */
  function Key(src: S.Source, f: Id): R.FolderKey {
    if f in src.targets then R.ByShortcut(f) else R.BySource(f)
  }

  /** The files in the destination folder of a key, if there is one. */
  ghost function FilesOf(store: R.Store, key: R.FolderKey): seq<DriveFile> {
    if exists d :: R.Verified(store, d, key) then
      var d :| R.Verified(store, d, key);
      store[d].files
    else []
  }

  /** The destination by source folder. */
  ghost function DestOf(src: S.Source, store: R.Store): S.Dest {
    map f | f in src.tasks :: FilesOf(store, Key(src, f))
  }

  function Copied(p: Step): S.Step
    requires p.Put?
  {
    match p.arrival
    case Confirmed => S.Land(p.f, p.t, p.newId)
    case Unconfirmed => S.LoseConfirmation(p.f, p.t, p.newId)
    case Late => S.LateCopy(p.f, p.t, p.newId)
  }

  function Resolving(src: S.Source, step: Step): R.Step
    requires step.Open? || step.GiveUp?
  {
    R.Resolve(Key(src, step.f), step.under, step.calls)
  }

  ghost predicate Resolves(src: S.Source, shape: R.Shape, s: State, step: Step)
    requires step.Open? || step.GiveUp?
  {
    R.InShape(shape, Key(src, step.f)) && R.Enabled(shape, s.folders, Resolving(src, step))
  }

  /** A folder is there to go on with. */
  ghost predicate Succeeds(src: S.Source, shape: R.Shape, s: State, step: Step)
    requires (step.Open? || step.GiveUp?) && Resolves(src, shape, s, step)
  {
    || step.calls.confirmed
    || R.Found(s.folders, R.ParentDest(shape, s.folders, Key(src, step.f), step.under), Key(src, step.f), step.calls).Some?
  }

  ghost predicate Enabled(src: S.Source, shape: R.Shape, s: State, step: Step) {
    match step
    case Open(f, under, calls, seen, hidden) =>
      Resolves(src, shape, s, step) && Succeeds(src, shape, s, step) && S.Enabled(src, s.files, S.Enter(f, seen, hidden))
    case GiveUp(f, under, calls) => Resolves(src, shape, s, step) && !Succeeds(src, shape, s, step)
    case Put(f, t, newId, _) =>
      && R.InShape(shape, Key(src, f)) && Key(src, f) in s.folders.resolved
      && R.Enabled(shape, s.folders, R.AddFile(s.folders.resolved[Key(src, f)], CopyOf(t, newId)))
      && S.Enabled(src, s.files, Copied(step))
    case Inside(i) =>
      && !i.Enter? && !i.Land? && !i.LoseConfirmation? && !i.LateCopy? && !i.Restart?
      && S.Enabled(src, s.files, i)
    case Crash(_, _) => true
  }

  ghost function Apply(src: S.Source, shape: R.Shape, s: State, step: Step): State
    requires Enabled(src, shape, s, step)
  {
    match step
    case Open(f, under, calls, seen, hidden) =>
      State(R.Apply(shape, s.folders, Resolving(src, step)), S.Apply(src, s.files, S.Enter(f, seen, hidden)))
    case GiveUp(f, under, calls) => s.(folders := R.Apply(shape, s.folders, Resolving(src, step)))
    case Put(f, t, newId, _) =>
      State(R.Apply(shape, s.folders, R.AddFile(s.folders.resolved[Key(src, f)], CopyOf(t, newId))),
            S.Apply(src, s.files, Copied(step)))
    case Inside(i) => s.(files := S.Apply(src, s.files, i))
    case Crash(skip, folderMap) =>
      State(R.Apply(shape, s.folders, R.Restart(folderMap)), S.Apply(src, s.files, S.Restart(skip)))
  }

  ghost predicate Runs(src: S.Source, shape: R.Shape, s: State, steps: seq<Step>)
    decreases |steps|
  {
    steps == [] || (Enabled(src, shape, s, steps[0]) && Runs(src, shape, Apply(src, shape, s, steps[0]), steps[1..]))
  }

  ghost function After(src: S.Source, shape: R.Shape, s: State, steps: seq<Step>): State
    requires Runs(src, shape, s, steps)
    decreases |steps|
  {
    if steps == [] then s else After(src, shape, Apply(src, shape, s, steps[0]), steps[1..])
  }

  /* -------------------------- the two views agree -------------------------- */

  ghost predicate Folders(shape: R.Shape, s: R.State) {
    R.ProperShape(shape) && R.Tagged(shape, s) && R.UniqueTags(shape, s.store)
  }

  lemma FilesAreThere(shape: R.Shape, store: R.Store, key: R.FolderKey, d: Id)
    requires R.UniqueTags(shape, store) && R.InShape(shape, key) && R.Verified(store, d, key)
    ensures FilesOf(store, key) == store[d].files
  {
  }

  /** Resolving a folder changes no files, unless it slips. */
  lemma ResolvingKeepsFiles(shape: R.Shape, s: R.State, step: R.Step, k: R.FolderKey)
    requires Folders(shape, s) && step.Resolve? && R.InShape(shape, step.key) && R.InShape(shape, k)
    requires R.Enabled(shape, s, step) && R.Apply(shape, s, step).slips == s.slips
    ensures FilesOf(R.Apply(shape, s, step).store, k) == FilesOf(s.store, k)
  {
    var s' := R.Apply(shape, s, step);
    R.StepKeepsTags(shape, s, step);
    R.StepKeepsUnique(shape, s, step);
    ResolvedStore(shape, s, step);
    if exists d :: R.Verified(s.store, d, k) {
      var d :| R.Verified(s.store, d, k);
      assert R.Verified(s'.store, d, k);
      FilesAreThere(shape, s.store, k, d);
      FilesAreThere(shape, s'.store, k, d);
    } else if exists d :: R.Verified(s'.store, d, k) {
      var d :| R.Verified(s'.store, d, k);
      assert !R.Verified(s.store, d, k);
      FilesAreThere(shape, s'.store, k, d);
    }
  }

  /** Old folders stay as they are; new ones are empty. */
  lemma ResolvedStore(shape: R.Shape, s: R.State, step: R.Step)
    requires step.Resolve? && R.Enabled(shape, s, step)
    ensures var store' := R.Apply(shape, s, step).store;
            forall d :: (d in s.store ==> d in store' && store'[d] == s.store[d])
                        && (d in store' && d !in s.store ==> store'[d].files == [])
  {
    R.NewTags(s.store, R.ParentDest(shape, s, step.key, step.under), step.key, step.calls.made);
  }

  function Added(store: R.Store, d: Id, file: DriveFile): R.Store
    requires d in store
  {
    store[d := store[d].(files := store[d].files + [file])]
  }

  /** A file put into a folder is in the view of that folder's key and of no other. */
  lemma PuttingAddsFile(shape: R.Shape, store: R.Store, d: Id, key: R.FolderKey, file: DriveFile, k: R.FolderKey)
    requires R.UniqueTags(shape, store) && R.InShape(shape, key) && R.InShape(shape, k) && R.Verified(store, d, key)
    ensures FilesOf(Added(store, d, file), k) == if k == key then FilesOf(store, k) + [file] else FilesOf(store, k)
  {
    var store' := Added(store, d, file);
    assert forall e, q :: R.Verified(store', e, q) <==> R.Verified(store, e, q);
    if exists e :: R.Verified(store, e, k) {
      var e :| R.Verified(store, e, k);
      assert R.Verified(store', e, k);
      FilesAreThere(shape, store, k, e);
      FilesAreThere(shape, store', k, e);
    } else {
      assert forall e :: !R.Verified(store', e, k);
    }
  }

  /** All source folders have keys in the shape. */
  predicate Covers(src: S.Source, shape: R.Shape) {
    forall f :: f in src.tasks ==> R.InShape(shape, Key(src, f))
  }

  ghost predicate Joined(src: S.Source, shape: R.Shape, s: State) {
    Covers(src, shape) && Folders(shape, s.folders) && s.files.dest == DestOf(src, s.folders.store)
  }

  lemma ResolvingKeepsJoined(src: S.Source, shape: R.Shape, s: State, step: Step)
    requires Joined(src, shape, s) && (step.Open? || step.GiveUp?) && Resolves(src, shape, s, step)
    requires R.Apply(shape, s.folders, Resolving(src, step)).slips == s.folders.slips
    ensures Joined(src, shape, s.(folders := R.Apply(shape, s.folders, Resolving(src, step))))
  {
    var resolve := Resolving(src, step);
    R.StepKeepsTags(shape, s.folders, resolve);
    R.StepKeepsUnique(shape, s.folders, resolve);
    forall f | f in src.tasks
      ensures FilesOf(R.Apply(shape, s.folders, resolve).store, Key(src, f)) == FilesOf(s.folders.store, Key(src, f))
    {
      ResolvingKeepsFiles(shape, s.folders, resolve, Key(src, f));
    }
  }

  /** In the view by source folder, a file put into f's folder is added to f. */
  lemma PuttingAddsToView(src: S.Source, shape: R.Shape, store: R.Store, f: Id, d: Id, file: DriveFile)
    requires Covers(src, shape) && R.UniqueTags(shape, store) && f in src.tasks && R.Verified(store, d, Key(src, f))
    ensures DestOf(src, Added(store, d, file)) == DestOf(src, store)[f := DestOf(src, store)[f] + [file]]
  {
    var after := Added(store, d, file);
    forall g | g in src.tasks
      ensures DestOf(src, after)[g] == if g == f then DestOf(src, store)[f] + [file] else DestOf(src, store)[g]
    {
      PuttingAddsFile(shape, store, d, Key(src, f), file, Key(src, g));
    }
  }

  lemma CopiedAddsFile(src: S.Source, s: S.State, step: Step)
    requires step.Put? && S.Enabled(src, s, Copied(step))
    ensures step.f in src.tasks && step.f in s.dest
    ensures S.Apply(src, s, Copied(step)).dest == s.dest[step.f := s.dest[step.f] + [CopyOf(step.t, step.newId)]]
  {
  }

  lemma PutKeepsJoined(src: S.Source, shape: R.Shape, s: State, step: Step)
    requires Joined(src, shape, s) && Enabled(src, shape, s, step) && step.Put?
    ensures Joined(src, shape, Apply(src, shape, s, step))
  {
    var d, file := s.folders.resolved[Key(src, step.f)], CopyOf(step.t, step.newId);
    CopiedAddsFile(src, s.files, step);
    AddingKeepsFolders(shape, s.folders, d, file);
    PuttingAddsToView(src, shape, s.folders.store, step.f, d, file);
  }

  lemma AddingKeepsFolders(shape: R.Shape, s: R.State, d: Id, file: DriveFile)
    requires Folders(shape, s) && d in s.store
    ensures Folders(shape, R.Apply(shape, s, R.AddFile(d, file)))
  {
    R.AddingKeepsTags(shape, s, d, file);
  }

  lemma StepKeepsJoined(src: S.Source, shape: R.Shape, s: State, step: Step)
    requires Joined(src, shape, s) && Enabled(src, shape, s, step)
    requires Apply(src, shape, s, step).folders.slips == s.folders.slips
    ensures Joined(src, shape, Apply(src, shape, s, step))
  {
    if step.Open? || step.GiveUp? {
      ResolvingKeepsJoined(src, shape, s, step);
    } else if step.Put? {
      PutKeepsJoined(src, shape, s, step);
    }
  }

  /* ------------------------------- whole runs ------------------------------ */

  /** The step of SyncRuns that this step contains. */
  function Inner(step: Step): S.Step
    requires !step.GiveUp?
  {
    match step
    case Open(f, _, _, seen, hidden) => S.Enter(f, seen, hidden)
    case Put(_, _, _, _) => Copied(step)
    case Inside(i) => i
    case Crash(skip, _) => S.Restart(skip)
  }

  lemma SlipsGrow(src: S.Source, shape: R.Shape, s: State, step: Step)
    requires Enabled(src, shape, s, step)
    ensures s.folders.slips <= Apply(src, shape, s, step).folders.slips
  {
  }

  lemma {:induction false} SlipsOnlyGrow(src: S.Source, shape: R.Shape, s: State, steps: seq<Step>)
    requires Runs(src, shape, s, steps)
    ensures s.folders.slips <= After(src, shape, s, steps).folders.slips
    decreases |steps|
  {
    if steps != [] {
      SlipsGrow(src, shape, s, steps[0]);
      SlipsOnlyGrow(src, shape, Apply(src, shape, s, steps[0]), steps[1..]);
    }
  }

  /** Every invariant of the parts holds of the whole, as long as no folder slips. */
  lemma {:induction false} RunKeepsAll(src: S.Source, shape: R.Shape, initial: S.Dest, s: State, steps: seq<Step>)
    requires S.ValidSource(src) && Joined(src, shape, s) && S.Inv(src, initial, s.files)
    requires Runs(src, shape, s, steps) && After(src, shape, s, steps).folders.slips == s.folders.slips
    ensures Joined(src, shape, After(src, shape, s, steps)) && S.Inv(src, initial, After(src, shape, s, steps).files)
    ensures K.Separable(src) && K.SkipInv(src, s.files) ==> K.SkipInv(src, After(src, shape, s, steps).files)
    decreases |steps|
  {
    if steps != [] {
      var s1 := Apply(src, shape, s, steps[0]);
      SlipsGrow(src, shape, s, steps[0]);
      SlipsOnlyGrow(src, shape, s1, steps[1..]);
      assert s1.folders.slips == s.folders.slips by {
        assert s1.folders.slips <= s.folders.slips;
      }
      StepKeepsJoined(src, shape, s, steps[0]);
      InnerKeeps(src, shape, initial, s, steps[0]);
      RunKeepsAll(src, shape, initial, s1, steps[1..]);
    }
  }

  lemma InnerKeeps(src: S.Source, shape: R.Shape, initial: S.Dest, s: State, step: Step)
    requires S.ValidSource(src) && S.Inv(src, initial, s.files) && Enabled(src, shape, s, step)
    ensures S.Inv(src, initial, Apply(src, shape, s, step).files)
    ensures K.Separable(src) && K.SkipInv(src, s.files) ==> K.SkipInv(src, Apply(src, shape, s, step).files)
  {
    if !step.GiveUp? {
      assert Apply(src, shape, s, step).files == S.Apply(src, s.files, Inner(step));
      S.StepKeepsInv(src, initial, s.files, Inner(step));
      if K.Separable(src) && K.SkipInv(src, s.files) {
        K.StepKeepsSkipInv(src, initial, s.files, Inner(step));
      }
    }
  }

  /** A destination with unique, nested folders and honest tags, before the first run. */
  ghost predicate Initial(src: S.Source, shape: R.Shape, folders: R.State) {
    && S.ValidSource(src) && Covers(src, shape) && Folders(shape, folders)
    && S.ValidDest(src, DestOf(src, folders.store))
  }

  ghost function Begin(src: S.Source, folders: R.State, skip: bool): State {
    State(folders, S.Start(DestOf(src, folders.store), skip))
  }

  /** A history in which no folder was created beside another one of its key. */
  ghost predicate Leads(src: S.Source, shape: R.Shape, folders: R.State, skip: bool, steps: seq<Step>, end: State) {
    && Runs(src, shape, Begin(src, folders, skip), steps) && After(src, shape, Begin(src, folders, skip), steps) == end
    && end.folders.slips == folders.slips
  }

  /** The folder d has what f needs of the class of t, and no more than slips explain. */
  ghost predicate RightFiles(src: S.Source, before: R.Store, end: State, f: Id, t: Request, d: Id) {
    && f in src.tasks && d in end.folders.store && f in end.files.slipped
    && var target := Max(Count(src.tasks[f], ClassOf(t)), Present(FilesOf(before, Key(src, f)), ClassOf(t)));
       target <= Present(end.folders.store[d].files, ClassOf(t)) <= target + Present(end.files.slipped[f], ClassOf(t))
  }

  /**
    After any number of crashes and restarts, a run that completes, whether it re-lists
    everything or skips what a separable source lets it skip, leaves every source folder with
    files to copy exactly one destination folder, and in it max(source, initial) files of each
    class, plus at most the files that slipped.
   */
  lemma OneFolderWithTheRightFiles(
    src: S.Source, shape: R.Shape, folders: R.State, skip: bool, steps: seq<Step>, end: State,
    path: seq<Id>, f: Id, t: Request)
    requires Initial(src, shape, folders) && Leads(src, shape, folders, skip, steps, end)
    requires S.RunComplete(src, end.files) && (K.Separable(src) || !end.files.skip)
    requires S.LeadsTo(src, path, f, t)
    ensures exists d :: R.Folders(end.folders.store, Key(src, f)) == {d}
    ensures forall d :: d in R.Folders(end.folders.store, Key(src, f)) ==> RightFiles(src, folders.store, end, f, t, d)
  {
    HistoryKeepsAll(src, shape, folders, skip, steps, end);
    EndConverged(src, DestOf(src, folders.store), end.files, path, f, t);
    FolderIsThere(src, shape, folders.store, end, f, t);
  }

  lemma FolderIsThere(src: S.Source, shape: R.Shape, before: R.Store, end: State, f: Id, t: Request)
    requires Joined(src, shape, end) && f in src.tasks && t in src.tasks[f] && f in end.files.slipped
    requires S.Converged(src, DestOf(src, before), end.files, f, t)
    ensures exists d :: R.Folders(end.folders.store, Key(src, f)) == {d}
    ensures forall d :: d in R.Folders(end.folders.store, Key(src, f)) ==> RightFiles(src, before, end, f, t, d)
  {
    CountPositive(src.tasks[f], t);
    assert end.files.dest[f] == FilesOf(end.folders.store, Key(src, f));
    OnlyFolder(shape, end.folders, Key(src, f));
  }

  lemma HistoryKeepsAll(src: S.Source, shape: R.Shape, folders: R.State, skip: bool, steps: seq<Step>, end: State)
    requires Initial(src, shape, folders) && Leads(src, shape, folders, skip, steps, end)
    ensures Joined(src, shape, end) && S.Inv(src, DestOf(src, folders.store), end.files)
    ensures K.Separable(src) ==> K.SkipInv(src, end.files)
  {
    var initial := DestOf(src, folders.store);
    S.StartInv(src, initial, skip);
    assert K.SkipInv(src, S.Start(initial, skip));
    RunKeepsAll(src, shape, initial, Begin(src, folders, skip), steps);
  }

  lemma EndConverged(src: S.Source, initial: S.Dest, s: S.State, path: seq<Id>, f: Id, t: Request)
    requires S.ValidSource(src) && S.Inv(src, initial, s) && S.RunComplete(src, s) && S.LeadsTo(src, path, f, t)
    requires (K.Separable(src) && K.SkipInv(src, s)) || !s.skip
    ensures S.Converged(src, initial, s, f, t)
  {
    if !s.skip {
      S.RelistedRunConverged(src, initial, s, path, f, t);
    } else {
      K.CompleteRunConverged(src, initial, s, path, f, t);
    }
  }

  /** A folder that has files is there, once. */
  lemma OnlyFolder(shape: R.Shape, s: R.State, key: R.FolderKey)
    requires Folders(shape, s) && R.InShape(shape, key) && FilesOf(s.store, key) != []
    ensures exists d :: R.Folders(s.store, key) == {d}
    ensures forall d :: d in R.Folders(s.store, key) ==> s.store[d].files == FilesOf(s.store, key)
  {
    var d :| R.Verified(s.store, d, key);
    forall e | e in R.Folders(s.store, key) ensures e == d && s.store[e].files == FilesOf(s.store, key) {
      assert R.Verified(s.store, e, key);
      FilesAreThere(shape, s.store, key, e);
    }
    assert R.Folders(s.store, key) == {d};
  }
}
