/**
  A real run of the engine is one of the histories that StoreRuns speaks about, whatever copies
  fail: every resolution, listing, match and copy it performs is a step of that machine
  (src/gdrive_turbo_copy/copier.py:309-327, 458-529, 576-695, 787-831). So what is proved of all
  histories holds of the engine itself.
 */
module EngineHistories {
  import opened DriveModel
  import opened IndexSpec
  import opened IndexTheory
  import opened FolderSync
  import opened Traversal
  import R = FolderResolution
  import S = SyncRuns
  import H = Histories
  import T = StoreRuns
  import E = Engine
  import O = Outcomes
  import D = DryRun
  import F = EngineFolders

  /* ------------------------------ the histories ---------------------------- */

  ghost predicate Leads(src: S.Source, shape: R.Shape, s: T.State, steps: seq<T.Step>, s': T.State) {
    T.Runs(src, shape, s, steps) && T.After(src, shape, s, steps) == s'
  }

  ghost predicate Reaches(src: S.Source, shape: R.Shape, s: T.State, s': T.State) {
    exists steps :: Leads(src, shape, s, steps, s')
  }

  lemma {:induction false} RunsAppend(src: S.Source, shape: R.Shape, s: T.State, a: seq<T.Step>, b: seq<T.Step>)
    requires T.Runs(src, shape, s, a) && T.Runs(src, shape, T.After(src, shape, s, a), b)
    ensures T.Runs(src, shape, s, a + b)
    ensures T.After(src, shape, s, a + b) == T.After(src, shape, T.After(src, shape, s, a), b)
    decreases |a|
  {
    if a == [] {
      assert a + b == b;
    } else {
      assert (a + b)[1..] == a[1..] + b;
      RunsAppend(src, shape, T.Apply(src, shape, s, a[0]), a[1..], b);
    }
  }

  lemma Stay(src: S.Source, shape: R.Shape, s: T.State)
    ensures Reaches(src, shape, s, s)
  {
    assert Leads(src, shape, s, [], s);
  }

  lemma Follow(src: S.Source, shape: R.Shape, s: T.State, s': T.State, s'': T.State)
    requires Reaches(src, shape, s, s') && Reaches(src, shape, s', s'')
    ensures Reaches(src, shape, s, s'')
  {
    var a :| Leads(src, shape, s, a, s');
    var b :| Leads(src, shape, s', b, s'');
    RunsAppend(src, shape, s, a, b);
    assert Leads(src, shape, s, a + b, s'');
  }

  lemma Take(src: S.Source, shape: R.Shape, s: T.State, step: T.Step)
    requires T.Enabled(src, shape, s, step)
    ensures Reaches(src, shape, s, T.Apply(src, shape, s, step))
  {
    assert [step][1..] == [];
    assert T.Runs(src, shape, T.Apply(src, shape, s, step), []);
    assert Leads(src, shape, s, [step], T.Apply(src, shape, s, step));
  }

  /** What one step of a history keeps, the whole history keeps. */
  lemma {:induction false} JoinedAfter(src: S.Source, shape: R.Shape, s: T.State, steps: seq<T.Step>)
    requires T.Runs(src, shape, s, steps) && T.Joined(src, shape, s)
    requires T.After(src, shape, s, steps).folders.slips == s.folders.slips
    ensures T.Joined(src, shape, T.After(src, shape, s, steps))
    decreases |steps|
  {
    if steps != [] {
      var s1 := T.Apply(src, shape, s, steps[0]);
      T.SlipsGrow(src, shape, s, steps[0]);
      T.SlipsOnlyGrow(src, shape, s1, steps[1..]);
      assert s1.folders.slips == s.folders.slips by {
        assert s1.folders.slips <= s.folders.slips;
      }
      T.StepKeepsJoined(src, shape, s, steps[0]);
      JoinedAfter(src, shape, s1, steps[1..]);
    }
  }

  lemma StaysJoined(src: S.Source, shape: R.Shape, s: T.State, s': T.State)
    requires Reaches(src, shape, s, s') && T.Joined(src, shape, s) && s'.folders.slips == s.folders.slips
    ensures T.Joined(src, shape, s')
  {
    var steps :| Leads(src, shape, s, steps, s');
    JoinedAfter(src, shape, s, steps);
  }

  /* ------------------------ the engine and the machine --------------------- */

  /** The machine has the engine's destination, folder_map and records. */
  predicate Mirrors(s: T.State, r: E.Run) {
    s.folders.store == r.store && s.folders.folderMap == r.folderMap && s.files.copied == r.copied && !s.files.skip
  }

  /** The folder of this name is being filled, and d is its destination. */
  predicate Filling(src: S.Source, shape: R.Shape, s: T.State, f: Id, d: Id) {
    && f in src.tasks && f in s.files.runs && f in s.files.dest && R.InShape(shape, T.Key(src, f))
    && T.Key(src, f) in s.folders.resolved && s.folders.resolved[T.Key(src, f)] == d && d in s.folders.store
  }

  /** Only the visit of f, and what it copied and recorded, differs. */
  predicate OnlyVisit(s: T.State, s': T.State, f: Id) {
    && s'.folders == s.folders.(store := s'.folders.store)
    && s'.files == s.files.(dest := s'.files.dest, copied := s'.files.copied, runs := s'.files.runs)
    && s'.files.dest.Keys == s.files.dest.Keys
    && f in s.files.runs && f in s'.files.runs && s'.files.runs == s.files.runs[f := s'.files.runs[f]]
  }

  /** In the visit of f nothing happened except to t. */
  predicate OnlyFile(s: T.State, s': T.State, f: Id, t: Request) {
    OnlyVisit(s, s', f) && H.Grown(s.files.runs[f], s'.files.runs[f], f, {(f, t)})
  }

  /* --------------------------------- one file ------------------------------ */

  /** A step of the file machine that copies nothing. */
  lemma InsideStep(src: S.Source, shape: R.Shape, s: T.State, i: S.Step) returns (s': T.State)
    requires i.Check? || i.TryMatch? || i.RecordExisting? || i.MarkCopied?
    requires S.Enabled(src, s.files, i)
    ensures Reaches(src, shape, s, s') && s' == s.(files := S.Apply(src, s.files, i))
  {
    Take(src, shape, s, T.Inside(i));
    s' := T.Apply(src, shape, s, T.Inside(i));
  }

  /** The resume check and, without a hit, the match. */
  function Looked(run: FolderRun, t: Request, copied: set<Id>): (FolderRun, set<Id>) {
    var (r1, c1) := CheckResume(run, t, copied);
    if t in r1.took then (r1, c1) else (Match(r1, t), c1)
  }

  /** That is what the engine asks of its index. */
  lemma LookedIsMatch(run: FolderRun, f: Id, t: Request, copied: set<Id>, allow: bool)
    requires H.Untouched(run, t) && t.eff != ""
    ensures var (hit, idx') := PopMatch(run.index, t.file, Checksum, allow, Some(t.eff));
            var (run', copied') := Looked(run, t, copied);
            && run'.index == idx' && (t in run'.took <==> hit.Some?) && H.Grown(run, run', f, {(f, t)})
            && t !in run'.landed && (hit.Some? ==> copied' + {t.eff} == copied + {t.eff})
            && (hit.None? ==> t in run'.missed && copied' == copied - {t.eff})
  {
  }

  /** The state with another visit of f and other records. */
  function Visited(s: T.State, f: Id, run: FolderRun, copied: set<Id>): T.State {
    s.(files := s.files.(copied := copied, runs := s.files.runs[f := run]))
  }

  lemma LookSteps(src: S.Source, shape: R.Shape, s: T.State, f: Id, t: Request) returns (s': T.State)
    requires S.InRun(src, s.files, f, t) && H.Untouched(s.files.runs[f], t)
    ensures Reaches(src, shape, s, s')
    ensures s' == Visited(s, f, Looked(s.files.runs[f], t, s.files.copied).0, Looked(s.files.runs[f], t, s.files.copied).1)
  {
    var s1 := InsideStep(src, shape, s, S.Check(f, t));
    var run1 := CheckResume(s.files.runs[f], t, s.files.copied).0;
    if t in run1.took {
      s' := s1;
    } else {
      s' := InsideStep(src, shape, s1, S.TryMatch(f, t));
      Follow(src, shape, s, s1, s');
      assert s.files.runs[f := run1][f := Match(run1, t)] == s.files.runs[f := Match(run1, t)];
    }
  }

  function LandedRun(run: FolderRun, t: Request): FolderRun {
    run.(landed := run.landed + {t})
  }

  predicate Missed(src: S.Source, s: T.State, f: Id, t: Request) {
    S.InRun(src, s.files, f, t) && t in s.files.runs[f].missed && t !in s.files.runs[f].landed
  }

  /** A missed file is copied into the folder. */
  lemma PutStep(src: S.Source, shape: R.Shape, s: T.State, f: Id, d: Id, t: Request, newId: Id) returns (s': T.State)
    requires Missed(src, s, f, t) && Filling(src, shape, s, f, d)
    ensures Reaches(src, shape, s, s')
    ensures s'.folders == s.folders.(store := T.Added(s.folders.store, d, CopyOf(t, newId)))
    ensures s'.files == s.files.(dest := s'.files.dest, runs := s.files.runs[f := LandedRun(s.files.runs[f], t)])
    ensures s'.files.dest.Keys == s.files.dest.Keys
  {
    var step := T.Put(f, t, newId, T.Confirmed);
    Take(src, shape, s, step);
    s' := T.Apply(src, shape, s, step);
  }

  /** A real run that compares checksums. */
  predicate RealRun(cfg: E.Config) {
    !cfg.dryRun && cfg.mode == Checksum
  }

  /** The event settled its file. */
  predicate Settles(e: O.Event) {
    e.Found? || (e.Stored? && e.verified)
  }

  /** From s to s' the file's event happened, and nothing else. */
  ghost predicate Happened(src: S.Source, shape: R.Shape, s: T.State, s': T.State, r: E.Run, f: Id, t: Request, e: O.Event) {
    && Reaches(src, shape, s, s') && OnlyFile(s, s', f, t) && Mirrors(s', O.Effect(r, e))
    && (Settles(e) ==> H.SettledIn(s'.files.runs[f], t)) && (e.Stored? ==> t in s'.files.runs[f].landed)
  }

  lemma FoundHappens(src: S.Source, shape: R.Shape, s: T.State, r: E.Run, f: Id, d: Id, t: Request, file: DriveFile)
    returns (s': T.State)
    requires Mirrors(s, r) && S.InRun(src, s.files, f, t) && H.Untouched(s.files.runs[f], t)
    requires t.eff != "" && PopMatch(s.files.runs[f].index, t.file, Checksum, false, Some(t.eff)).0.Some?
    ensures Happened(src, shape, s, s', r, f, t, O.Found(t, Some(d), file))
    ensures s'.files.runs[f].index == PopMatch(s.files.runs[f].index, t.file, Checksum, false, Some(t.eff)).1
  {
    LookedIsMatch(s.files.runs[f], f, t, s.files.copied, false);
    var s1 := LookSteps(src, shape, s, f, t);
    s' := InsideStep(src, shape, s1, S.RecordExisting(f, t));
    Follow(src, shape, s, s1, s');
  }

  /** Neither found nor copied: the id is off the record. */
  lemma MissHappens(src: S.Source, shape: R.Shape, s: T.State, f: Id, t: Request) returns (s': T.State)
    requires S.InRun(src, s.files, f, t) && H.Untouched(s.files.runs[f], t)
    requires t.eff != "" && PopMatch(s.files.runs[f].index, t.file, Checksum, false, Some(t.eff)).0.None?
    ensures Reaches(src, shape, s, s') && OnlyFile(s, s', f, t) && Missed(src, s', f, t)
    ensures s'.folders == s.folders && s'.files.copied == s.files.copied - {t.eff}
    ensures s'.files.runs[f].index == PopMatch(s.files.runs[f].index, t.file, Checksum, false, Some(t.eff)).1
  {
    LookedIsMatch(s.files.runs[f], f, t, s.files.copied, false);
    s' := LookSteps(src, shape, s, f, t);
  }

  lemma UnverifiedHappens(src: S.Source, shape: R.Shape, s: T.State, r: E.Run, f: Id, d: Id, t: Request, newId: Id)
    returns (s': T.State)
    requires Mirrors(s, r) && Missed(src, s, f, t) && t.eff !in r.copied && Filling(src, shape, s, f, d)
    ensures Happened(src, shape, s, s', r, f, t, O.Stored(t, Some(d), newId, false))
    ensures s'.files.runs[f] == LandedRun(s.files.runs[f], t)
  {
    s' := PutStep(src, shape, s, f, d, t, newId);
    assert r.copied - {t.eff} == r.copied;
  }

  lemma VerifiedHappens(src: S.Source, shape: R.Shape, s: T.State, r: E.Run, f: Id, d: Id, t: Request, newId: Id)
    returns (s': T.State)
    requires Mirrors(s, r) && Missed(src, s, f, t) && t.eff !in r.copied && Filling(src, shape, s, f, d)
    ensures Happened(src, shape, s, s', r, f, t, O.Stored(t, Some(d), newId, true))
    ensures s'.files.runs[f].index == s.files.runs[f].index
  {
    var s1 := UnverifiedHappens(src, shape, s, r, f, d, t, newId);
    s' := InsideStep(src, shape, s1, S.MarkCopied(f, t));
    Follow(src, shape, s, s1, s');
    assert r.copied - {t.eff} == r.copied;
  }

  lemma MissedFileHappens(src: S.Source, shape: R.Shape, s: T.State, r: E.Run, f: Id, d: Id, t: Request, e: O.Event)
    returns (s': T.State)
    requires Mirrors(s, r) && Missed(src, s, f, t) && t.eff !in r.copied && Filling(src, shape, s, f, d)
    requires e == O.TooBig(t) || e == O.NotMade(t) || (e.Stored? && e == O.Stored(t, Some(d), e.newId, e.verified))
    ensures Happened(src, shape, s, s', r, f, t, e)
    ensures s'.files.runs[f].index == s.files.runs[f].index
  {
    if e.Stored? && e.verified {
      s' := VerifiedHappens(src, shape, s, r, f, d, t, e.newId);
    } else if e.Stored? {
      s' := UnverifiedHappens(src, shape, s, r, f, d, t, e.newId);
    } else {
      s' := s;
      Stay(src, shape, s);
      assert r.copied - {t.eff} == r.copied;
    }
  }

  lemma OnlyFileTwice(s: T.State, s1: T.State, s': T.State, f: Id, t: Request)
    requires OnlyFile(s, s1, f, t) && OnlyFile(s1, s', f, t)
    ensures OnlyFile(s, s', f, t)
  {
  }

  lemma FileIsHistory(src: S.Source, shape: R.Shape, cfg: E.Config, s: T.State, r: E.Run, f: Id, d: Id, idx: Index, t: Request)
    returns (s': T.State)
    requires RealRun(cfg) && Mirrors(s, r) && Filling(src, shape, s, f, d) && s.files.runs[f].index == idx
    requires t in src.tasks[f] && H.Untouched(s.files.runs[f], t) && t.eff != ""
    ensures Happened(src, shape, s, s', r, f, t, O.FileEvent(cfg, r, Some(d), idx, t))
    ensures s'.files.runs[f].index == PopMatch(idx, t.file, cfg.mode, cfg.allowNameOnly, Some(t.eff)).1
  {
    var (hit, idx') := PopMatch(idx, t.file, cfg.mode, cfg.allowNameOnly, Some(t.eff));
    assert (hit, idx') == PopMatch(idx, t.file, Checksum, false, Some(t.eff));
    if hit.Some? {
      s' := FoundHappens(src, shape, s, r, f, d, t, hit.value.file);
    } else {
      var s1 := MissHappens(src, shape, s, f, t);
      var e := O.FileEvent(cfg, r, Some(d), idx, t);
      O.EffectForgets(cfg, r, Some(d), idx, t);
      s' := MissedFileHappens(src, shape, s1, r.(copied := r.copied - {t.eff}), f, d, t, e);
      Follow(src, shape, s, s1, s');
      OnlyFileTwice(s, s1, s', f, t);
    }
  }

  /* -------------------------------- one folder ----------------------------- */

  /** What holds throughout a run that mirrors the engine. */
  ghost predicate Going(cfg: E.Config, src: S.Source, shape: R.Shape, s: T.State, r: E.Run) {
    && RealRun(cfg) && cfg.searchFails == {} && R.OneParent(shape) && S.ValidSource(src)
    && Mirrors(s, r) && T.Joined(src, shape, s) && S.Keyed(src, s.files)
    && O.NewIdsAreNew(cfg, r.store, r.supply)
  }

  /** The walk can go on from f to n, and has not been there. */
  ghost predicate Next(src: S.Source, shape: R.Shape, s: T.State, path: seq<Id>, n: Id) {
    && path != [] && S.WalkTo(src, path + [n], n) && (forall i :: 0 <= i < |path| ==> path[i] in s.files.runs)
    && n !in s.files.runs && T.Key(src, n) in shape.parents && T.Key(src, path[|path|-1]) in shape.parents[T.Key(src, n)]
  }

  function Opening(src: S.Source, cfg: E.Config, s: T.State, r: E.Run, f: Id, n: Id): T.Step
    requires n in s.files.dest
  {
    T.Open(n, T.Key(src, f), O.CallsFor(cfg, r, T.Key(src, n)), s.files.dest[n], [])
  }

  /** With one parent each, a search that gets through and a single creation do not slip. */
  lemma OpeningNeverSlips(src: S.Source, shape: R.Shape, cfg: E.Config, s: T.State, r: E.Run, f: Id, d: Id, n: Id)
    requires Going(cfg, src, shape, s, r) && Filling(src, shape, s, f, d)
    requires R.ParentReady(shape, s.folders, T.Key(src, n), T.Key(src, f)) && R.InShape(shape, T.Key(src, n))
    ensures var step := R.Resolve(T.Key(src, n), T.Key(src, f), O.CallsFor(cfg, r, T.Key(src, n)));
            R.Enabled(shape, s.folders, step) && R.Apply(shape, s.folders, step).slips == s.folders.slips
  {
    var key := T.Key(src, n);
    var step := R.Resolve(key, T.Key(src, f), O.CallsFor(cfg, r, key));
    R.StepSlipsByExtra(shape, s.folders, step);
  }

  /** From s to s1 the folder of n was resolved to sub, and listed. */
  predicate Opened(src: S.Source, s: T.State, s1: T.State, n: Id, sub: Id) {
    && n !in s.files.runs && n in s.files.dest && s1.folders.slips == s.folders.slips
    && s1.folders.resolved == s.folders.resolved[T.Key(src, n) := sub]
    && s1.files == s.files.(runs := s.files.runs[n := EnterRun(s.files.dest[n], s.files.dest[n], [])])
  }

  lemma OpenEnabled(src: S.Source, shape: R.Shape, cfg: E.Config, s: T.State, r: E.Run, path: seq<Id>, d: Id, n: Id)
    requires path != [] && Going(cfg, src, shape, s, r) && Filling(src, shape, s, path[|path|-1], d) && Next(src, shape, s, path, n)
    requires E.GetOrCreate(cfg, r, Some(d), T.Key(src, n)).0.Some?
    ensures n in s.files.dest && T.Enabled(src, shape, s, Opening(src, cfg, s, r, path[|path|-1], n))
  {
    NextIsNamed(src, shape, s, path, n);
    OpeningNeverSlips(src, shape, cfg, s, r, path[|path|-1], d, n);
    F.ResolutionIsAStep(cfg, r, shape, s.folders, T.Key(src, n), T.Key(src, path[|path|-1]));
    EnterEnabled(src, shape, s, path, n);
  }

  lemma NextIsNamed(src: S.Source, shape: R.Shape, s: T.State, path: seq<Id>, n: Id)
    requires Next(src, shape, s, path, n)
    ensures n in src.tasks && R.InShape(shape, T.Key(src, n))
  {
    assert (path + [n])[|path|] == n;
  }

  lemma EnterEnabled(src: S.Source, shape: R.Shape, s: T.State, path: seq<Id>, n: Id)
    requires Next(src, shape, s, path, n) && S.Keyed(src, s.files) && !s.files.skip
    ensures n in s.files.dest && S.Enabled(src, s.files, S.Enter(n, s.files.dest[n], []))
    ensures S.Apply(src, s.files, S.Enter(n, s.files.dest[n], []))
         == s.files.(runs := s.files.runs[n := EnterRun(s.files.dest[n], s.files.dest[n], [])])
  {
    NextIsNamed(src, shape, s, path, n);
    assert S.Entered(s.files, path + [n]);
    H.EnterFullIs(src, s.files, n);
  }

  lemma OpenMirrors(src: S.Source, shape: R.Shape, cfg: E.Config, s: T.State, r: E.Run, path: seq<Id>, d: Id, n: Id)
    requires path != [] && Going(cfg, src, shape, s, r) && Filling(src, shape, s, path[|path|-1], d) && Next(src, shape, s, path, n)
    requires E.GetOrCreate(cfg, r, Some(d), T.Key(src, n)).0.Some? && n in s.files.dest
    requires T.Enabled(src, shape, s, Opening(src, cfg, s, r, path[|path|-1], n))
    ensures var (sub, r') := E.GetOrCreate(cfg, r, Some(d), T.Key(src, n));
            var s' := T.Apply(src, shape, s, Opening(src, cfg, s, r, path[|path|-1], n));
            Mirrors(s', r') && Opened(src, s, s', n, sub.value)
  {
    NextIsNamed(src, shape, s, path, n);
    var f, key := path[|path|-1], T.Key(src, n);
    OpeningNeverSlips(src, shape, cfg, s, r, f, d, n);
    F.ResolutionIsAStep(cfg, r, shape, s.folders, key, T.Key(src, f));
    EnterEnabled(src, shape, s, path, n);
    GetKeepsRecords(cfg, r, d, key);
    OpenedIs(src, shape, s, E.GetOrCreate(cfg, r, Some(d), key).1, n, E.GetOrCreate(cfg, r, Some(d), key).0.value,
             Opening(src, cfg, s, r, f, n));
  }

  lemma GetKeepsRecords(cfg: E.Config, r: E.Run, d: Id, key: R.FolderKey)
    ensures E.GetOrCreate(cfg, r, Some(d), key).1.copied == r.copied
  {
  }

  lemma OpenedIs(src: S.Source, shape: R.Shape, s: T.State, r': E.Run, n: Id, sub: Id, step: T.Step)
    requires step.Open? && step.f == n && T.Enabled(src, shape, s, step) && n !in s.files.runs && n in s.files.dest && !s.files.skip
    requires var folders := R.Apply(shape, s.folders, T.Resolving(src, step));
             && folders.store == r'.store && folders.folderMap == r'.folderMap && folders.slips == s.folders.slips
             && folders.resolved == s.folders.resolved[T.Key(src, n) := sub]
    requires s.files.copied == r'.copied
    requires S.Apply(src, s.files, S.Enter(n, step.seen, step.hidden))
          == s.files.(runs := s.files.runs[n := EnterRun(s.files.dest[n], s.files.dest[n], [])])
    ensures Mirrors(T.Apply(src, shape, s, step), r') && Opened(src, s, T.Apply(src, shape, s, step), n, sub)
  {
  }

  /** The folder of n is found or made, and listed. */
  lemma OpenHappens(src: S.Source, shape: R.Shape, cfg: E.Config, s: T.State, r: E.Run, path: seq<Id>, d: Id, n: Id)
    returns (s': T.State)
    requires path != [] && Going(cfg, src, shape, s, r) && Filling(src, shape, s, path[|path|-1], d) && Next(src, shape, s, path, n)
    requires E.GetOrCreate(cfg, r, Some(d), T.Key(src, n)).0.Some?
    ensures Reaches(src, shape, s, s')
    ensures var (sub, r') := E.GetOrCreate(cfg, r, Some(d), T.Key(src, n));
            Mirrors(s', r') && Opened(src, s, s', n, sub.value)
  {
    OpenEnabled(src, shape, cfg, s, r, path, d, n);
    OpenMirrors(src, shape, cfg, s, r, path, d, n);
    Take(src, shape, s, Opening(src, cfg, s, r, path[|path|-1], n));
    s' := T.Apply(src, shape, s, Opening(src, cfg, s, r, path[|path|-1], n));
  }

  lemma OpenedIsGoing(src: S.Source, shape: R.Shape, cfg: E.Config, s: T.State, s': T.State, r: E.Run, d: Id, n: Id)
    requires Going(cfg, src, shape, s, r) && Reaches(src, shape, s, s') && n in src.tasks && R.InShape(shape, T.Key(src, n))
    requires E.GetOrCreate(cfg, r, Some(d), T.Key(src, n)).0.Some?
    requires var (sub, r') := E.GetOrCreate(cfg, r, Some(d), T.Key(src, n));
             Mirrors(s', r') && Opened(src, s, s', n, sub.value)
    ensures var (sub, r') := E.GetOrCreate(cfg, r, Some(d), T.Key(src, n));
            && Going(cfg, src, shape, s', r') && Filling(src, shape, s', n, sub.value)
            && s'.files.runs[n].index == E.IndexAt(r'.store, sub)
  {
    var (sub, r') := E.GetOrCreate(cfg, r, Some(d), T.Key(src, n));
    StaysJoined(src, shape, s, s');
    F.ResolvedIsTagged(cfg, r, d, T.Key(src, n));
    T.FilesAreThere(shape, r'.store, T.Key(src, n), sub.value);
    assert s'.files.dest[n] == T.FilesOf(r'.store, T.Key(src, n));
    NewIdsStay(cfg, r, d, T.Key(src, n));
  }

  lemma NewIdsStay(cfg: E.Config, r: E.Run, d: Id, key: R.FolderKey)
    requires O.NewIdsAreNew(cfg, r.store, r.supply)
    ensures var r' := E.GetOrCreate(cfg, r, Some(d), key).1;
            O.NewIdsAreNew(cfg, r'.store, r'.supply)
  {
    O.FolderIsResolved(cfg, r, Some(d), key);
    O.FolderKept(cfg, r, Some(d), key);
  }

  /* -------------------------------- the walk ------------------------------- */

  /** The nodes are what the source has below the end of the path. */
  ghost predicate Fits(src: S.Source, shape: R.Shape, path: seq<Id>, nodes: seq<Node>)
    decreases nodes
  {
    nodes == [] || (FitsOne(src, shape, path, nodes[0]) && Fits(src, shape, path, nodes[1..]))
  }

  ghost predicate FitsOne(src: S.Source, shape: R.Shape, path: seq<Id>, node: Node)
    decreases node
  {
    path != [] && match node
    case FileNode(t) => path[|path|-1] in src.tasks && t in src.tasks[path[|path|-1]]
    case FolderNode(key, _, _, children) =>
      && key == T.Key(src, key.id) && S.WalkTo(src, path + [key.id], key.id)
      && key in shape.parents && T.Key(src, path[|path|-1]) in shape.parents[key]
      && Fits(src, shape, path + [key.id], children)
    case _ => true
  }

  /** No file of the level is listed twice, and none has been looked at. */
  ghost predicate AllWait(s: T.State, f: Id, nodes: seq<Node>) {
    && f in s.files.runs
    && (forall i :: 0 <= i < |nodes| && nodes[i].FileNode? ==> H.Untouched(s.files.runs[f], nodes[i].t))
    && (forall i, j :: 0 <= i < j < |nodes| && nodes[i].FileNode? && nodes[j].FileNode? ==> nodes[i].t != nodes[j].t)
  }

  /** Below, too, each listing has each file once. */
  predicate NoDoubles(nodes: seq<Node>)
    decreases nodes
  {
    nodes == [] || (NoDoublesIn(nodes[0]) && NoDoubles(nodes[1..]))
  }

  predicate NoDoublesIn(node: Node)
    decreases node
  {
    node.FolderNode? ==>
      && NoDoubles(node.children)
      && (forall i, j :: 0 <= i < j < |node.children| && node.children[i].FileNode? && node.children[j].FileNode?
                         ==> node.children[i].t != node.children[j].t)
  }

  /** Nothing settled is undone. */
  predicate Onward(s: T.State, s': T.State, f: Id) {
    && f in s.files.runs && f in s'.files.runs
    && s.files.runs[f].took <= s'.files.runs[f].took && s.files.runs[f].landed <= s'.files.runs[f].landed
  }

  /** Other visits and folders are as they were, but for those of the names in ks. */
  ghost predicate Frame(s: T.State, s': T.State, f: Id, ks: set<Id>) {
    && s'.folders.slips == s.folders.slips
    && s.files.runs.Keys <= s'.files.runs.Keys <= s.files.runs.Keys + ks
    && (forall h :: h in s.files.runs && h != f ==> s'.files.runs[h] == s.files.runs[h])
    && (forall k :: k in s.folders.resolved && k.id !in ks ==> k in s'.folders.resolved && s'.folders.resolved[k] == s.folders.resolved[k])
    && s'.files.slipped == s.files.slipped && s'.files.dest.Keys == s.files.dest.Keys
    && (f in s.files.runs ==> Onward(s, s', f))
  }

  lemma FrameTwice(s: T.State, s1: T.State, s': T.State, f: Id, a: set<Id>, b: set<Id>)
    requires Frame(s, s1, f, a) && Frame(s1, s', f, b)
    ensures Frame(s, s', f, a + b)
  {
  }

  /** The state after some nodes, mirroring the engine. */
  ghost predicate Arrived(cfg: E.Config, src: S.Source, shape: R.Shape, s: T.State, s': T.State, r': E.Run,
                          f: Id, d: Id, idx': Index, ks: set<Id>) {
    && Reaches(src, shape, s, s') && Going(cfg, src, shape, s', r') && Frame(s, s', f, ks)
    && Filling(src, shape, s', f, d) && s'.files.runs[f].index == idx'
  }

  lemma ArrivedTwice(cfg: E.Config, src: S.Source, shape: R.Shape, s: T.State, s1: T.State, s': T.State, r1: E.Run, r': E.Run,
                     f: Id, d: Id, idx1: Index, idx': Index, a: set<Id>, b: set<Id>)
    requires Arrived(cfg, src, shape, s, s1, r1, f, d, idx1, a) && Arrived(cfg, src, shape, s1, s', r', f, d, idx', b)
    ensures Arrived(cfg, src, shape, s, s', r', f, d, idx', a + b)
  {
    Follow(src, shape, s, s1, s');
    FrameTwice(s, s1, s', f, a, b);
  }

  lemma NewIdsAfterFile(cfg: E.Config, r: E.Run, e: O.Event)
    requires O.NewIdsAreNew(cfg, r.store, r.supply) && !e.Created? && !e.Resolved?
    requires e.Stored? ==> e.newId == cfg.ids(r.supply) && e.dest.Some? && e.dest.value in r.store
    ensures O.NewIdsAreNew(cfg, O.Effect(r, e).store, O.Effect(r, e).supply)
  {
    if !e.Found? {
      O.EventKept(cfg, r, e);
    }
  }

  lemma FileFrames(s: T.State, s': T.State, f: Id, t: Request)
    requires OnlyFile(s, s', f, t)
    ensures Frame(s, s', f, {})
  {
  }

  lemma StillFilling(src: S.Source, shape: R.Shape, s: T.State, s': T.State, f: Id, d: Id)
    requires Filling(src, shape, s, f, d) && OnlyVisit(s, s', f) && T.Joined(src, shape, s')
    ensures Filling(src, shape, s', f, d)
  {
    assert R.Verified(s'.folders.store, d, T.Key(src, f));
  }

  lemma StillGoing(src: S.Source, shape: R.Shape, cfg: E.Config, s: T.State, s': T.State, r: E.Run, r': E.Run, f: Id)
    requires Going(cfg, src, shape, s, r) && Reaches(src, shape, s, s') && OnlyVisit(s, s', f)
    requires Mirrors(s', r') && O.NewIdsAreNew(cfg, r'.store, r'.supply)
    ensures Going(cfg, src, shape, s', r')
  {
    StaysJoined(src, shape, s, s');
  }

  lemma FileIsEvent(cfg: E.Config, r: E.Run, d: Id, idx: Index, t: Request)
    ensures E.CopyFile(cfg, r, Some(d), idx, t) ==
            (O.Effect(r, O.FileEvent(cfg, r, Some(d), idx, t)), PopMatch(idx, t.file, cfg.mode, cfg.allowNameOnly, Some(t.eff)).1)
  {
    O.FileIsReplay(cfg, r, Some(d), idx, t);
    O.ReplaySingle(r, O.FileEvent(cfg, r, Some(d), idx, t));
  }

  /** What a file of the level comes to. */
  ghost predicate FileMirrored(cfg: E.Config, src: S.Source, shape: R.Shape, s: T.State, s': T.State, r: E.Run,
                               f: Id, d: Id, idx: Index, t: Request) {
    && Reaches(src, shape, s, s') && OnlyFile(s, s', f, t) && Mirrors(s', E.CopyFile(cfg, r, Some(d), idx, t).0)
    && s'.files.runs[f].index == E.CopyFile(cfg, r, Some(d), idx, t).1
    && (Settles(O.FileEvent(cfg, r, Some(d), idx, t)) ==> H.SettledIn(s'.files.runs[f], t))
    && (t !in s'.files.runs[f].landed ==> E.CopyFile(cfg, r, Some(d), idx, t).0.counts.copied == r.counts.copied)
  }

  lemma FileMirrors(src: S.Source, shape: R.Shape, cfg: E.Config, s: T.State, r: E.Run, f: Id, d: Id, idx: Index, t: Request)
    returns (s': T.State)
    requires RealRun(cfg) && Mirrors(s, r) && Filling(src, shape, s, f, d) && s.files.runs[f].index == idx
    requires t in src.tasks[f] && t.eff != "" && H.Untouched(s.files.runs[f], t)
    ensures FileMirrored(cfg, src, shape, s, s', r, f, d, idx, t)
  {
    s' := FileIsHistory(src, shape, cfg, s, r, f, d, idx, t);
    FileIsEvent(cfg, r, d, idx, t);
  }

  lemma NewIdsAfterCopy(cfg: E.Config, r: E.Run, d: Id, idx: Index, t: Request)
    requires !cfg.dryRun && O.NewIdsAreNew(cfg, r.store, r.supply) && d in r.store
    ensures var r' := E.CopyFile(cfg, r, Some(d), idx, t).0;
            O.NewIdsAreNew(cfg, r'.store, r'.supply)
  {
    FileIsEvent(cfg, r, d, idx, t);
    NewIdsAfterFile(cfg, r, O.FileEvent(cfg, r, Some(d), idx, t));
  }

  /** One file of the level. */
  lemma FileArrives(src: S.Source, shape: R.Shape, cfg: E.Config, s: T.State, r: E.Run, f: Id, d: Id, idx: Index, t: Request)
    returns (s': T.State)
    requires Going(cfg, src, shape, s, r) && Filling(src, shape, s, f, d) && s.files.runs[f].index == idx
    requires t in src.tasks[f] && t.eff != "" && H.Untouched(s.files.runs[f], t)
    ensures FileMirrored(cfg, src, shape, s, s', r, f, d, idx, t)
    ensures var (r', idx') := E.CopyFile(cfg, r, Some(d), idx, t);
            Arrived(cfg, src, shape, s, s', r', f, d, idx', {})
  {
    s' := FileMirrors(src, shape, cfg, s, r, f, d, idx, t);
    NewIdsAfterCopy(cfg, r, d, idx, t);
    FileIsArrived(src, shape, cfg, s, s', r, E.CopyFile(cfg, r, Some(d), idx, t).0, f, d, t);
  }

  lemma FileIsArrived(src: S.Source, shape: R.Shape, cfg: E.Config, s: T.State, s': T.State, r: E.Run, r': E.Run, f: Id, d: Id, t: Request)
    requires Going(cfg, src, shape, s, r) && Filling(src, shape, s, f, d) && Reaches(src, shape, s, s')
    requires OnlyFile(s, s', f, t) && Mirrors(s', r') && O.NewIdsAreNew(cfg, r'.store, r'.supply)
    ensures Arrived(cfg, src, shape, s, s', r', f, d, s'.files.runs[f].index, {})
  {
    StillGoing(src, shape, cfg, s, s', r, r', f);
    StillFilling(src, shape, s, s', f, d);
    FileFrames(s, s', f, t);
  }

  /* ------------------------------ node after node -------------------------- */

  /** Every call that copies or creates gets through. */
  predicate Clean(cfg: E.Config) {
    cfg.copyFails == {} && cfg.unverified == {} && cfg.createFails == {}
  }

  predicate NoneTooBig(nodes: seq<Node>)
    decreases nodes
  {
    nodes == [] || (NotTooBig(nodes[0]) && NoneTooBig(nodes[1..]))
  }

  predicate NotTooBig(node: Node)
    decreases node
  {
    match node
    case FileNode(t) => SizeOf(t.file) <= 805306368000
    case FolderNode(_, _, _, children) => NoneTooBig(children)
    case _ => true
  }

  /** Every folder below was entered, and every file of them is settled. */
  predicate Processed(s: T.State, f: Id, nodes: seq<Node>)
    decreases nodes
  {
    nodes == [] || (ProcessedOne(s, f, nodes[0]) && Processed(s, f, nodes[1..]))
  }

  predicate ProcessedOne(s: T.State, f: Id, node: Node)
    decreases node
  {
    match node
    case FileNode(t) => f in s.files.runs && H.SettledIn(s.files.runs[f], t)
    case FolderNode(key, _, _, children) => key.id in s.files.runs && Processed(s, key.id, children)
    case _ => true
  }

  lemma {:induction false} StaysProcessed(s: T.State, s': T.State, f: Id, nodes: seq<Node>)
    requires Processed(s, f, nodes) && Onward(s, s', f)
    requires forall h :: h in D.Keys(nodes) && h in s.files.runs ==> h in s'.files.runs && s'.files.runs[h] == s.files.runs[h]
    ensures Processed(s', f, nodes)
    decreases nodes, 1
  {
    if nodes != [] {
      StaysProcessedOne(s, s', f, nodes[0]);
      StaysProcessed(s, s', f, nodes[1..]);
    }
  }

  lemma {:induction false} StaysProcessedOne(s: T.State, s': T.State, f: Id, node: Node)
    requires ProcessedOne(s, f, node) && Onward(s, s', f)
    requires forall h :: h in D.KeysIn(node) && h in s.files.runs ==> h in s'.files.runs && s'.files.runs[h] == s.files.runs[h]
    ensures ProcessedOne(s', f, node)
    decreases node, 0
  {
    if node.FolderNode? {
      StaysProcessed(s, s', node.key.id, node.children);
    }
  }

  /** The walk has come along the path, and nothing below its end was touched. */
  ghost predicate Ahead(src: S.Source, shape: R.Shape, s: T.State, path: seq<Id>, nodes: seq<Node>) {
    && path != [] && (forall i :: 0 <= i < |path| ==> path[i] in s.files.runs)
    && Fits(src, shape, path, nodes) && NoDoubles(nodes) && AllWait(s, path[|path|-1], nodes)
    && D.Distinct(nodes) && D.Keys(nodes) !! s.files.runs.Keys
  }

  /** What the walk at the end of a path starts from. */
  ghost predicate Ready(cfg: E.Config, src: S.Source, shape: R.Shape, s: T.State, r: E.Run, path: seq<Id>, d: Id,
                        idx: Index, nodes: seq<Node>) {
    && Ahead(src, shape, s, path, nodes) && Going(cfg, src, shape, s, r) && Filling(src, shape, s, path[|path|-1], d)
    && s.files.runs[path[|path|-1]].index == idx
  }

  /** The visit of f is the same, or only one file of it has moved on. */
  predicate OneMoved(s: T.State, s': T.State, f: Id, node: Node) {
    && f in s.files.runs && f in s'.files.runs
    && if node.FileNode? then OnlyFile(s, s', f, node.t) else s'.files.runs[f] == s.files.runs[f]
  }

  lemma StillWaiting(s: T.State, s': T.State, f: Id, nodes: seq<Node>)
    requires nodes != [] && AllWait(s, f, nodes) && OneMoved(s, s', f, nodes[0])
    ensures AllWait(s', f, nodes[1..])
  {
    forall i | 0 <= i < |nodes| - 1 && nodes[1..][i].FileNode? ensures H.Untouched(s'.files.runs[f], nodes[1..][i].t) {
      assert nodes[1..][i] == nodes[i+1] && H.Untouched(s.files.runs[f], nodes[i+1].t);
      if nodes[0].FileNode? {
        assert nodes[0].t != nodes[i+1].t;
      }
    }
    assert forall i, j :: 0 <= i < j < |nodes| - 1 ==> nodes[1..][i] == nodes[i+1] && nodes[1..][j] == nodes[j+1];
  }

  lemma ReadyForRest(cfg: E.Config, src: S.Source, shape: R.Shape, s: T.State, s': T.State, r: E.Run, r': E.Run,
                     path: seq<Id>, d: Id, idx: Index, idx': Index, nodes: seq<Node>)
    requires nodes != [] && Ready(cfg, src, shape, s, r, path, d, idx, nodes)
    requires Arrived(cfg, src, shape, s, s', r', path[|path|-1], d, idx', D.KeysIn(nodes[0]))
    requires OneMoved(s, s', path[|path|-1], nodes[0])
    ensures Ready(cfg, src, shape, s', r', path, d, idx', nodes[1..])
  {
    StillWaiting(s, s', path[|path|-1], nodes);
  }

  /** The engine has changed nothing that the machine mirrors. */
  lemma NothingHappens(cfg: E.Config, src: S.Source, shape: R.Shape, s: T.State, r: E.Run, r': E.Run, f: Id, d: Id, idx: Index, ks: set<Id>)
    requires Going(cfg, src, shape, s, r) && Filling(src, shape, s, f, d) && s.files.runs[f].index == idx
    requires r'.store == r.store && r'.folderMap == r.folderMap && r'.copied == r.copied && r'.supply == r.supply
    ensures Arrived(cfg, src, shape, s, s, r', f, d, idx, ks)
  {
    Stay(src, shape, s);
  }

  /** A real run finds or makes every folder, unless the creation fails. */
  lemma OnlyCreationFails(cfg: E.Config, r: E.Run, d: Id, key: R.FolderKey)
    requires !cfg.dryRun && E.GetOrCreate(cfg, r, Some(d), key).0.None?
    ensures key.id in cfg.createFails && E.GetOrCreate(cfg, r, Some(d), key).1 == r
  {
  }

  lemma AheadBelow(src: S.Source, shape: R.Shape, s: T.State, s1: T.State, path: seq<Id>, nodes: seq<Node>, n: Id, sub: Id)
    requires nodes != [] && nodes[0].FolderNode? && nodes[0].key.id == n && Ahead(src, shape, s, path, nodes)
    requires Opened(src, s, s1, n, sub)
    ensures Ahead(src, shape, s1, path + [n], nodes[0].children)
  {
    var longer := path + [n];
    assert longer[|longer|-1] == n;
    assert forall i :: 0 <= i < |path| ==> longer[i] == path[i];
    FirstNode(src, shape, path, nodes);
  }

  /** What is true of all nodes, of the first. */
  lemma FirstNode(src: S.Source, shape: R.Shape, path: seq<Id>, nodes: seq<Node>)
    requires nodes != [] && Fits(src, shape, path, nodes) && NoDoubles(nodes) && D.Distinct(nodes)
    ensures FitsOne(src, shape, path, nodes[0]) && NoDoublesIn(nodes[0]) && D.DistinctIn(nodes[0])
    ensures D.Keys(nodes) == D.KeysIn(nodes[0]) + D.Keys(nodes[1..])
    ensures nodes[0].FolderNode? ==>
              && D.KeysIn(nodes[0]) == {nodes[0].key.id} + D.Keys(nodes[0].children)
              && nodes[0].key.id !in D.Keys(nodes[0].children) && D.Distinct(nodes[0].children)
              && Fits(src, shape, path + [nodes[0].key.id], nodes[0].children) && NoDoubles(nodes[0].children)
  {
    if nodes[0].FolderNode? {
      var n := nodes[0];
      assert FitsOne(src, shape, path, n);
      assert NoDoublesIn(n) && D.DistinctIn(n);
    }
  }

  lemma AheadIsNext(src: S.Source, shape: R.Shape, s: T.State, path: seq<Id>, nodes: seq<Node>)
    requires nodes != [] && nodes[0].FolderNode? && Ahead(src, shape, s, path, nodes)
    ensures Next(src, shape, s, path, nodes[0].key.id) && nodes[0].key == T.Key(src, nodes[0].key.id)
  {
    FirstNode(src, shape, path, nodes);
  }

  lemma FrameBack(src: S.Source, s: T.State, s1: T.State, s': T.State, f: Id, n: Id, sub: Id, ks: set<Id>)
    requires Opened(src, s, s1, n, sub) && f in s.files.runs && n !in ks && ks !! s.files.runs.Keys
    requires Frame(s1, s', n, ks)
    ensures Frame(s, s', f, {n} + ks) && f in s'.files.runs && s'.files.runs[f] == s.files.runs[f]
    ensures T.Key(src, f) in s.folders.resolved ==>
              T.Key(src, f) in s'.folders.resolved && s'.folders.resolved[T.Key(src, f)] == s.folders.resolved[T.Key(src, f)]
  {
    assert T.Key(src, f) != T.Key(src, n) && T.Key(src, f).id == f && T.Key(src, n).id == n;
    assert f in s1.files.runs && s1.files.runs[f] == s.files.runs[f];
  }

  lemma FillingBack(src: S.Source, shape: R.Shape, s: T.State, s': T.State, f: Id, d: Id)
    requires Filling(src, shape, s, f, d) && T.Joined(src, shape, s') && s'.files.dest.Keys == s.files.dest.Keys
    requires f in s'.files.runs && T.Key(src, f) in s'.folders.resolved && s'.folders.resolved[T.Key(src, f)] == d
    ensures Filling(src, shape, s', f, d)
  {
    assert R.Verified(s'.folders.store, d, T.Key(src, f));
  }

  /** Back from below: for f it is as if only folders below were touched. */
  lemma BackFromBelow(cfg: E.Config, src: S.Source, shape: R.Shape, s: T.State, s1: T.State, s': T.State, r': E.Run,
                      f: Id, d: Id, n: Id, sub: Id, idx: Index, idx': Index, ks: set<Id>)
    requires Filling(src, shape, s, f, d) && s.files.runs[f].index == idx && Reaches(src, shape, s, s1)
    requires Opened(src, s, s1, n, sub) && n !in ks && ks !! s.files.runs.Keys
    requires Arrived(cfg, src, shape, s1, s', r', n, sub, idx', ks)
    ensures Arrived(cfg, src, shape, s, s', r', f, d, idx, {n} + ks) && s'.files.runs[f] == s.files.runs[f]
  {
    Follow(src, shape, s, s1, s');
    FrameBack(src, s, s1, s', f, n, sub, ks);
    FillingBack(src, shape, s, s', f, d);
  }

  /** One node's outcome: mirrored, ready for the rest, and settled if nothing fails. */
  ghost predicate NodeDone(cfg: E.Config, src: S.Source, shape: R.Shape, s: T.State, s': T.State, r: E.Run, f: Id, d: Id,
                           idx: Index, node: Node) {
    var (r', idx') := E.One(cfg, r, Some(d), idx, node);
    && Arrived(cfg, src, shape, s, s', r', f, d, idx', D.KeysIn(node)) && OneMoved(s, s', f, node)
    && (Clean(cfg) && NotTooBig(node) ==> ProcessedOne(s', f, node))
    && (NoneLanded(s') ==> r'.counts.copied == r.counts.copied)
  }

  /** This run has copied nothing. */
  predicate NoneLanded(s: T.State) {
    forall h :: h in s.files.runs ==> s.files.runs[h].landed == {}
  }

  lemma NoneLandedBefore(s: T.State, s': T.State, f: Id, ks: set<Id>)
    requires Frame(s, s', f, ks) && f in s.files.runs && NoneLanded(s')
    ensures NoneLanded(s)
  {
    forall h | h in s.files.runs ensures s.files.runs[h].landed == {} {
      assert h != f ==> s'.files.runs[h] == s.files.runs[h];
    }
  }

  lemma CleanFileSettles(cfg: E.Config, r: E.Run, d: Id, idx: Index, t: Request)
    requires RealRun(cfg) && Clean(cfg) && NotTooBig(FileNode(t))
    ensures Settles(O.FileEvent(cfg, r, Some(d), idx, t))
  {
  }

  lemma FileNodeDone(cfg: E.Config, src: S.Source, shape: R.Shape, s: T.State, r: E.Run, f: Id, d: Id, idx: Index, t: Request)
    returns (s': T.State)
    requires Going(cfg, src, shape, s, r) && Filling(src, shape, s, f, d) && s.files.runs[f].index == idx
    requires t in src.tasks[f] && t.eff != "" && H.Untouched(s.files.runs[f], t)
    ensures NodeDone(cfg, src, shape, s, s', r, f, d, idx, FileNode(t))
  {
    s' := FileArrives(src, shape, cfg, s, r, f, d, idx, t);
    FileIsDone(cfg, src, shape, s, s', r, f, d, idx, t);
  }

  lemma FileIsDone(cfg: E.Config, src: S.Source, shape: R.Shape, s: T.State, s': T.State, r: E.Run, f: Id, d: Id, idx: Index, t: Request)
    requires RealRun(cfg) && FileMirrored(cfg, src, shape, s, s', r, f, d, idx, t)
    requires var (r', idx') := E.CopyFile(cfg, r, Some(d), idx, t);
             Arrived(cfg, src, shape, s, s', r', f, d, idx', {})
    ensures NodeDone(cfg, src, shape, s, s', r, f, d, idx, FileNode(t))
  {
    FileSettles(cfg, src, shape, s, s', r, f, d, idx, t);
    FileIsNode(cfg, r, d, idx, t);
  }

  lemma FileIsNode(cfg: E.Config, r: E.Run, d: Id, idx: Index, t: Request)
    ensures E.One(cfg, r, Some(d), idx, FileNode(t)) == E.CopyFile(cfg, r, Some(d), idx, t) && D.KeysIn(FileNode(t)) == {}
  {
  }

  lemma FileSettles(cfg: E.Config, src: S.Source, shape: R.Shape, s: T.State, s': T.State, r: E.Run, f: Id, d: Id, idx: Index, t: Request)
    requires RealRun(cfg) && FileMirrored(cfg, src, shape, s, s', r, f, d, idx, t)
    ensures Clean(cfg) && NotTooBig(FileNode(t)) ==> ProcessedOne(s', f, FileNode(t))
    ensures NoneLanded(s') ==> E.CopyFile(cfg, r, Some(d), idx, t).0.counts.copied == r.counts.copied
  {
    if Clean(cfg) && NotTooBig(FileNode(t)) {
      CleanFileSettles(cfg, r, d, idx, t);
    }
  }

  lemma FilesAreNamed(src: S.Source, f: Id, t: Request)
    requires S.ValidSource(src) && f in src.tasks && t in src.tasks[f]
    ensures t.eff != ""
  {
  }

  /** A folder that is followed: it is resolved and listed ... */
  lemma FolderEntered(cfg: E.Config, src: S.Source, shape: R.Shape, s: T.State, r: E.Run, path: seq<Id>, d: Id,
                      idx: Index, nodes: seq<Node>) returns (s1: T.State)
    requires nodes != [] && nodes[0].FolderNode? && Ready(cfg, src, shape, s, r, path, d, idx, nodes)
    requires E.GetOrCreate(cfg, r, Some(d), nodes[0].key).0.Some?
    ensures var (sub, r1) := E.GetOrCreate(cfg, r, Some(d), nodes[0].key);
            var n := nodes[0].key.id;
            && Reaches(src, shape, s, s1) && Opened(src, s, s1, n, sub.value)
            && Ready(cfg, src, shape, s1, r1, path + [n], sub.value, E.IndexAt(r1.store, sub), nodes[0].children)
  {
    var n := nodes[0].key.id;
    AheadIsNext(src, shape, s, path, nodes);
    NextIsNamed(src, shape, s, path, n);
    var (sub, r1) := E.GetOrCreate(cfg, r, Some(d), nodes[0].key);
    s1 := OpenHappens(src, shape, cfg, s, r, path, d, n);
    OpenedIsGoing(src, shape, cfg, s, s1, r, d, n);
    AheadBelow(src, shape, s, s1, path, nodes, n, sub.value);
    assert (path + [n])[|path|] == n;
  }

  /** What the engine does with a folder it has resolved is what it does with its children. */
  lemma FollowedIsBelow(cfg: E.Config, r: E.Run, d: Id, idx: Index, node: Node)
    requires node.FolderNode? && E.GetOrCreate(cfg, r, Some(d), node.key).0.Some?
    ensures var (sub, r1) := E.GetOrCreate(cfg, r, Some(d), node.key);
            E.One(cfg, r, Some(d), idx, node) == (E.Nodes(cfg, r1, sub, E.IndexAt(r1.store, sub), node.children).0, idx)
  {
  }

  /** ... and once everything below it is done, so is the folder. */
  lemma FolderDone(cfg: E.Config, src: S.Source, shape: R.Shape, s: T.State, s1: T.State, s': T.State, r: E.Run, r1: E.Run,
                   f: Id, d: Id, sub: Id, idx: Index, idx1: Index, node: Node)
    requires node.FolderNode? && Filling(src, shape, s, f, d) && s.files.runs[f].index == idx && Reaches(src, shape, s, s1)
    requires Opened(src, s, s1, node.key.id, sub) && D.KeysIn(node) == {node.key.id} + D.Keys(node.children)
    requires node.key.id !in D.Keys(node.children) && D.Keys(node.children) !! s.files.runs.Keys
    requires E.One(cfg, r, Some(d), idx, node) == (E.Nodes(cfg, r1, Some(sub), idx1, node.children).0, idx)
    requires r1.counts == r.counts
    requires NodesDone(cfg, src, shape, s1, s', r1, node.key.id, sub, idx1, node.children)
    ensures NodeDone(cfg, src, shape, s, s', r, f, d, idx, node)
  {
    var (r', below) := E.Nodes(cfg, r1, Some(sub), idx1, node.children);
    BackFromBelow(cfg, src, shape, s, s1, s', r', f, d, node.key.id, sub, idx, below, D.Keys(node.children));
    FolderProcessed(cfg, s', node);
  }

  lemma FolderProcessed(cfg: E.Config, s': T.State, node: Node)
    requires node.FolderNode? && node.key.id in s'.files.runs
    requires Clean(cfg) && NoneTooBig(node.children) ==> Processed(s', node.key.id, node.children)
    ensures Clean(cfg) && NotTooBig(node) ==> ProcessedOne(s', node.key.id, node)
    ensures forall f :: ProcessedOne(s', f, node) <==> ProcessedOne(s', node.key.id, node)
  {
  }

  lemma {:induction false} FollowedFolder(cfg: E.Config, src: S.Source, shape: R.Shape, s: T.State, r: E.Run, path: seq<Id>, d: Id,
                                          idx: Index, nodes: seq<Node>) returns (s': T.State)
    requires nodes != [] && nodes[0].FolderNode? && Ready(cfg, src, shape, s, r, path, d, idx, nodes)
    requires E.GetOrCreate(cfg, r, Some(d), nodes[0].key).0.Some?
    ensures NodeDone(cfg, src, shape, s, s', r, path[|path|-1], d, idx, nodes[0])
    decreases nodes[0].children, 1
  {
    var n := nodes[0].key.id;
    var (sub, r1) := E.GetOrCreate(cfg, r, Some(d), nodes[0].key);
    var s1 := FolderEntered(cfg, src, shape, s, r, path, d, idx, nodes);
    assert (path + [n])[|path|] == n;
    s' := NodesAreHistory(cfg, src, shape, s1, r1, path + [n], sub.value, E.IndexAt(r1.store, sub), nodes[0].children);
    FirstNode(src, shape, path, nodes);
    FollowedIsBelow(cfg, r, d, idx, nodes[0]);
    GetCopiesNothing(cfg, r, d, nodes[0].key);
    FolderDone(cfg, src, shape, s, s1, s', r, r1, path[|path|-1], d, sub.value, idx, E.IndexAt(r1.store, sub), nodes[0]);
  }

  /** What is not followed changes only the counters. */
  lemma UnfollowedCounts(cfg: E.Config, r: E.Run, d: Id, idx: Index, node: Node)
    requires !cfg.dryRun && !node.FileNode?
    requires node.FolderNode? ==> E.GetOrCreate(cfg, r, Some(d), node.key).0.None?
    ensures var (r', idx') := E.One(cfg, r, Some(d), idx, node);
            idx' == idx && r' == r.(counts := r'.counts)
    ensures Clean(cfg) ==> !node.FolderNode?
  {
    if node.FolderNode? {
      OnlyCreationFails(cfg, r, d, node.key);
    }
  }

  lemma UnfollowedDone(cfg: E.Config, src: S.Source, shape: R.Shape, s: T.State, r: E.Run, f: Id, d: Id, idx: Index, node: Node)
    requires Going(cfg, src, shape, s, r) && Filling(src, shape, s, f, d) && s.files.runs[f].index == idx
    requires !node.FileNode? && (node.FolderNode? ==> E.GetOrCreate(cfg, r, Some(d), node.key).0.None?)
    ensures NodeDone(cfg, src, shape, s, s, r, f, d, idx, node)
  {
    UnfollowedCounts(cfg, r, d, idx, node);
    NothingHappens(cfg, src, shape, s, r, E.One(cfg, r, Some(d), idx, node).0, f, d, idx, D.KeysIn(node));
  }

  lemma FirstFileWaits(src: S.Source, shape: R.Shape, s: T.State, path: seq<Id>, nodes: seq<Node>)
    requires S.ValidSource(src) && nodes != [] && nodes[0].FileNode? && Ahead(src, shape, s, path, nodes)
    ensures var f, t := path[|path|-1], nodes[0].t;
            f in src.tasks && t in src.tasks[f] && t.eff != "" && H.Untouched(s.files.runs[f], t)
  {
    FirstNode(src, shape, path, nodes);
    FilesAreNamed(src, path[|path|-1], nodes[0].t);
  }

  lemma {:induction false} NodeIsHistory(cfg: E.Config, src: S.Source, shape: R.Shape, s: T.State, r: E.Run, path: seq<Id>, d: Id,
                                         idx: Index, nodes: seq<Node>) returns (s': T.State)
    requires nodes != [] && Ready(cfg, src, shape, s, r, path, d, idx, nodes)
    ensures NodeDone(cfg, src, shape, s, s', r, path[|path|-1], d, idx, nodes[0])
    decreases nodes[0], 2
  {
    var f, node := path[|path|-1], nodes[0];
    if node.FileNode? {
      FirstFileWaits(src, shape, s, path, nodes);
      s' := FileNodeDone(cfg, src, shape, s, r, f, d, idx, node.t);
    } else if node.FolderNode? && E.GetOrCreate(cfg, r, Some(d), node.key).0.Some? {
      s' := FollowedFolder(cfg, src, shape, s, r, path, d, idx, nodes);
    } else {
      s' := s;
      UnfollowedDone(cfg, src, shape, s, r, f, d, idx, node);
    }
  }

  /** The outcome of some nodes. */
  ghost predicate NodesDone(cfg: E.Config, src: S.Source, shape: R.Shape, s: T.State, s': T.State, r: E.Run, f: Id, d: Id,
                            idx: Index, nodes: seq<Node>) {
    var (r', idx') := E.Nodes(cfg, r, Some(d), idx, nodes);
    && Arrived(cfg, src, shape, s, s', r', f, d, idx', D.Keys(nodes))
    && (Clean(cfg) && NoneTooBig(nodes) ==> Processed(s', f, nodes))
    && (NoneLanded(s') ==> r'.counts.copied == r.counts.copied)
  }

  lemma NodesDoneMore(cfg: E.Config, src: S.Source, shape: R.Shape, s: T.State, s1: T.State, s': T.State, r: E.Run, path: seq<Id>,
                      d: Id, idx: Index, nodes: seq<Node>)
    requires nodes != [] && path != [] && NodeDone(cfg, src, shape, s, s1, r, path[|path|-1], d, idx, nodes[0])
    requires path[|path|-1] !in D.Keys(nodes)
    requires var (r1, idx1) := E.One(cfg, r, Some(d), idx, nodes[0]);
             NodesDone(cfg, src, shape, s1, s', r1, path[|path|-1], d, idx1, nodes[1..])
    requires D.Distinct(nodes)
    ensures NodesDone(cfg, src, shape, s, s', r, path[|path|-1], d, idx, nodes)
  {
    var f := path[|path|-1];
    var (r1, idx1) := E.One(cfg, r, Some(d), idx, nodes[0]);
    var (r', idx') := E.Nodes(cfg, r1, Some(d), idx1, nodes[1..]);
    ArrivedTwice(cfg, src, shape, s, s1, s', r1, r', f, d, idx1, idx', D.KeysIn(nodes[0]), D.Keys(nodes[1..]));
    if Clean(cfg) && NoneTooBig(nodes) {
      StaysProcessedOne(s1, s', f, nodes[0]);
    }
    if NoneLanded(s') {
      NoneLandedBefore(s1, s', f, D.Keys(nodes[1..]));
    }
  }

  /**
    Whatever copies, verifications and creations fail: what the engine does with some nodes is a
    history, and the machine mirrors the engine at its end. If none fails, everything below has
    been entered and settled.
   */
  lemma {:induction false} NodesAreHistory(cfg: E.Config, src: S.Source, shape: R.Shape, s: T.State, r: E.Run, path: seq<Id>, d: Id,
                                           idx: Index, nodes: seq<Node>) returns (s': T.State)
    requires Ready(cfg, src, shape, s, r, path, d, idx, nodes)
    ensures NodesDone(cfg, src, shape, s, s', r, path[|path|-1], d, idx, nodes)
    decreases nodes, 0
  {
    if nodes == [] {
      s' := s;
      NothingHappens(cfg, src, shape, s, r, r, path[|path|-1], d, idx, {});
    } else {
      var (r1, idx1) := E.One(cfg, r, Some(d), idx, nodes[0]);
      var s1 := NodeIsHistory(cfg, src, shape, s, r, path, d, idx, nodes);
      ReadyForRest(cfg, src, shape, s, s1, r, r1, path, d, idx, idx1, nodes);
      s' := NodesAreHistory(cfg, src, shape, s1, r1, path, d, idx1, nodes[1..]);
      NodesDoneMore(cfg, src, shape, s, s1, s', r, path, d, idx, nodes);
    }
  }

  /* ------------------------------ the whole run ---------------------------- */

  /** The nodes show everything the source has below the end of the path. */
  ghost predicate Whole(src: S.Source, path: seq<Id>, nodes: seq<Node>)
    decreases nodes
  {
    && path != [] && path[|path|-1] in src.tasks
    && (forall t :: t in src.tasks[path[|path|-1]] ==> FileNode(t) in nodes)
    && (forall n :: S.WalkTo(src, path + [n], n) ==> ShownIn(nodes, n))
    && forall i :: 0 <= i < |nodes| && nodes[i].FolderNode? ==> Whole(src, path + [nodes[i].key.id], nodes[i].children)
  }

  predicate ShownIn(nodes: seq<Node>, n: Id) {
    exists i :: 0 <= i < |nodes| && nodes[i].FolderNode? && nodes[i].key.id == n
  }

  lemma {:induction false} ProcessedAt(s: T.State, f: Id, nodes: seq<Node>, i: nat)
    requires i < |nodes| && Processed(s, f, nodes)
    ensures ProcessedOne(s, f, nodes[i])
    decreases i
  {
    if i > 0 {
      ProcessedAt(s, f, nodes[1..], i - 1);
    }
  }

  predicate AllSettled(src: S.Source, s: T.State, f: Id) {
    f in src.tasks && f in s.files.runs && forall t :: t in src.tasks[f] ==> H.SettledIn(s.files.runs[f], t)
  }

  lemma LevelSettled(src: S.Source, s: T.State, path: seq<Id>, nodes: seq<Node>)
    requires Whole(src, path, nodes) && path[|path|-1] in s.files.runs && Processed(s, path[|path|-1], nodes)
    ensures AllSettled(src, s, path[|path|-1])
  {
    var f := path[|path|-1];
    forall t | t in src.tasks[f] ensures H.SettledIn(s.files.runs[f], t) {
      assert FileNode(t) in nodes;
      var i :| 0 <= i < |nodes| && nodes[i] == FileNode(t);
      ProcessedAt(s, f, nodes, i);
    }
  }

  /** Every walk on from the path ends in a folder that was entered and settled. */
  lemma {:induction false} WalksSettled(src: S.Source, s: T.State, path: seq<Id>, nodes: seq<Node>, q: seq<Id>)
    requires Whole(src, path, nodes) && path[|path|-1] in s.files.runs && Processed(s, path[|path|-1], nodes)
    requires S.Walk(src, q) && |path| <= |q| && q[..|path|] == path
    ensures AllSettled(src, s, q[|q|-1])
    decreases nodes
  {
    if |q| == |path| {
      assert q == path;
      LevelSettled(src, s, path, nodes);
    } else {
      var n := q[|path|];
      H.PrefixIsWalk(src, q, |path|);
      assert q[..|path|+1] == path + [n];
      assert ShownIn(nodes, n);
      var i :| 0 <= i < |nodes| && nodes[i].FolderNode? && nodes[i].key.id == n;
      ProcessedAt(s, path[|path|-1], nodes, i);
      assert (path + [n])[|path|] == n;
      WalksSettled(src, s, path + [n], nodes[i].children, q);
    }
  }

  /** Everything that was entered was settled. */
  lemma {:induction false} EnteredSettled(src: S.Source, s: T.State, path: seq<Id>, nodes: seq<Node>, h: Id)
    requires Whole(src, path, nodes) && path[|path|-1] in s.files.runs && Processed(s, path[|path|-1], nodes)
    requires h in D.Keys(nodes)
    ensures AllSettled(src, s, h)
    decreases nodes
  {
    var i := KeyAt(nodes, h);
    ProcessedAt(s, path[|path|-1], nodes, i);
    var n, children := nodes[i].key.id, nodes[i].children;
    assert (path + [n])[|path|] == n;
    if h == n {
      LevelSettled(src, s, path + [n], children);
    } else {
      EnteredSettled(src, s, path + [n], children, h);
    }
  }

  lemma {:induction false} KeyAt(nodes: seq<Node>, h: Id) returns (i: nat)
    requires h in D.Keys(nodes)
    ensures i < |nodes| && nodes[i].FolderNode? && h in {nodes[i].key.id} + D.Keys(nodes[i].children)
    decreases |nodes|
  {
    if h in D.KeysIn(nodes[0]) {
      i := 0;
    } else {
      var j := KeyAt(nodes[1..], h);
      i := j + 1;
    }
  }

  lemma ProcessedIsComplete(src: S.Source, s: T.State, nodes: seq<Node>)
    requires Whole(src, [src.root], nodes) && src.root in s.files.runs && Processed(s, src.root, nodes)
    requires s.files.runs.Keys <= {src.root} + D.Keys(nodes)
    ensures S.RunComplete(src, s.files)
  {
    forall f | f in s.files.runs && f in src.tasks ensures src.tasks[f] <= s.files.runs[f].took + s.files.runs[f].landed {
      if f == src.root {
        LevelSettled(src, s, [src.root], nodes);
      } else {
        EnteredSettled(src, s, [src.root], nodes, f);
      }
      assert forall t :: t in src.tasks[f] ==> H.SettledIn(s.files.runs[f], t);
    }
    forall q | S.Walk(src, q) && S.Clear(src, s.files, q) ensures q[|q|-1] in s.files.runs {
      assert q[..1] == [src.root];
      WalksSettled(src, s, [src.root], nodes, q);
    }
  }

  /** A run about to start: nothing entered, nothing resolved. */
  ghost predicate Fresh(cfg: E.Config, src: S.Source, shape: R.Shape, s: T.State, r: E.Run) {
    && Going(cfg, src, shape, s, r) && s.files.runs == map[] && s.folders.resolved == map[]
    && shape.root == T.Key(src, src.root)
  }

  /** The tree the engine walks, below the root. */
  ghost predicate Tree(src: S.Source, shape: R.Shape, nodes: seq<Node>) {
    && Fits(src, shape, [src.root], nodes) && NoDoubles(nodes) && D.Distinct(nodes) && src.root !in D.Keys(nodes)
    && forall i, j :: 0 <= i < j < |nodes| && nodes[i].FileNode? && nodes[j].FileNode? ==> nodes[i].t != nodes[j].t
  }

  /** The destination root is found or made, and listed. */
  lemma RootHappens(cfg: E.Config, src: S.Source, shape: R.Shape, s: T.State, r: E.Run) returns (s1: T.State)
    requires Fresh(cfg, src, shape, s, r) && E.GetOrCreate(cfg, r, Some(shape.destParent), shape.root).0.Some?
    ensures var (d, r1) := E.GetOrCreate(cfg, r, Some(shape.destParent), shape.root);
            Reaches(src, shape, s, s1) && Mirrors(s1, r1) && Opened(src, s, s1, src.root, d.value)
  {
    var key, root := shape.root, src.root;
    var calls := O.CallsFor(cfg, r, key);
    var step := T.Open(root, key, calls, s.files.dest[root], []);
    RootNeverSlips(cfg, src, shape, s, r);
    F.ResolutionIsAStep(cfg, r, shape, s.folders, key, key);
    RootIsNext(src, s);
    H.EnterFullIs(src, s.files, root);
    Take(src, shape, s, step);
    s1 := T.Apply(src, shape, s, step);
  }

  lemma RootIsNext(src: S.Source, s: T.State)
    requires S.ValidSource(src)
    ensures S.WalkTo(src, [src.root], src.root) && S.OneWay(src, s.files, src.root)
  {
    assert S.WalkTo(src, [src.root], src.root) && S.Entered(s.files, [src.root]);
  }

  lemma RootNeverSlips(cfg: E.Config, src: S.Source, shape: R.Shape, s: T.State, r: E.Run)
    requires Fresh(cfg, src, shape, s, r)
    ensures var step := R.Resolve(shape.root, shape.root, O.CallsFor(cfg, r, shape.root));
            R.Enabled(shape, s.folders, step) && R.Apply(shape, s.folders, step).slips == s.folders.slips
  {
    R.StepSlipsByExtra(shape, s.folders, R.Resolve(shape.root, shape.root, O.CallsFor(cfg, r, shape.root)));
  }

  lemma RootReady(cfg: E.Config, src: S.Source, shape: R.Shape, s: T.State, s1: T.State, r: E.Run, nodes: seq<Node>)
    requires Fresh(cfg, src, shape, s, r) && Tree(src, shape, nodes) && Reaches(src, shape, s, s1)
    requires E.GetOrCreate(cfg, r, Some(shape.destParent), shape.root).0.Some?
    requires var (d, r1) := E.GetOrCreate(cfg, r, Some(shape.destParent), shape.root);
             Mirrors(s1, r1) && Opened(src, s, s1, src.root, d.value)
    ensures var (d, r1) := E.GetOrCreate(cfg, r, Some(shape.destParent), shape.root);
            Ready(cfg, src, shape, s1, r1, [src.root], d.value, E.IndexAt(r1.store, d), nodes)
  {
    OpenedIsGoing(src, shape, cfg, s, s1, r, shape.destParent, src.root);
    RootAhead(src, shape, s, s1, E.GetOrCreate(cfg, r, Some(shape.destParent), shape.root).0.value, nodes);
  }

  lemma RootAhead(src: S.Source, shape: R.Shape, s: T.State, s1: T.State, d: Id, nodes: seq<Node>)
    requires s.files.runs == map[] && Tree(src, shape, nodes) && Opened(src, s, s1, src.root, d)
    ensures Ahead(src, shape, s1, [src.root], nodes)
  {
    assert s1.files.runs.Keys == {src.root};
  }

  /**
    A run of the engine over the whole tree, whatever copies, verifications and creations fail, is
    a history that ends with the engine's destination and records; and if none fails, with a
    complete run.
   */
  lemma EngineRunIsHistory(cfg: E.Config, src: S.Source, shape: R.Shape, s: T.State, r: E.Run, nodes: seq<Node>)
    returns (end: T.State)
    requires Fresh(cfg, src, shape, s, r) && Tree(src, shape, nodes)
    requires E.GetOrCreate(cfg, r, Some(shape.destParent), shape.root).0.Some?
    ensures var (d, r1) := E.GetOrCreate(cfg, r, Some(shape.destParent), shape.root);
            && Reaches(src, shape, s, end) && Mirrors(end, E.Level(cfg, r1, d, nodes))
            && end.folders.slips == s.folders.slips && end.files.slipped == s.files.slipped
    ensures Clean(cfg) && NoneTooBig(nodes) && Whole(src, [src.root], nodes) ==> S.RunComplete(src, end.files)
    ensures NoneLanded(end) ==>
              var (d, r1) := E.GetOrCreate(cfg, r, Some(shape.destParent), shape.root);
              E.Level(cfg, r1, d, nodes).counts.copied == r.counts.copied
  {
    var (d, r1) := E.GetOrCreate(cfg, r, Some(shape.destParent), shape.root);
    var s1 := RootHappens(cfg, src, shape, s, r);
    RootReady(cfg, src, shape, s, s1, r, nodes);
    end := NodesAreHistory(cfg, src, shape, s1, r1, [src.root], d.value, E.IndexAt(r1.store, d), nodes);
    Follow(src, shape, s, s1, end);
    if Clean(cfg) && NoneTooBig(nodes) && Whole(src, [src.root], nodes) {
      ProcessedIsComplete(src, end, nodes);
    }
    GetCopiesNothing(cfg, r, shape.destParent, shape.root);
  }

  lemma GetCopiesNothing(cfg: E.Config, r: E.Run, parent: Id, key: R.FolderKey)
    ensures E.GetOrCreate(cfg, r, Some(parent), key).1.counts == r.counts
  {
  }

  lemma HistoryGoesOn(src: S.Source, shape: R.Shape, folders: R.State, skip: bool, steps: seq<T.Step>, s: T.State, end: T.State)
    returns (all: seq<T.Step>)
    requires T.Leads(src, shape, folders, skip, steps, s) && Reaches(src, shape, s, end) && end.folders.slips == s.folders.slips
    ensures T.Leads(src, shape, folders, skip, all, end)
  {
    var more :| Leads(src, shape, s, more, end);
    RunsAppend(src, shape, T.Begin(src, folders, skip), steps, more);
    all := steps + more;
  }

  /** As many files of t's class in d as source or start had, and no more than the slips so far explain. */
  ghost predicate RightCount(src: S.Source, before: R.Store, slipped: S.Dest, after: R.Store, f: Id, t: Request, d: Id) {
    && f in src.tasks && f in slipped && d in after
    && var target := Max(Count(src.tasks[f], ClassOf(t)), Present(T.FilesOf(before, T.Key(src, f)), ClassOf(t)));
       target <= Present(after[d].files, ClassOf(t)) <= target + Present(slipped[f], ClassOf(t))
  }

  /**
    After any history of runs, crashes and restarts without folder slips, one clean run of the
    engine over the whole tree leaves every folder that has files with exactly one destination
    folder, and in it max(source, initial) files of each class, plus at most what slipped before.
   */
  lemma EngineConverges(cfg: E.Config, src: S.Source, shape: R.Shape, folders: R.State, skip: bool, steps: seq<T.Step>,
                        s: T.State, r: E.Run, nodes: seq<Node>, path: seq<Id>, f: Id, t: Request)
    requires T.Initial(src, shape, folders) && T.Leads(src, shape, folders, skip, steps, s)
    requires Fresh(cfg, src, shape, s, r) && Tree(src, shape, nodes) && Whole(src, [src.root], nodes)
    requires Clean(cfg) && NoneTooBig(nodes) && S.LeadsTo(src, path, f, t)
    ensures var (d, r1) := E.GetOrCreate(cfg, r, Some(shape.destParent), shape.root);
            var done := E.Level(cfg, r1, d, nodes);
            && (exists x :: R.Folders(done.store, T.Key(src, f)) == {x})
            && forall x :: x in R.Folders(done.store, T.Key(src, f)) ==>
                 RightCount(src, folders.store, s.files.slipped, done.store, f, t, x)
  {
    RootIsMade(cfg, r, shape);
    var end := EngineRunIsHistory(cfg, src, shape, s, r, nodes);
    var all := HistoryGoesOn(src, shape, folders, skip, steps, s, end);
    EndNotSkipping(src, shape, folders, skip, all, end, path, f, t);
  }

  lemma RootIsMade(cfg: E.Config, r: E.Run, shape: R.Shape)
    requires !cfg.dryRun && cfg.createFails == {}
    ensures E.GetOrCreate(cfg, r, Some(shape.destParent), shape.root).0.Some?
  {
  }

  lemma EndNotSkipping(src: S.Source, shape: R.Shape, folders: R.State, skip: bool, all: seq<T.Step>, end: T.State,
                       path: seq<Id>, f: Id, t: Request)
    requires T.Initial(src, shape, folders) && T.Leads(src, shape, folders, skip, all, end)
    requires S.RunComplete(src, end.files) && !end.files.skip && S.LeadsTo(src, path, f, t)
    ensures exists x :: R.Folders(end.folders.store, T.Key(src, f)) == {x}
    ensures forall x :: x in R.Folders(end.folders.store, T.Key(src, f)) ==>
              RightCount(src, folders.store, end.files.slipped, end.folders.store, f, t, x)
  {
    T.OneFolderWithTheRightFiles(src, shape, folders, skip, all, end, path, f, t);
    forall x | x in R.Folders(end.folders.store, T.Key(src, f))
      ensures RightCount(src, folders.store, end.files.slipped, end.folders.store, f, t, x)
    {
      assert T.RightFiles(src, folders.store, end, f, t, x);
    }
  }

  /* ----------------------------- running it again -------------------------- */

  /** The destination has as many files of every class as the source. */
  ghost predicate Enough(src: S.Source, dest: S.Dest) {
    forall f, t :: f in src.tasks && t in src.tasks[f] ==>
      f in dest && Present(dest[f], ClassOf(t)) >= Count(src.tasks[f], ClassOf(t))
  }

  /** The machine as it is before a run of the engine, with nothing remembered but what the engine knows. */
  ghost function StartOf(src: S.Source, r: E.Run): T.State {
    T.State(R.State(r.store, r.folderMap, map[], multiset{}),
            S.Start(T.DestOf(src, r.store), false).(copied := r.copied))
  }

  /** A destination with unique, nested folders and honest tags. */
  ghost predicate Orderly(cfg: E.Config, src: S.Source, shape: R.Shape, r: E.Run) {
    && S.ValidSource(src) && T.Covers(src, shape) && R.ProperShape(shape) && R.OneParent(shape)
    && shape.root == T.Key(src, src.root)
    && R.UniqueTags(shape, r.store) && R.Nested(shape, r.store) && S.ValidDest(src, T.DestOf(src, r.store))
    && O.NewIdsAreNew(cfg, r.store, r.supply) && RealRun(cfg) && cfg.searchFails == {}
  }

  lemma StartIsFresh(cfg: E.Config, src: S.Source, shape: R.Shape, r: E.Run)
    requires Orderly(cfg, src, shape, r)
    ensures Fresh(cfg, src, shape, StartOf(src, r), r) && S.Inv(src, T.DestOf(src, r.store), StartOf(src, r).files)
    ensures S.NoSlips(StartOf(src, r).files)
  {
    S.StartInv(src, T.DestOf(src, r.store), false);
    S.SameFilesKeep(src, T.DestOf(src, r.store), S.Start(T.DestOf(src, r.store), false), StartOf(src, r).files);
  }

  /** With enough there on entry, a visit that is settled has landed nothing. */
  lemma SettledLandsNothing(src: S.Source, initial: S.Dest, s: S.State, f: Id)
    requires S.ValidSource(src) && S.Inv(src, initial, s) && Enough(src, initial) && S.NoSlips(s) && f in s.runs
    requires f in src.tasks && src.tasks[f] <= s.runs[f].took + s.runs[f].landed
    ensures s.runs[f].landed == {}
  {
    var run := s.runs[f];
    if run.landed != {} {
      var t :| t in run.landed;
      VisitOf(src, initial, s, f);
      SettledCounts(src.tasks[f], initial[f], s.dest[f], run, t);
      CountPositive(run.landed, t);
    }
  }

  lemma VisitOf(src: S.Source, initial: S.Dest, s: S.State, f: Id)
    requires S.ValidSource(src) && S.Inv(src, initial, s) && S.NoSlips(s) && f in s.runs && f in src.tasks
    ensures Requests(src.tasks[f]) && RunInv(s.dest[f], s.runs[f], initial[f], src.tasks[f], [])
  {
    assert s.slipped[f] == [];
    assert S.FolderInv(src.tasks[f], initial[f], s.dest[f], s.slipped[f], S.RunOf(s, f));
  }

  lemma SettledCounts(ts: set<Request>, initial: seq<DriveFile>, files: seq<DriveFile>, run: FolderRun, t: Request)
    requires Requests(ts) && RunInv(files, run, initial, ts, []) && t in run.landed && ts <= run.took + run.landed
    requires Present(initial, ClassOf(t)) >= Count(ts, ClassOf(t))
    ensures Count(run.landed, ClassOf(t)) == 0
  {
    var c := ClassOf(t);
    assert t in ts && ClassIn(c, ts);
    assert EntryInv(run, initial, ts, [], c);
    TookFromSeen(files, run, initial, ts, [], c);
  }

  /**
    If the destination has enough of every class already, whoever put it there, a clean run of the
    engine copies nothing.
   */
  lemma NothingLeftToCopy(cfg: E.Config, src: S.Source, shape: R.Shape, r: E.Run, nodes: seq<Node>)
    requires Orderly(cfg, src, shape, r) && Enough(src, T.DestOf(src, r.store))
    requires Tree(src, shape, nodes) && Whole(src, [src.root], nodes) && Clean(cfg) && NoneTooBig(nodes)
    ensures var (d, r1) := E.GetOrCreate(cfg, r, Some(shape.destParent), shape.root);
            E.Level(cfg, r1, d, nodes).counts.copied == r.counts.copied
  {
    var s := StartOf(src, r);
    StartIsFresh(cfg, src, shape, r);
    RootIsMade(cfg, r, shape);
    var end := EngineRunIsHistory(cfg, src, shape, s, r, nodes);
    EndKeepsInv(src, shape, T.DestOf(src, r.store), s, end);
    forall h | h in end.files.runs ensures end.files.runs[h].landed == {} {
      SettledLandsNothing(src, T.DestOf(src, r.store), end.files, h);
    }
  }

  lemma EndKeepsInv(src: S.Source, shape: R.Shape, initial: S.Dest, s: T.State, end: T.State)
    requires S.ValidSource(src) && T.Joined(src, shape, s) && S.Inv(src, initial, s.files) && Reaches(src, shape, s, end)
    requires end.folders.slips == s.folders.slips
    ensures S.Inv(src, initial, end.files)
  {
    var steps :| Leads(src, shape, s, steps, end);
    T.RunKeepsAll(src, shape, initial, s, steps);
  }

  lemma EnoughOf(src: S.Source, initial: S.Dest, s: S.State, f: Id, t: Request)
    requires S.ValidSource(src) && H.AllReachable(src) && S.Inv(src, initial, s) && S.RunComplete(src, s) && !s.skip
    requires f in src.tasks && t in src.tasks[f]
    ensures f in s.dest && Present(s.dest[f], ClassOf(t)) >= Count(src.tasks[f], ClassOf(t))
  {
    var path :| S.WalkTo(src, path, f);
    S.RelistedRunConverged(src, initial, s, path, f, t);
  }

  lemma EnoughAfter(src: S.Source, initial: S.Dest, s: S.State)
    requires S.ValidSource(src) && H.AllReachable(src) && S.Inv(src, initial, s) && S.RunComplete(src, s) && !s.skip
    ensures Enough(src, s.dest)
  {
    forall f, t | f in src.tasks && t in src.tasks[f]
      ensures f in s.dest && Present(s.dest[f], ClassOf(t)) >= Count(src.tasks[f], ClassOf(t))
    {
      EnoughOf(src, initial, s, f, t);
    }
  }

  /** After a clean run the destination is orderly still, and has enough. */
  lemma OrderlyAfter(cfg: E.Config, again: E.Config, src: S.Source, shape: R.Shape, r: E.Run, r2: E.Run, nodes: seq<Node>)
    requires Orderly(cfg, src, shape, r) && H.AllReachable(src)
    requires Tree(src, shape, nodes) && Whole(src, [src.root], nodes) && Clean(cfg) && NoneTooBig(nodes)
    requires var (d, r1) := E.GetOrCreate(cfg, r, Some(shape.destParent), shape.root);
             r2.store == E.Level(cfg, r1, d, nodes).store
    requires RealRun(again) && again.searchFails == {} && O.NewIdsAreNew(again, r2.store, r2.supply)
    ensures Orderly(again, src, shape, r2) && Enough(src, T.DestOf(src, r2.store))
  {
    var s := StartOf(src, r);
    StartIsFresh(cfg, src, shape, r);
    RootIsMade(cfg, r, shape);
    var end := EngineRunIsHistory(cfg, src, shape, s, r, nodes);
    StaysJoined(src, shape, s, end);
    EndKeepsInv(src, shape, T.DestOf(src, r.store), s, end);
    EnoughAfter(src, T.DestOf(src, r.store), end.files);
    HonestAfter(src, T.DestOf(src, r.store), end.files);
  }

  lemma HonestAfter(src: S.Source, initial: S.Dest, s: S.State)
    requires S.Inv(src, initial, s)
    ensures S.ValidDest(src, s.dest)
  {
    forall f | f in src.tasks ensures ListingHonest(s.dest[f], src.tasks[f]) {
      assert S.FolderInv(src.tasks[f], initial[f], s.dest[f], s.slipped[f], S.RunOf(s, f));
    }
  }

  /**
    So a second run, with whatever folder_map and records its log gave it, and with any other ids
    and verification failures, copies nothing.
   */
  lemma RerunCopiesNothing(cfg: E.Config, again: E.Config, src: S.Source, shape: R.Shape, r: E.Run, r2: E.Run, nodes: seq<Node>)
    requires Orderly(cfg, src, shape, r) && H.AllReachable(src)
    requires Tree(src, shape, nodes) && Whole(src, [src.root], nodes) && Clean(cfg) && NoneTooBig(nodes)
    requires var (d, r1) := E.GetOrCreate(cfg, r, Some(shape.destParent), shape.root);
             r2.store == E.Level(cfg, r1, d, nodes).store
    requires RealRun(again) && Clean(again) && again.searchFails == {} && O.NewIdsAreNew(again, r2.store, r2.supply)
    ensures var (d, r1) := E.GetOrCreate(again, r2, Some(shape.destParent), shape.root);
            E.Level(again, r1, d, nodes).counts.copied == r2.counts.copied
  {
    OrderlyAfter(cfg, again, src, shape, r, r2, nodes);
    NothingLeftToCopy(again, src, shape, r2, nodes);
  }
}
