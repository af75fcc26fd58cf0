/**
  Finding or creating the destination folder of a source folder
  (src/gdrive_turbo_copy/copier.py:787-877, src/gdrive_turbo_copy/drive_client.py:192-200), across
  runs that may die at any point. A creation goes through the same retries as every call: one
  that took effect and reported a retryable failure is repeated
  (src/gdrive_turbo_copy/retry.py:192-232).
 */
module FolderResolution {
  import opened DriveModel
  import opened Ordering

  /** What a destination folder is tagged with: a source folder, or the shortcut that led to one. */
  datatype FolderKey = BySource(id: Id) | ByShortcut(id: Id)

  datatype DestFolder = DestFolder(parent: Id, tag: Option<FolderKey>, files: seq<DriveFile>)

  /** The untrashed folders on the destination side, by id. */
  type Store = map<Id, DestFolder>

  /** _verify_dest_folder: the cached id is a live folder carrying this very tag. */
  predicate Verified(store: Store, d: Id, key: FolderKey) {
    d in store && store[d].tag == Some(key)
  }

  function Candidates(store: Store, parent: Id, key: FolderKey): set<Id> {
    set d | d in store && store[d].parent == parent && store[d].tag == Some(key)
  }

  /** _find_dest_folder: of the tagged folders under the parent, the one with the least id. */
  ghost function Find(store: Store, parent: Id, key: FolderKey): Option<Id> {
    if Candidates(store, parent, key) == {} then None else Some(Least(Candidates(store, parent, key)))
  }

  /** The folder found without creating one; without a parent nothing is looked up at all. */
  ghost function Lookup(store: Store, folderMap: map<Id, Id>, parent: Option<Id>, key: FolderKey): Option<Id> {
    if parent.None? then None
    else if key.id in folderMap && Verified(store, folderMap[key.id], key) then Some(folderMap[key.id])
    else Find(store, parent.value, key)
  }

  /* ------------------------------ the machine ------------------------------ */

  /** The source side: the keys each folder is listed under, and where the root's copy belongs. */
  datatype Shape = Shape(root: FolderKey, parents: map<FolderKey, set<FolderKey>>, destParent: Id)

  predicate InShape(shape: Shape, key: FolderKey) {
    key == shape.root || key in shape.parents
  }

  /**
    `resolved` is what this run has found or created so far; it is lost when the run dies.
    `slips` counts, per key, the folders created beside another one of the key.
   */
  datatype State = State(store: Store, folderMap: map<Id, Id>, resolved: map<FolderKey, Id>, slips: multiset<FolderKey>)

  /**
    How the calls of one resolution end: verifying the remembered folder and searching for a
    tagged one may each fail; `made` are the creations that took effect, of which at most the
    last is confirmed. Without a confirmation the attempts ran out, or the process died.
   */
  datatype Calls = Calls(verifyOk: bool, searchOk: bool, made: seq<Id>, confirmed: bool)

  datatype Step =
    | Resolve(key: FolderKey, under: FolderKey, calls: Calls)
    | AddFile(d: Id, file: DriveFile)
    | Restart(folderMap: map<Id, Id>)   // whatever log, or logs, survived

  predicate ParentReady(shape: Shape, s: State, key: FolderKey, under: FolderKey) {
    key == shape.root || (key in shape.parents && under in shape.parents[key] && under in s.resolved)
  }

  function ParentDest(shape: Shape, s: State, key: FolderKey, under: FolderKey): Id
    requires ParentReady(shape, s, key, under)
  {
    if key == shape.root then shape.destParent else s.resolved[under]
  }

  predicate Fresh(store: Store, ids: seq<Id>) {
    && (forall i :: 0 <= i < |ids| ==> ids[i] !in store)
    && forall i, j :: 0 <= i < j < |ids| ==> ids[i] != ids[j]
  }

  predicate Enabled(shape: Shape, s: State, step: Step) {
    match step
    case Resolve(key, under, calls) =>
      && ParentReady(shape, s, key, under) && Fresh(s.store, calls.made) && (calls.confirmed ==> calls.made != [])
    case AddFile(d, _) => d in s.store
    case Restart(_) => true
  }

  /** The remembered folder is confirmed; a failed call counts as no. */
  predicate Confirmed(s: State, key: FolderKey, verifyOk: bool) {
    verifyOk && key.id in s.folderMap && Verified(s.store, s.folderMap[key.id], key)
  }

  /** What _get_or_create_folder finds; a failed search finds nothing. */
  ghost function Found(s: State, parent: Id, key: FolderKey, calls: Calls): Option<Id> {
    if Confirmed(s, key, calls.verifyOk) then Some(s.folderMap[key.id])
    else if calls.searchOk then Find(s.store, parent, key) else None
  }

  ghost predicate Creates(s: State, parent: Id, key: FolderKey, calls: Calls) {
    Found(s, parent, key, calls).None? && calls.made != []
  }

  function WithNew(store: Store, parent: Id, key: FolderKey, ids: seq<Id>): Store {
    store + map d | d in ids :: DestFolder(parent, Some(key), [])
  }

  /** How many of the created folders stand beside another one of their key. */
  function Beside(store: Store, key: FolderKey, made: seq<Id>): nat
    requires made != []
  {
    if Folders(store, key) == {} then |made| - 1 else |made|
  }

  ghost function Apply(shape: Shape, s: State, step: Step): State
    requires Enabled(shape, s, step)
  {
    match step
    case Resolve(key, under, calls) =>
      var parent := ParentDest(shape, s, key, under);
      var found := Found(s, parent, key, calls);
      if found.Some? then Known(s, key, found.value)
      else if calls.made == [] then s
      else
        var s' := s.(store := WithNew(s.store, parent, key, calls.made),
                     slips := s.slips[key := s.slips[key] + Beside(s.store, key, calls.made)]);
        if calls.confirmed then Known(s', key, calls.made[|calls.made|-1]) else s'
    case AddFile(d, file) =>
      s.(store := s.store[d := s.store[d].(files := s.store[d].files + [file])])
    case Restart(folderMap) =>
      s.(folderMap := folderMap, resolved := map[])
  }

  function Known(s: State, key: FolderKey, d: Id): State {
    s.(folderMap := s.folderMap[key.id := d], resolved := s.resolved[key := d])
  }

  ghost predicate Runs(shape: Shape, s: State, steps: seq<Step>)
    decreases |steps|
  {
    steps == [] || (Enabled(shape, s, steps[0]) && Runs(shape, Apply(shape, s, steps[0]), steps[1..]))
  }

  ghost function After(shape: Shape, s: State, steps: seq<Step>): State
    requires Runs(shape, s, steps)
    decreases |steps|
  {
    if steps == [] then s else After(shape, Apply(shape, s, steps[0]), steps[1..])
  }

  /* ------------------------------- invariants ------------------------------ */

  /** No two folders carry the same tag of the source tree. */
  ghost predicate UniqueTags(shape: Shape, store: Store) {
    forall d, e, key :: InShape(shape, key) && Verified(store, d, key) && Verified(store, e, key) ==> d == e
  }

  /** Folder d lies where a folder of this key belongs. */
  ghost predicate Placed(shape: Shape, store: Store, d: Id, key: FolderKey)
    requires InShape(shape, key) && d in store
  {
    if key == shape.root then store[d].parent == shape.destParent
    else exists p :: p in shape.parents[key] && Verified(store, store[d].parent, p)
  }

  /** Every tagged folder lies under a folder of one of its source parents. */
  ghost predicate Nested(shape: Shape, store: Store) {
    forall d, key :: Verified(store, d, key) && InShape(shape, key) ==> Placed(shape, store, d, key)
  }

  ghost predicate ResolvedAreTagged(s: State) {
    forall key :: key in s.resolved ==> Verified(s.store, s.resolved[key], key)
  }

  ghost predicate Tagged(shape: Shape, s: State) {
    Nested(shape, s.store) && ResolvedAreTagged(s)
  }

  ghost predicate ProperShape(shape: Shape) {
    && shape.root !in shape.parents
    && forall key, p :: key in shape.parents && p in shape.parents[key] ==> InShape(shape, p)
  }

  /** No folder is listed under two parents. */
  ghost predicate OneParent(shape: Shape) {
    forall key, p, q :: key in shape.parents && p in shape.parents[key] && q in shape.parents[key] ==> p == q
  }

  function Folders(store: Store, key: FolderKey): set<Id> {
    set d | d in store && store[d].tag == Some(key)
  }

  lemma NoneTagged(store: Store, key: FolderKey)
    ensures Folders(store, key) == {} <==> !exists d :: Verified(store, d, key)
  {
    assert forall d :: d in Folders(store, key) <==> Verified(store, d, key);
  }

  /** New folders bring their own tag and no other, and leave the others as they are. */
  lemma NewTags(store: Store, parent: Id, key: FolderKey, ids: seq<Id>)
    requires Fresh(store, ids)
    ensures var store' := WithNew(store, parent, key, ids);
            && (forall d, k :: Verified(store', d, k) <==> Verified(store, d, k) || (d in ids && k == key))
            && (forall d :: d in store ==> d in store' && store'[d] == store[d])
            && (forall d :: d in ids ==> d in store' && store'[d] == DestFolder(parent, Some(key), []))
  {
  }

  function Members(ids: seq<Id>): set<Id> {
    set d | d in ids
  }

  lemma {:induction false} DistinctMembers(store: Store, ids: seq<Id>)
    requires Fresh(store, ids)
    ensures |Members(ids)| == |ids|
  {
    if ids != [] {
      var n := |ids| - 1;
      DistinctMembers(store, ids[..n]);
      assert ids == ids[..n] + [ids[n]];
      assert Members(ids) == Members(ids[..n]) + {ids[n]};
    }
  }

  lemma FolderIsVerified(store: Store, d: Id, key: FolderKey)
    ensures d in Folders(store, key) <==> Verified(store, d, key)
  {
  }

  lemma NewFolders(store: Store, parent: Id, key: FolderKey, ids: seq<Id>, k: FolderKey)
    requires Fresh(store, ids)
    ensures Folders(WithNew(store, parent, key, ids), k) == Folders(store, k) + if k == key then Members(ids) else {}
  {
    NewTags(store, parent, key, ids);
    var store' := WithNew(store, parent, key, ids);
    forall d ensures d in Folders(store', k) <==> d in Folders(store, k) || (k == key && d in ids) {
      FolderIsVerified(store, d, k);
      FolderIsVerified(store', d, k);
    }
  }

  /** So many folders more of this key, and as many of every other key as before. */
  lemma FoldersOfNew(store: Store, parent: Id, key: FolderKey, ids: seq<Id>, k: FolderKey)
    requires Fresh(store, ids)
    ensures |Folders(WithNew(store, parent, key, ids), k)| == |Folders(store, k)| + if k == key then |ids| else 0
  {
    NewFolders(store, parent, key, ids, k);
    DistinctMembers(store, ids);
    assert Folders(store, key) !! Members(ids);
  }

  /* ----------------------- when a second folder appears -------------------- */

  /** A folder of this key is there, but not under this parent. */
  ghost predicate Elsewhere(store: Store, parent: Id, key: FolderKey) {
    Folders(store, key) != {} && Candidates(store, parent, key) == {}
  }

  /** Folders created beside another one of their key under the same parent. */
  ghost function Extra(s: State, parent: Id, key: FolderKey, calls: Calls): nat {
    if !Creates(s, parent, key, calls) then 0
    else if Candidates(s.store, parent, key) == {} then |calls.made| - 1 else |calls.made|
  }

  /** With one parent each, a folder that exists lies where it is searched for. */
  lemma OneParentNeverElsewhere(shape: Shape, s: State, key: FolderKey, under: FolderKey)
    requires ProperShape(shape) && OneParent(shape) && UniqueTags(shape, s.store) && Tagged(shape, s)
    requires InShape(shape, key) && ParentReady(shape, s, key, under)
    ensures !Elsewhere(s.store, ParentDest(shape, s, key, under), key)
  {
    if Folders(s.store, key) != {} {
      var d :| d in Folders(s.store, key);
      assert Verified(s.store, d, key) && Placed(shape, s.store, d, key);
      assert d in Candidates(s.store, ParentDest(shape, s, key, under), key);
    }
  }

  /** If the folder exists and the search gets through, it is found, whatever log survived. */
  lemma ExistingIsFound(shape: Shape, s: State, key: FolderKey, under: FolderKey, d: Id, calls: Calls)
    requires ProperShape(shape) && OneParent(shape) && UniqueTags(shape, s.store) && Tagged(shape, s)
    requires InShape(shape, key) && ParentReady(shape, s, key, under) && Verified(s.store, d, key) && calls.searchOk
    ensures Found(s, ParentDest(shape, s, key, under), key, calls) == Some(d)
  {
    OneParentNeverElsewhere(shape, s, key, under);
    assert d in Folders(s.store, key);
    var found := Found(s, ParentDest(shape, s, key, under), key, calls);
    assert Verified(s.store, found.value, key);
  }

  /**
    One resolution leaves a second folder of its key exactly if it creates one although a folder
    of that key is there, or creates more than one: the remembered one is not confirmed, and the
    search fails, or the folder lies under another parent, or a creation that took effect was
    repeated.
   */
  lemma SecondFolderExactlyWhen(shape: Shape, s: State, key: FolderKey, under: FolderKey, calls: Calls)
    requires UniqueTags(shape, s.store) && InShape(shape, key) && Enabled(shape, s, Resolve(key, under, calls))
    ensures var after := Apply(shape, s, Resolve(key, under, calls));
            var parent := ParentDest(shape, s, key, under);
            |Folders(after.store, key)| > 1 <==>
              && !Confirmed(s, key, calls.verifyOk) && calls.made != []
              && (|| (!calls.searchOk && exists d :: Verified(s.store, d, key))
                  || (exists d :: Verified(s.store, d, key) && s.store[d].parent != parent)
                  || (|calls.made| > 1 && (calls.searchOk ==> !exists d :: Verified(s.store, d, key))))
  {
    var parent := ParentDest(shape, s, key, under);
    NoneTagged(s.store, key);
    FoldersOfNew(s.store, parent, key, calls.made, key);
    if exists d :: Verified(s.store, d, key) {
      var d :| Verified(s.store, d, key);
      OneFolderOf(shape, s.store, key, d);
      OnlyCandidate(s.store, parent, key, d);
    } else {
      assert Candidates(s.store, parent, key) <= Folders(s.store, key);
    }
  }

  lemma OnlyCandidate(store: Store, parent: Id, key: FolderKey, d: Id)
    requires Folders(store, key) == {d} && d in store
    ensures Candidates(store, parent, key) == if store[d].parent == parent then {d} else {}
  {
    assert d in Folders(store, key);
    forall e ensures e in Candidates(store, parent, key) <==> e == d && store[d].parent == parent {
      assert e in Candidates(store, parent, key) ==> e in Folders(store, key);
    }
  }

  lemma OneFolderOf(shape: Shape, store: Store, key: FolderKey, d: Id)
    requires UniqueTags(shape, store) && InShape(shape, key) && Verified(store, d, key)
    ensures Folders(store, key) == {d}
    ensures forall e :: Verified(store, e, key) ==> e == d
  {
    forall e | e in Folders(store, key) ensures e == d {
      assert Verified(store, e, key);
    }
  }

  /* ------------------------ whole histories, any calls --------------------- */

  /** Tags are kept for good, and new folders go under a folder of their source parent. */
  lemma CreationKeepsTags(shape: Shape, s: State, key: FolderKey, under: FolderKey, calls: Calls)
    requires ProperShape(shape) && Tagged(shape, s) && Enabled(shape, s, Resolve(key, under, calls))
    requires Creates(s, ParentDest(shape, s, key, under), key, calls)
    ensures Tagged(shape, Apply(shape, s, Resolve(key, under, calls)))
    ensures forall d, k :: Verified(s.store, d, k) ==> Verified(Apply(shape, s, Resolve(key, under, calls)).store, d, k)
  {
    var parent := ParentDest(shape, s, key, under);
    NewTags(s.store, parent, key, calls.made);
    var store' := WithNew(s.store, parent, key, calls.made);
    forall d, k | Verified(store', d, k) && InShape(shape, k) ensures Placed(shape, store', d, k) {
      if Verified(s.store, d, k) {
        assert Placed(shape, s.store, d, k);
      }
    }
  }

  lemma AddingKeepsTags(shape: Shape, s: State, d: Id, file: DriveFile)
    requires ProperShape(shape) && Tagged(shape, s) && d in s.store
    ensures Tagged(shape, Apply(shape, s, AddFile(d, file)))
    ensures forall e, k :: Verified(Apply(shape, s, AddFile(d, file)).store, e, k) <==> Verified(s.store, e, k)
  {
    var s' := Apply(shape, s, AddFile(d, file));
    assert forall e :: e in s.store ==> s'.store[e].tag == s.store[e].tag && s'.store[e].parent == s.store[e].parent;
    forall e, k | Verified(s'.store, e, k) && InShape(shape, k) ensures Placed(shape, s'.store, e, k) {
      assert Placed(shape, s.store, e, k);
    }
  }

  lemma StepKeepsTags(shape: Shape, s: State, step: Step)
    requires ProperShape(shape) && Tagged(shape, s) && Enabled(shape, s, step)
    ensures Tagged(shape, Apply(shape, s, step))
    ensures forall d, key :: Verified(s.store, d, key) ==> Verified(Apply(shape, s, step).store, d, key)
  {
    match step {
      case Resolve(key, under, calls) =>
        if Creates(s, ParentDest(shape, s, key, under), key, calls) {
          CreationKeepsTags(shape, s, key, under, calls);
        }
      case AddFile(d, file) => AddingKeepsTags(shape, s, d, file);
      case Restart(_) =>
    }
  }

  /** New folders keep tags unique exactly if there is one of them and was none before. */
  lemma CreationKeepsUnique(shape: Shape, store: Store, parent: Id, key: FolderKey, made: seq<Id>)
    requires UniqueTags(shape, store) && Fresh(store, made) && InShape(shape, key) && made != []
    ensures UniqueTags(shape, WithNew(store, parent, key, made)) <==> Beside(store, key, made) == 0
  {
    var store' := WithNew(store, parent, key, made);
    NewTags(store, parent, key, made);
    NoneTagged(store, key);
    assert Verified(store', made[0], key);
    if Folders(store, key) != {} {
      var d :| Verified(store, d, key);
      assert Verified(store', d, key);
    } else if |made| > 1 {
      assert Verified(store', made[1], key);
    } else {
      forall d, e, k | InShape(shape, k) && Verified(store', d, k) && Verified(store', e, k) ensures d == e {
        assert k != key ==> Verified(store, d, k) && Verified(store, e, k);
      }
    }
  }

  /** While nothing slips, tags stay unique; a slip leaves two folders of one key. */
  lemma StepKeepsUnique(shape: Shape, s: State, step: Step)
    requires ProperShape(shape) && Tagged(shape, s) && Enabled(shape, s, step) && UniqueTags(shape, s.store)
    ensures s.slips <= Apply(shape, s, step).slips
    ensures UniqueTags(shape, Apply(shape, s, step).store) <==> Apply(shape, s, step).slips == s.slips
  {
    match step {
      case Resolve(key, under, calls) =>
        var parent := ParentDest(shape, s, key, under);
        if Creates(s, parent, key, calls) {
          CreationKeepsUnique(shape, s.store, parent, key, calls.made);
          MoreOf(s.slips, key, Beside(s.store, key, calls.made));
        }
      case AddFile(d, file) => AddingKeepsTags(shape, s, d, file);
      case Restart(_) =>
    }
  }

  lemma MoreOf<T>(m: multiset<T>, x: T, n: nat)
    ensures m <= m[x := m[x] + n] && (m[x := m[x] + n] == m <==> n == 0)
  {
    assert m[x := m[x] + n][x] == m[x] + n;
  }

  lemma {:induction false} RunKeepsTags(shape: Shape, s: State, steps: seq<Step>)
    requires ProperShape(shape) && Tagged(shape, s) && Runs(shape, s, steps)
    ensures Tagged(shape, After(shape, s, steps)) && s.slips <= After(shape, s, steps).slips
    ensures forall d, key :: Verified(s.store, d, key) ==> Verified(After(shape, s, steps).store, d, key)
    decreases |steps|
  {
    if steps != [] {
      StepKeepsTags(shape, s, steps[0]);
      RunKeepsTags(shape, Apply(shape, s, steps[0]), steps[1..]);
    }
  }

  lemma TwoStayTwo(shape: Shape, s: State, steps: seq<Step>)
    requires ProperShape(shape) && Tagged(shape, s) && Runs(shape, s, steps) && !UniqueTags(shape, s.store)
    ensures !UniqueTags(shape, After(shape, s, steps).store)
  {
    RunKeepsTags(shape, s, steps);
    var d, e, key :| InShape(shape, key) && Verified(s.store, d, key) && Verified(s.store, e, key) && d != e;
    var end := After(shape, s, steps);
    assert Verified(end.store, d, key) && Verified(end.store, e, key);
  }

  /**
    From a destination where the tool's folders are unique and nested, after any history of
    resolutions with failing and repeated calls, crashes and restarts with any log: no source
    folder has two destination folders if and only if nothing ever slipped.
   */
  lemma {:induction false} OneFolderExactlyWhenNoSlip(shape: Shape, s: State, steps: seq<Step>)
    requires ProperShape(shape) && Tagged(shape, s) && UniqueTags(shape, s.store) && Runs(shape, s, steps)
    ensures UniqueTags(shape, After(shape, s, steps).store) <==> After(shape, s, steps).slips == s.slips
    decreases |steps|
  {
    if steps != [] {
      var s1 := Apply(shape, s, steps[0]);
      StepKeepsTags(shape, s, steps[0]);
      StepKeepsUnique(shape, s, steps[0]);
      RunKeepsTags(shape, s1, steps[1..]);
      if UniqueTags(shape, s1.store) {
        OneFolderExactlyWhenNoSlip(shape, s1, steps[1..]);
      } else {
        TwoStayTwo(shape, s1, steps[1..]);
      }
    }
  }

  /** ... and then a run resolves each folder to the one it had before. */
  lemma SameFolderAsBefore(shape: Shape, s: State, steps: seq<Step>, key: FolderKey, d: Id)
    requires ProperShape(shape) && Tagged(shape, s) && UniqueTags(shape, s.store) && Runs(shape, s, steps)
    requires After(shape, s, steps).slips == s.slips && InShape(shape, key) && Verified(s.store, d, key)
    requires key in After(shape, s, steps).resolved
    ensures After(shape, s, steps).resolved[key] == d
  {
    OneFolderExactlyWhenNoSlip(shape, s, steps);
    RunKeepsTags(shape, s, steps);
    var end := After(shape, s, steps);
    assert Verified(end.store, d, key) && Verified(end.store, end.resolved[key], key);
  }

  /** A creation that took effect unconfirmed and was not repeated: one folder, and later runs use it. */
  lemma LostCreationIsFound(shape: Shape, s: State, key: FolderKey, under: FolderKey, calls: Calls, d: Id, steps: seq<Step>)
    requires ProperShape(shape) && Tagged(shape, s) && UniqueTags(shape, s.store) && InShape(shape, key)
    requires Enabled(shape, s, Resolve(key, under, calls)) && calls.made == [d] && !calls.confirmed
    requires Folders(s.store, key) == {}
    requires var s1 := Apply(shape, s, Resolve(key, under, calls));
             Runs(shape, s1, steps) && After(shape, s1, steps).slips == s1.slips
    ensures var s1 := Apply(shape, s, Resolve(key, under, calls));
            && s1.slips == s.slips && s1.resolved == s.resolved && Folders(s1.store, key) == {d}
            && (key in After(shape, s1, steps).resolved ==> After(shape, s1, steps).resolved[key] == d)
  {
    var step := Resolve(key, under, calls);
    var s1 := Apply(shape, s, step);
    var parent := ParentDest(shape, s, key, under);
    assert Creates(s, parent, key, calls) by {
      NoneTagged(s.store, key);
      assert Candidates(s.store, parent, key) <= Folders(s.store, key);
    }
    NewFolders(s.store, parent, key, [d], key);
    StepKeepsTags(shape, s, step);
    StepKeepsUnique(shape, s, step);
    MoreOf(s.slips, key, 0);
    if key in After(shape, s1, steps).resolved {
      assert Verified(s1.store, d, key);
      SameFolderAsBefore(shape, s1, steps, key, d);
    }
  }

  /* ---------------------------- how many there are ------------------------- */

  /** Exactly so many folders of the key as slipped, beyond those there were, or the first. */
  predicate AddsUp(before: State, after: State, key: FolderKey) {
    && before.slips[key] <= after.slips[key]
    && |Folders(after.store, key)| ==
       (if Folders(before.store, key) == {} && Folders(after.store, key) != {} then 1 else |Folders(before.store, key)|)
       + (after.slips[key] - before.slips[key])
    && (Folders(before.store, key) != {} ==> Folders(after.store, key) != {})
    && (Folders(after.store, key) == {} ==> after.slips[key] == before.slips[key])
  }

  lemma StepAddsUp(shape: Shape, s: State, step: Step, key: FolderKey)
    requires Enabled(shape, s, step)
    ensures AddsUp(s, Apply(shape, s, step), key)
  {
    var s' := Apply(shape, s, step);
    if step.Resolve? && Creates(s, ParentDest(shape, s, step.key, step.under), step.key, step.calls) {
      NewOnesAddUp(s, ParentDest(shape, s, step.key, step.under), step.key, step.calls.made, key, s');
    } else {
      assert Folders(s'.store, key) == Folders(s.store, key);
    }
  }

  lemma NewOnesAddUp(s: State, parent: Id, made: FolderKey, ids: seq<Id>, key: FolderKey, s': State)
    requires Fresh(s.store, ids) && ids != [] && s'.store == WithNew(s.store, parent, made, ids)
    requires s'.slips == s.slips[made := s.slips[made] + Beside(s.store, made, ids)]
    ensures AddsUp(s, s', key)
  {
    FoldersOfNew(s.store, parent, made, ids, key);
  }

  /** Whatever calls fail or are repeated, and wherever folders lie: every further folder is a slip. */
  lemma {:induction false} FoldersAreSlips(shape: Shape, s: State, steps: seq<Step>, key: FolderKey)
    requires Runs(shape, s, steps)
    ensures AddsUp(s, After(shape, s, steps), key)
    decreases |steps|
  {
    if steps != [] {
      StepAddsUp(shape, s, steps[0], key);
      FoldersAreSlips(shape, Apply(shape, s, steps[0]), steps[1..], key);
    }
  }

  /* --------------------- one parent each: what makes a slip ---------------- */

  /** The folders of a key that a run created beside another one under the same parent. */
  ghost function Extras(shape: Shape, s: State, steps: seq<Step>, key: FolderKey): nat
    requires Runs(shape, s, steps)
    decreases |steps|
  {
    if steps == [] then 0
    else ExtraIn(shape, s, steps[0], key) + Extras(shape, Apply(shape, s, steps[0]), steps[1..], key)
  }

  ghost function ExtraIn(shape: Shape, s: State, step: Step, key: FolderKey): nat
    requires Enabled(shape, s, step)
  {
    if step.Resolve? && step.key == key then Extra(s, ParentDest(shape, s, key, step.under), key, step.calls) else 0
  }

  /** No failed search beside an existing folder led to a creation, and no creation was repeated. */
  ghost predicate Careful(shape: Shape, s: State, steps: seq<Step>)
    requires Runs(shape, s, steps)
  {
    forall key :: InShape(shape, key) ==> Extras(shape, s, steps, key) == 0
  }

  lemma StepSlipsByExtra(shape: Shape, s: State, step: Step)
    requires ProperShape(shape) && OneParent(shape) && Tagged(shape, s) && Enabled(shape, s, step) && UniqueTags(shape, s.store)
    ensures Apply(shape, s, step).slips == s.slips
       <==> forall key :: InShape(shape, key) ==> ExtraIn(shape, s, step, key) == 0
  {
    if step.Resolve? {
      var key := step.key;
      var parent := ParentDest(shape, s, key, step.under);
      OneParentNeverElsewhere(shape, s, key, step.under);
      assert Candidates(s.store, parent, key) <= Folders(s.store, key);
      if Creates(s, parent, key, step.calls) {
        MoreOf(s.slips, key, Beside(s.store, key, step.calls.made));
        assert ExtraIn(shape, s, step, key) == Beside(s.store, key, step.calls.made);
      }
    }
  }

  /**
    If every folder is listed under one parent only: no source folder has two destination
    folders if and only if the run was careful.
   */
  lemma {:induction false} OneFolderExactlyWhenCareful(shape: Shape, s: State, steps: seq<Step>)
    requires ProperShape(shape) && OneParent(shape)
    requires Tagged(shape, s) && UniqueTags(shape, s.store) && Runs(shape, s, steps)
    ensures UniqueTags(shape, After(shape, s, steps).store) <==> Careful(shape, s, steps)
    decreases |steps|
  {
    if steps != [] {
      var s1 := Apply(shape, s, steps[0]);
      StepKeepsTags(shape, s, steps[0]);
      StepKeepsUnique(shape, s, steps[0]);
      StepSlipsByExtra(shape, s, steps[0]);
      assert forall key :: Extras(shape, s, steps, key)
                           == ExtraIn(shape, s, steps[0], key) + Extras(shape, s1, steps[1..], key);
      if UniqueTags(shape, s1.store) {
        OneFolderExactlyWhenCareful(shape, s1, steps[1..]);
      } else {
        TwoStayTwo(shape, s1, steps[1..]);
      }
    }
  }

  /** The folders that hold a folder of this key. */
  function Holders(store: Store, key: FolderKey): set<Id> {
    set d | d in Folders(store, key) :: store[d].parent
  }

  /** Every folder of a key beyond one per parent is one of n. */
  ghost predicate OnePerHolder(s: State, key: FolderKey, n: nat) {
    |Folders(s.store, key)| <= |Holders(s.store, key)| + n
  }

  lemma HoldersOfNew(store: Store, parent: Id, key: FolderKey, made: seq<Id>)
    requires Fresh(store, made) && made != []
    ensures Holders(WithNew(store, parent, key, made), key) == Holders(store, key) + {parent}
  {
    var store' := WithNew(store, parent, key, made);
    NewFolders(store, parent, key, made, key);
    NewTags(store, parent, key, made);
    assert made[0] in Folders(store', key) && store'[made[0]].parent == parent;
    forall p | p in Holders(store, key) ensures p in Holders(store', key) {
      var d :| d in Folders(store, key) && store[d].parent == p;
      assert d in Folders(store', key) && store'[d].parent == p;
    }
  }

  lemma CreationKeepsOnePerHolder(s: State, parent: Id, key: FolderKey, calls: Calls, n: nat)
    requires OnePerHolder(s, key, n) && Fresh(s.store, calls.made) && Creates(s, parent, key, calls)
    ensures var store' := WithNew(s.store, parent, key, calls.made);
            |Folders(store', key)| <= |Holders(store', key)| + n + Extra(s, parent, key, calls)
  {
    FoldersOfNew(s.store, parent, key, calls.made, key);
    HoldersOfNew(s.store, parent, key, calls.made);
    if parent in Holders(s.store, key) {
      var d :| d in Folders(s.store, key) && s.store[d].parent == parent;
      assert d in Candidates(s.store, parent, key);
      assert Holders(s.store, key) + {parent} == Holders(s.store, key);
    }
  }

  lemma StepKeepsOnePerHolder(shape: Shape, s: State, step: Step, key: FolderKey, n: nat)
    requires Enabled(shape, s, step) && OnePerHolder(s, key, n)
    ensures OnePerHolder(Apply(shape, s, step), key, n + ExtraIn(shape, s, step, key))
  {
    var s' := Apply(shape, s, step);
    if step.Resolve? && step.key == key && Creates(s, ParentDest(shape, s, key, step.under), key, step.calls) {
      CreationKeepsOnePerHolder(s, ParentDest(shape, s, key, step.under), key, step.calls, n);
    } else {
      SameFoldersSameHolders(s.store, s'.store, key);
    }
  }

  lemma SameFoldersSameHolders(store: Store, store': Store, key: FolderKey)
    requires forall d :: d in Folders(store', key) <==> d in Folders(store, key)
    requires forall d :: d in Folders(store, key) ==> store'[d].parent == store[d].parent
    ensures Folders(store', key) == Folders(store, key) && Holders(store', key) == Holders(store, key)
  {
    forall p ensures p in Holders(store', key) <==> p in Holders(store, key) {
      if p in Holders(store, key) {
        var d :| d in Folders(store, key) && store[d].parent == p;
        assert d in Folders(store', key) && store'[d].parent == p;
      }
    }
  }

  lemma {:induction false} RunKeepsOnePerHolder(shape: Shape, s: State, steps: seq<Step>, key: FolderKey, n: nat)
    requires Runs(shape, s, steps) && OnePerHolder(s, key, n)
    ensures OnePerHolder(After(shape, s, steps), key, n + Extras(shape, s, steps, key))
    decreases |steps|
  {
    if steps != [] {
      StepKeepsOnePerHolder(shape, s, steps[0], key, n);
      RunKeepsOnePerHolder(shape, Apply(shape, s, steps[0]), steps[1..], key, n + ExtraIn(shape, s, steps[0], key));
    }
  }

  /** The keys from the root of the source down to some folder. */
  predicate Lineage(shape: Shape, keys: seq<FolderKey>) {
    && keys != [] && keys[0] == shape.root
    && forall i :: 0 < i < |keys| ==> keys[i] in shape.parents && shape.parents[keys[i]] == {keys[i-1]}
  }

  ghost function ExtrasAlong(shape: Shape, s: State, steps: seq<Step>, keys: seq<FolderKey>): nat
    requires Runs(shape, s, steps)
  {
    if keys == [] then 0
    else ExtrasAlong(shape, s, steps, keys[..|keys|-1]) + Extras(shape, s, steps, keys[|keys|-1])
  }

  lemma {:induction false} FoldersAlong(shape: Shape, s: State, steps: seq<Step>, keys: seq<FolderKey>)
    requires ProperShape(shape) && Runs(shape, s, steps) && Tagged(shape, After(shape, s, steps)) && Lineage(shape, keys)
    requires forall key :: key in keys ==> OnePerHolder(After(shape, s, steps), key, Extras(shape, s, steps, key))
    ensures |Folders(After(shape, s, steps).store, keys[|keys|-1])| <= 1 + ExtrasAlong(shape, s, steps, keys)
    decreases |keys|
  {
    var n := |keys| - 1;
    var key, store := keys[n], After(shape, s, steps).store;
    assert OnePerHolder(After(shape, s, steps), key, Extras(shape, s, steps, key));
    if n == 0 {
      HeldByRoot(shape, store, key);
      SubsetSize(Holders(store, key), {shape.destParent});
      assert keys[..0] == [];
    } else {
      var above := keys[..n];
      assert forall i :: 0 <= i < n ==> above[i] == keys[i];
      FoldersAlong(shape, s, steps, above);
      HeldByParent(shape, store, key, above[n-1]);
      SubsetSize(Holders(store, key), Folders(store, above[n-1]));
    }
  }

  lemma HeldByRoot(shape: Shape, store: Store, key: FolderKey)
    requires Nested(shape, store) && key == shape.root
    ensures Holders(store, key) <= {shape.destParent}
  {
    forall d | d in Folders(store, key) ensures store[d].parent == shape.destParent {
      assert Verified(store, d, key) && Placed(shape, store, d, key);
    }
  }

  lemma HeldByParent(shape: Shape, store: Store, key: FolderKey, p: FolderKey)
    requires ProperShape(shape) && Nested(shape, store) && key in shape.parents && shape.parents[key] == {p}
    ensures Holders(store, key) <= Folders(store, p)
  {
    forall d | d in Folders(store, key) ensures store[d].parent in Folders(store, p) {
      assert Verified(store, d, key) && Placed(shape, store, d, key);
    }
  }

  /**
    From a destination with unique, nested folders, whatever calls fail or are repeated: a
    folder with one parent at every level never has more destination folders than one plus the
    extra folders of its key and of the keys above it (a second parent folder is given children
    of its own).
   */
  lemma FoldersWithinSlips(shape: Shape, s: State, steps: seq<Step>, keys: seq<FolderKey>)
    requires ProperShape(shape) && Tagged(shape, s) && UniqueTags(shape, s.store) && Runs(shape, s, steps)
    requires Lineage(shape, keys)
    ensures |Folders(After(shape, s, steps).store, keys[|keys|-1])| <= 1 + ExtrasAlong(shape, s, steps, keys)
  {
    RunKeepsTags(shape, s, steps);
    forall key | key in keys ensures OnePerHolder(After(shape, s, steps), key, Extras(shape, s, steps, key)) {
      var i :| 0 <= i < |keys| && keys[i] == key;
      assert InShape(shape, key);
      UniqueIsOnePerHolder(shape, s, key);
      RunKeepsOnePerHolder(shape, s, steps, key, 0);
    }
    FoldersAlong(shape, s, steps, keys);
  }

  lemma UniqueIsOnePerHolder(shape: Shape, s: State, key: FolderKey)
    requires UniqueTags(shape, s.store) && InShape(shape, key)
    ensures OnePerHolder(s, key, 0)
  {
    if Folders(s.store, key) != {} {
      var d :| d in Folders(s.store, key);
      OneFolderOf(shape, s.store, key, d);
      assert s.store[d].parent in Holders(s.store, key);
    }
  }
}
