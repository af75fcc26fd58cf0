/**
  One unstopped run of the copy engine with a single worker and no byte budget
  (src/gdrive_turbo_copy/copier.py:227-262, 309-327, 486-529, 576-695, 787-863), over the walk
  of the source as Traversal unfolds it. Copier performs it in place.
 */
module Engine {
  import opened DriveModel
  import opened IndexSpec
  import opened IndexTheory
  import opened FolderSync
  import opened FolderResolution
  import opened Traversal

  const GIB: nat := 1073741824
  const MAX_SINGLE_FILE_COPY_BYTES: nat := 750 * GIB

  /**
    `ids` are the ids the server hands out. The sets say which calls fail: copies that are not
    made, copies that are made but do not verify, and, per folder key, verifying the remembered
    folder, searching for one, and creating one.
   */
  datatype Config = Config(
    dryRun: bool,
    mode: VerifyMode,
    allowNameOnly: bool,
    ids: nat -> Id,
    copyFails: set<Id>,
    unverified: set<Id>,
    verifyFails: set<Id>,
    searchFails: set<Id>,
    createFails: set<Id>)

  predicate Faultless(cfg: Config) {
    && cfg.copyFails == {} && cfg.unverified == {}
    && cfg.verifyFails == {} && cfg.searchFails == {} && cfg.createFails == {}
  }

  function NewId(cfg: Config, n: nat): Id {
    cfg.ids(n)
  }

  datatype Counts = Counts(copied: nat, copiedBytes: nat, skipped: nat, wouldCopy: nat, wouldBytes: nat, failed: nat)

  const ZERO_COUNTS := Counts(0, 0, 0, 0, 0, 0)

  /** What a run changes: the destination, the resume state, the result, the ids used up. */
  datatype Run = Run(store: Store, folderMap: map<Id, Id>, copied: set<Id>, counts: Counts, supply: nat)

  /** The index of a destination folder; a folder that does not exist yet has nothing in it. */
  function IndexAt(store: Store, dest: Option<Id>): Index {
    if dest.Some? && dest.value in store then Build(store[dest.value].files) else EMPTY_INDEX
  }

  function WithFile(store: Store, dest: Option<Id>, f: DriveFile): Store {
    if dest.Some? && dest.value in store
    then store[dest.value := store[dest.value].(files := store[dest.value].files + [f])]
    else store
  }

  function FindMatch(cfg: Config, idx: Index, t: Request): (Option<Entry>, Index) {
    PopMatch(idx, t.file, cfg.mode, cfg.allowNameOnly, Some(t.eff))
  }

  predicate TooLarge(t: Request) {
    SizeOf(t.file) > MAX_SINGLE_FILE_COPY_BYTES
  }

  /** What becomes of a file once it is known whether the index had a match for it. */
  function Settle(cfg: Config, r: Run, dest: Option<Id>, hit: bool, t: Request): Run {
    var c := r.counts;
    if hit then r.(copied := r.copied + {t.eff}, counts := c.(skipped := c.skipped + 1))
    else if TooLarge(t) then r.(counts := c.(failed := c.failed + 1))
    else if cfg.dryRun then
      r.(counts := c.(wouldCopy := c.wouldCopy + 1, wouldBytes := c.wouldBytes + SizeOf(t.file)))
    else if t.eff in cfg.copyFails then r.(counts := c.(failed := c.failed + 1))
    else if t.eff in cfg.unverified then
      r.(store := WithFile(r.store, dest, CopyOf(t, NewId(cfg, r.supply))),
         supply := r.supply + 1,
         counts := c.(failed := c.failed + 1))
    else
      r.(store := WithFile(r.store, dest, CopyOf(t, NewId(cfg, r.supply))),
         supply := r.supply + 1,
         copied := r.copied + {t.eff},
         counts := c.(copied := c.copied + 1, copiedBytes := c.copiedBytes + SizeOf(t.file)))
  }

  /** The part of _copy_file after the resume check. */
  function MatchOrCopy(cfg: Config, r: Run, dest: Option<Id>, idx: Index, t: Request): (Run, Index) {
    var (hit, idx') := FindMatch(cfg, idx, t);
    (Settle(cfg, r, dest, hit.Some?, t), idx')
  }

  function CopyFile(cfg: Config, r: Run, dest: Option<Id>, idx: Index, t: Request): (Run, Index) {
    if t.eff !in r.copied then MatchOrCopy(cfg, r, dest, idx, t)
    else
      var (hit, idx') := PopByAppProp(idx, Some(t.eff));
      if hit.Some? then (r.(counts := r.counts.(skipped := r.counts.skipped + 1)), idx')
      else MatchOrCopy(cfg, r.(copied := r.copied - {t.eff}), dest, idx, t)
  }

  /** _find_dest_folder; a search that fails finds nothing. */
  ghost function Searched(cfg: Config, store: Store, parent: Id, key: FolderKey): Option<Id> {
    if key.id in cfg.searchFails then None else Find(store, parent, key)
  }

  /** The folder found without creating one; a remembered folder that cannot be verified is not used. */
  ghost function Existing(cfg: Config, r: Run, parent: Option<Id>, key: FolderKey): Option<Id> {
    if parent.None? then None
    else if key.id in r.folderMap && key.id !in cfg.verifyFails && Verified(r.store, r.folderMap[key.id], key) then
      Some(r.folderMap[key.id])
    else Searched(cfg, r.store, parent.value, key)
  }

  /** Without faults that is the plain lookup. */
  lemma FaultlessLookup(cfg: Config, r: Run, parent: Option<Id>, key: FolderKey)
    requires Faultless(cfg)
    ensures Existing(cfg, r, parent, key) == Lookup(r.store, r.folderMap, parent, key)
  {
  }

  ghost function GetOrCreate(cfg: Config, r: Run, parent: Option<Id>, key: FolderKey): (Option<Id>, Run) {
    var found := Existing(cfg, r, parent, key);
    if found.Some? then (found, r.(folderMap := r.folderMap[key.id := found.value]))
    else if cfg.dryRun || parent.None? || key.id in cfg.createFails then (None, r)
    else
      var newId := NewId(cfg, r.supply);
      (Some(newId),
       r.(store := r.store[newId := DestFolder(parent.value, Some(key), [])],
          folderMap := r.folderMap[key.id := newId],
          supply := r.supply + 1))
  }

  /** Children in order, with the index of their destination folder; subfolders recursively. */
  ghost function Nodes(cfg: Config, r: Run, dest: Option<Id>, idx: Index, nodes: seq<Node>): (Run, Index)
    decreases nodes
  {
    if nodes == [] then (r, idx)
    else
      var (r', idx') := One(cfg, r, dest, idx, nodes[0]);
      Nodes(cfg, r', dest, idx', nodes[1..])
  }

  ghost function One(cfg: Config, r: Run, dest: Option<Id>, idx: Index, node: Node): (Run, Index)
    decreases node
  {
    match node
    case FileNode(t) => CopyFile(cfg, r, dest, idx, t)
    case BrokenNode => (r.(counts := r.counts.(failed := r.counts.failed + 1)), idx)
    case LoopNode(_) => (r, idx)
    case FolderNode(key, _, _, children) =>
      var (sub, r') := GetOrCreate(cfg, r, dest, key);
      if sub.None? && !cfg.dryRun then (r'.(counts := r'.counts.(failed := r'.counts.failed + 1)), idx)
      else if children != []
      then (Nodes(cfg, r', sub, IndexAt(r'.store, sub), children).0, idx)
      else (r', idx)
  }

  /** A failed listing counts one failed item before anything below it is looked at. */
  lemma FailureCounts(cfg: Config, r: Run, dest: Option<Id>, idx: Index, g: Graph, folder: Id, nodes: seq<Node>)
    ensures Nodes(cfg, r, dest, idx, Failure(g, folder) + nodes)
            == Nodes(cfg, if ListingFails(g, folder) then r.(counts := r.counts.(failed := r.counts.failed + 1)) else r,
                     dest, idx, nodes)
  {
    if ListingFails(g, folder) {
      assert (Failure(g, folder) + nodes)[1..] == nodes;
    } else {
      assert [] + nodes == nodes;
    }
  }

  ghost function Level(cfg: Config, r: Run, dest: Option<Id>, nodes: seq<Node>): Run {
    Nodes(cfg, r, dest, IndexAt(r.store, dest), nodes).0
  }

  /** What a resume log found in the destination root holds. */
  datatype SavedLog = SavedLog(copied: set<Id>, folderMap: map<Id, Id>)

  /** _merge_resume: ids are united; an entry of this run's folder map wins over a logged one. */
  function Resumed(logs: map<Id, SavedLog>, dest: Id, own: map<Id, Id>): SavedLog {
    if dest in logs then SavedLog(logs[dest].copied, logs[dest].folderMap + own) else SavedLog({}, own)
  }

  function WithLog(r: Run, logs: map<Id, SavedLog>, dest: Id): Run {
    var log := Resumed(logs, dest, r.folderMap);
    r.(copied := r.copied + log.copied, folderMap := log.folderMap)
  }

  /**
    run(): resolve the destination root, load its log if it is there, then walk the source. A
    root that cannot be created ends the run; a preview goes on without one.
   */
  ghost function WholeRun(cfg: Config, store: Store, supply: nat, destParent: Id, root: FolderKey,
                          logs: map<Id, SavedLog>, nodes: seq<Node>): Run {
    var (dest, r) := GetOrCreate(cfg, Run(store, map[], {}, ZERO_COUNTS, supply), Some(destParent), root);
    if dest.Some? then Level(cfg, WithLog(r, logs, dest.value), dest, nodes)
    else if cfg.dryRun then Level(cfg, r, dest, nodes)
    else r
  }

  /* ------------------------ exactly one outcome each ----------------------- */

  function Total(c: Counts): nat {
    c.copied + c.skipped + c.wouldCopy + c.failed
  }

  /** Everything reached except folders and loop skips; a folder that cannot be created is itself an item. */
  ghost function Reached(cfg: Config, r: Run, dest: Option<Id>, idx: Index, nodes: seq<Node>): nat
    decreases nodes
  {
    if nodes == [] then 0
    else
      var (r', idx') := One(cfg, r, dest, idx, nodes[0]);
      ReachedIn(cfg, r, dest, idx, nodes[0]) + Reached(cfg, r', dest, idx', nodes[1..])
  }

  ghost function ReachedIn(cfg: Config, r: Run, dest: Option<Id>, idx: Index, node: Node): nat
    decreases node
  {
    match node
    case FileNode(_) => 1
    case BrokenNode => 1
    case LoopNode(_) => 0
    case FolderNode(key, _, _, children) =>
      var (sub, r') := GetOrCreate(cfg, r, dest, key);
      if sub.None? && !cfg.dryRun then 1 else Reached(cfg, r', sub, IndexAt(r'.store, sub), children)
  }

  lemma CopyHasOneOutcome(cfg: Config, r: Run, dest: Option<Id>, idx: Index, t: Request)
    ensures Total(CopyFile(cfg, r, dest, idx, t).0.counts) == Total(r.counts) + 1
  {
  }

  lemma {:induction false} NodeOutcomes(cfg: Config, r: Run, dest: Option<Id>, idx: Index, node: Node)
    ensures Total(One(cfg, r, dest, idx, node).0.counts) == Total(r.counts) + ReachedIn(cfg, r, dest, idx, node)
    decreases node
  {
    match node {
      case FileNode(t) => CopyHasOneOutcome(cfg, r, dest, idx, t);
      case FolderNode(key, _, _, children) =>
        var (sub, r') := GetOrCreate(cfg, r, dest, key);
        EveryItemHasOneOutcome(cfg, r', sub, IndexAt(r'.store, sub), children);
      case _ =>
    }
  }

  /** Whatever calls fail, every item reached adds exactly one outcome. */
  lemma {:induction false} EveryItemHasOneOutcome(cfg: Config, r: Run, dest: Option<Id>, idx: Index, nodes: seq<Node>)
    ensures Total(Nodes(cfg, r, dest, idx, nodes).0.counts) == Total(r.counts) + Reached(cfg, r, dest, idx, nodes)
    decreases nodes
  {
    if nodes != [] {
      var (r', idx') := One(cfg, r, dest, idx, nodes[0]);
      NodeOutcomes(cfg, r, dest, idx, nodes[0]);
      EveryItemHasOneOutcome(cfg, r', dest, idx', nodes[1..]);
    }
  }

  /** Everything the walk meets except folders and loop skips. */
  function Items(nodes: seq<Node>): nat
    decreases nodes
  {
    if nodes == [] then 0 else ItemsIn(nodes[0]) + Items(nodes[1..])
  }

  function ItemsIn(node: Node): nat
    decreases node
  {
    match node
    case FileNode(_) => 1
    case BrokenNode => 1
    case LoopNode(_) => 0
    case FolderNode(_, _, _, children) => Items(children)
  }

  /** Unless creating a folder fails, everything is reached. */
  lemma {:induction false} AllReached(cfg: Config, r: Run, dest: Option<Id>, idx: Index, nodes: seq<Node>)
    requires cfg.createFails == {} && (cfg.dryRun || dest.Some?)
    ensures Reached(cfg, r, dest, idx, nodes) == Items(nodes)
    decreases nodes
  {
    if nodes != [] {
      var (r', idx') := One(cfg, r, dest, idx, nodes[0]);
      if nodes[0].FolderNode? {
        var (sub, r1) := GetOrCreate(cfg, r, dest, nodes[0].key);
        AllReached(cfg, r1, sub, IndexAt(r1.store, sub), nodes[0].children);
      }
      AllReached(cfg, r', dest, idx', nodes[1..]);
    }
  }

  /** In particular, of a walk of any graph: copied, skipped, failed or would-copy, once each. */
  lemma WalkOutcomes(cfg: Config, r: Run, dest: Id, g: Graph, visited: set<Id>, children: seq<DriveFile>)
    requires cfg.createFails == {}
    ensures var nodes := Unfold(g, visited, children);
            Total(Level(cfg, r, Some(dest), nodes).counts) == Total(r.counts) + Items(nodes)
  {
    var nodes := Unfold(g, visited, children);
    EveryItemHasOneOutcome(cfg, r, Some(dest), IndexAt(r.store, Some(dest)), nodes);
    AllReached(cfg, r, Some(dest), IndexAt(r.store, Some(dest)), nodes);
  }
}
