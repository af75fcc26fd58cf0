/**
  A dry run against the real run it previews (src/gdrive_turbo_copy/copier.py:589-633, 787-831).

  Prediction reads the destination once, as it was at the start. A dry run computes it with
  lookups that stop where a destination folder is missing. A real run, whose destination grows
  under it, turns out to compute it with lookups that may also re-attach a folder remembered
  in folder_map below a folder it had to create. The preview is exact precisely when such
  stray folders hold no match.
 */
module DryRun {
  import opened DriveModel
  import opened IndexSpec
  import opened IndexTheory
  import opened FolderSync
  import opened FolderResolution
  import opened Traversal
  import opened Engine

  /* ------------------------------- prediction ------------------------------ */

  /** What the files of some part of the tree come to. */
  datatype Forecast = Forecast(skipped: nat, toCopy: nat, bytes: nat, failed: nat)

  const NOTHING := Forecast(0, 0, 0, 0)

  function Plus(a: Forecast, b: Forecast): Forecast {
    Forecast(a.skipped + b.skipped, a.toCopy + b.toCopy, a.bytes + b.bytes, a.failed + b.failed)
  }

  /** The result counted exactly the forecast: as would-copy in a dry run, as copied otherwise. */
  predicate Counted(cfg: Config, before: Counts, after: Counts, c: Forecast) {
    && after.skipped == before.skipped + c.skipped
    && after.failed == before.failed + c.failed
    && after.wouldCopy == before.wouldCopy + (if cfg.dryRun then c.toCopy else 0)
    && after.wouldBytes == before.wouldBytes + (if cfg.dryRun then c.bytes else 0)
    && after.copied == before.copied + (if cfg.dryRun then 0 else c.toCopy)
    && after.copiedBytes == before.copiedBytes + (if cfg.dryRun then 0 else c.bytes)
  }

  /** Neither skipped nor failed before the call: too large to copy, or to be copied. */
  function BySize(t: Request): Forecast {
    if TooLarge(t) then Forecast(0, 0, 0, 1) else Forecast(0, 1, SizeOf(t.file), 0)
  }

  function Outcome(hit: bool, t: Request): Forecast {
    if hit then Forecast(1, 0, 0, 0) else BySize(t)
  }

  function FileOutcome(cfg: Config, idx: Index, t: Request): (Forecast, Index) {
    var (hit, idx') := FindMatch(cfg, idx, t);
    (Outcome(hit.Some?, t), idx')
  }

  ghost function LookupOn(store: Store, folderMap: map<Id, Id>, reattach: bool, dest: Option<Id>, key: FolderKey): Option<Id> {
    if dest.Some? then Lookup(store, folderMap, dest, key)
    else if reattach && key.id in folderMap && Verified(store, folderMap[key.id], key) then Some(folderMap[key.id])
    else None
  }

  ghost function Predict(cfg: Config, store: Store, fm: map<Id, Id>, reattach: bool, dest: Option<Id>,
                         idx: Index, nodes: seq<Node>): (Forecast, Index)
    decreases nodes
  {
    if nodes == [] then (NOTHING, idx)
    else
      var (c, idx') := PredictOne(cfg, store, fm, reattach, dest, idx, nodes[0]);
      var (rest, idx'') := Predict(cfg, store, fm, reattach, dest, idx', nodes[1..]);
      (Plus(c, rest), idx'')
  }

  ghost function PredictOne(cfg: Config, store: Store, fm: map<Id, Id>, reattach: bool, dest: Option<Id>,
                            idx: Index, node: Node): (Forecast, Index)
    decreases node
  {
    match node
    case FileNode(t) => FileOutcome(cfg, idx, t)
    case BrokenNode => (Forecast(0, 0, 0, 1), idx)
    case LoopNode(_) => (NOTHING, idx)
    case FolderNode(key, _, _, children) =>
      var sub := LookupOn(store, fm, reattach, dest, key);
      (Predict(cfg, store, fm, reattach, sub, IndexAt(store, sub), children).0, idx)
  }

  /* ------------------------- folders reached once -------------------------- */

  function Keys(nodes: seq<Node>): set<Id>
    decreases nodes
  {
    if nodes == [] then {} else KeysIn(nodes[0]) + Keys(nodes[1..])
  }

  function KeysIn(node: Node): set<Id>
    decreases node
  {
    if node.FolderNode? then {node.key.id} + Keys(node.children) else {}
  }

  /** No folder is reached twice, directly or through shortcuts. */
  predicate Distinct(nodes: seq<Node>)
    decreases nodes
  {
    nodes == [] || (DistinctIn(nodes[0]) && KeysIn(nodes[0]) !! Keys(nodes[1..]) && Distinct(nodes[1..]))
  }

  predicate DistinctIn(node: Node)
    decreases node
  {
    node.FolderNode? ==> node.key.id !in Keys(node.children) && Distinct(node.children)
  }

  predicate SameOn(a: map<Id, Id>, b: map<Id, Id>, keys: set<Id>) {
    forall k :: k in keys ==> (k in a <==> k in b) && (k in a ==> a[k] == b[k])
  }

  /* ------------------ the resume log does not change the outcome ----------- */

  lemma SettleCounts(cfg: Config, r: Run, dest: Option<Id>, hit: bool, t: Request)
    requires t.eff !in cfg.copyFails && t.eff !in cfg.unverified
    ensures Counted(cfg, r.counts, Settle(cfg, r, dest, hit, t).counts, Outcome(hit, t))
  {
  }

  lemma SettleFrame(cfg: Config, r: Run, dest: Option<Id>, hit: bool, t: Request)
    ensures Settle(cfg, r, dest, hit, t).folderMap == r.folderMap
    ensures cfg.dryRun ==> Settle(cfg, r, dest, hit, t).store == r.store
  {
  }

  lemma TagHitIsMatch(cfg: Config, idx: Index, t: Request)
    requires t.eff != "" && PopByAppProp(idx, Some(t.eff)).0.Some?
    ensures FindMatch(cfg, idx, t) == PopByAppProp(idx, Some(t.eff))
  {
  }

  /** Whether an id is in the log decides neither what happens to the file nor who is matched. */
  lemma LogDoesNotDecide(cfg: Config, r: Run, dest: Option<Id>, idx: Index, t: Request)
    requires t.eff != "" && t.eff !in cfg.copyFails && t.eff !in cfg.unverified
    ensures CopyFile(cfg, r, dest, idx, t).1 == FileOutcome(cfg, idx, t).1
    ensures Counted(cfg, r.counts, CopyFile(cfg, r, dest, idx, t).0.counts, FileOutcome(cfg, idx, t).0)
    ensures CopyFile(cfg, r, dest, idx, t).0.folderMap == r.folderMap
    ensures cfg.dryRun ==> CopyFile(cfg, r, dest, idx, t).0.store == r.store
  {
    var hit := FindMatch(cfg, idx, t).0.Some?;
    var r1 := if t.eff in r.copied then r.(copied := r.copied - {t.eff}) else r;
    SettleCounts(cfg, r1, dest, hit, t);
    SettleFrame(cfg, r1, dest, hit, t);
    if t.eff in r.copied && PopByAppProp(idx, Some(t.eff)).0.Some? {
      TagHitIsMatch(cfg, idx, t);
    } else {
      assert CopyFile(cfg, r, dest, idx, t) == (Settle(cfg, r1, dest, hit, t), FindMatch(cfg, idx, t).1);
    }
  }

  predicate NodeNamed(node: Node)
    decreases node
  {
    match node
    case FileNode(t) => t.eff != ""
    case FolderNode(_, _, _, children) => AllNamed(children)
    case _ => true
  }

  /** Every file is tracked under a non-empty id. */
  predicate AllNamed(nodes: seq<Node>)
    decreases nodes
  {
    nodes == [] || (NodeNamed(nodes[0]) && AllNamed(nodes[1..]))
  }

  /* ------------------------------ the dry run ------------------------------ */

  predicate SameAt(a: map<Id, Id>, b: map<Id, Id>, k: Id) {
    (k in a <==> k in b) && (k in a ==> a[k] == b[k])
  }

  /** Only entries for these keys may differ. */
  ghost predicate ChangedOnly(a: map<Id, Id>, b: map<Id, Id>, keys: set<Id>) {
    forall k :: k !in keys ==> SameAt(a, b, k)
  }

  /** The run r' counts what was predicted on top of r, and left the destination as it was. */
  ghost predicate DryResult(cfg: Config, r: Run, r': Run, c: Forecast, keys: set<Id>) {
    r'.store == r.store && Counted(cfg, r.counts, r'.counts, c) && ChangedOnly(r.folderMap, r'.folderMap, keys)
  }

  lemma DryResultsAdd(cfg: Config, r: Run, r1: Run, r2: Run, c: Forecast, d: Forecast, k1: set<Id>, k2: set<Id>)
    requires DryResult(cfg, r, r1, c, k1) && DryResult(cfg, r1, r2, d, k2)
    ensures DryResult(cfg, r, r2, Plus(c, d), k1 + k2)
  {
    forall k | k !in k1 + k2 ensures SameAt(r.folderMap, r2.folderMap, k) {
      assert SameAt(r.folderMap, r1.folderMap, k) && SameAt(r1.folderMap, r2.folderMap, k);
    }
  }

  lemma ChangedElsewhere(a: map<Id, Id>, b: map<Id, Id>, fm: map<Id, Id>, changed: set<Id>, keys: set<Id>)
    requires ChangedOnly(a, b, changed) && SameOn(a, fm, keys) && changed !! keys
    ensures SameOn(b, fm, keys)
  {
    assert forall k :: k in keys ==> SameAt(a, b, k);
  }

  lemma {:induction false} DryOne(cfg: Config, r: Run, fm: map<Id, Id>, dest: Option<Id>, idx: Index, node: Node)
    requires cfg.dryRun && Faultless(cfg) && NodeNamed(node) && DistinctIn(node) && SameOn(r.folderMap, fm, KeysIn(node))
    ensures DryResult(cfg, r, One(cfg, r, dest, idx, node).0, PredictOne(cfg, r.store, fm, false, dest, idx, node).0, KeysIn(node))
    ensures One(cfg, r, dest, idx, node).1 == PredictOne(cfg, r.store, fm, false, dest, idx, node).1
    decreases node
  {
    match node {
      case FileNode(t) => LogDoesNotDecide(cfg, r, dest, idx, t);
      case FolderNode(key, _, _, children) =>
        var (sub, r1) := GetOrCreate(cfg, r, dest, key);
        FaultlessLookup(cfg, r, dest, key);
        assert sub == LookupOn(r.store, fm, false, dest, key);
        assert DryResult(cfg, r, r1, NOTHING, {key.id});
        ChangedElsewhere(r.folderMap, r1.folderMap, fm, {key.id}, Keys(children));
        DryNodes(cfg, r1, fm, sub, IndexAt(r1.store, sub), children);
        DryResultsAdd(cfg, r, r1, Nodes(cfg, r1, sub, IndexAt(r1.store, sub), children).0, NOTHING,
                      Predict(cfg, r1.store, fm, false, sub, IndexAt(r1.store, sub), children).0, {key.id}, Keys(children));
      case _ =>
    }
  }

  /** A dry run leaves the destination alone and counts the prediction without re-attaching. */
  lemma {:induction false} DryNodes(cfg: Config, r: Run, fm: map<Id, Id>, dest: Option<Id>, idx: Index, nodes: seq<Node>)
    requires cfg.dryRun && Faultless(cfg) && AllNamed(nodes) && Distinct(nodes) && SameOn(r.folderMap, fm, Keys(nodes))
    ensures DryResult(cfg, r, Nodes(cfg, r, dest, idx, nodes).0, Predict(cfg, r.store, fm, false, dest, idx, nodes).0, Keys(nodes))
    ensures Nodes(cfg, r, dest, idx, nodes).1 == Predict(cfg, r.store, fm, false, dest, idx, nodes).1
    decreases nodes
  {
    if nodes != [] {
      var (r1, idx1) := One(cfg, r, dest, idx, nodes[0]);
      DryOne(cfg, r, fm, dest, idx, nodes[0]);
      ChangedElsewhere(r.folderMap, r1.folderMap, fm, KeysIn(nodes[0]), Keys(nodes[1..]));
      DryNodes(cfg, r1, fm, dest, idx1, nodes[1..]);
      DryResultsAdd(cfg, r, r1, Nodes(cfg, r1, dest, idx1, nodes[1..]).0,
                    PredictOne(cfg, r.store, fm, false, dest, idx, nodes[0]).0,
                    Predict(cfg, r.store, fm, false, dest, idx1, nodes[1..]).0, KeysIn(nodes[0]), Keys(nodes[1..]));
    }
  }

  /* ------------------------------ the real run ----------------------------- */

  /** The ids still to be handed out are distinct and unknown to the store. */
  ghost predicate FreshIds(cfg: Config, store: Store, from: nat) {
    && (forall m, n :: from <= m < n ==> NewId(cfg, m) != NewId(cfg, n))
    && (forall n :: n >= from ==> NewId(cfg, n) !in store)
    && (forall n, d :: n >= from && d in store ==> store[d].parent != NewId(cfg, n))
  }

  /** For folders with these keys, the store is what it was at the start, and so is folder_map. */
  ghost predicate Untouched(now: Store, fmNow: map<Id, Id>, start: Store, fm: map<Id, Id>, keys: set<Id>) {
    && SameOn(fmNow, fm, keys)
    && (forall d, key: FolderKey :: key.id in keys ==> (Verified(now, d, key) <==> Verified(start, d, key)))
    && (forall d, key: FolderKey :: key.id in keys && Verified(start, d, key) ==> now[d] == start[d])
  }

  /**
    p, the folder being filled: the one found at the start, or one created since; and filling
    it does not touch any folder of these keys.
   */
  ghost predicate Filling(now: Store, start: Store, p: Id, dest: Option<Id>, keys: set<Id>) {
    && p in now
    && (now[p].tag.Some? ==> now[p].tag.value.id !in keys)
    && (if dest.Some? then dest.value == p && p in start
        else p !in start && forall d :: d in start ==> start[d].parent != p)
  }

  /** Folders stay where they are and keep their tags. */
  ghost predicate Kept(before: Store, after: Store) {
    forall d :: d in before ==> d in after && after[d].parent == before[d].parent && after[d].tag == before[d].tag
  }

  ghost predicate Simulates(cfg: Config, r: Run, start: Store, fm: map<Id, Id>, keys: set<Id>) {
    Untouched(r.store, r.folderMap, start, fm, keys) && FreshIds(cfg, r.store, r.supply) && FreshIds(cfg, start, r.supply)
  }

  lemma KeptFilling(before: Store, after: Store, start: Store, p: Id, dest: Option<Id>, keys: set<Id>, fewer: set<Id>)
    requires Filling(before, start, p, dest, keys) && Kept(before, after) && fewer <= keys
    ensures Filling(after, start, p, dest, fewer)
  {
  }

  lemma WithFileUntouched(store: Store, p: Id, f: DriveFile, fmNow: map<Id, Id>, start: Store, fm: map<Id, Id>, keys: set<Id>)
    requires Untouched(store, fmNow, start, fm, keys) && p in store
    requires store[p].tag.Some? ==> store[p].tag.value.id !in keys
    ensures Untouched(WithFile(store, Some(p), f), fmNow, start, fm, keys)
  {
    var now := WithFile(store, Some(p), f);
    assert forall d, key: FolderKey :: Verified(now, d, key) <==> Verified(store, d, key);
  }

  /** Settling one file touches at most the folder being filled. */
  lemma CopySimulates(cfg: Config, r: Run, start: Store, fm: map<Id, Id>, p: Id, dest: Option<Id>, idx: Index,
                      t: Request, keys: set<Id>)
    requires !cfg.dryRun && Faultless(cfg) && t.eff != ""
    requires Simulates(cfg, r, start, fm, keys) && Filling(r.store, start, p, dest, keys)
    ensures var r' := CopyFile(cfg, r, Some(p), idx, t).0;
            Simulates(cfg, r', start, fm, keys) && Kept(r.store, r'.store)
  {
    WithFileUntouched(r.store, p, CopyOf(t, NewId(cfg, r.supply)), r.folderMap, start, fm, keys);
    CopyEffect(cfg, r, p, idx, t);
  }

  /** At most one new file, in the folder being filled. */
  lemma CopyEffect(cfg: Config, r: Run, p: Id, idx: Index, t: Request)
    requires !cfg.dryRun && Faultless(cfg)
    ensures var r' := CopyFile(cfg, r, Some(p), idx, t).0;
            && r'.folderMap == r.folderMap
            && (|| (r'.store == r.store && r'.supply == r.supply)
                || (&& r'.store == WithFile(r.store, Some(p), CopyOf(t, NewId(cfg, r.supply)))
                    && r'.supply == r.supply + 1))
  {
  }

  lemma SameLookup(r: Run, start: Store, fm: map<Id, Id>, p: Id, dest: Option<Id>, key: FolderKey, keys: set<Id>)
    requires Untouched(r.store, r.folderMap, start, fm, keys) && Filling(r.store, start, p, dest, keys) && key.id in keys
    ensures Lookup(r.store, r.folderMap, Some(p), key) == LookupOn(start, fm, true, dest, key)
  {
    assert forall d :: d in Candidates(r.store, p, key) <==> Verified(start, d, key) && start[d].parent == p;
    if dest.Some? {
      assert Candidates(r.store, p, key) == Candidates(start, p, key);
    } else {
      assert Candidates(r.store, p, key) == {};
    }
  }

  /** Resolving a subfolder agrees with the forecast, and afterwards only its own key is touched. */
  lemma FolderSimulates(cfg: Config, r: Run, start: Store, fm: map<Id, Id>, p: Id, dest: Option<Id>,
                        key: FolderKey, keys: set<Id>)
    requires !cfg.dryRun && Faultless(cfg) && Simulates(cfg, r, start, fm, keys)
    requires Filling(r.store, start, p, dest, keys) && key.id in keys
    ensures var (sub, r') := GetOrCreate(cfg, r, Some(p), key);
            var found := LookupOn(start, fm, true, dest, key);
            && sub.Some? && r'.counts == r.counts
            && Simulates(cfg, r', start, fm, keys - {key.id})
            && Filling(r'.store, start, sub.value, found, keys - {key.id})
            && IndexAt(r'.store, sub) == IndexAt(start, found)
            && Kept(r.store, r'.store)
  {
    FaultlessLookup(cfg, r, Some(p), key);
    SameLookup(r, start, fm, p, dest, key, keys);
    var found := LookupOn(start, fm, true, dest, key);
    var (sub, r') := GetOrCreate(cfg, r, Some(p), key);
    if found.Some? {
      assert Verified(start, found.value, key);
      assert Verified(r.store, found.value, key);
    } else {
      var n := NewId(cfg, r.supply);
      assert sub == Some(n) && n !in r.store && n !in start;
      assert forall d, k: FolderKey :: k.id in keys - {key.id} ==> (Verified(r'.store, d, k) <==> Verified(r.store, d, k));
      assert Build(r'.store[n].files) == EMPTY_INDEX;
      assert Untouched(r'.store, r'.folderMap, start, fm, keys - {key.id});
      assert FreshIds(cfg, r'.store, r'.supply);
    }
  }

  lemma CountsAdd(cfg: Config, a: Counts, b: Counts, c: Counts, x: Forecast, y: Forecast)
    requires Counted(cfg, a, b, x) && Counted(cfg, b, c, y)
    ensures Counted(cfg, a, c, Plus(x, y))
  {
  }

  lemma {:induction false} RealOne(cfg: Config, r: Run, start: Store, fm: map<Id, Id>, p: Id, dest: Option<Id>,
                                   idx: Index, node: Node, keys: set<Id>)
    requires !cfg.dryRun && Faultless(cfg) && NodeNamed(node) && DistinctIn(node) && KeysIn(node) <= keys
    requires Simulates(cfg, r, start, fm, keys) && Filling(r.store, start, p, dest, keys)
    ensures One(cfg, r, Some(p), idx, node).1 == PredictOne(cfg, start, fm, true, dest, idx, node).1
    ensures var r' := One(cfg, r, Some(p), idx, node).0;
            && Counted(cfg, r.counts, r'.counts, PredictOne(cfg, start, fm, true, dest, idx, node).0)
            && Simulates(cfg, r', start, fm, keys - KeysIn(node)) && Kept(r.store, r'.store)
    decreases node, 1
  {
    match node {
      case FileNode(t) =>
        LogDoesNotDecide(cfg, r, Some(p), idx, t);
        CopySimulates(cfg, r, start, fm, p, dest, idx, t, keys);
        assert keys - KeysIn(node) == keys;
      case FolderNode(_, _, _, _) => RealFolder(cfg, r, start, fm, p, dest, idx, node, keys);
      case _ =>
        assert keys - KeysIn(node) == keys;
    }
  }

  lemma {:induction false} RealFolder(cfg: Config, r: Run, start: Store, fm: map<Id, Id>, p: Id, dest: Option<Id>,
                                      idx: Index, node: Node, keys: set<Id>)
    requires !cfg.dryRun && Faultless(cfg) && NodeNamed(node) && DistinctIn(node) && KeysIn(node) <= keys
    requires Simulates(cfg, r, start, fm, keys) && Filling(r.store, start, p, dest, keys) && node.FolderNode?
    ensures One(cfg, r, Some(p), idx, node).1 == idx
    ensures var r' := One(cfg, r, Some(p), idx, node).0;
            && Counted(cfg, r.counts, r'.counts, PredictOne(cfg, start, fm, true, dest, idx, node).0)
            && Simulates(cfg, r', start, fm, keys - KeysIn(node)) && Kept(r.store, r'.store)
    decreases node, 0
  {
    var key, children := node.key, node.children;
    var (sub, r1) := GetOrCreate(cfg, r, Some(p), key);
    var found := LookupOn(start, fm, true, dest, key);
    FolderSimulates(cfg, r, start, fm, p, dest, key, keys);
    RealNodes(cfg, r1, start, fm, sub.value, found, IndexAt(r1.store, sub), children, keys - {key.id});
    assert keys - KeysIn(node) == keys - {key.id} - Keys(children);
  }

  /** A real run counts the prediction with re-attaching, although its destination grows meanwhile. */
  lemma {:induction false} RealNodes(cfg: Config, r: Run, start: Store, fm: map<Id, Id>, p: Id, dest: Option<Id>,
                                     idx: Index, nodes: seq<Node>, keys: set<Id>)
    requires !cfg.dryRun && Faultless(cfg) && AllNamed(nodes) && Distinct(nodes) && Keys(nodes) <= keys
    requires Simulates(cfg, r, start, fm, keys) && Filling(r.store, start, p, dest, keys)
    ensures Nodes(cfg, r, Some(p), idx, nodes).1 == Predict(cfg, start, fm, true, dest, idx, nodes).1
    ensures var r' := Nodes(cfg, r, Some(p), idx, nodes).0;
            && Counted(cfg, r.counts, r'.counts, Predict(cfg, start, fm, true, dest, idx, nodes).0)
            && Simulates(cfg, r', start, fm, keys - Keys(nodes)) && Kept(r.store, r'.store)
    decreases nodes, 0
  {
    if nodes == [] {
      assert keys - Keys(nodes) == keys;
    } else {
      var (r1, idx1) := One(cfg, r, Some(p), idx, nodes[0]);
      var fewer := keys - KeysIn(nodes[0]);
      RealOne(cfg, r, start, fm, p, dest, idx, nodes[0], keys);
      KeptFilling(r.store, r1.store, start, p, dest, keys, fewer);
      RealNodes(cfg, r1, start, fm, p, dest, idx1, nodes[1..], fewer);
      CountsAdd(cfg, r.counts, r1.counts, Nodes(cfg, r1, Some(p), idx1, nodes[1..]).0.counts,
                PredictOne(cfg, start, fm, true, dest, idx, nodes[0]).0,
                Predict(cfg, start, fm, true, dest, idx1, nodes[1..]).0);
      assert keys - Keys(nodes) == fewer - Keys(nodes[1..]);
    }
  }

  /* ------------------------------ stray folders ---------------------------- */

  /** The forecast when nothing is matched. */
  function AllBySize(nodes: seq<Node>): Forecast
    decreases nodes
  {
    if nodes == [] then NOTHING else Plus(OneBySize(nodes[0]), AllBySize(nodes[1..]))
  }

  function OneBySize(node: Node): Forecast
    decreases node
  {
    match node
    case FileNode(t) => BySize(t)
    case BrokenNode => Forecast(0, 0, 0, 1)
    case LoopNode(_) => NOTHING
    case FolderNode(_, _, _, children) => AllBySize(children)
  }

  lemma {:induction false} UnmatchedIsBySize(cfg: Config, store: Store, fm: map<Id, Id>, reattach: bool,
                                             dest: Option<Id>, idx: Index, nodes: seq<Node>)
    ensures Predict(cfg, store, fm, reattach, dest, idx, nodes).0.skipped == 0 ==>
              Predict(cfg, store, fm, reattach, dest, idx, nodes).0 == AllBySize(nodes)
    decreases nodes, 1
  {
    if nodes != [] {
      var (c, idx1) := PredictOne(cfg, store, fm, reattach, dest, idx, nodes[0]);
      UnmatchedOne(cfg, store, fm, reattach, dest, idx, nodes[0]);
      UnmatchedIsBySize(cfg, store, fm, reattach, dest, idx1, nodes[1..]);
    }
  }

  lemma {:induction false} UnmatchedOne(cfg: Config, store: Store, fm: map<Id, Id>, reattach: bool,
                                        dest: Option<Id>, idx: Index, node: Node)
    ensures PredictOne(cfg, store, fm, reattach, dest, idx, node).0.skipped == 0 ==>
              PredictOne(cfg, store, fm, reattach, dest, idx, node).0 == OneBySize(node)
    decreases node, 0
  {
    if node.FolderNode? {
      var sub := LookupOn(store, fm, reattach, dest, node.key);
      UnmatchedIsBySize(cfg, store, fm, reattach, sub, IndexAt(store, sub), node.children);
    }
  }

  lemma EmptyHasNoMatch(cfg: Config, t: Request)
    ensures FileOutcome(cfg, EMPTY_INDEX, t) == (BySize(t), EMPTY_INDEX)
  {
    assert FindMatch(cfg, EMPTY_INDEX, t).0.None?;
  }

  lemma {:induction false} NothingThereIsBySize(cfg: Config, store: Store, fm: map<Id, Id>, reattach: bool, nodes: seq<Node>)
    requires reattach ==> fm == map[]
    ensures Predict(cfg, store, fm, reattach, None, EMPTY_INDEX, nodes) == (AllBySize(nodes), EMPTY_INDEX)
    ensures AllBySize(nodes).skipped == 0
    decreases nodes
  {
    if nodes != [] {
      NothingThereIsBySize(cfg, store, fm, reattach, nodes[1..]);
      NothingThereForOne(cfg, store, fm, reattach, nodes[0]);
    }
  }

  lemma {:induction false} NothingThereForOne(cfg: Config, store: Store, fm: map<Id, Id>, reattach: bool, node: Node)
    requires reattach ==> fm == map[]
    ensures PredictOne(cfg, store, fm, reattach, None, EMPTY_INDEX, node) == (OneBySize(node), EMPTY_INDEX)
    ensures OneBySize(node).skipped == 0
    decreases node
  {
    match node {
      case FileNode(t) => EmptyHasNoMatch(cfg, t);
      case FolderNode(key, _, _, children) =>
        assert LookupOn(store, fm, reattach, None, key).None?;
        NothingThereIsBySize(cfg, store, fm, reattach, children);
      case _ =>
    }
  }

  /** Matches found in folders that folder_map re-attaches somewhere below a missing folder. */
  ghost function StrayMatches(cfg: Config, store: Store, fm: map<Id, Id>, dest: Id, nodes: seq<Node>): nat
    decreases nodes, 1
  {
    if nodes == [] then 0
    else StrayMatchesIn(cfg, store, fm, dest, nodes[0]) + StrayMatches(cfg, store, fm, dest, nodes[1..])
  }

  ghost function StrayMatchesIn(cfg: Config, store: Store, fm: map<Id, Id>, dest: Id, node: Node): nat
    decreases node, 0
  {
    if !node.FolderNode? then 0
    else
      var sub := Lookup(store, fm, Some(dest), node.key);
      if sub.Some? then StrayMatches(cfg, store, fm, sub.value, node.children)
      else Predict(cfg, store, fm, true, None, EMPTY_INDEX, node.children).0.skipped
  }

  lemma {:induction false} StraysAreTheDifference(cfg: Config, store: Store, fm: map<Id, Id>, dest: Id,
                                                  idx: Index, nodes: seq<Node>)
    ensures var (actual, i) := Predict(cfg, store, fm, true, Some(dest), idx, nodes);
            var (dry, j) := Predict(cfg, store, fm, false, Some(dest), idx, nodes);
            && i == j
            && actual.skipped == dry.skipped + StrayMatches(cfg, store, fm, dest, nodes)
            && (StrayMatches(cfg, store, fm, dest, nodes) == 0 ==> actual == dry)
    decreases nodes, 1
  {
    if nodes != [] {
      var (c, idx1) := PredictOne(cfg, store, fm, true, Some(dest), idx, nodes[0]);
      StraysInOne(cfg, store, fm, dest, idx, nodes[0]);
      StraysAreTheDifference(cfg, store, fm, dest, idx1, nodes[1..]);
    }
  }

  lemma {:induction false} StraysInOne(cfg: Config, store: Store, fm: map<Id, Id>, dest: Id, idx: Index, node: Node)
    ensures var (actual, i) := PredictOne(cfg, store, fm, true, Some(dest), idx, node);
            var (dry, j) := PredictOne(cfg, store, fm, false, Some(dest), idx, node);
            && i == j
            && actual.skipped == dry.skipped + StrayMatchesIn(cfg, store, fm, dest, node)
            && (StrayMatchesIn(cfg, store, fm, dest, node) == 0 ==> actual == dry)
    decreases node, 0
  {
    if node.FolderNode? {
      var sub := Lookup(store, fm, Some(dest), node.key);
      if sub.Some? {
        StraysAreTheDifference(cfg, store, fm, sub.value, IndexAt(store, sub), node.children);
      } else {
        UnmatchedIsBySize(cfg, store, fm, true, None, EMPTY_INDEX, node.children);
        NothingThereIsBySize(cfg, store, fm, false, node.children);
      }
    }
  }

  /* ------------------------------- whole runs ------------------------------ */

  /** The preview said would-copy where the run copied, and the same skips and failures. */
  predicate Exact(preview: Counts, actual: Counts) {
    && preview.wouldCopy == actual.copied && preview.wouldBytes == actual.copiedBytes
    && preview.skipped == actual.skipped && preview.failed == actual.failed
  }

  lemma {:induction false} ModeDecides(cfg: Config, dry: Config, store: Store, fm: map<Id, Id>, reattach: bool,
                                       dest: Option<Id>, idx: Index, nodes: seq<Node>)
    requires dry == cfg.(dryRun := dry.dryRun)
    ensures Predict(dry, store, fm, reattach, dest, idx, nodes) == Predict(cfg, store, fm, reattach, dest, idx, nodes)
    decreases nodes
  {
    if nodes != [] {
      assert PredictOne(dry, store, fm, reattach, dest, idx, nodes[0]) == PredictOne(cfg, store, fm, reattach, dest, idx, nodes[0]) by {
        if nodes[0].FolderNode? {
          var sub := LookupOn(store, fm, reattach, dest, nodes[0].key);
          ModeDecides(cfg, dry, store, fm, reattach, sub, IndexAt(store, sub), nodes[0].children);
        }
      }
      ModeDecides(cfg, dry, store, fm, reattach, dest, PredictOne(cfg, store, fm, reattach, dest, idx, nodes[0]).1, nodes[1..]);
    }
  }

  /** Both runs start below an existing destination folder, from the same state. */
  lemma PreviewBelowExisting(cfg: Config, r: Run, d: Id, nodes: seq<Node>)
    requires !cfg.dryRun && Faultless(cfg) && AllNamed(nodes) && Distinct(nodes)
    requires FreshIds(cfg, r.store, r.supply) && r.counts == ZERO_COUNTS
    requires d in r.store && (r.store[d].tag.Some? ==> r.store[d].tag.value.id !in Keys(nodes))
    ensures Exact(Level(cfg.(dryRun := true), r, Some(d), nodes).counts, Level(cfg, r, Some(d), nodes).counts)
            <==> StrayMatches(cfg, r.store, r.folderMap, d, nodes) == 0
  {
    var dry := cfg.(dryRun := true);
    var idx := IndexAt(r.store, Some(d));
    DryNodes(dry, r, r.folderMap, Some(d), idx, nodes);
    ModeDecides(cfg, dry, r.store, r.folderMap, false, Some(d), idx, nodes);
    RealNodes(cfg, r, r.store, r.folderMap, d, Some(d), idx, nodes, Keys(nodes));
    StraysAreTheDifference(cfg, r.store, r.folderMap, d, idx, nodes);
  }

  /** The destination root does not exist: the dry run has no folder, the real run a new one. */
  lemma PreviewBelowMissing(cfg: Config, r: Run, r': Run, n: Id, nodes: seq<Node>)
    requires !cfg.dryRun && Faultless(cfg) && AllNamed(nodes) && Distinct(nodes)
    requires r.counts == ZERO_COUNTS && r'.counts == ZERO_COUNTS && r.folderMap == map[]
    requires Simulates(cfg, r', r.store, map[], Keys(nodes)) && Filling(r'.store, r.store, n, None, Keys(nodes))
    requires r'.store[n].files == []
    ensures Exact(Level(cfg.(dryRun := true), r, None, nodes).counts, Level(cfg, r', Some(n), nodes).counts)
  {
    var dry := cfg.(dryRun := true);
    DryNodes(dry, r, map[], None, EMPTY_INDEX, nodes);
    NothingThereIsBySize(dry, r.store, map[], false, nodes);
    RealNodes(cfg, r', r.store, map[], n, None, EMPTY_INDEX, nodes, Keys(nodes));
    NothingThereIsBySize(cfg, r.store, map[], true, nodes);
  }

  /**
    A dry run predicts the real run that starts from the same state exactly, whether or not
    destination folders exist yet, if and only if no match lies in a folder that the resume
    log re-attaches below a folder that is missing.
   */
  lemma DryRunPredictsRealRun(cfg: Config, store: Store, supply: nat, destParent: Id, root: FolderKey,
                              logs: map<Id, SavedLog>, nodes: seq<Node>)
    requires !cfg.dryRun && Faultless(cfg) && AllNamed(nodes) && Distinct(nodes) && root.id !in Keys(nodes)
    requires FreshIds(cfg, store, supply)
    requires forall n :: n >= supply ==> NewId(cfg, n) != destParent && NewId(cfg, n) !in logs
    ensures var preview := WholeRun(cfg.(dryRun := true), store, supply, destParent, root, logs, nodes);
            var actual := WholeRun(cfg, store, supply, destParent, root, logs, nodes);
            var found := Lookup(store, map[], Some(destParent), root);
            Exact(preview.counts, actual.counts) <==>
              (found.Some? ==>
                StrayMatches(cfg, store, Resumed(logs, found.value, map[root.id := found.value]).folderMap, found.value, nodes) == 0)
  {
    var found := Lookup(store, map[], Some(destParent), root);
    var r0 := Run(store, map[], {}, ZERO_COUNTS, supply);
    FaultlessLookup(cfg, r0, Some(destParent), root);
    FaultlessLookup(cfg.(dryRun := true), r0, Some(destParent), root);
    var (dest, r1) := GetOrCreate(cfg, r0, Some(destParent), root);
    if found.Some? {
      var r2 := WithLog(r1, logs, found.value);
      assert WholeRun(cfg.(dryRun := true), store, supply, destParent, root, logs, nodes)
             == Level(cfg.(dryRun := true), r2, found, nodes);
      PreviewBelowExisting(cfg, r2, found.value, nodes);
    } else {
      var n := NewId(cfg, supply);
      assert WithLog(r1, logs, n) == r1;
      assert forall d, k: FolderKey :: k.id in Keys(nodes) ==> (Verified(r1.store, d, k) <==> Verified(store, d, k));
      assert FreshIds(cfg, r1.store, r1.supply);
      assert Simulates(cfg, r1, store, map[], Keys(nodes));
      PreviewBelowMissing(cfg, r0, r1, n, nodes);
    }
  }

  function FolderInFolder(a: Id, b: Id, t: Request): seq<Node> {
    [FolderNode(BySource(a), a, "", [FolderNode(BySource(b), b, "", [FileNode(t)])])]
  }

  /** a's copy is gone from the root d; the copy x of its subfolder b lies elsewhere. */
  function StrayStore(t: Request, root: FolderKey, b: Id, d: Id, x: Id): Store {
    map[d := DestFolder("", Some(root), []), x := DestFolder("", Some(BySource(b)), [CopyOf(t, "copy")])]
  }

  lemma StrayHit(cfg: Config, t: Request, files: seq<DriveFile>)
    requires t.eff != "" && t.file.id != "" && !t.file.IsFolder() && files == [CopyOf(t, "copy")]
    ensures FileOutcome(cfg, Build(files), t).0 == Forecast(1, 0, 0, 0)
  {
    assert files[..0] == [];
    assert t.eff in Build(files).appProps;
  }

  lemma Alone(cfg: Config, store: Store, fm: map<Id, Id>, reattach: bool, dest: Option<Id>, idx: Index, nodes: seq<Node>)
    requires |nodes| == 1
    ensures Predict(cfg, store, fm, reattach, dest, idx, nodes).0 == PredictOne(cfg, store, fm, reattach, dest, idx, nodes[0]).0
  {
    assert nodes[1..] == [];
  }

  lemma FolderIsMissing(t: Request, root: FolderKey, a: Id, b: Id, d: Id, x: Id)
    requires d != x && a != b && root.id != a
    ensures Lookup(StrayStore(t, root, b, d, x), map[b := x], Some(d), BySource(a)) == None
  {
    var store := StrayStore(t, root, b, d, x);
    forall e | e in store ensures store[e].tag != Some(BySource(a)) {
      assert BySource(b).id != a;
    }
    assert Candidates(store, d, BySource(a)) == {};
  }

  lemma OneFolder(cfg: Config, store: Store, fm: map<Id, Id>, reattach: bool, dest: Option<Id>, idx: Index,
                  node: Node, sub: Option<Id>)
    requires node.FolderNode? && sub == LookupOn(store, fm, reattach, dest, node.key)
    ensures Predict(cfg, store, fm, reattach, dest, idx, [node]).0
            == Predict(cfg, store, fm, reattach, sub, IndexAt(store, sub), node.children).0
  {
    Alone(cfg, store, fm, reattach, dest, idx, [node]);
  }

  lemma StrayForecast(cfg: Config, t: Request, root: FolderKey, a: Id, b: Id, d: Id, x: Id, reattach: bool)
    requires t.eff != "" && t.file.id != "" && !t.file.IsFolder() && d != x && a != b && root.id != a
    ensures Predict(cfg, StrayStore(t, root, b, d, x), map[b := x], reattach, Some(d), EMPTY_INDEX, FolderInFolder(a, b, t)).0
            == if reattach then Forecast(1, 0, 0, 0) else BySize(t)
  {
    var store, fm := StrayStore(t, root, b, d, x), map[b := x];
    var file := FileNode(t);
    var inner := FolderNode(BySource(b), b, "", [file]);
    var sub := if reattach then Some(x) else None;
    FolderIsMissing(t, root, a, b, d, x);
    OneFolder(cfg, store, fm, reattach, Some(d), EMPTY_INDEX, FolderNode(BySource(a), a, "", [inner]), None);
    OneFolder(cfg, store, fm, reattach, None, EMPTY_INDEX, inner, sub);
    Alone(cfg, store, fm, reattach, sub, IndexAt(store, sub), [file]);
    StrayHit(cfg, t, store[x].files);
    EmptyHasNoMatch(cfg, t);
  }

  /**
    Such strays exist: the log remembers x for b, so the run skips t, whose copy is in x, while
    the preview announces a copy of it.
   */
  lemma StrayFolderBreaksPreview(cfg: Config, supply: nat, t: Request, root: FolderKey, a: Id, b: Id, d: Id, x: Id)
    requires !cfg.dryRun && Faultless(cfg) && t.eff != "" && t.file.id != "" && !t.file.IsFolder() && !TooLarge(t)
    requires d != x && a != b && root.id != a && root.id != b
    requires FreshIds(cfg, StrayStore(t, root, b, d, x), supply)
    ensures var r := Run(StrayStore(t, root, b, d, x), map[b := x], {}, ZERO_COUNTS, supply);
            var preview := Level(cfg.(dryRun := true), r, Some(d), FolderInFolder(a, b, t)).counts;
            var actual := Level(cfg, r, Some(d), FolderInFolder(a, b, t)).counts;
            preview.wouldCopy == 1 && actual.copied == 0 && actual.skipped == 1
  {
    var store := StrayStore(t, root, b, d, x);
    var r := Run(store, map[b := x], {}, ZERO_COUNTS, supply);
    var dry := cfg.(dryRun := true);
    var nodes := FolderInFolder(a, b, t);
    StrayForecast(dry, t, root, a, b, d, x, false);
    StrayForecast(cfg, t, root, a, b, d, x, true);
    OneFolderInAnother(a, b, t);
    DryNodes(dry, r, r.folderMap, Some(d), EMPTY_INDEX, nodes);
    RealNodes(cfg, r, store, r.folderMap, d, Some(d), EMPTY_INDEX, nodes, Keys(nodes));
  }

  lemma OneFolderInAnother(a: Id, b: Id, t: Request)
    requires a != b && t.eff != ""
    ensures AllNamed(FolderInFolder(a, b, t)) && Distinct(FolderInFolder(a, b, t)) && Keys(FolderInFolder(a, b, t)) == {a, b}
  {
    var file := [FileNode(t)];
    var inner := [FolderNode(BySource(b), b, "", file)];
    var outer := FolderInFolder(a, b, t);
    assert file[1..] == [] && inner[1..] == [] && outer[1..] == [];
    assert outer[0] == FolderNode(BySource(a), a, "", inner);
    assert Distinct(file[1..]) && Distinct(inner[1..]) && Distinct(outer[1..]);
    assert AllNamed(file[1..]) && AllNamed(inner[1..]) && AllNamed(outer[1..]);
    assert Keys(file) == {} && Keys(inner) == {b};
    assert Distinct(file) && AllNamed(file);
    assert Distinct(inner) && AllNamed(inner);
  }
}
