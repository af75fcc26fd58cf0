/**
  What a run does, as a log of events (src/gdrive_turbo_copy/copier.py:486-529, 576-695,
  787-831): for every file whether it was found, refused, announced, copied, or why not, and for
  every folder how it was resolved.

  The events are read off the source tree, the index and the calls that fail; the engine's run
  turns out to be the replay of them, whatever fails. So each counter is a number of events, the
  last event about an id decides whether it is recorded as copied, and every new record has a
  file at the destination.
 */
module Outcomes {
  import opened DriveModel
  import opened IndexSpec
  import opened IndexTheory
  import opened FolderSync
  import opened FolderResolution
  import opened Traversal
  import opened Engine

  datatype Event =
    | Found(t: Request, dest: Option<Id>, file: DriveFile)             // a file that was there serves
    | TooBig(t: Request)
    | Announced(t: Request)                                            // a dry run would copy it
    | NotMade(t: Request)                                              // the copy call failed
    | Stored(t: Request, dest: Option<Id>, newId: Id, verified: bool)
    | Inaccessible                                                         // a shortcut or a listing
    | NotCreated(key: FolderKey)
    | Created(key: FolderKey, parent: Id, newId: Id)
    | Resolved(key: FolderKey, d: Id)

  /* ------------------------------- the events ------------------------------ */

  function FileEvent(cfg: Config, r: Run, dest: Option<Id>, idx: Index, t: Request): Event {
    var hit := PopMatch(idx, t.file, cfg.mode, cfg.allowNameOnly, Some(t.eff)).0;
    if hit.Some? then Found(t, dest, hit.value.file)
    else if SizeOf(t.file) > 805306368000 then TooBig(t)
    else if cfg.dryRun then Announced(t)
    else if t.eff in cfg.copyFails then NotMade(t)
    else Stored(t, dest, cfg.ids(r.supply), t.eff !in cfg.unverified)
  }

  /** The calls of one resolution, as FolderResolution has them. */
  function CallsFor(cfg: Config, r: Run, key: FolderKey): Calls {
    Calls(key.id !in cfg.verifyFails, key.id !in cfg.searchFails,
          if key.id in cfg.createFails then [] else [cfg.ids(r.supply)], key.id !in cfg.createFails)
  }

  /** The folders as FolderResolution sees them. */
  function FoldersOfRun(r: Run): FolderResolution.State {
    FolderResolution.State(r.store, r.folderMap, map[], multiset{})
  }

  ghost function FolderEvent(cfg: Config, r: Run, dest: Option<Id>, key: FolderKey): Event {
    if dest.None? then NotCreated(key)
    else
      var found := FolderResolution.Found(FoldersOfRun(r), dest.value, key, CallsFor(cfg, r, key));
      if found.Some? then Resolved(key, found.value)
      else if cfg.dryRun || key.id in cfg.createFails then NotCreated(key)
      else Created(key, dest.value, cfg.ids(r.supply))
  }

  function FolderAfter(e: Event): Option<Id> {
    match e
    case Created(_, _, newId) => Some(newId)
    case Resolved(_, d) => Some(d)
    case _ => None
  }

  function FilesIn(store: Store, dest: Option<Id>): seq<DriveFile> {
    if dest.Some? && dest.value in store then store[dest.value].files else []
  }

  ghost function Trace(cfg: Config, r: Run, dest: Option<Id>, idx: Index, nodes: seq<Node>): seq<Event>
    decreases nodes
  {
    if nodes == [] then []
    else
      var (r', idx') := One(cfg, r, dest, idx, nodes[0]);
      TraceOne(cfg, r, dest, idx, nodes[0]) + Trace(cfg, r', dest, idx', nodes[1..])
  }

  ghost function TraceOne(cfg: Config, r: Run, dest: Option<Id>, idx: Index, node: Node): seq<Event>
    decreases node
  {
    match node
    case FileNode(t) => [FileEvent(cfg, r, dest, idx, t)]
    case BrokenNode => [Inaccessible]
    case LoopNode(_) => []
    case FolderNode(key, _, _, children) =>
      var e := FolderEvent(cfg, r, dest, key);
      var sub := FolderAfter(e);
      var r' := Effect(r, e);
      if sub.None? && !cfg.dryRun then [e]
      else (if sub.None? then [] else [e]) + Trace(cfg, if sub.None? then r else r', sub, Build(FilesIn(r'.store, sub)), children)
  }

  /* ------------------------------- the replay ------------------------------ */

  /** What one event leaves behind; an id that was not settled is no longer recorded as copied. */
  function Effect(r: Run, e: Event): Run {
    var c := r.counts;
    match e
    case Found(t, _, _) => r.(copied := r.copied + {t.eff}, counts := c.(skipped := c.skipped + 1))
    case TooBig(t) => r.(copied := r.copied - {t.eff}, counts := c.(failed := c.failed + 1))
    case Announced(t) =>
      r.(copied := r.copied - {t.eff}, counts := c.(wouldCopy := c.wouldCopy + 1, wouldBytes := c.wouldBytes + SizeOf(t.file)))
    case NotMade(t) => r.(copied := r.copied - {t.eff}, counts := c.(failed := c.failed + 1))
    case Stored(t, dest, newId, verified) =>
      r.(store := Holding(r.store, dest, CopyOf(t, newId)), supply := r.supply + 1,
         copied := if verified then r.copied + {t.eff} else r.copied - {t.eff},
         counts := if verified then c.(copied := c.copied + 1, copiedBytes := c.copiedBytes + SizeOf(t.file))
                   else c.(failed := c.failed + 1))
    case Inaccessible => r.(counts := c.(failed := c.failed + 1))
    case NotCreated(_) => r.(counts := c.(failed := c.failed + 1))
    case Created(key, parent, newId) =>
      r.(store := r.store[newId := DestFolder(parent, Some(key), [])], folderMap := r.folderMap[key.id := newId],
         supply := r.supply + 1)
    case Resolved(key, d) => r.(folderMap := r.folderMap[key.id := d])
  }

  /** One file more in a folder. */
  function Holding(store: Store, dest: Option<Id>, f: DriveFile): Store {
    if dest.Some? && dest.value in store
    then store[dest.value := DestFolder(store[dest.value].parent, store[dest.value].tag, store[dest.value].files + [f])]
    else store
  }

  function Replay(r: Run, events: seq<Event>): Run {
    if events == [] then r else Effect(Replay(r, events[..|events|-1]), events[|events|-1])
  }

  lemma {:induction false} ReplayConcat(r: Run, a: seq<Event>, b: seq<Event>)
    ensures Replay(r, a + b) == Replay(Replay(r, a), b)
  {
    if b == [] {
      assert a + b == a;
    } else {
      assert (a + b)[..|a + b| - 1] == a + b[..|b|-1];
      ReplayConcat(r, a, b[..|b|-1]);
    }
  }

  lemma ReplaySingle(r: Run, e: Event)
    ensures Replay(r, [e]) == Effect(r, e)
  {
    assert [e][..0] == [];
  }

  /** Settled without or after asking the log: an id that is not in copied_ids any more. */
  lemma SettledIsEffect(cfg: Config, r: Run, dest: Option<Id>, idx: Index, t: Request)
    requires t.eff !in r.copied
    ensures MatchOrCopy(cfg, r, dest, idx, t).0 == Effect(r, FileEvent(cfg, r, dest, idx, t))
    ensures MatchOrCopy(cfg, r, dest, idx, t).1 == PopMatch(idx, t.file, cfg.mode, cfg.allowNameOnly, Some(t.eff)).1
  {
    assert r.copied - {t.eff} == r.copied;
  }

  /** An effect does not depend on whether the id was recorded before. */
  lemma EffectForgets(cfg: Config, r: Run, dest: Option<Id>, idx: Index, t: Request)
    ensures var e := FileEvent(cfg, r, dest, idx, t);
            var r1 := r.(copied := r.copied - {t.eff});
            FileEvent(cfg, r1, dest, idx, t) == e && Effect(r1, e) == Effect(r, e)
  {
    assert r.copied - {t.eff} + {t.eff} == r.copied + {t.eff};
    assert r.copied - {t.eff} - {t.eff} == r.copied - {t.eff};
  }

  lemma LogHitIsFound(cfg: Config, r: Run, dest: Option<Id>, idx: Index, t: Request)
    requires t.eff in r.copied && PopByAppProp(idx, Some(t.eff)).0.Some?
    ensures CopyFile(cfg, r, dest, idx, t).0 == Effect(r, FileEvent(cfg, r, dest, idx, t))
    ensures CopyFile(cfg, r, dest, idx, t).1 == PopMatch(idx, t.file, cfg.mode, cfg.allowNameOnly, Some(t.eff)).1
  {
    assert r.copied + {t.eff} == r.copied;
  }

  lemma FileIsReplay(cfg: Config, r: Run, dest: Option<Id>, idx: Index, t: Request)
    ensures CopyFile(cfg, r, dest, idx, t).0 == Replay(r, [FileEvent(cfg, r, dest, idx, t)])
    ensures CopyFile(cfg, r, dest, idx, t).1 == PopMatch(idx, t.file, cfg.mode, cfg.allowNameOnly, Some(t.eff)).1
  {
    ReplaySingle(r, FileEvent(cfg, r, dest, idx, t));
    if t.eff !in r.copied {
      SettledIsEffect(cfg, r, dest, idx, t);
    } else if PopByAppProp(idx, Some(t.eff)).0.Some? {
      LogHitIsFound(cfg, r, dest, idx, t);
    } else {
      EffectForgets(cfg, r, dest, idx, t);
      SettledIsEffect(cfg, r.(copied := r.copied - {t.eff}), dest, idx, t);
    }
  }

  lemma FolderIsResolved(cfg: Config, r: Run, dest: Option<Id>, key: FolderKey)
    ensures var e := FolderEvent(cfg, r, dest, key);
            GetOrCreate(cfg, r, dest, key) == (FolderAfter(e), if FolderAfter(e).Some? then Effect(r, e) else r)
  {
  }

  lemma {:induction false} NodeIsReplay(cfg: Config, r: Run, dest: Option<Id>, idx: Index, node: Node)
    ensures One(cfg, r, dest, idx, node).0 == Replay(r, TraceOne(cfg, r, dest, idx, node))
    decreases node
  {
    match node {
      case FileNode(t) => FileIsReplay(cfg, r, dest, idx, t);
      case BrokenNode => ReplaySingle(r, Inaccessible);
      case LoopNode(_) =>
      case FolderNode(key, _, _, children) =>
        FolderIsResolved(cfg, r, dest, key);
        FolderIsReplay(cfg, r, dest, idx, node);
    }
  }

  lemma {:induction false} FolderIsReplay(cfg: Config, r: Run, dest: Option<Id>, idx: Index, node: Node)
    requires node.FolderNode?
    ensures One(cfg, r, dest, idx, node).0 == Replay(r, TraceOne(cfg, r, dest, idx, node))
    decreases node.children, 2
  {
    var e := FolderEvent(cfg, r, dest, node.key);
    var sub := FolderAfter(e);
    FolderIsResolved(cfg, r, dest, node.key);
    if sub.Some? {
      var r1 := Effect(r, e);
      RunIsReplay(cfg, r1, sub, Build(FilesIn(r1.store, sub)), node.children);
      ReplayAfter(r, e, Trace(cfg, r1, sub, Build(FilesIn(r1.store, sub)), node.children));
      assert IndexAt(r1.store, sub) == Build(FilesIn(r1.store, sub));
    } else {
      UnresolvedIsReplay(cfg, r, dest, idx, node);
    }
  }

  lemma ReplayAfter(r: Run, e: Event, rest: seq<Event>)
    ensures Replay(r, [e] + rest) == Replay(Effect(r, e), rest)
  {
    ReplaySingle(r, e);
    ReplayConcat(r, [e], rest);
  }

  /** Without a folder a dry run goes on with nothing below; a real one counts a failure. */
  lemma {:induction false} UnresolvedIsReplay(cfg: Config, r: Run, dest: Option<Id>, idx: Index, node: Node)
    requires node.FolderNode? && FolderAfter(FolderEvent(cfg, r, dest, node.key)).None?
    ensures One(cfg, r, dest, idx, node).0 == Replay(r, TraceOne(cfg, r, dest, idx, node))
    decreases node.children, 1
  {
    FolderIsResolved(cfg, r, dest, node.key);
    if cfg.dryRun {
      RunIsReplay(cfg, r, None, Build([]), node.children);
      assert [] + Trace(cfg, r, None, Build([]), node.children) == Trace(cfg, r, None, Build([]), node.children);
    } else {
      ReplaySingle(r, NotCreated(node.key));
    }
  }

  /** Whatever calls fail, the run is the replay of its events. */
  lemma {:induction false} RunIsReplay(cfg: Config, r: Run, dest: Option<Id>, idx: Index, nodes: seq<Node>)
    ensures Nodes(cfg, r, dest, idx, nodes).0 == Replay(r, Trace(cfg, r, dest, idx, nodes))
    decreases nodes, 0
  {
    if nodes != [] {
      var (r', idx') := One(cfg, r, dest, idx, nodes[0]);
      NodeIsReplay(cfg, r, dest, idx, nodes[0]);
      RunIsReplay(cfg, r', dest, idx', nodes[1..]);
      ReplayConcat(r, TraceOne(cfg, r, dest, idx, nodes[0]), Trace(cfg, r', dest, idx', nodes[1..]));
    }
  }

  /* --------------------------- counters are events ------------------------- */

  predicate IsFailure(e: Event) {
    e.TooBig? || e.NotMade? || (e.Stored? && !e.verified) || e.Inaccessible? || e.NotCreated?
  }

  predicate IsCopy(e: Event) {
    e.Stored? && e.verified
  }

  predicate IsSkip(e: Event) {
    e.Found?
  }

  predicate IsAnnounced(e: Event) {
    e.Announced?
  }

  function Number(events: seq<Event>, p: Event -> bool): nat {
    if events == [] then 0 else Number(events[..|events|-1], p) + if p(events[|events|-1]) then 1 else 0
  }

  function Bytes(events: seq<Event>, p: Event -> bool): nat {
    if events == [] then 0
    else
      var e := events[|events|-1];
      Bytes(events[..|events|-1], p) + if p(e) && (e.Stored? || e.Announced?) then SizeOf(e.t.file) else 0
  }

  lemma {:induction false} ReplayCounts(r: Run, events: seq<Event>)
    ensures Replay(r, events).counts == Counts(
              r.counts.copied + Number(events, IsCopy), r.counts.copiedBytes + Bytes(events, IsCopy),
              r.counts.skipped + Number(events, IsSkip),
              r.counts.wouldCopy + Number(events, IsAnnounced), r.counts.wouldBytes + Bytes(events, IsAnnounced),
              r.counts.failed + Number(events, IsFailure))
  {
    if events != [] {
      ReplayCounts(r, events[..|events|-1]);
    }
  }

  /**
    `copied` and its bytes count exactly the copies made and verified, `failed` exactly the
    refused, unmade and unverified ones, inaccessible items and folders that were not created.
   */
  lemma CountsAreEvents(cfg: Config, r: Run, dest: Option<Id>, idx: Index, nodes: seq<Node>)
    ensures var events := Trace(cfg, r, dest, idx, nodes);
            Nodes(cfg, r, dest, idx, nodes).0.counts == Counts(
              r.counts.copied + Number(events, IsCopy), r.counts.copiedBytes + Bytes(events, IsCopy),
              r.counts.skipped + Number(events, IsSkip),
              r.counts.wouldCopy + Number(events, IsAnnounced), r.counts.wouldBytes + Bytes(events, IsAnnounced),
              r.counts.failed + Number(events, IsFailure))
  {
    RunIsReplay(cfg, r, dest, idx, nodes);
    ReplayCounts(r, Trace(cfg, r, dest, idx, nodes));
  }

  /* --------------------------- what is recorded ---------------------------- */

  predicate About(e: Event, id: Id) {
    (e.Found? || e.TooBig? || e.Announced? || e.NotMade? || e.Stored?) && e.t.eff == id
  }

  predicate LastAbout(events: seq<Event>, k: int, id: Id) {
    0 <= k < |events| && About(events[k], id) && forall j :: k < j < |events| ==> !About(events[j], id)
  }

  lemma EffectRecords(r: Run, e: Event, id: Id)
    ensures id in Effect(r, e).copied <==> if About(e, id) then IsSkip(e) || IsCopy(e) else id in r.copied
  {
  }

  lemma {:induction false} UnmentionedStays(r: Run, events: seq<Event>, id: Id)
    requires forall j :: 0 <= j < |events| ==> !About(events[j], id)
    ensures id in Replay(r, events).copied <==> id in r.copied
  {
    if events != [] {
      var n := |events| - 1;
      UnmentionedStays(r, events[..n], id);
      EffectRecords(Replay(r, events[..n]), events[n], id);
    }
  }

  lemma {:induction false} LastRecords(r: Run, events: seq<Event>, k: nat, id: Id)
    requires LastAbout(events, k, id)
    ensures id in Replay(r, events).copied <==> IsSkip(events[k]) || IsCopy(events[k])
  {
    var n := |events| - 1;
    EffectRecords(Replay(r, events[..n]), events[n], id);
    LastAboutPrefix(events, id);
    if k < n {
      LastRecords(r, events[..n], k, id);
    }
  }

  lemma LastAboutPrefix(events: seq<Event>, id: Id)
    requires events != []
    ensures var n := |events| - 1;
            forall k :: LastAbout(events, k, id) <==> if About(events[n], id) then k == n else LastAbout(events[..n], k, id)
  {
    var n := |events| - 1;
    assert forall j :: 0 <= j < n ==> events[..n][j] == events[j];
  }

  /**
    The last event about an id decides: it is recorded as copied if a file was found or a copy
    verified, and not recorded, even if the log had it, if it was refused, announced, not made or
    not verified.
   */
  lemma LastEventDecides(cfg: Config, r: Run, dest: Option<Id>, idx: Index, nodes: seq<Node>, id: Id)
    ensures var events := Trace(cfg, r, dest, idx, nodes);
            var copied := Nodes(cfg, r, dest, idx, nodes).0.copied;
            && ((forall j :: 0 <= j < |events| ==> !About(events[j], id)) ==> (id in copied <==> id in r.copied))
            && forall k :: LastAbout(events, k, id) ==> (id in copied <==> IsSkip(events[k]) || IsCopy(events[k]))
  {
    RunIsReplay(cfg, r, dest, idx, nodes);
    var events := Trace(cfg, r, dest, idx, nodes);
    if forall j :: 0 <= j < |events| ==> !About(events[j], id) {
      UnmentionedStays(r, events, id);
    }
    forall k | LastAbout(events, k, id)
      ensures id in Replay(r, events).copied <==> IsSkip(events[k]) || IsCopy(events[k])
    {
      LastRecords(r, events, k, id);
    }
  }

  lemma {:induction false} LastExists(events: seq<Event>, id: Id, j: nat) returns (k: nat)
    requires j < |events| && About(events[j], id)
    ensures LastAbout(events, k, id)
  {
    var n := |events| - 1;
    if About(events[n], id) {
      k := n;
    } else {
      k := LastExists(events[..n], id, j);
    }
  }

  /* ---------------------- every record has its file ------------------------ */

  /** The ids still to be handed out are distinct and unknown to the store. */
  ghost predicate NewIdsAreNew(cfg: Config, store: Store, from: nat) {
    && (forall m, n :: from <= m < n ==> cfg.ids(m) != cfg.ids(n))
    && (forall n :: n >= from ==> cfg.ids(n) !in store)
  }

  /** Folders stay where they are with their tags, and keep their files. */
  ghost predicate Grows(before: Store, after: Store) {
    forall d :: d in before ==>
      && d in after && after[d].parent == before[d].parent && after[d].tag == before[d].tag
      && before[d].files <= after[d].files
  }

  predicate Holds(store: Store, dest: Option<Id>, f: DriveFile) {
    dest.Some? && dest.value in store && f in store[dest.value].files
  }

  /** The event's file, or folder, is at the destination. */
  predicate Backed(e: Event, store: Store) {
    match e
    case Found(t, dest, f) => Holds(store, dest, f)
    case Stored(t, dest, newId, _) => Holds(store, dest, CopyOf(t, newId))
    case Created(key, parent, newId) => newId in store && store[newId].parent == parent && store[newId].tag == Some(key)
    case Resolved(key, d) => Verified(store, d, key)
    case _ => true
  }

  /** What the run promises about the destination. */
  ghost predicate Kept(cfg: Config, r: Run, r': Run, events: seq<Event>) {
    && Grows(r.store, r'.store) && NewIdsAreNew(cfg, r'.store, r'.supply)
    && forall i :: 0 <= i < |events| ==> Backed(events[i], r'.store)
  }

  lemma BackedStays(before: Store, after: Store, e: Event)
    requires Grows(before, after) && Backed(e, before)
    ensures Backed(e, after)
  {
  }

  lemma KeptTwice(cfg: Config, r: Run, r1: Run, r2: Run, a: seq<Event>, b: seq<Event>)
    requires Kept(cfg, r, r1, a) && Kept(cfg, r1, r2, b)
    ensures Kept(cfg, r, r2, a + b)
  {
    forall i | 0 <= i < |a| ensures Backed(a[i], r2.store) {
      BackedStays(r1.store, r2.store, a[i]);
    }
  }

  /** Only files of the folder are in the index. */
  ghost predicate IndexOf(idx: Index, store: Store, dest: Option<Id>) {
    Agreement(idx) && forall f: DriveFile :: f in Bag(idx, f.name) ==> Holds(store, dest, f)
  }

  lemma IndexStays(idx: Index, before: Store, after: Store, dest: Option<Id>)
    requires IndexOf(idx, before, dest) && Grows(before, after)
    ensures IndexOf(idx, after, dest)
  {
  }

  lemma BuiltIndex(store: Store, dest: Option<Id>)
    ensures IndexOf(Build(FilesIn(store, dest)), store, dest)
  {
    var files := FilesIn(store, dest);
    BuildAgrees(files);
    forall f: DriveFile | f in Bag(Build(files), f.name) ensures Holds(store, dest, f) {
      BuildBag(files, f);
      assert f in multiset(files);
    }
  }

  lemma PoppedIndex(idx: Index, store: Store, dest: Option<Id>, source: DriveFile, mode: VerifyMode, allow: bool, eff: Option<Id>)
    requires IndexOf(idx, store, dest)
    ensures var (hit, idx') := PopMatch(idx, source, mode, allow, eff);
            IndexOf(idx', store, dest) && (hit.Some? ==> Holds(store, dest, hit.value.file))
  {
    PopMatchAgrees(idx, source, mode, allow, eff);
    var (hit, idx') := PopMatch(idx, source, mode, allow, eff);
    if hit.Some? {
      var f := hit.value.file;
      assert Bag(idx, f.name) == Bag(idx', f.name) + Only(f, f.name);
      assert f in Bag(idx, f.name);
      forall g: DriveFile | g in Bag(idx', g.name) ensures Holds(store, dest, g) {
        assert Bag(idx, g.name) == Bag(idx', g.name) + Only(f, g.name);
      }
    }
  }

  /** A real run fills a folder that is there. */
  predicate Ready(cfg: Config, store: Store, dest: Option<Id>) {
    !cfg.dryRun ==> dest.Some? && dest.value in store
  }

  lemma FileKept(cfg: Config, r: Run, dest: Option<Id>, idx: Index, t: Request)
    requires NewIdsAreNew(cfg, r.store, r.supply) && IndexOf(idx, r.store, dest) && Ready(cfg, r.store, dest)
    ensures var e := FileEvent(cfg, r, dest, idx, t);
            var r' := CopyFile(cfg, r, dest, idx, t).0;
            Kept(cfg, r, r', [e]) && IndexOf(CopyFile(cfg, r, dest, idx, t).1, r'.store, dest)
  {
    var e := FileEvent(cfg, r, dest, idx, t);
    FileIsReplay(cfg, r, dest, idx, t);
    ReplaySingle(r, e);
    PoppedIndex(idx, r.store, dest, t.file, cfg.mode, cfg.allowNameOnly, Some(t.eff));
    EventKept(cfg, r, e);
    IndexStays(CopyFile(cfg, r, dest, idx, t).1, r.store, Effect(r, e).store, dest);
  }

  lemma EventKept(cfg: Config, r: Run, e: Event)
    requires NewIdsAreNew(cfg, r.store, r.supply)
    requires e.Found? || e.Resolved? ==> Backed(e, r.store)
    requires e.Stored? ==> e.newId == cfg.ids(r.supply) && e.dest.Some? && e.dest.value in r.store
    requires e.Created? ==> e.newId == cfg.ids(r.supply)
    ensures Kept(cfg, r, Effect(r, e), [e])
  {
  }

  lemma FolderKept(cfg: Config, r: Run, dest: Option<Id>, key: FolderKey)
    requires NewIdsAreNew(cfg, r.store, r.supply)
    ensures var e := FolderEvent(cfg, r, dest, key);
            FolderAfter(e).Some? ==> Kept(cfg, r, Effect(r, e), [e]) && FolderAfter(e).value in Effect(r, e).store
  {
    var e := FolderEvent(cfg, r, dest, key);
    if e.Resolved? {
      assert Backed(e, r.store);
    }
    EventKept(cfg, r, e);
  }

  lemma {:induction false} NodeKept(cfg: Config, r: Run, dest: Option<Id>, idx: Index, node: Node)
    requires NewIdsAreNew(cfg, r.store, r.supply) && IndexOf(idx, r.store, dest) && Ready(cfg, r.store, dest)
    ensures Kept(cfg, r, One(cfg, r, dest, idx, node).0, TraceOne(cfg, r, dest, idx, node))
    ensures IndexOf(One(cfg, r, dest, idx, node).1, One(cfg, r, dest, idx, node).0.store, dest)
    decreases node
  {
    match node {
      case FileNode(t) => FileKept(cfg, r, dest, idx, t);
      case BrokenNode => EventKept(cfg, r, Inaccessible);
      case LoopNode(_) =>
      case FolderNode(key, _, _, children) =>
        FolderNodeKept(cfg, r, dest, idx, node);
        IndexStays(idx, r.store, One(cfg, r, dest, idx, node).0.store, dest);
    }
  }

  lemma {:induction false} FolderNodeKept(cfg: Config, r: Run, dest: Option<Id>, idx: Index, node: Node)
    requires node.FolderNode? && NewIdsAreNew(cfg, r.store, r.supply)
    ensures Kept(cfg, r, One(cfg, r, dest, idx, node).0, TraceOne(cfg, r, dest, idx, node))
    decreases node.children, 1
  {
    var e := FolderEvent(cfg, r, dest, node.key);
    var sub := FolderAfter(e);
    FolderIsResolved(cfg, r, dest, node.key);
    FolderKept(cfg, r, dest, node.key);
    if sub.Some? {
      var r1 := Effect(r, e);
      BuiltIndex(r1.store, sub);
      RunKept(cfg, r1, sub, Build(FilesIn(r1.store, sub)), node.children);
      KeptTwice(cfg, r, r1, One(cfg, r, dest, idx, node).0, [e], Trace(cfg, r1, sub, Build(FilesIn(r1.store, sub)), node.children));
    } else if cfg.dryRun {
      BuiltIndex(r.store, None);
      RunKept(cfg, r, None, Build([]), node.children);
      assert [] + Trace(cfg, r, None, Build([]), node.children) == Trace(cfg, r, None, Build([]), node.children);
    }
  }

  lemma {:induction false} RunKept(cfg: Config, r: Run, dest: Option<Id>, idx: Index, nodes: seq<Node>)
    requires NewIdsAreNew(cfg, r.store, r.supply) && IndexOf(idx, r.store, dest) && Ready(cfg, r.store, dest)
    ensures Kept(cfg, r, Nodes(cfg, r, dest, idx, nodes).0, Trace(cfg, r, dest, idx, nodes))
    decreases nodes, 0
  {
    if nodes != [] {
      var (r', idx') := One(cfg, r, dest, idx, nodes[0]);
      NodeKept(cfg, r, dest, idx, nodes[0]);
      RunKept(cfg, r', dest, idx', nodes[1..]);
      KeptTwice(cfg, r, r', Nodes(cfg, r', dest, idx', nodes[1..]).0, TraceOne(cfg, r, dest, idx, nodes[0]),
                Trace(cfg, r', dest, idx', nodes[1..]));
    }
  }

  /** The event that put the id on record: its file was found, or copied and verified. */
  predicate Recorder(e: Event, id: Id, store: Store) {
    About(e, id) && (IsSkip(e) || IsCopy(e)) && Backed(e, store)
  }

  /** Whatever calls fail: an id recorded by this run was found or copied, and that file is at the destination. */
  lemma EveryRecordHasAFile(cfg: Config, r: Run, dest: Option<Id>, nodes: seq<Node>, id: Id)
    requires NewIdsAreNew(cfg, r.store, r.supply) && Ready(cfg, r.store, dest)
    requires id in Level(cfg, r, dest, nodes).copied && id !in r.copied
    ensures exists e :: e in Trace(cfg, r, dest, IndexAt(r.store, dest), nodes) && Recorder(e, id, Level(cfg, r, dest, nodes).store)
  {
    var idx := IndexAt(r.store, dest);
    var events := Trace(cfg, r, dest, idx, nodes);
    BuiltIndex(r.store, dest);
    assert idx == Build(FilesIn(r.store, dest));
    RunKept(cfg, r, dest, idx, nodes);
    LastEventDecides(cfg, r, dest, idx, nodes, id);
    var j :| 0 <= j < |events| && About(events[j], id);
    var k := LastExists(events, id, j);
    assert events[k] in events && Recorder(events[k], id, Level(cfg, r, dest, nodes).store);
  }

  /* ------------------------------ the whole run ---------------------------- */

  /** What a run knows when it starts to walk: the log of its destination, and the root it has just resolved. */
  ghost predicate Started(start: Run, logs: map<Id, SavedLog>, root: FolderKey, d: Id) {
    && start.counts == Counts(0, 0, 0, 0, 0, 0)
    && start.copied == (if d in logs then logs[d].copied else {})
    && root.id in start.folderMap && start.folderMap[root.id] == d
    && forall k :: k != root.id ==>
         (k in start.folderMap <==> d in logs && k in logs[d].folderMap)
         && (k in start.folderMap ==> start.folderMap[k] == logs[d].folderMap[k])
  }

  /**
    A run that gets its destination root is the replay of its events from what the root's log
    knows; one that does not, and is no preview, does nothing at all.
   */
  lemma WholeRunIsReplay(cfg: Config, store: Store, supply: nat, destParent: Id, root: FolderKey,
                         logs: map<Id, SavedLog>, nodes: seq<Node>) returns (start: Run)
    ensures var e := FolderEvent(cfg, Run(store, map[], {}, Counts(0, 0, 0, 0, 0, 0), supply), Some(destParent), root);
            var done := WholeRun(cfg, store, supply, destParent, root, logs, nodes);
            var d := FolderAfter(e);
            && (d.Some? ==>
                  && Started(start, logs, root, d.value)
                  && start.store == (if e.Created? then store[d.value := DestFolder(destParent, Some(root), [])] else store)
                  && done == Replay(start, Trace(cfg, start, d, Build(FilesIn(start.store, d)), nodes)))
            && (d.None? && !cfg.dryRun ==> done == Run(store, map[], {}, Counts(0, 0, 0, 0, 0, 0), supply))
  {
    var r0 := Run(store, map[], {}, ZERO_COUNTS, supply);
    FolderIsResolved(cfg, r0, Some(destParent), root);
    var (d, r) := GetOrCreate(cfg, r0, Some(destParent), root);
    start := if d.Some? then WithLog(r, logs, d.value) else r;
    if d.Some? {
      RunIsReplay(cfg, start, d, IndexAt(start.store, d), nodes);
      assert IndexAt(start.store, d) == Build(FilesIn(start.store, d));
    }
  }
}
