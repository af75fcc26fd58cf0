/**
  The engine as the object it is (src/gdrive_turbo_copy/copier.py:309-327, 458-529, 576-695,
  787-877): its methods update the destination and the run's state in place, walking the
  source graph itself. Each is tied to its function in Engine, over the unfolded walk.
 */
module Copier {
  import opened DriveModel
  import opened Ordering
  import opened FolderResolution
  import opened Traversal
  import opened DestinationIndex
  import Index = IndexSpec
  import opened IndexTheory
  import opened FolderSync
  import E = Engine

  class CopyEngine {
    const cfg: E.Config
    const source: Graph
    var store: Store
    var folderMap: map<Id, Id>
    var copiedIds: set<Id>
    var result: E.Counts
    var supply: nat

    function View(): E.Run
      reads this
    {
      E.Run(store, folderMap, copiedIds, result, supply)
    }

    constructor (cfg: E.Config, source: Graph, r: E.Run)
      ensures this.cfg == cfg && this.source == source && View() == r
    {
      this.cfg, this.source := cfg, source;
      store, folderMap, copiedIds, result, supply := r.store, r.folderMap, r.copied, r.counts, r.supply;
    }

    /* ------------------------------- folders ------------------------------- */

    /** `sorted(files, key=id)[0]` of the tagged folders under the parent; None if there are none or the search fails. */
    method FindDestFolder(parent: Id, key: FolderKey) returns (found: Option<Id>)
      ensures found == E.Searched(cfg, store, parent, key)
    {
      if key.id in cfg.searchFails {
        return None;
      }
      var files := Candidates(store, parent, key);
      if files == {} {
        return None;
      }
      var least :| least in files;
      var rest := files - {least};
      LeqTotal(least, least);
      while rest != {}
        invariant least in files && rest <= files
        invariant forall d :: d in files - rest ==> Leq(least, d)
        decreases |rest|
      {
        var d :| d in rest;
        rest := rest - {d};
        LeqTotal(d, least);
        LeqTotal(d, d);
        if !Leq(least, d) {
          forall e | e in files - rest ensures Leq(d, e) {
            if e != d {
              LeqTransitive(d, least, e);
            }
          }
          least := d;
        }
      }
      LeastUnique(files, least, Least(files));
      return Some(least);
    }

    method GetOrCreateFolder(parent: Option<Id>, key: FolderKey) returns (dest: Option<Id>)
      modifies this
      ensures (dest, View()) == E.GetOrCreate(cfg, old(View()), parent, key)
    {
      if parent.None? {
        return None;
      }
      if key.id in folderMap && key.id !in cfg.verifyFails && Verified(store, folderMap[key.id], key) {
        dest := Some(folderMap[key.id]);
        assert folderMap[key.id := dest.value] == folderMap;
        return;
      }
      dest := FindDestFolder(parent.value, key);
      if dest.Some? {
        folderMap := folderMap[key.id := dest.value];
        return;
      }
      if cfg.dryRun {
        return None;
      }
      if key.id in cfg.createFails {
        return None;
      }
      var newId := E.NewId(cfg, supply);
      store := store[newId := DestFolder(parent.value, Some(key), [])];
      folderMap := folderMap[key.id := newId];
      supply := supply + 1;
      return Some(newId);
    }

    /* --------------------------------- files ------------------------------- */

    method CopyFile(dest: Option<Id>, t: Request, index: DestIndex)
      modifies this, index
      ensures (View(), index.View()) == E.CopyFile(cfg, old(View()), dest, old(index.View()), t)
    {
      if t.eff in copiedIds {
        var existing := index.PopByAppProp(Some(t.eff));
        if existing.Some? {
          result := result.(skipped := result.skipped + 1);
          return;
        }
        assert index.View() == old(index.View());
        copiedIds := copiedIds - {t.eff};
      }
      var found := index.PopMatch(t.file, cfg.mode, cfg.allowNameOnly, Some(t.eff));
      SettleFile(dest, t, found.Some?);
    }

    /** The rest of _copy_file once the index has been asked. */
    method SettleFile(dest: Option<Id>, t: Request, existing: bool)
      modifies this
      ensures View() == E.Settle(cfg, old(View()), dest, existing, t)
    {
      var size := SizeOf(t.file);
      if existing {
        copiedIds := copiedIds + {t.eff};
        result := result.(skipped := result.skipped + 1);
      } else if size > E.MAX_SINGLE_FILE_COPY_BYTES {
        result := result.(failed := result.failed + 1);
      } else if cfg.dryRun {
        result := result.(wouldCopy := result.wouldCopy + 1, wouldBytes := result.wouldBytes + size);
      } else if t.eff in cfg.copyFails {
        result := result.(failed := result.failed + 1);
      } else {
        store := E.WithFile(store, dest, CopyOf(t, E.NewId(cfg, supply)));
        supply := supply + 1;
        if t.eff in cfg.unverified {
          result := result.(failed := result.failed + 1);
          return;
        }
        copiedIds := copiedIds + {t.eff};
        result := result.(copied := result.copied + 1, copiedBytes := result.copiedBytes + size);
      }
    }

    /* ------------------------------ the traversal -------------------------- */

    /** The walk's node for one child, as Unfold has it. */
    ghost function NodeOf(visited: set<Id>, src: DriveFile): Node {
      Unfold(source, visited, [src])[0]
    }

    method ProcessLevel(dest: Option<Id>, children: seq<DriveFile>, visited: set<Id>)
      requires cfg.dryRun || dest.Some?
      modifies this
      ensures View() == E.Level(cfg, old(View()), dest, Unfold(source, visited, children))
      decreases source.listing.Keys - visited, 3
    {
      var listing := if dest.Some? && dest.value in store then store[dest.value].files else [];
      var index := new DestIndex.Build(listing);
      ghost var target := E.Nodes(cfg, old(View()), dest, index.View(), Unfold(source, visited, children));
      assert E.IndexAt(store, dest) == index.View();
      var i := 0;
      assert children[0..] == children;
      while i < |children|
        invariant 0 <= i <= |children|
        invariant fresh(index)
        invariant E.Nodes(cfg, View(), dest, index.View(), Unfold(source, visited, children[i..])) == target
        decreases |children| - i
      {
        var src := children[i];
        ghost var before, idx := View(), index.View();
        ghost var nodes := Unfold(source, visited, children[i..]);
        assert children[i..][0] == src && children[i..][1..] == children[i+1..];
        assert nodes[0] == NodeOf(visited, src) && nodes[1..] == Unfold(source, visited, children[i+1..]);
        HandleChild(dest, src, index, visited);
        assert (View(), index.View()) == E.One(cfg, before, dest, idx, nodes[0]);
        i := i + 1;
      }
      assert Unfold(source, visited, children[i..]) == [];
    }

    method HandleChild(dest: Option<Id>, src: DriveFile, index: DestIndex, visited: set<Id>)
      requires cfg.dryRun || dest.Some?
      modifies this, index
      ensures (View(), index.View()) == E.One(cfg, old(View()), dest, old(index.View()), NodeOf(visited, src))
      decreases source.listing.Keys - visited, 2
    {
      if src.IsShortcut() {
        var target := ResolveShortcut(source, src);
        if target.None? {
          result := result.(failed := result.failed + 1);
        } else if target.value.IsFolder() {
          CopyFolder(dest, ByShortcut(src.id), target.value.id, target.value.name, visited);
        } else {
          CopyFile(dest, Request(src.id, target.value), index);
        }
      } else if src.IsFolder() {
        CopyFolder(dest, BySource(src.id), src.id, src.name, visited);
      } else {
        CopyFile(dest, Request(src.id, src), index);
      }
    }

    ghost function FolderNodeOf(key: FolderKey, id: Id, name: string, visited: set<Id>): Node {
      if id in visited then LoopNode(id)
      else FolderNode(key, id, name, NodesBelow(id, visited))
    }

    ghost function NodesBelow(id: Id, visited: set<Id>): seq<Node>
      requires id !in visited
    {
      Failure(source, id) + if id in source.listing then Unfold(source, visited + {id}, source.listing[id]) else []
    }

    method CopyFolder(dest: Option<Id>, key: FolderKey, id: Id, name: string, visited: set<Id>)
      requires cfg.dryRun || dest.Some?
      modifies this
      ensures View() == E.One(cfg, old(View()), dest, Index.EMPTY_INDEX, FolderNodeOf(key, id, name, visited)).0
      decreases source.listing.Keys - visited, 1
    {
      if id in visited {
        return;
      }
      var sub := GetOrCreateFolder(dest, key);
      if sub.None? && !cfg.dryRun {
        result := result.(failed := result.failed + 1);
        return;
      }
      FillFolder(sub, id, visited);
    }

    /** A folder that was resolved is listed and processed. */
    method FillFolder(dest: Option<Id>, id: Id, visited: set<Id>)
      requires id !in visited && (cfg.dryRun || dest.Some?)
      modifies this
      ensures View() == E.Nodes(cfg, old(View()), dest, E.IndexAt(old(store), dest), NodesBelow(id, visited)).0
      decreases source.listing.Keys - visited, 0
    {
      ghost var below := if id in source.listing then Unfold(source, visited + {id}, source.listing[id]) else [];
      E.FailureCounts(cfg, View(), dest, E.IndexAt(store, dest), source, id, below);
      if ListingFails(source, id) {
        result := result.(failed := result.failed + 1);
      }
      var children := if id in source.listing then source.listing[id] else [];
      if children != [] && (dest.Some? || cfg.dryRun) {
        ProcessLevel(dest, children, visited + {id});
      }
    }
  }
}
