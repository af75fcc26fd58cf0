/**
  The engine's way of finding or creating a folder is a step of FolderResolution, and doing it
  again gives the same folder (src/gdrive_turbo_copy/copier.py:787-877).
 */
module EngineFolders {
  import opened DriveModel
  import opened Ordering
  import opened FolderResolution
  import E = Engine
  import O = Outcomes

  /** Whatever calls fail: the same store and folder_map, and the same folder. */
  lemma ResolutionIsAStep(cfg: E.Config, r: E.Run, shape: Shape, s: State, key: FolderKey, under: FolderKey)
    requires !cfg.dryRun && s.store == r.store && s.folderMap == r.folderMap
    requires ParentReady(shape, s, key, under) && cfg.ids(r.supply) !in r.store
    ensures var step := Resolve(key, under, O.CallsFor(cfg, r, key));
            var (d, r') := E.GetOrCreate(cfg, r, Some(ParentDest(shape, s, key, under)), key);
            && Enabled(shape, s, step)
            && r'.store == Apply(shape, s, step).store && r'.folderMap == Apply(shape, s, step).folderMap
            && (d.Some? ==> Apply(shape, s, step).resolved == s.resolved[key := d.value])
            && (d.None? ==> Apply(shape, s, step) == s)
  {
    var parent := ParentDest(shape, s, key, under);
    var calls := O.CallsFor(cfg, r, key);
    if Found(s, parent, key, calls).None? && calls.confirmed {
      var newId := cfg.ids(r.supply);
      assert calls.made == [newId];
      assert WithNew(s.store, parent, key, [newId]) == s.store[newId := DestFolder(parent, Some(key), [])];
    }
  }

  /** The one folder a search for this key under this parent gives: the least of the tagged ones. */
  predicate FoundUnder(store: Store, parent: Id, key: FolderKey, d: Id) {
    && d in store && store[d].parent == parent && store[d].tag == Some(key)
    && forall e :: e in store && store[e].parent == parent && store[e].tag == Some(key) ==> Leq(d, e)
  }

  lemma SearchFinds(store: Store, parent: Id, key: FolderKey, d: Id)
    ensures Find(store, parent, key) == Some(d) <==> FoundUnder(store, parent, key, d)
  {
    var all := Candidates(store, parent, key);
    assert forall e :: e in all <==> e in store && store[e].parent == parent && store[e].tag == Some(key);
    if all != {} {
      if FoundUnder(store, parent, key, d) {
        LeastUnique(all, d, Least(all));
      }
    }
  }

  /**
    The folder a resolution gives carries the tag of its key. If it was searched for or created,
    and not taken from folder_map, it lies under the given parent.
   */
  lemma ResolvedIsTagged(cfg: E.Config, r: E.Run, parent: Id, key: FolderKey)
    requires E.GetOrCreate(cfg, r, Some(parent), key).0.Some?
    ensures var (d, r') := E.GetOrCreate(cfg, r, Some(parent), key);
            && Verified(r'.store, d.value, key)
            && key.id in r'.folderMap && r'.folderMap[key.id] == d.value
            && (!Confirmed(O.FoldersOfRun(r), key, key.id !in cfg.verifyFails) ==> r'.store[d.value].parent == parent)
            && (cfg.dryRun || E.Existing(cfg, r, Some(parent), key).Some? ==> r'.store == r.store && r'.supply == r.supply)
  {
    var found := E.Existing(cfg, r, Some(parent), key);
    if found.Some? && !Confirmed(O.FoldersOfRun(r), key, key.id !in cfg.verifyFails) {
      SearchFinds(r.store, parent, key, found.value);
    }
  }

  /** Resolving a folder changes nothing but its own entry and, if it creates, one new folder. */
  lemma OnlyThisFolder(cfg: E.Config, r: E.Run, parent: Option<Id>, key: FolderKey)
    ensures var (d, r') := E.GetOrCreate(cfg, r, parent, key);
            && r'.copied == r.copied && r'.counts == r.counts
            && (forall k :: k != key.id ==> (k in r'.folderMap <==> k in r.folderMap)
                                            && (k in r.folderMap ==> r'.folderMap[k] == r.folderMap[k]))
            && (forall e :: e in r'.store && Some(e) != d ==> e in r.store && r'.store[e] == r.store[e])
            && (parent.None? || d.None? ==> r' == r && d.None?)
  {
  }

  /** Asking again, with folder_map kept and readable, gives the same folder and changes nothing. */
  lemma ResolvingAgain(cfg: E.Config, again: E.Config, r: E.Run, parent: Id, key: FolderKey)
    requires E.GetOrCreate(cfg, r, Some(parent), key).0.Some? && key.id !in again.verifyFails
    ensures var (d, r') := E.GetOrCreate(cfg, r, Some(parent), key);
            E.GetOrCreate(again, r', Some(parent), key) == (d, r')
  {
    ResolvedIsTagged(cfg, r, parent, key);
    var (d, r') := E.GetOrCreate(cfg, r, Some(parent), key);
    assert r'.folderMap[key.id := d.value] == r'.folderMap;
  }

  /**
    Asking again with any folder_map, by search alone, gives the same folder and creates none, if
    that folder was itself searched for or created after a search.
   */
  lemma SearchingAgain(cfg: E.Config, again: E.Config, r: E.Run, r2: E.Run, parent: Id, key: FolderKey)
    requires E.GetOrCreate(cfg, r, Some(parent), key).0.Some?
    requires !Confirmed(O.FoldersOfRun(r), key, key.id !in cfg.verifyFails) && key.id !in cfg.searchFails
    requires cfg.ids(r.supply) !in r.store
    requires r2.store == E.GetOrCreate(cfg, r, Some(parent), key).1.store
    requires key.id in again.verifyFails || key.id !in r2.folderMap
    requires key.id !in again.searchFails
    ensures E.GetOrCreate(again, r2, Some(parent), key).0 == E.GetOrCreate(cfg, r, Some(parent), key).0
    ensures E.GetOrCreate(again, r2, Some(parent), key).1.store == r2.store
  {
    var d := E.GetOrCreate(cfg, r, Some(parent), key).0.value;
    if E.Existing(cfg, r, Some(parent), key).None? {
      assert Candidates(r.store, parent, key) == {};
      forall e | e in r2.store && r2.store[e].parent == parent && r2.store[e].tag == Some(key) ensures Leq(d, e) {
        assert e != d ==> e in Candidates(r.store, parent, key);
        LeqTotal(d, d);
      }
      SearchFinds(r2.store, parent, key, d);
    }
  }
}
