/**
  Which source folders were copied in full
  (src/gdrive_turbo_copy/copier.py, _record_tree_node and _compute_completed_folders).

  The engine answers with a memoised depth-first search whose cycle guard depends on the
  current stack. The reference definition is the least fixed point of the completeness rule;
  the search computes exactly that, on every graph and in every iteration order.
 */
module CompletedFolders {
  import opened DriveModel

  /** One listed folder: what its listing contained and whether it may be tracked. */
  datatype FolderNode = FolderNode(
    listingOk: bool,
    eligible: bool,
    fileEffIds: set<Id>,
    subfolderIds: set<Id>)

  datatype FailureIds = FailureIds(
    sourceId: Id,
    effectiveSourceId: Option<Id>,
    sourceShortcutId: Option<Id>,
    shortcutTargetId: Option<Id>)

  type Tree = map<Id, FolderNode>

  /** Everything the completeness of a folder depends on. */
  datatype Facts = Facts(tree: Tree, known: set<Id>, copied: set<Id>, failed: set<Id>)

  /* ----------------------- the reference definition ------------------------ */

  predicate FilesDone(d: Facts, node: FolderNode) {
    forall eid :: eid in node.fileEffIds ==> eid in d.copied && eid !in d.failed
  }

  predicate Trackable(d: Facts, fid: Id) {
    fid in d.tree && d.tree[fid].listingOk && d.tree[fid].eligible
  }

  /** Derivable from the completeness rule in at most n rounds. */
  ghost predicate CompleteWithin(d: Facts, fid: Id, n: nat)
    decreases n
  {
    || fid in d.known
    || (&& n > 0
        && Trackable(d, fid)
        && FilesDone(d, d.tree[fid])
        && forall sub :: sub in d.tree[fid].subfolderIds ==> CompleteWithin(d, sub, n - 1))
  }

  ghost predicate Complete(d: Facts, fid: Id) {
    exists n: nat :: CompleteWithin(d, fid, n)
  }

  /** s is closed under the completeness rule. */
  ghost predicate Closed(d: Facts, s: iset<Id>) {
    forall fid :: fid in d.known || (Trackable(d, fid) && FilesDone(d, d.tree[fid])
                                     && forall sub :: sub in d.tree[fid].subfolderIds ==> sub in s)
                  ==> fid in s
  }

  lemma {:induction false} MoreRounds(d: Facts, fid: Id, m: nat, n: nat)
    requires CompleteWithin(d, fid, m) && m <= n
    ensures CompleteWithin(d, fid, n)
    decreases m
  {
    if fid !in d.known {
      forall sub | sub in d.tree[fid].subfolderIds ensures CompleteWithin(d, sub, n - 1) {
        MoreRounds(d, sub, m - 1, n - 1);
      }
    }
  }

  lemma {:induction false} CommonRound(d: Facts, subs: set<Id>) returns (n: nat)
    requires forall sub :: sub in subs ==> Complete(d, sub)
    ensures forall sub :: sub in subs ==> CompleteWithin(d, sub, n)
    decreases |subs|
  {
    if subs == {} {
      n := 0;
    } else {
      var s :| s in subs;
      var a: nat :| CompleteWithin(d, s, a);
      var b := CommonRound(d, subs - {s});
      n := a + b;
      MoreRounds(d, s, a, n);
      forall sub | sub in subs && sub != s ensures CompleteWithin(d, sub, n) {
        MoreRounds(d, sub, b, n);
      }
    }
  }

  /** Complete satisfies its own rule, in both directions. */
  lemma CompleteIsFixedPoint(d: Facts, fid: Id)
    ensures Complete(d, fid) <==>
            (|| fid in d.known
             || (&& Trackable(d, fid)
                 && FilesDone(d, d.tree[fid])
                 && forall sub :: sub in d.tree[fid].subfolderIds ==> Complete(d, sub)))
  {
    if Complete(d, fid) && fid !in d.known {
      var n: nat :| CompleteWithin(d, fid, n);
      assert forall sub :: sub in d.tree[fid].subfolderIds ==> CompleteWithin(d, sub, n - 1);
    } else if fid in d.known {
      assert CompleteWithin(d, fid, 0);
    } else if Trackable(d, fid) && FilesDone(d, d.tree[fid])
              && forall sub :: sub in d.tree[fid].subfolderIds ==> Complete(d, sub) {
      var n := CommonRound(d, d.tree[fid].subfolderIds);
      assert CompleteWithin(d, fid, n + 1);
    }
  }

  lemma {:induction false} WithinIsInEveryClosedSet(d: Facts, s: iset<Id>, fid: Id, n: nat)
    requires Closed(d, s) && CompleteWithin(d, fid, n)
    ensures fid in s
    decreases n
  {
    if fid !in d.known {
      forall sub | sub in d.tree[fid].subfolderIds ensures sub in s {
        WithinIsInEveryClosedSet(d, s, sub, n - 1);
      }
    }
  }

  /** ... and it is the least set closed under that rule. */
  lemma CompleteIsLeast(d: Facts, s: iset<Id>)
    requires Closed(d, s)
    ensures forall fid :: Complete(d, fid) ==> fid in s
  {
    forall fid | Complete(d, fid) ensures fid in s {
      var n: nat :| CompleteWithin(d, fid, n);
      WithinIsInEveryClosedSet(d, s, fid, n);
    }
  }

  /* ------------------------- why the guard is right ------------------------ */

  /** The stack of the search: folders under evaluation, each a subfolder of the one before. */
  ghost predicate Chain(d: Facts, path: seq<Id>) {
    && (forall i :: 0 <= i < |path| ==> path[i] !in d.known && path[i] in d.tree)
    && (forall i :: 0 < i < |path| ==> path[i] in d.tree[path[i-1]].subfolderIds)
  }

  ghost predicate Extends(d: Facts, path: seq<Id>, fid: Id) {
    path == [] || (path[|path|-1] in d.tree && fid in d.tree[path[|path|-1]].subfolderIds)
  }

  /** Every folder on a cycle of unknown folders needs itself first, so none is complete. */
  lemma {:induction false} CycleIsIncomplete(d: Facts, path: seq<Id>, start: nat, i: nat, n: nat)
    requires Chain(d, path) && start <= i < |path|
    requires Extends(d, path, path[start])
    ensures !CompleteWithin(d, path[i], n)
    decreases n
  {
    if CompleteWithin(d, path[i], n) {
      var next := if i + 1 < |path| then i + 1 else start;
      assert path[next] in d.tree[path[i]].subfolderIds;
      CycleIsIncomplete(d, path, start, next, n - 1);
    }
  }

  lemma GuardedFolderIsIncomplete(d: Facts, path: seq<Id>, fid: Id)
    requires Chain(d, path) && Extends(d, path, fid) && fid in path
    ensures !Complete(d, fid)
  {
    var start :| 0 <= start < |path| && path[start] == fid;
    forall n: nat ensures !CompleteWithin(d, fid, n) {
      CycleIsIncomplete(d, path, start, start, n);
    }
  }

  /* ------------------------------ the search ------------------------------- */

  class CompletionSearch {
    const facts: Facts
    var memo: map<Id, bool>

    /** No memo entry is poisoned by the guard: each one is the true answer. */
    ghost predicate MemoIsTrue()
      reads this
    {
      forall fid :: fid in memo ==> (memo[fid] <==> Complete(facts, fid))
    }

    constructor (d: Facts)
      ensures facts == d && memo == map[] && MemoIsTrue()
    {
      facts := d;
      memo := map[];
    }

    /** `stack` is what the guard consults; `path` is the same stack in order, for the proof. */
    method IsComplete(fid: Id, stack: set<Id>, ghost path: seq<Id>) returns (ok: bool)
      requires MemoIsTrue()
      requires Chain(facts, path) && Extends(facts, path, fid)
      requires stack == set i | 0 <= i < |path| :: path[i]
      modifies this
      ensures MemoIsTrue()
      ensures ok <==> Complete(facts, fid)
      decreases facts.tree.Keys - stack
    {
      CompleteIsFixedPoint(facts, fid);
      if fid in facts.known {
        return true;
      }
      if fid in memo {
        return memo[fid];
      }
      if fid in stack {
        GuardedFolderIsIncomplete(facts, path, fid);
        return false;
      }
      if fid !in facts.tree || !facts.tree[fid].listingOk || !facts.tree[fid].eligible {
        memo := memo[fid := false];
        return false;
      }
      var node := facts.tree[fid];
      ok := FilesDone(facts, node);
      if ok {
        var childStack := stack + {fid};
        ghost var childPath := path + [fid];
        assert Chain(facts, childPath);
        assert childPath[|path|] == fid;
        assert childStack == set i | 0 <= i < |childPath| :: childPath[i] by {
          assert forall i :: 0 <= i < |path| ==> childPath[i] == path[i];
          assert forall x :: x in childStack ==> exists i :: 0 <= i < |childPath| && childPath[i] == x by {
            forall x | x in childStack ensures exists i :: 0 <= i < |childPath| && childPath[i] == x {
              if x != fid {
                var i :| 0 <= i < |path| && path[i] == x;
                assert childPath[i] == x;
              }
            }
          }
        }
        var pending := node.subfolderIds;
        while ok && pending != {}
          invariant MemoIsTrue()
          invariant pending <= node.subfolderIds
          invariant ok ==> forall sub :: sub in node.subfolderIds - pending ==> Complete(facts, sub)
          invariant !ok ==> exists sub :: sub in node.subfolderIds && !Complete(facts, sub)
          decreases |pending|
        {
          var sub :| sub in pending;
          pending := pending - {sub};
          ok := IsComplete(sub, childStack, childPath);
        }
      }
      memo := memo[fid := ok];
    }
  }

  /** `for key in (...): if key: failed_ids.add(key)` over every failed item. */
  predicate Names(item: FailureIds, key: Id) {
    key != "" && (key == item.sourceId || Some(key) == item.effectiveSourceId
                  || Some(key) == item.sourceShortcutId || Some(key) == item.shortcutTargetId)
  }

  function KeysOf(item: FailureIds): set<Id> {
    (if item.sourceId != "" then {item.sourceId} else {})
    + (if Truthy(item.effectiveSourceId) then {item.effectiveSourceId.value} else {})
    + (if Truthy(item.sourceShortcutId) then {item.sourceShortcutId.value} else {})
    + (if Truthy(item.shortcutTargetId) then {item.shortcutTargetId.value} else {})
  }

  function FailedKeys(items: seq<FailureIds>): set<Id> {
    set i, key | 0 <= i < |items| && key in KeysOf(items[i]) :: key
  }

  method FailedIds(items: seq<FailureIds>) returns (failed: set<Id>)
    ensures failed == FailedKeys(items)
    ensures forall key :: key in failed <==> exists i :: 0 <= i < |items| && Names(items[i], key)
  {
    failed := {};
    for n := 0 to |items|
      invariant forall key :: key in failed <==> exists i :: 0 <= i < n && Names(items[i], key)
    {
      ghost var before := failed;
      failed := failed + KeysOf(items[n]);
      assert forall key :: key in KeysOf(items[n]) <==> Names(items[n], key);
    }
    assert forall i, key :: 0 <= i < |items| ==> (key in KeysOf(items[i]) <==> Names(items[i], key));
    assert failed == FailedKeys(items);
  }

  /**
    The folders recorded this run whose whole subtree is proven copied: exactly the recorded
    part of the least fixed point, whatever order folders and subfolders are visited in.
   */
  method ComputeCompletedFolders(tree: Tree, known: set<Id>, copied: set<Id>, failures: seq<FailureIds>)
    returns (done: set<Id>)
    ensures forall fid :: fid in done <==> fid in tree && Complete(Facts(tree, known, copied, FailedKeys(failures)), fid)
  {
    var failed := FailedIds(failures);
    var d := Facts(tree, known, copied, failed);
    var search := new CompletionSearch(d);
    done := {};
    var pending := tree.Keys;
    while pending != {}
      invariant search.facts == d && search.MemoIsTrue()
      invariant pending <= tree.Keys
      invariant forall fid :: fid in done <==> fid in tree.Keys - pending && Complete(d, fid)
      decreases |pending|
    {
      var fid :| fid in pending;
      pending := pending - {fid};
      var ok := search.IsComplete(fid, {}, []);
      if ok {
        done := done + {fid};
      }
    }
  }

  /* --------------------------- recording a listing ------------------------- */

  /** A listing is tracked as: its plain files, its plain folders, and no shortcut at all. */
  ghost predicate Records(node: FolderNode, children: seq<DriveFile>, clean: bool) {
    && node.listingOk == clean
    && (node.eligible <==> forall i :: 0 <= i < |children| ==> !children[i].IsShortcut())
    && (forall id :: id in node.subfolderIds <==>
          exists i :: 0 <= i < |children| && children[i].id == id && children[i].IsFolder())
    && (forall id :: id in node.fileEffIds <==>
          exists i :: 0 <= i < |children| && children[i].id == id
                      && !children[i].IsFolder() && !children[i].IsShortcut())
  }

  method RecordTreeNode(folderId: Id, children: seq<DriveFile>, listingErrors: set<Id>) returns (node: FolderNode)
    ensures Records(node, children, folderId !in listingErrors)
  {
    node := FolderNode(folderId !in listingErrors, true, {}, {});
    for n := 0 to |children|
      invariant Records(node, children[..n], folderId !in listingErrors)
    {
      var src := children[n];
      assert children[..n+1] == children[..n] + [src];
      assert children[..n+1][n] == src;
      ghost var before := node;
      if src.IsShortcut() {
        node := node.(eligible := false);
      } else if src.IsFolder() {
        node := node.(subfolderIds := node.subfolderIds + {src.id});
      } else {
        node := node.(fileEffIds := node.fileEffIds + {src.id});
      }
      assert forall i :: 0 <= i < n ==> children[..n+1][i] == children[..n][i];
    }
    assert children[..|children|] == children;
  }

  /* ------------------------------ end to end ------------------------------- */

  /** A folder not known before is complete exactly if its record is clean and everything in it is done. */
  lemma CompleteMeans(d: Facts, fid: Id)
    ensures Complete(d, fid) <==>
            (|| fid in d.known
             || (&& fid in d.tree && d.tree[fid].listingOk && d.tree[fid].eligible
                 && (forall id :: id in d.tree[fid].fileEffIds ==> id in d.copied && id !in d.failed)
                 && forall sub :: sub in d.tree[fid].subfolderIds ==> Complete(d, sub)))
  {
    CompleteIsFixedPoint(d, fid);
  }

  /** Some failed item mentions the id, in whichever role. */
  predicate Mentioned(failures: seq<FailureIds>, id: Id) {
    exists i :: 0 <= i < |failures| &&
      (|| failures[i].sourceId == id || failures[i].effectiveSourceId == Some(id)
       || failures[i].sourceShortcutId == Some(id) || failures[i].shortcutTargetId == Some(id))
  }

  lemma FailedKeysMeans(failures: seq<FailureIds>, id: Id)
    ensures id in FailedKeys(failures) <==> id != "" && Mentioned(failures, id)
  {
    assert forall i :: 0 <= i < |failures| ==> (id in KeysOf(failures[i]) <==> Names(failures[i], id));
    if id != "" && Mentioned(failures, id) {
      var i :| 0 <= i < |failures| &&
        (|| failures[i].sourceId == id || failures[i].effectiveSourceId == Some(id)
         || failures[i].sourceShortcutId == Some(id) || failures[i].shortcutTargetId == Some(id));
      assert id in KeysOf(failures[i]);
    }
  }

  /**
    From the listing itself: a folder listed and recorded this run, and not known before, is
    complete exactly if its listing did not fail, it shows no shortcut, every file of it was
    copied and is mentioned in no failed item, and every subfolder of it is complete.
   */
  lemma CompletedMeansListing(tree: Tree, known: set<Id>, copied: set<Id>, failures: seq<FailureIds>,
                              f: Id, children: seq<DriveFile>, listingErrors: set<Id>)
    requires f in tree && f !in known && Records(tree[f], children, f !in listingErrors)
    requires forall i :: 0 <= i < |children| ==> children[i].id != ""
    ensures var d := Facts(tree, known, copied, FailedKeys(failures));
            Complete(d, f) <==>
              && f !in listingErrors
              && (forall i :: 0 <= i < |children| ==> !children[i].IsShortcut())
              && (forall i :: 0 <= i < |children| && !children[i].IsFolder() ==>
                    children[i].id in copied && !Mentioned(failures, children[i].id))
              && (forall i :: 0 <= i < |children| && children[i].IsFolder() ==> Complete(d, children[i].id))
  {
    var d := Facts(tree, known, copied, FailedKeys(failures));
    CompleteMeans(d, f);
    forall id ensures id in FailedKeys(failures) <==> id != "" && Mentioned(failures, id) {
      FailedKeysMeans(failures, id);
    }
    if forall i :: 0 <= i < |children| ==> !children[i].IsShortcut() {
      assert forall i :: 0 <= i < |children| && !children[i].IsFolder() ==> children[i].id in tree[f].fileEffIds;
      assert forall i :: 0 <= i < |children| && children[i].IsFolder() ==> children[i].id in tree[f].subfolderIds;
    }
  }

  /** In particular, a folder whose listing broke off is never marked as completed. */
  lemma BrokenListingIsIncomplete(tree: Tree, known: set<Id>, copied: set<Id>, failures: seq<FailureIds>,
                                  f: Id, children: seq<DriveFile>, listingErrors: set<Id>)
    requires f in tree && f !in known && Records(tree[f], children, f !in listingErrors) && f in listingErrors
    ensures !Complete(Facts(tree, known, copied, FailedKeys(failures)), f)
  {
    CompleteMeans(Facts(tree, known, copied, FailedKeys(failures)), f);
  }
}
