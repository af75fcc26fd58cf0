/**
  The safety search that refuses a destination inside the source
  (src/gdrive_turbo_copy/copier.py:894-913): upwards along parents, on any graph.
 */
module AncestorSearch {
  import opened DriveModel

  /** The parents of each item whose metadata can be read; an unreadable item shows none. */
  type Parents = map<Id, seq<Id>>

  function ParentsOf(g: Parents, id: Id): seq<Id> {
    if id in g then g[id] else []
  }

  predicate ParentEdge(g: Parents, path: seq<Id>, i: int) {
    0 < i < |path| && path[i] in ParentsOf(g, path[i-1])
  }

  /** A chain of parent edges. */
  ghost predicate Chain(g: Parents, path: seq<Id>, from: Id, to: Id) {
    && path != [] && path[0] == from && path[|path|-1] == to
    && forall i :: 0 < i < |path| ==> ParentEdge(g, path, i)
  }

  ghost predicate Reachable(g: Parents, from: Id, to: Id) {
    exists path :: Chain(g, path, from, to)
  }

  ghost predicate ClosedUpwards(g: Parents, s: set<Id>) {
    forall id, p :: id in s && p in ParentsOf(g, id) ==> p in s
  }

  lemma ReachableSelf(g: Parents, id: Id)
    ensures Reachable(g, id, id)
  {
    assert Chain(g, [id], id, id);
  }

  lemma ReachableStep(g: Parents, from: Id, mid: Id, to: Id)
    requires Reachable(g, from, mid) && to in ParentsOf(g, mid)
    ensures Reachable(g, from, to)
  {
    var path :| Chain(g, path, from, mid);
    var longer := path + [to];
    forall i | 0 < i < |longer| ensures ParentEdge(g, longer, i) {
      if i < |path| {
        assert ParentEdge(g, path, i);
      }
    }
    assert Chain(g, longer, from, to);
  }

  /** A set closed upwards contains everything reachable from its members. */
  lemma {:induction false} ClosedContainsChain(g: Parents, s: set<Id>, path: seq<Id>, i: nat)
    requires ClosedUpwards(g, s) && path != [] && path[0] in s && i < |path|
    requires forall j :: 0 < j < |path| ==> ParentEdge(g, path, j)
    ensures path[i] in s
  {
    if i > 0 {
      ClosedContainsChain(g, s, path, i - 1);
      assert ParentEdge(g, path, i);
    }
  }

  lemma ClosedContainsReachable(g: Parents, s: set<Id>, from: Id, to: Id)
    requires ClosedUpwards(g, s) && from in s && Reachable(g, from, to)
    ensures to in s
  {
    var path :| Chain(g, path, from, to);
    ClosedContainsChain(g, s, path, |path| - 1);
  }

  /** All items visited so far have their parents visited or waiting. */
  ghost predicate Frontier(g: Parents, seen: set<Id>, stack: seq<Id>) {
    forall id, p :: id in seen && p in ParentsOf(g, id) ==> p in seen || p in stack
  }

  /** Push the parents not seen yet, in order. */
  method PushParents(stack: seq<Id>, seen: set<Id>, parents: seq<Id>) returns (r: seq<Id>)
    ensures forall p :: p in r <==> p in stack || (p in parents && p !in seen)
  {
    r := stack;
    for i := 0 to |parents|
      invariant forall p :: p in r <==> p in stack || (p in parents[..i] && p !in seen)
    {
      if parents[i] !in seen {
        r := r + [parents[i]];
      }
    }
    assert parents[..|parents|] == parents;
  }

  /**
    True means the ancestor really is reachable, on every graph. With at most maxNodes items
    reachable from the candidate, itself included, the answer is exact. The search ends after
    maxNodes items at the latest.
   */
  method IsDescendantOf(g: Parents, candidate: Id, ancestor: Id, maxNodes: nat) returns (found: bool)
    ensures found ==> Reachable(g, candidate, ancestor)
    ensures candidate != "" && ancestor != ""
            && (exists s: set<Id> :: |s| <= maxNodes && candidate in s && ClosedUpwards(g, s))
            ==> (found <==> Reachable(g, candidate, ancestor))
  {
    if candidate == "" || ancestor == "" {
      return false;
    }
    var seen: set<Id> := {};
    var stack := [candidate];
    ReachableSelf(g, candidate);
    while stack != [] && |seen| < maxNodes
      invariant |seen| <= maxNodes
      invariant ancestor !in seen
      invariant candidate in seen || candidate in stack
      invariant forall id :: id in seen || id in stack ==> Reachable(g, candidate, id)
      invariant Frontier(g, seen, stack)
      decreases maxNodes - |seen|, |stack|
    {
      var cur := stack[|stack|-1];
      ghost var before := stack;
      stack := stack[..|stack|-1];
      assert forall id :: id in before ==> id in stack || id == cur;
      if cur == ancestor {
        return true;
      }
      if cur !in seen {
        seen := seen + {cur};
        forall p | p in ParentsOf(g, cur) ensures Reachable(g, candidate, p) {
          ReachableStep(g, candidate, cur, p);
        }
        if cur in g {
          stack := PushParents(stack, seen, g[cur]);
        }
      }
    }
    if Reachable(g, candidate, ancestor) {
      forall s: set<Id> | candidate in s && ClosedUpwards(g, s) ensures |s| > maxNodes {
        forall id | id in seen ensures id in s {
          ClosedContainsReachable(g, s, candidate, id);
        }
        ClosedContainsReachable(g, s, candidate, ancestor);
        if stack == [] {
          assert ClosedUpwards(g, seen);
          ClosedContainsReachable(g, seen, candidate, ancestor);
          assert false;
        }
        SubsetSize(seen, s - {ancestor});
      }
    }
    return false;
  }
}
