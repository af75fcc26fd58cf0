/**
  The fast traversal as the loops it is (src/gdrive_turbo_copy/copier.py:329-437): the files of a
  level first, then every folder put aside, from one batched listing of them all. It records
  which files it considers under which source folder; what becomes of them is Copier's part.
 */
module FastWalk {
  import opened DriveModel
  import opened Listing
  import opened Traversal

  /** Only folders of the source have children to show, so the walk is over a finite graph. */
  ghost predicate OnlyListed(g: Graph, c: Client) {
    forall siblings, f :: f in siblings && FromBatches(c)(siblings, f) != [] ==> f in g.listing
  }

  class FastWalker {
    const source: Graph
    const client: Client
    var visits: seq<Visit>

    constructor (source: Graph, client: Client)
      ensures this.source == source && this.client == client && visits == []
    {
      this.source, this.client := source, client;
      visits := [];
    }

    /** The first loop: files are considered, folders not on the current path are put aside. */
    method SortLevel(parent: Id, children: seq<DriveFile>, visited: set<Id>) returns (pending: seq<Id>)
      modifies this`visits
      ensures visits == old(visits) + FilesHere(source, parent, children)
      ensures pending == Pending(source, visited, children)
    {
      pending := [];
      ghost var before := visits;
      assert children[0..] == children;
      for i := 0 to |children|
        invariant visits + FilesHere(source, parent, children[i..]) == before + FilesHere(source, parent, children)
        invariant pending + Pending(source, visited, children[i..]) == Pending(source, visited, children)
      {
        assert children[i..][0] == children[i] && children[i..][1..] == children[i+1..];
        match Classify(source, children[i]) {
          case AFile(t) => visits := visits + [Visit(t, parent)];
          case AFolder(_, id, _) =>
            if id !in visited {
              pending := pending + [id];
            }
          case Broken =>
        }
      }
    }

    /** The second loop's body: a folder with children is processed with the batch's answer for it. */
    method EnterFolder(folder: Id, found: seq<DriveFile>, visited: set<Id>)
      requires Answers(client) && OnlyListed(source, client) && folder !in visited
      requires found != [] ==> folder in source.listing
      modifies this`visits
      ensures visits == old(visits) + if folder in source.listing
                                      then FastVisits(source, FromBatches(client), visited + {folder}, folder, found) else []
      decreases source.listing.Keys - visited, 0
    {
      if found != [] {
        ProcessLevelFast(folder, found, visited + {folder});
      } else {
        EmptyLevel(source, FromBatches(client), visited + {folder}, folder);
      }
    }

    method ProcessLevelFast(parent: Id, children: seq<DriveFile>, visited: set<Id>)
      requires Answers(client) && OnlyListed(source, client)
      modifies this`visits
      ensures visits == old(visits) + FastVisits(source, FromBatches(client), visited, parent, children)
      decreases source.listing.Keys - visited, 1
    {
      ghost var start, kids := visits, FromBatches(client);
      var pending := SortLevel(parent, children, visited);
      if pending == [] {
        return;
      }
      ghost var level := visits;
      var childMap := BatchedList(client, pending);
      assert pending[0..] == pending;
      for k := 0 to |pending|
        invariant visits + PendingVisits(source, kids, visited, pending, pending[k..])
               == level + PendingVisits(source, kids, visited, pending, pending)
      {
        var folder := pending[k];
        var found := if folder in childMap then childMap[folder] else [];
        assert found == kids(pending, folder);
        PendingIsNew(source, visited, children, k);
        NextFolder(source, kids, visited, pending, k, visits);
        EnterFolder(folder, found, visited);
      }
      Regroup(start, FilesHere(source, parent, children), PendingVisits(source, kids, visited, pending, pending));
    }
  }

  lemma EmptyLevel(g: Graph, kids: Batched, visited: set<Id>, parent: Id)
    ensures FastVisits(g, kids, visited, parent, []) == []
  {
  }

  lemma {:induction false} PendingIsNew(g: Graph, visited: set<Id>, children: seq<DriveFile>, k: nat)
    requires k < |Pending(g, visited, children)|
    ensures Pending(g, visited, children)[k] !in visited
  {
    var c := Classify(g, children[0]);
    if c.AFolder? && c.id !in visited {
      if k > 0 {
        PendingIsNew(g, visited, children[1..], k - 1);
      }
    } else {
      PendingIsNew(g, visited, children[1..], k);
    }
  }

  /** What the pending folders from k on add to the visits so far, one folder split off. */
  lemma NextFolder(g: Graph, kids: Batched, visited: set<Id>, pending: seq<Id>, k: nat, sofar: seq<Visit>)
    requires k < |pending| && pending[k] !in visited
    ensures var here := if pending[k] in g.listing
                        then FastVisits(g, kids, visited + {pending[k]}, pending[k], kids(pending, pending[k])) else [];
            sofar + PendingVisits(g, kids, visited, pending, pending[k..])
            == (sofar + here) + PendingVisits(g, kids, visited, pending, pending[k+1..])
  {
    var todo := pending[k..];
    assert todo[0] == pending[k] && todo[1..] == pending[k+1..];
    Regroup(sofar, if pending[k] in g.listing
                   then FastVisits(g, kids, visited + {pending[k]}, pending[k], kids(pending, pending[k])) else [],
            PendingVisits(g, kids, visited, pending, pending[k+1..]));
  }
}
