/**
  Walking the source (src/gdrive_turbo_copy/copier.py:309-396, 458-529, 879-892): folders,
  shortcuts to anything, cycles allowed. `visited` holds the folders on the current path.
 */
module Traversal {
  import opened DriveModel
  import opened IndexTheory
  import opened FolderResolution
  import opened Listing

  /**
    `listing` is what can be read of each folder, `broken` the folders whose listing fails part
    way through, `targets` what shortcuts can be resolved to.
   */
  datatype Graph = Graph(listing: map<Id, seq<DriveFile>>, broken: set<Id>, targets: map<Id, DriveFile>)

  predicate ListingFails(g: Graph, folder: Id) {
    folder !in g.listing || folder in g.broken
  }

  function Children(g: Graph, folder: Id): seq<DriveFile> {
    if folder in g.listing then g.listing[folder] else []
  }

  /** _resolve_shortcut: the target under the shortcut's display name. */
  function ResolveShortcut(g: Graph, src: DriveFile): Option<DriveFile> {
    if Truthy(src.shortcutTargetId) && src.shortcutTargetId.value in g.targets
    then Some(g.targets[src.shortcutTargetId.value].(name := src.name))
    else None
  }

  datatype Item = AFile(t: Request) | AFolder(key: FolderKey, id: Id, name: string) | Broken

  function Classify(g: Graph, src: DriveFile): Item {
    if src.IsShortcut() then
      var target := ResolveShortcut(g, src);
      if target.None? then Broken
      else if target.value.IsFolder() then AFolder(ByShortcut(src.id), target.value.id, target.value.name)
      else AFile(Request(src.id, target.value))
    else if src.IsFolder() then AFolder(BySource(src.id), src.id, src.name)
    else AFile(Request(src.id, src))
  }

  /* ---------------------- the walk as a finite tree ------------------------ */

  datatype Node =
    | FileNode(t: Request)
    | FolderNode(key: FolderKey, id: Id, name: string, children: seq<Node>)
    | LoopNode(id: Id)        // already on the path: skipped
    | BrokenNode              // inaccessible shortcut, or a listing that failed: reported as failed

  /** A failed listing is an item of its own, ahead of what could be read. */
  function Failure(g: Graph, folder: Id): seq<Node> {
    if ListingFails(g, folder) then [BrokenNode] else []
  }

  /** Everything the walk meets, in order. It ends because every folder entered leaves the pool. */
  function Unfold(g: Graph, visited: set<Id>, children: seq<DriveFile>): seq<Node>
    decreases g.listing.Keys - visited, |children|
  {
    if children == [] then []
    else
      var head := match Classify(g, children[0])
        case AFile(t) => FileNode(t)
        case Broken => BrokenNode
        case AFolder(key, id, name) =>
          if id in visited then LoopNode(id)
          else FolderNode(key, id, name,
                 Failure(g, id) + if id in g.listing then Unfold(g, visited + {id}, g.listing[id]) else []);
      [head] + Unfold(g, visited, children[1..])
  }

  /**
    A folder met under this key: left out if it is on the path, and otherwise followed by what it
    lists, after a failure if its listing fails or breaks off.
   */
  function Met(g: Graph, visited: set<Id>, key: FolderKey, id: Id, name: string): Node {
    if id in visited then LoopNode(id)
    else if id !in g.listing then FolderNode(key, id, name, [BrokenNode])
    else if id in g.broken then FolderNode(key, id, name, [BrokenNode] + Unfold(g, visited + {id}, g.listing[id]))
    else FolderNode(key, id, name, Unfold(g, visited + {id}, g.listing[id]))
  }

  /**
    What becomes of each child. A shortcut is handled under its own id and its own name: its
    target, if it can be resolved, is copied or followed as if it lay here; if not, it fails.
   */
  lemma {:induction false} UnfoldMeans(g: Graph, visited: set<Id>, children: seq<DriveFile>, i: nat)
    requires i < |children|
    ensures |Unfold(g, visited, children)| == |children|
    ensures var c, node := children[i], Unfold(g, visited, children)[i];
            && (c.mime == FolderMime ==> node == Met(g, visited, BySource(c.id), c.id, c.name))
            && (c.mime == ShortcutMime ==>
                  if c.shortcutTargetId.None? || c.shortcutTargetId == Some("") || c.shortcutTargetId.value !in g.targets
                  then node == BrokenNode
                  else
                    var target := g.targets[c.shortcutTargetId.value];
                    if target.mime == FolderMime then node == Met(g, visited, ByShortcut(c.id), target.id, c.name)
                    else node == FileNode(Request(c.id, target.(name := c.name))))
            && (c.mime != FolderMime && c.mime != ShortcutMime ==> node == FileNode(Request(c.id, c)))
    decreases i
  {
    UnfoldLength(g, visited, children);
    if i > 0 {
      UnfoldMeans(g, visited, children[1..], i - 1);
    }
  }

  lemma {:induction false} UnfoldLength(g: Graph, visited: set<Id>, children: seq<DriveFile>)
    ensures |Unfold(g, visited, children)| == |children|
    decreases |children|
  {
    if children != [] {
      UnfoldLength(g, visited, children[1..]);
    }
  }

  /** No folder lies below itself: along every branch the folder ids are distinct and new. */
  ghost predicate SimplePaths(nodes: seq<Node>, above: set<Id>) {
    forall i :: 0 <= i < |nodes| && nodes[i].FolderNode? ==>
      nodes[i].id !in above && SimplePaths(nodes[i].children, above + {nodes[i].id})
  }

  lemma {:induction false} WalkIsSimple(g: Graph, visited: set<Id>, children: seq<DriveFile>)
    ensures SimplePaths(Unfold(g, visited, children), visited)
    decreases g.listing.Keys - visited, |children|
  {
    if children != [] {
      WalkIsSimple(g, visited, children[1..]);
      var c := Classify(g, children[0]);
      if c.AFolder? && c.id !in visited && c.id in g.listing {
        WalkIsSimple(g, visited + {c.id}, g.listing[c.id]);
      }
    }
  }

  /** Nesting depth of the walk. */
  function Depth(nodes: seq<Node>): nat {
    if nodes == [] then 0
    else
      var d := if nodes[0].FolderNode? then 1 + Depth(nodes[0].children) else 0;
      var rest := Depth(nodes[1..]);
      if d < rest then rest else d
  }

  lemma FailureIsFlat(g: Graph, folder: Id, nodes: seq<Node>)
    ensures Depth(Failure(g, folder) + nodes) == Depth(nodes)
  {
    if ListingFails(g, folder) {
      assert (Failure(g, folder) + nodes)[1..] == nodes;
    } else {
      assert [] + nodes == nodes;
    }
  }

  lemma OneLess(keys: set<Id>, visited: set<Id>, id: Id)
    requires id in keys && id !in visited
    ensures |keys - visited| == |keys - (visited + {id})| + 1
  {
    assert keys - visited == (keys - (visited + {id})) + {id};
  }

  /** The walk never nests deeper than there are readable folders, plus one unreadable leaf. */
  lemma {:induction false} WalkDepthBounded(g: Graph, visited: set<Id>, children: seq<DriveFile>)
    ensures Depth(Unfold(g, visited, children)) <= |g.listing.Keys - visited| + 1
    decreases g.listing.Keys - visited, |children|, 1
  {
    if children != [] {
      WalkDepthBounded(g, visited, children[1..]);
      var c := Classify(g, children[0]);
      var nodes := Unfold(g, visited, children);
      assert nodes[1..] == Unfold(g, visited, children[1..]);
      if c.AFolder? && c.id !in visited {
        BelowIsBounded(g, visited, children, c.id);
      }
    }
  }

  lemma {:induction false} BelowIsBounded(g: Graph, visited: set<Id>, children: seq<DriveFile>, id: Id)
    requires id !in visited
    ensures Depth(Failure(g, id) + if id in g.listing then Unfold(g, visited + {id}, g.listing[id]) else [])
            <= |g.listing.Keys - visited|
    decreases g.listing.Keys - visited, |children|, 0
  {
    if id in g.listing {
      WalkDepthBounded(g, visited + {id}, g.listing[id]);
      FailureIsFlat(g, id, Unfold(g, visited + {id}, g.listing[id]));
      OneLess(g.listing.Keys, visited, id);
    } else {
      FailureIsFlat(g, id, []);
    }
  }

  /* ------------------------ visits, in both traversals --------------------- */

  /** One file considered for copying under one source folder. */
  datatype Visit = Visit(t: Request, parent: Id)

  /** _process_level: depth first, in listing order. */
  function DefaultVisits(g: Graph, visited: set<Id>, parent: Id, children: seq<DriveFile>): seq<Visit>
    decreases g.listing.Keys - visited, |children|
  {
    if children == [] then []
    else
      var head := match Classify(g, children[0])
        case AFile(t) => [Visit(t, parent)]
        case Broken => []
        case AFolder(_, id, _) =>
          if id in visited || id !in g.listing then []
          else DefaultVisits(g, visited + {id}, id, g.listing[id]);
      head + DefaultVisits(g, visited, parent, children[1..])
  }

  /** The files of a walked tree, each under the folder that listed it. */
  function FilesOf(nodes: seq<Node>, parent: Id): seq<Visit>
    decreases nodes
  {
    if nodes == [] then []
    else
      (match nodes[0]
       case FileNode(t) => [Visit(t, parent)]
       case FolderNode(_, id, _, children) => FilesOf(children, id)
       case _ => [])
      + FilesOf(nodes[1..], parent)
  }

  lemma FailureIsNoFile(g: Graph, folder: Id, nodes: seq<Node>, parent: Id)
    ensures FilesOf(Failure(g, folder) + nodes, parent) == FilesOf(nodes, parent)
  {
    if ListingFails(g, folder) {
      assert (Failure(g, folder) + nodes)[1..] == nodes;
    } else {
      assert [] + nodes == nodes;
    }
  }

  lemma {:induction false} WalkVisits(g: Graph, visited: set<Id>, parent: Id, children: seq<DriveFile>)
    ensures FilesOf(Unfold(g, visited, children), parent) == DefaultVisits(g, visited, parent, children)
    decreases g.listing.Keys - visited, |children|
  {
    if children != [] {
      var nodes := Unfold(g, visited, children);
      assert nodes[1..] == Unfold(g, visited, children[1..]);
      WalkVisits(g, visited, parent, children[1..]);
      var c := Classify(g, children[0]);
      if c.AFolder? && c.id !in visited && c.id in g.listing {
        WalkVisits(g, visited + {c.id}, c.id, g.listing[c.id]);
        FailureIsNoFile(g, c.id, Unfold(g, visited + {c.id}, g.listing[c.id]), c.id);
      } else if c.AFolder? {
        FailureIsNoFile(g, c.id, [], c.id);
      }
    }
  }

  /** What a batched listing of sibling folders answers for one of them. */
  type Batched = (seq<Id>, Id) -> seq<DriveFile>

  /** The sibling folders _process_level_fast puts aside while it handles the files. */
  function Pending(g: Graph, visited: set<Id>, children: seq<DriveFile>): seq<Id> {
    if children == [] then []
    else
      var c := Classify(g, children[0]);
      (if c.AFolder? && c.id !in visited then [c.id] else []) + Pending(g, visited, children[1..])
  }

  function FilesHere(g: Graph, parent: Id, children: seq<DriveFile>): seq<Visit> {
    if children == [] then []
    else
      var c := Classify(g, children[0]);
      (if c.AFile? then [Visit(c.t, parent)] else []) + FilesHere(g, parent, children[1..])
  }

  /** _process_level_fast: all files of the level, then each pending folder from one batched listing. */
  function FastVisits(g: Graph, kids: Batched, visited: set<Id>, parent: Id, children: seq<DriveFile>): seq<Visit>
    decreases g.listing.Keys - visited, 1, 0
  {
    var pending := Pending(g, visited, children);
    FilesHere(g, parent, children) + PendingVisits(g, kids, visited, pending, pending)
  }

  function PendingVisits(g: Graph, kids: Batched, visited: set<Id>, siblings: seq<Id>, todo: seq<Id>): seq<Visit>
    decreases g.listing.Keys - visited, 0, |todo|
  {
    if todo == [] then []
    else
      (if todo[0] in g.listing && todo[0] !in visited
       then FastVisits(g, kids, visited + {todo[0]}, todo[0], kids(siblings, todo[0])) else [])
      + PendingVisits(g, kids, visited, siblings, todo[1..])
  }

  /** The batched answers hold the same files as single listings, in whatever order. */
  ghost predicate SameFiles(g: Graph, kids: Batched) {
    forall siblings, f :: f in siblings ==> multiset(kids(siblings, f)) == multiset(Children(g, f))
  }

  /* The visits as a bag, independent of order. */

  function VisitsOf(g: Graph, visited: set<Id>, parent: Id, src: DriveFile): multiset<Visit>
    decreases g.listing.Keys - visited, 0
  {
    match Classify(g, src)
    case AFile(t) => multiset{Visit(t, parent)}
    case Broken => multiset{}
    case AFolder(_, id, _) =>
      if id in visited || id !in g.listing then multiset{}
      else VisitBag(g, visited + {id}, id, g.listing[id])
  }

  function VisitBag(g: Graph, visited: set<Id>, parent: Id, children: seq<DriveFile>): multiset<Visit>
    decreases g.listing.Keys - visited, |children|
  {
    if children == [] then multiset{}
    else VisitsOf(g, visited, parent, children[0]) + VisitBag(g, visited, parent, children[1..])
  }

  lemma {:induction false} DefaultVisitsAreBag(g: Graph, visited: set<Id>, parent: Id, children: seq<DriveFile>)
    ensures multiset(DefaultVisits(g, visited, parent, children)) == VisitBag(g, visited, parent, children)
    decreases g.listing.Keys - visited, |children|
  {
    if children != [] {
      DefaultVisitsAreBag(g, visited, parent, children[1..]);
      var c := Classify(g, children[0]);
      if c.AFolder? && c.id !in visited && c.id in g.listing {
        DefaultVisitsAreBag(g, visited + {c.id}, c.id, g.listing[c.id]);
      }
    }
  }

  function BagSum<A, B>(f: A -> multiset<B>, s: seq<A>): multiset<B> {
    if s == [] then multiset{} else f(s[0]) + BagSum(f, s[1..])
  }

  lemma BagWithout<T>(s: seq<T>, i: nat)
    requires i < |s|
    ensures multiset(s) == multiset(s[..i] + s[i+1..]) + multiset{s[i]}
  {
    assert s == s[..i] + [s[i]] + s[i+1..];
  }

  lemma {:induction false} BagSumRemove<A, B>(f: A -> multiset<B>, s: seq<A>, i: nat)
    requires i < |s|
    ensures BagSum(f, s) == f(s[i]) + BagSum(f, s[..i] + s[i+1..])
    decreases |s|
  {
    var rest := s[..i] + s[i+1..];
    if i == 0 {
      assert rest == s[1..];
    } else {
      assert rest[0] == s[0] && rest[1..] == s[1..][..i-1] + s[1..][i..];
      BagSumRemove(f, s[1..], i - 1);
    }
  }

  /** The first of a, somewhere in b; the rest of both are the same bag. */
  lemma FindIn<T>(a: seq<T>, b: seq<T>) returns (i: nat)
    requires a != [] && multiset(a) == multiset(b)
    ensures i < |b| && b[i] == a[0] && multiset(b[..i] + b[i+1..]) == multiset(a[1..])
  {
    assert a[0] in multiset(b);
    i :| 0 <= i < |b| && b[i] == a[0];
    BagWithout(a, 0);
    BagWithout(b, i);
    assert a[..0] + a[1..] == a[1..];
    assert multiset(b[..i] + b[i+1..]) == multiset(b) - multiset{b[i]};
    assert multiset(a[1..]) == multiset(a) - multiset{a[0]};
  }

  /** A sum of bags does not depend on the order of its terms. */
  lemma {:induction false} BagSumOrderFree<A, B>(f: A -> multiset<B>, a: seq<A>, b: seq<A>)
    requires multiset(a) == multiset(b)
    ensures BagSum(f, a) == BagSum(f, b)
    decreases |a|
  {
    if a == [] {
      assert |multiset(b)| == |b|;
    } else {
      var i := FindIn(a, b);
      BagSumRemove(f, b, i);
      BagSumOrderFree(f, a[1..], b[..i] + b[i+1..]);
    }
  }

  lemma {:induction false} VisitBagIsSum(g: Graph, visited: set<Id>, parent: Id, children: seq<DriveFile>,
                                         f: DriveFile -> multiset<Visit>)
    requires forall src :: f(src) == VisitsOf(g, visited, parent, src)
    ensures VisitBag(g, visited, parent, children) == BagSum(f, children)
    decreases |children|
  {
    if children != [] {
      VisitBagIsSum(g, visited, parent, children[1..], f);
    }
  }

  lemma VisitBagOrderFree(g: Graph, visited: set<Id>, parent: Id, a: seq<DriveFile>, b: seq<DriveFile>)
    requires multiset(a) == multiset(b)
    ensures VisitBag(g, visited, parent, a) == VisitBag(g, visited, parent, b)
  {
    var f := (src: DriveFile) => VisitsOf(g, visited, parent, src);
    VisitBagIsSum(g, visited, parent, a, f);
    VisitBagIsSum(g, visited, parent, b, f);
    BagSumOrderFree(f, a, b);
  }

  /** Bag of the pending folders' visits. */
  function PendingBag(g: Graph, visited: set<Id>, todo: seq<Id>): multiset<Visit> {
    if todo == [] then multiset{}
    else
      (if todo[0] in g.listing && todo[0] !in visited
       then VisitBag(g, visited + {todo[0]}, todo[0], g.listing[todo[0]]) else multiset{})
      + PendingBag(g, visited, todo[1..])
  }

  lemma {:induction false} BagSumPlus<A, B>(f: A -> multiset<B>, g: A -> multiset<B>, h: A -> multiset<B>, s: seq<A>)
    requires forall x :: x in s ==> h(x) == f(x) + g(x)
    ensures BagSum(h, s) == BagSum(f, s) + BagSum(g, s)
  {
    if s != [] {
      BagSumPlus(f, g, h, s[1..]);
    }
  }

  function FileBag(g: Graph, parent: Id, src: DriveFile): multiset<Visit> {
    var c := Classify(g, src);
    if c.AFile? then multiset{Visit(c.t, parent)} else multiset{}
  }

  function FolderBag(g: Graph, visited: set<Id>, src: DriveFile): multiset<Visit> {
    var c := Classify(g, src);
    if c.AFolder? && c.id !in visited && c.id in g.listing then VisitBag(g, visited + {c.id}, c.id, g.listing[c.id])
    else multiset{}
  }

  lemma {:induction false} FilesHereBag(g: Graph, parent: Id, children: seq<DriveFile>, f: DriveFile -> multiset<Visit>)
    requires forall src :: f(src) == FileBag(g, parent, src)
    ensures multiset(FilesHere(g, parent, children)) == BagSum(f, children)
  {
    if children != [] {
      FilesHereBag(g, parent, children[1..], f);
    }
  }

  lemma {:induction false} PendingIsSum(g: Graph, visited: set<Id>, children: seq<DriveFile>, f: DriveFile -> multiset<Visit>)
    requires forall src :: f(src) == FolderBag(g, visited, src)
    ensures PendingBag(g, visited, Pending(g, visited, children)) == BagSum(f, children)
  {
    if children != [] {
      PendingIsSum(g, visited, children[1..], f);
      var c := Classify(g, children[0]);
      var rest := Pending(g, visited, children[1..]);
      if c.AFolder? && c.id !in visited {
        assert ([c.id] + rest)[1..] == rest;
      } else {
        assert [] + rest == rest;
      }
    }
  }

  /** A level is its files plus its pending folders. */
  lemma SplitLevel(g: Graph, visited: set<Id>, parent: Id, children: seq<DriveFile>)
    ensures multiset(FilesHere(g, parent, children)) + PendingBag(g, visited, Pending(g, visited, children))
            == VisitBag(g, visited, parent, children)
  {
    var files := (src: DriveFile) => FileBag(g, parent, src);
    var folders := (src: DriveFile) => FolderBag(g, visited, src);
    var all := (src: DriveFile) => VisitsOf(g, visited, parent, src);
    FilesHereBag(g, parent, children, files);
    PendingIsSum(g, visited, children, folders);
    VisitBagIsSum(g, visited, parent, children, all);
    forall src ensures all(src) == files(src) + folders(src) {
      SplitOne(g, visited, parent, src);
    }
    BagSumPlus(files, folders, all, children);
  }

  lemma SplitOne(g: Graph, visited: set<Id>, parent: Id, src: DriveFile)
    ensures VisitsOf(g, visited, parent, src) == FileBag(g, parent, src) + FolderBag(g, visited, src)
  {
  }

  lemma {:induction false} FastVisitsAreBag(g: Graph, kids: Batched, visited: set<Id>, parent: Id, children: seq<DriveFile>)
    requires SameFiles(g, kids)
    ensures multiset(FastVisits(g, kids, visited, parent, children)) == VisitBag(g, visited, parent, children)
    decreases g.listing.Keys - visited, 1, 0
  {
    var pending := Pending(g, visited, children);
    PendingVisitsAreBag(g, kids, visited, pending, pending);
    SplitLevel(g, visited, parent, children);
  }

  lemma {:induction false} PendingVisitsAreBag(g: Graph, kids: Batched, visited: set<Id>, siblings: seq<Id>, todo: seq<Id>)
    requires SameFiles(g, kids) && forall f :: f in todo ==> f in siblings
    ensures multiset(PendingVisits(g, kids, visited, siblings, todo)) == PendingBag(g, visited, todo)
    decreases g.listing.Keys - visited, 0, |todo|
  {
    if todo != [] {
      PendingVisitsAreBag(g, kids, visited, siblings, todo[1..]);
      var f := todo[0];
      if f in g.listing && f !in visited {
        FastVisitsAreBag(g, kids, visited + {f}, f, kids(siblings, f));
        VisitBagOrderFree(g, visited + {f}, f, kids(siblings, f), g.listing[f]);
      }
    }
  }

  /**
    On every source graph, cyclic or shared: if batched listings hold the same files as single
    ones, the fast traversal considers exactly the files the default one does, each under the
    same source folder and as often.
   */
  lemma FastListRefinesDefault(g: Graph, kids: Batched, visited: set<Id>, parent: Id, children: seq<DriveFile>)
    requires SameFiles(g, kids)
    ensures multiset(FastVisits(g, kids, visited, parent, children))
            == multiset(DefaultVisits(g, visited, parent, children))
  {
    FastVisitsAreBag(g, kids, visited, parent, children);
    DefaultVisitsAreBag(g, visited, parent, children);
  }

  /** The batched listing as _process_level_fast reads it. */
  function FromBatches(c: Client): Batched {
    (siblings, f) => if f in BatchedAnswer(c, siblings) then BatchedAnswer(c, siblings)[f] else []
  }

  /**
    The same with the batched listing of Listing in place: complete or empty buckets, in any
    order, over any number of pages and groups and with any failed queries, cost no file.
   */
  lemma BatchedTraversalRefinesDefault(g: Graph, c: Client, visited: set<Id>, parent: Id, children: seq<DriveFile>)
    requires CompleteOrEmpty(c)
    requires forall f :: multiset(c.single(f)) == multiset(Children(g, f))
    ensures multiset(FastVisits(g, FromBatches(c), visited, parent, children))
            == multiset(DefaultVisits(g, visited, parent, children))
  {
    forall siblings: seq<Id>, f | f in siblings
      ensures multiset(FromBatches(c)(siblings, f)) == multiset(Children(g, f))
    {
      BatchedIsSingle(c, siblings, f);
    }
    FastListRefinesDefault(g, FromBatches(c), visited, parent, children);
  }
}
