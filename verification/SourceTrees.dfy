/**
  The tree the engine walks is the source that the histories speak about: what Traversal unfolds
  from a graph fits, and shows all of, any Source that describes the graph
  (src/gdrive_turbo_copy/copier.py:309-327, 458-529, 879-892).
 */
module SourceTrees {
  import opened DriveModel
  import opened IndexTheory
  import opened Traversal
  import R = FolderResolution
  import S = SyncRuns
  import H = Histories
  import T = StoreRuns
  import X = EngineHistories
  import E = Engine
  import D = DryRun

  /** The source has this child of f, as a file, a folder, or through a shortcut. */
  ghost predicate ChildFits(src: S.Source, shape: R.Shape, g: Graph, f: Id, c: DriveFile) {
    f in src.tasks && match Classify(g, c)
    case AFile(t) => t in src.tasks[f]
    case AFolder(key, id, _) =>
      && key == T.Key(src, c.id) && key.id == c.id && S.Sub(src, f, c.id) && c.id in src.tasks && S.Real(src, c.id) == id
      && key in shape.parents && T.Key(src, f) in shape.parents[key]
    case Broken => true
  }

  ghost predicate ChildrenFit(src: S.Source, shape: R.Shape, g: Graph, f: Id, children: seq<DriveFile>) {
    forall i :: 0 <= i < |children| ==> ChildFits(src, shape, g, f, children[i])
  }

  /** The source names exactly what the listings of the graph show. */
  ghost predicate Describes(src: S.Source, shape: R.Shape, g: Graph) {
    forall f :: f in src.tasks ==>
      && S.Real(src, f) in g.listing
      && ChildrenFit(src, shape, g, f, g.listing[S.Real(src, f)])
      && (forall t :: t in src.tasks[f] ==> exists c :: c in g.listing[S.Real(src, f)] && Classify(g, c) == AFile(t))
      && (forall n :: S.Sub(src, f, n) ==>
            exists c :: c in g.listing[S.Real(src, f)] && c.id == n && Classify(g, c).AFolder?)
  }

  /** The folders on a path. */
  function Reals(src: S.Source, path: seq<Id>): set<Id> {
    set i | 0 <= i < |path| :: S.Real(src, path[i])
  }

  /** The path goes on to a folder that is not on it. */
  lemma WalkGoesOn(src: S.Source, path: seq<Id>, n: Id)
    requires path != [] && S.Walk(src, path) && S.Sub(src, path[|path|-1], n) && n in src.tasks
    ensures S.WalkTo(src, path + [n], n) <==> S.Real(src, n) !in Reals(src, path)
    ensures Reals(src, path + [n]) == Reals(src, path) + {S.Real(src, n)}
  {
    var longer := path + [n];
    assert forall i :: 0 <= i < |path| ==> longer[i] == path[i];
    assert longer[|path|] == n;
    forall i | 0 < i < |longer| ensures S.Edge(src, longer, i) {
      assert i < |path| ==> S.Edge(src, path, i);
    }
    if S.Real(src, n) in Reals(src, path) {
      var i :| 0 <= i < |path| && S.Real(src, path[i]) == S.Real(src, n);
      assert S.Real(src, longer[i]) == S.Real(src, longer[|path|]);
    } else {
      assert forall i :: 0 <= i < |path| ==> S.Real(src, path[i]) in Reals(src, path);
    }
    RealsOfLonger(src, path, n);
  }

  lemma RealsOfLonger(src: S.Source, path: seq<Id>, n: Id)
    ensures Reals(src, path + [n]) == Reals(src, path) + {S.Real(src, n)}
  {
    var longer := path + [n];
    forall x ensures x in Reals(src, longer) <==> x in Reals(src, path) || x == S.Real(src, n) {
      if x in Reals(src, path) {
        var i :| 0 <= i < |path| && S.Real(src, path[i]) == x;
        assert longer[i] == path[i];
      }
      if x == S.Real(src, n) {
        assert longer[|path|] == n;
      }
    }
  }

  lemma FailureFits(src: S.Source, shape: R.Shape, g: Graph, path: seq<Id>, id: Id, nodes: seq<Node>)
    requires path != [] && X.Fits(src, shape, path, nodes)
    ensures X.Fits(src, shape, path, Failure(g, id) + nodes)
  {
    if ListingFails(g, id) {
      assert (Failure(g, id) + nodes)[1..] == nodes;
    } else {
      assert [] + nodes == nodes;
    }
  }

  /** What is unfolded fits. */
  lemma {:induction false} UnfoldFits(src: S.Source, shape: R.Shape, g: Graph, path: seq<Id>, children: seq<DriveFile>)
    requires Describes(src, shape, g) && S.Walk(src, path)
    requires ChildrenFit(src, shape, g, path[|path|-1], children)
    ensures X.Fits(src, shape, path, Unfold(g, Reals(src, path), children))
    decreases g.listing.Keys - Reals(src, path), |children|
  {
    if children != [] {
      var c := children[0];
      assert ChildFits(src, shape, g, path[|path|-1], c);
      assert forall i :: 0 <= i < |children| - 1 ==> children[1..][i] == children[i+1];
      UnfoldFits(src, shape, g, path, children[1..]);
      var nodes := Unfold(g, Reals(src, path), children);
      assert nodes[1..] == Unfold(g, Reals(src, path), children[1..]);
      var item := Classify(g, c);
      if item.AFolder? && item.id !in Reals(src, path) {
        WalkGoesOn(src, path, c.id);
        assert (path + [c.id])[|path|] == c.id;
        UnfoldFits(src, shape, g, path + [c.id], g.listing[item.id]);
        FailureFits(src, shape, g, path + [c.id], item.id, Unfold(g, Reals(src, path + [c.id]), g.listing[item.id]));
      }
      assert X.FitsOne(src, shape, path, nodes[0]);
    }
  }

  /** What becomes of the i-th child. */
  lemma {:induction false} UnfoldAt(g: Graph, visited: set<Id>, children: seq<DriveFile>, i: nat)
    requires i < |children|
    ensures |Unfold(g, visited, children)| == |children|
    ensures Unfold(g, visited, children)[i] == Unfold(g, visited, [children[i]])[0]
    decreases i
  {
    UnfoldLength(g, visited, children);
    assert [children[i]][1..] == [];
    if i > 0 {
      UnfoldAt(g, visited, children[1..], i - 1);
    }
  }

  /** The names listed in a folder, as the walk's node has them. */
  lemma ChildIsShown(src: S.Source, shape: R.Shape, g: Graph, path: seq<Id>, children: seq<DriveFile>, i: nat)
    requires Describes(src, shape, g) && S.Walk(src, path) && i < |children|
    requires ChildFits(src, shape, g, path[|path|-1], children[i])
    ensures |Unfold(g, Reals(src, path), children)| == |children|
    ensures var item, node := Classify(g, children[i]), Unfold(g, Reals(src, path), children)[i];
            && (item.AFile? ==> node == FileNode(item.t))
            && (item.AFolder? && item.id !in Reals(src, path) ==>
                  && S.WalkTo(src, path + [children[i].id], children[i].id)
                  && node.FolderNode? && node.key.id == children[i].id
                  && node.children == Failure(g, item.id) + Unfold(g, Reals(src, path + [children[i].id]), g.listing[item.id]))
            && (node.FolderNode? ==> item.AFolder? && item.id !in Reals(src, path))
  {
    UnfoldAt(g, Reals(src, path), children, i);
    var c := children[i];
    if Classify(g, c).AFolder? {
      WalkGoesOn(src, path, c.id);
    }
  }

  /** The listing of the folder at the end of the path. */
  function ListedAt(src: S.Source, g: Graph, path: seq<Id>): seq<DriveFile>
    requires path != [] && S.Real(src, path[|path|-1]) in g.listing
  {
    g.listing[S.Real(src, path[|path|-1])]
  }

  lemma FilesAreShown(src: S.Source, shape: R.Shape, g: Graph, path: seq<Id>, t: Request)
    requires Describes(src, shape, g) && S.Walk(src, path) && t in src.tasks[path[|path|-1]]
    ensures FileNode(t) in Unfold(g, Reals(src, path), ListedAt(src, g, path))
  {
    var children := ListedAt(src, g, path);
    var f := path[|path|-1];
    var c :| c in g.listing[S.Real(src, f)] && Classify(g, c) == AFile(t);
    var i :| 0 <= i < |children| && children[i] == c;
    ChildIsShown(src, shape, g, path, children, i);
  }

  lemma FoldersAreShown(src: S.Source, shape: R.Shape, g: Graph, path: seq<Id>, n: Id)
    requires Describes(src, shape, g) && S.Walk(src, path) && S.WalkTo(src, path + [n], n)
    ensures X.ShownIn(Unfold(g, Reals(src, path), ListedAt(src, g, path)), n)
  {
    var children := ListedAt(src, g, path);
    var f := path[|path|-1];
    LastEdge(src, path, n);
    var c :| c in g.listing[S.Real(src, f)] && c.id == n && Classify(g, c).AFolder?;
    var i :| 0 <= i < |children| && children[i] == c;
    ChildIsShown(src, shape, g, path, children, i);
    WalkGoesOn(src, path, n);
  }

  lemma LastEdge(src: S.Source, path: seq<Id>, n: Id)
    requires path != [] && S.WalkTo(src, path + [n], n)
    ensures S.Sub(src, path[|path|-1], n) && n in src.tasks
  {
    assert S.Edge(src, path + [n], |path|);
    assert (path + [n])[|path|] == n;
  }

  /** A failure in front hides nothing. */
  lemma FailureIsWhole(src: S.Source, g: Graph, path: seq<Id>, id: Id, nodes: seq<Node>)
    requires X.Whole(src, path, nodes)
    ensures X.Whole(src, path, Failure(g, id) + nodes)
  {
    var all := Failure(g, id) + nodes;
    var k := |Failure(g, id)|;
    assert forall i :: 0 <= i < |nodes| ==> all[k + i] == nodes[i];
    forall n | S.WalkTo(src, path + [n], n) ensures X.ShownIn(all, n) {
      assert X.ShownIn(nodes, n);
      var i :| 0 <= i < |nodes| && nodes[i].FolderNode? && nodes[i].key.id == n;
      assert all[k + i] == nodes[i];
    }
    forall i | 0 <= i < |all| && all[i].FolderNode? ensures X.Whole(src, path + [all[i].key.id], all[i].children) {
      assert i >= k && all[i] == nodes[i - k];
    }
  }

  /** What is unfolded shows everything. */
  lemma {:induction false} UnfoldIsWhole(src: S.Source, shape: R.Shape, g: Graph, path: seq<Id>)
    requires Describes(src, shape, g) && S.Walk(src, path)
    ensures X.Whole(src, path, Unfold(g, Reals(src, path), ListedAt(src, g, path)))
    decreases g.listing.Keys - Reals(src, path), 1
  {
    var children := ListedAt(src, g, path);
    var nodes := Unfold(g, Reals(src, path), children);
    var f := path[|path|-1];
    forall t | t in src.tasks[f] ensures FileNode(t) in nodes {
      FilesAreShown(src, shape, g, path, t);
    }
    forall n | S.WalkTo(src, path + [n], n) ensures X.ShownIn(nodes, n) {
      FoldersAreShown(src, shape, g, path, n);
    }
    forall i | 0 <= i < |nodes| && nodes[i].FolderNode? ensures X.Whole(src, path + [nodes[i].key.id], nodes[i].children) {
      UnfoldLength(g, Reals(src, path), children);
      FolderIsWhole(src, shape, g, path, i);
    }
  }

  lemma {:induction false} FolderIsWhole(src: S.Source, shape: R.Shape, g: Graph, path: seq<Id>, i: nat)
    requires Describes(src, shape, g) && S.Walk(src, path) && i < |ListedAt(src, g, path)|
    requires i < |Unfold(g, Reals(src, path), ListedAt(src, g, path))|
    requires Unfold(g, Reals(src, path), ListedAt(src, g, path))[i].FolderNode?
    ensures var node := Unfold(g, Reals(src, path), ListedAt(src, g, path))[i];
            X.Whole(src, path + [node.key.id], node.children)
    decreases g.listing.Keys - Reals(src, path), 0
  {
    var children := ListedAt(src, g, path);
    ChildIsShown(src, shape, g, path, children, i);
    var c := children[i];
    var item := Classify(g, c);
    var longer := path + [c.id];
    assert longer[|longer|-1] == c.id;
    WalkGoesOn(src, path, c.id);
    UnfoldIsWhole(src, shape, g, longer);
    FailureIsWhole(src, g, longer, item.id, Unfold(g, Reals(src, longer), g.listing[item.id]));
  }

  /** The walk comes to no folder twice, and no listing shows a file twice. */
  predicate Once(nodes: seq<Node>, root: Id) {
    && X.NoDoubles(nodes) && D.Distinct(nodes) && root !in D.Keys(nodes)
    && forall i, j :: 0 <= i < j < |nodes| && nodes[i].FileNode? && nodes[j].FileNode? ==> nodes[i].t != nodes[j].t
  }

  lemma RootTree(src: S.Source, shape: R.Shape, g: Graph)
    requires S.ValidSource(src) && Describes(src, shape, g) && Once(Unfold(g, {src.root}, g.listing[src.root]), src.root)
    ensures var nodes := Unfold(g, {src.root}, g.listing[src.root]);
            X.Tree(src, shape, nodes) && X.Whole(src, [src.root], nodes)
  {
    assert S.Walk(src, [src.root]) && S.Real(src, src.root) == src.root;
    assert Reals(src, [src.root]) == {src.root};
    UnfoldFits(src, shape, g, [src.root], g.listing[src.root]);
    UnfoldIsWhole(src, shape, g, [src.root]);
  }

  /**
    From the graph: after any history of runs, crashes and restarts without folder slips, one clean
    run of the engine over everything it can reach leaves every folder that has files with exactly
    one destination folder, and in it max(source, initial) files of each class, plus at most what
    slipped before.
   */
  lemma EngineConvergesOnGraph(
    cfg: E.Config, src: S.Source, shape: R.Shape, g: Graph, folders: R.State, skip: bool, steps: seq<T.Step>,
    s: T.State, r: E.Run, path: seq<Id>, f: Id, t: Request)
    requires T.Initial(src, shape, folders) && T.Leads(src, shape, folders, skip, steps, s)
    requires X.Fresh(cfg, src, shape, s, r) && X.Clean(cfg) && Describes(src, shape, g) && src.root in g.listing
    requires var nodes := Unfold(g, {src.root}, g.listing[src.root]);
             Once(nodes, src.root) && X.NoneTooBig(nodes)
    requires S.LeadsTo(src, path, f, t)
    ensures var (d, r1) := E.GetOrCreate(cfg, r, Some(shape.destParent), shape.root);
            var done := E.Level(cfg, r1, d, Unfold(g, {src.root}, g.listing[src.root]));
            && (exists x :: R.Folders(done.store, T.Key(src, f)) == {x})
            && forall x :: x in R.Folders(done.store, T.Key(src, f)) ==>
                 X.RightCount(src, folders.store, s.files.slipped, done.store, f, t, x)
  {
    RootTree(src, shape, g);
    X.EngineConverges(cfg, src, shape, folders, skip, steps, s, r, Unfold(g, {src.root}, g.listing[src.root]), path, f, t);
  }
}
