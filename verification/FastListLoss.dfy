/**
  What the fast traversal loses when Drive under-counts a multi-parent listing
  (src/gdrive_turbo_copy/copier.py:329-374, 398-456).

  A bucket that comes back short but not empty is believed (Listing). Over a whole walk the
  files considered are then those of the default traversal without exactly the visits of the
  children that were dropped; and with nothing dropped both serve the same files.
 */
module FastListLoss {
  import opened DriveModel
  import opened IndexSpec
  import opened IndexTheory
  import opened FolderResolution
  import opened Listing
  import opened Traversal

  /** A batched answer never has more than the folder's own listing. */
  ghost predicate SubBags(g: Graph, kids: Batched) {
    forall siblings, f :: f in siblings ==> multiset(kids(siblings, f)) <= multiset(Children(g, f))
  }

  function WithoutFirst(all: seq<DriveFile>, x: DriveFile): (r: seq<DriveFile>)
    ensures x in all ==> multiset(r) == multiset(all) - multiset{x}
  {
    if all == [] then []
    else if all[0] == x then
      assert all == [x] + all[1..];
      all[1..]
    else
      assert all == [all[0]] + all[1..];
      [all[0]] + WithoutFirst(all[1..], x)
  }

  /** The children of a folder that an answer left out. */
  function Dropped(all: seq<DriveFile>, shown: seq<DriveFile>): seq<DriveFile>
    decreases |shown|
  {
    if shown == [] then all else Dropped(WithoutFirst(all, shown[0]), shown[1..])
  }

  lemma PutBack<T>(all: multiset<T>, rest: multiset<T>, dropped: multiset<T>, x: T)
    requires x in all && all - multiset{x} == rest + dropped
    ensures all == (multiset{x} + rest) + dropped
  {
    assert all == (all - multiset{x}) + multiset{x};
  }

  lemma TakeOut<T>(all: multiset<T>, rest: multiset<T>, x: T)
    requires multiset{x} + rest <= all
    ensures x in all && rest <= all - multiset{x}
  {
    assert (multiset{x} + rest)[x] <= all[x];
    forall y ensures rest[y] <= (all - multiset{x})[y] {
      assert (multiset{x} + rest)[y] <= all[y];
    }
  }

  lemma {:induction false} DroppedIsTheRest(all: seq<DriveFile>, shown: seq<DriveFile>)
    requires multiset(shown) <= multiset(all)
    ensures multiset(all) == multiset(shown) + multiset(Dropped(all, shown))
    decreases |shown|
  {
    if shown != [] {
      var x, rest := shown[0], shown[1..];
      assert shown == [x] + rest;
      assert multiset(shown) == multiset{x} + multiset(rest);
      TakeOut(multiset(all), multiset(rest), x);
      DroppedIsTheRest(WithoutFirst(all, x), rest);
      PutBack(multiset(all), multiset(rest), multiset(Dropped(all, shown)), x);
    }
  }

  /** The visits, in the default traversal, of everything some answer left out. */
  function Missing(g: Graph, kids: Batched, visited: set<Id>, parent: Id, children: seq<DriveFile>): multiset<Visit>
    decreases g.listing.Keys - visited, 1, 0
  {
    var pending := Pending(g, visited, children);
    MissingBelow(g, kids, visited, pending, pending)
  }

  function MissingBelow(g: Graph, kids: Batched, visited: set<Id>, siblings: seq<Id>, todo: seq<Id>): multiset<Visit>
    decreases g.listing.Keys - visited, 0, |todo|
  {
    if todo == [] then multiset{}
    else
      (if todo[0] in g.listing && todo[0] !in visited
       then
         var f, shown := todo[0], kids(siblings, todo[0]);
         VisitBag(g, visited + {f}, f, Dropped(g.listing[f], shown)) + Missing(g, kids, visited + {f}, f, shown)
       else multiset{})
      + MissingBelow(g, kids, visited, siblings, todo[1..])
  }

  lemma {:induction false} VisitBagConcat(g: Graph, visited: set<Id>, parent: Id, a: seq<DriveFile>, b: seq<DriveFile>)
    ensures VisitBag(g, visited, parent, a + b) == VisitBag(g, visited, parent, a) + VisitBag(g, visited, parent, b)
    decreases |a|
  {
    if a == [] {
      assert a + b == b;
    } else {
      assert (a + b)[1..] == a[1..] + b;
      VisitBagConcat(g, visited, parent, a[1..], b);
    }
  }

  lemma SplitByAnswer(g: Graph, visited: set<Id>, f: Id, all: seq<DriveFile>, shown: seq<DriveFile>)
    requires multiset(shown) <= multiset(all)
    ensures VisitBag(g, visited, f, all)
            == VisitBag(g, visited, f, shown) + VisitBag(g, visited, f, Dropped(all, shown))
  {
    DroppedIsTheRest(all, shown);
    assert multiset(shown + Dropped(all, shown)) == multiset(shown) + multiset(Dropped(all, shown));
    VisitBagOrderFree(g, visited, f, all, shown + Dropped(all, shown));
    VisitBagConcat(g, visited, f, shown, Dropped(all, shown));
  }

  lemma {:induction false} LevelLosesMissing(g: Graph, kids: Batched, visited: set<Id>, parent: Id, children: seq<DriveFile>)
    requires SubBags(g, kids)
    ensures VisitBag(g, visited, parent, children)
            == multiset(FastVisits(g, kids, visited, parent, children)) + Missing(g, kids, visited, parent, children)
    decreases g.listing.Keys - visited, 1, 0
  {
    var pending := Pending(g, visited, children);
    PendingLosesMissing(g, kids, visited, pending, pending);
    SplitLevel(g, visited, parent, children);
  }

  lemma {:induction false} PendingLosesMissing(g: Graph, kids: Batched, visited: set<Id>, siblings: seq<Id>, todo: seq<Id>)
    requires SubBags(g, kids) && forall f :: f in todo ==> f in siblings
    ensures PendingBag(g, visited, todo)
            == multiset(PendingVisits(g, kids, visited, siblings, todo)) + MissingBelow(g, kids, visited, siblings, todo)
    decreases g.listing.Keys - visited, 0, |todo|
  {
    if todo != [] {
      PendingLosesMissing(g, kids, visited, siblings, todo[1..]);
      var f := todo[0];
      if f in g.listing && f !in visited {
        var shown := kids(siblings, f);
        assert Children(g, f) == g.listing[f];
        SplitByAnswer(g, visited + {f}, f, g.listing[f], shown);
        LevelLosesMissing(g, kids, visited + {f}, f, shown);
      }
    }
  }

  /**
    On every source graph: with answers that may be short but never too long, the default
    traversal's visits are the fast one's plus exactly the visits of the dropped children.
   */
  lemma FastListMissesExactly(g: Graph, kids: Batched, visited: set<Id>, parent: Id, children: seq<DriveFile>)
    requires SubBags(g, kids)
    ensures multiset(DefaultVisits(g, visited, parent, children))
            == multiset(FastVisits(g, kids, visited, parent, children)) + Missing(g, kids, visited, parent, children)
  {
    LevelLosesMissing(g, kids, visited, parent, children);
    DefaultVisitsAreBag(g, visited, parent, children);
  }

  /** Every bucket holds only children of its folder. */
  ghost predicate NeverTooMany(c: Client) {
    forall group, fid :: c.multi(group).Some? && fid in group ==>
      multiset(Bucket(Flatten(c.multi(group).value), fid)) <= multiset(c.single(fid))
  }

  lemma BatchesAreSubBags(g: Graph, c: Client)
    requires NeverTooMany(c) && forall f :: multiset(c.single(f)) == multiset(Children(g, f))
    ensures SubBags(g, FromBatches(c))
  {
    forall siblings: seq<Id>, f | f in siblings
      ensures multiset(FromBatches(c)(siblings, f)) <= multiset(Children(g, f))
    {
      BatchedAnswerCovers(c, siblings, f);
      var group :| f in group && BatchedAnswer(c, siblings)[f] == Believed(c, group, f);
    }
  }

  /** The same with the batched listing in place, over any pages, groups and failed queries. */
  lemma BatchedTraversalMissesExactly(g: Graph, c: Client, visited: set<Id>, parent: Id, children: seq<DriveFile>)
    requires NeverTooMany(c) && forall f :: multiset(c.single(f)) == multiset(Children(g, f))
    ensures multiset(DefaultVisits(g, visited, parent, children))
            == multiset(FastVisits(g, FromBatches(c), visited, parent, children))
               + Missing(g, FromBatches(c), visited, parent, children)
  {
    BatchesAreSubBags(g, c);
    FastListMissesExactly(g, FromBatches(c), visited, parent, children);
  }

  /* ------------------------------- a whole walk ---------------------------- */

  /** A folder with two files, of which the multi-parent answer shows one. */
  function ShortClient(a: DriveFile, b: DriveFile, f: Id): Client {
    Client(group => Some([[RawFile(a, [f])]]), id => if id == f then [a, b] else [])
  }

  function TwoFiles(a: DriveFile, b: DriveFile, f: Id): Graph {
    Graph(map[f := [a, b]], {}, map[])
  }

  predicate Plain(f: DriveFile) {
    !f.IsFolder() && !f.IsShortcut()
  }

  /** A level of one file is that file, in both traversals. */
  lemma OneFile(g: Graph, kids: Batched, visited: set<Id>, parent: Id, a: DriveFile)
    requires Plain(a)
    ensures FastVisits(g, kids, visited, parent, [a]) == [Visit(Request(a.id, a), parent)]
    ensures DefaultVisits(g, visited, parent, [a]) == [Visit(Request(a.id, a), parent)]
  {
    assert [a][1..] == [];
    assert Classify(g, a) == AFile(Request(a.id, a));
    assert Pending(g, visited, [a]) == [];
    assert FilesHere(g, parent, [a]) == [Visit(Request(a.id, a), parent)] + FilesHere(g, parent, []);
    assert PendingVisits(g, kids, visited, [], []) == [];
  }

  /** A level of one folder is what is considered below it. */
  lemma OneFolder(g: Graph, kids: Batched, visited: set<Id>, parent: Id, folder: DriveFile)
    requires folder.IsFolder() && !folder.IsShortcut() && folder.id !in visited && folder.id in g.listing
    ensures FastVisits(g, kids, visited, parent, [folder])
            == FastVisits(g, kids, visited + {folder.id}, folder.id, kids([folder.id], folder.id))
    ensures DefaultVisits(g, visited, parent, [folder])
            == DefaultVisits(g, visited + {folder.id}, folder.id, g.listing[folder.id])
  {
    assert [folder][1..] == [] && [folder.id][1..] == [];
    assert Classify(g, folder) == AFolder(BySource(folder.id), folder.id, folder.name);
    assert Pending(g, visited, [folder]) == [folder.id] + Pending(g, visited, []);
    assert FilesHere(g, parent, [folder]) == [] + FilesHere(g, parent, []);
    var pending := [folder.id];
    assert Pending(g, visited, [folder]) == pending;
    var below := FastVisits(g, kids, visited + {folder.id}, folder.id, kids(pending, folder.id));
    assert PendingVisits(g, kids, visited, pending, []) == [];
    assert PendingVisits(g, kids, visited, pending, pending) == below + PendingVisits(g, kids, visited, pending, pending[1..]);
    assert FastVisits(g, kids, visited, parent, [folder])
        == FilesHere(g, parent, [folder]) + PendingVisits(g, kids, visited, pending, pending);
    assert [] + (below + []) == below;
  }

  lemma ShortAnswer(a: DriveFile, b: DriveFile, f: Id)
    requires a != b
    ensures FromBatches(ShortClient(a, b, f))([f], f) == [a]
  {
    var c := ShortClient(a, b, f);
    OneFileBucket(a, f);
    assert Believed(c, [f], f) == [a];
    assert BatchedAnswer(c, [f]) == GroupAnswer(c, [f]);
    assert f in [f];
  }

  /** The fast walk considers one file, the default walk both. */
  lemma ShortBucketLosesAFile(root: Id, folder: DriveFile, a: DriveFile, b: DriveFile)
    requires folder.IsFolder() && !folder.IsShortcut() && folder.id != root && a != b && Plain(a) && Plain(b)
    ensures var g := TwoFiles(a, b, folder.id);
            && FastVisits(g, FromBatches(ShortClient(a, b, folder.id)), {root}, root, [folder])
               == [Visit(Request(a.id, a), folder.id)]
            && DefaultVisits(g, {root}, root, [folder])
               == [Visit(Request(a.id, a), folder.id), Visit(Request(b.id, b), folder.id)]
  {
    var g, kids := TwoFiles(a, b, folder.id), FromBatches(ShortClient(a, b, folder.id));
    ShortAnswer(a, b, folder.id);
    OneFolder(g, kids, {root}, root, folder);
    OneFile(g, kids, {root} + {folder.id}, folder.id, a);
    OneFile(g, kids, {root} + {folder.id}, folder.id, b);
    assert [a, b][1..] == [b];
  }

  /* -------------------- the same files are served either way --------------- */

  /** The requests considered under one source folder, in order. */
  function Under(visits: seq<Visit>, parent: Id): seq<Request> {
    if visits == [] then []
    else (if visits[0].parent == parent then [visits[0].t] else []) + Under(visits[1..], parent)
  }

  function CountUnder(v: Visit, parent: Id, c: Class): nat {
    if v.parent == parent && ClassOf(v.t) == c then 1 else 0
  }

  lemma {:induction false} UnderRemove(visits: seq<Visit>, i: nat, parent: Id, c: Class)
    requires i < |visits|
    ensures CountClass(Under(visits, parent), c)
            == CountUnder(visits[i], parent, c) + CountClass(Under(visits[..i] + visits[i+1..], parent), c)
    decreases |visits|
  {
    var rest := visits[..i] + visits[i+1..];
    CountClassAppend(if visits[0].parent == parent then [visits[0].t] else [], Under(visits[1..], parent), c);
    if i == 0 {
      assert rest == visits[1..];
    } else {
      assert rest[0] == visits[0] && rest[1..] == visits[1..][..i-1] + visits[1..][i..];
      UnderRemove(visits[1..], i - 1, parent, c);
      CountClassAppend(if rest[0].parent == parent then [rest[0].t] else [], Under(rest[1..], parent), c);
    }
  }

  lemma {:induction false} UnderOrderFree(a: seq<Visit>, b: seq<Visit>, parent: Id, c: Class)
    requires multiset(a) == multiset(b)
    ensures CountClass(Under(a, parent), c) == CountClass(Under(b, parent), c)
    decreases |a|
  {
    if a == [] {
      assert |multiset(b)| == |b|;
    } else {
      var i := FindIn(a, b);
      UnderRemove(b, i, parent, c);
      UnderRemove(a, 0, parent, c);
      assert a[..0] + a[1..] == a[1..];
      UnderOrderFree(a[1..], b[..i] + b[i+1..], parent, c);
    }
  }

  /**
    Whatever order the two traversals come to a folder's files in, the destination's index
    serves as many of each class, so as many of each are left to copy.
   */
  lemma SameFilesAreServed(g: Graph, kids: Batched, visited: set<Id>, parent: Id, children: seq<DriveFile>,
                           folder: Id, idx: Index, all: set<Request>, c: Class, allow: bool)
    requires SameFiles(g, kids) && Agreement(idx) && TagsHonest(idx, all)
    requires forall v :: v in DefaultVisits(g, visited, parent, children) && v.parent == folder ==> v.t in all
    requires exists u :: u in all && ClassOf(u) == c
    ensures CountClass(Served(idx, Under(FastVisits(g, kids, visited, parent, children), folder), allow), c)
            == CountClass(Served(idx, Under(DefaultVisits(g, visited, parent, children), folder), allow), c)
  {
    var fast, plain := FastVisits(g, kids, visited, parent, children), DefaultVisits(g, visited, parent, children);
    FastListRefinesDefault(g, kids, visited, parent, children);
    UnderOrderFree(fast, plain, folder, c);
    UnderMembers(fast, folder);
    UnderMembers(plain, folder);
    forall t | t in Under(fast, folder) ensures t in all {
      var v :| v in fast && v.parent == folder && v.t == t;
      assert v in multiset(fast);
      assert v in plain;
    }
    GreedyServesMin(idx, Under(fast, folder), all, c, allow);
    GreedyServesMin(idx, Under(plain, folder), all, c, allow);
  }

  lemma {:induction false} UnderMembers(visits: seq<Visit>, parent: Id)
    ensures forall t :: t in Under(visits, parent) <==> exists v :: v in visits && v.parent == parent && v.t == t
  {
    if visits != [] {
      UnderMembers(visits[1..], parent);
      assert visits == [visits[0]] + visits[1..];
    }
  }
}
