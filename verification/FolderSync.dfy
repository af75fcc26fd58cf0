/**
  One destination folder during one run, in checksum mode: the files present, the index built
  on entry, and how far each source file got (src/gdrive_turbo_copy/copier.py:576-695).

  The invariant bounds what any interleaving of the workers, stopped anywhere, can do to the
  folder; a finished folder meets the bound exactly.
 */
module FolderSync {
  import opened DriveModel
  import opened IndexSpec
  import opened IndexTheory

  /**
    `base` is what the folder held on entry: the index was built from the `seen` part of it, the
    `hidden` part was on pages that could not be read. A request is first checked against the
    resume log, then matched: it either took an indexed file or missed; a miss may land a copy.
    `lost` holds copies that were made although the call reported a failure.
   */
  datatype FolderRun = FolderRun(
    base: seq<DriveFile>,
    seen: seq<DriveFile>,
    hidden: seq<DriveFile>,
    index: Index,
    checked: set<Request>,
    took: set<Request>,
    missed: set<Request>,
    landed: set<Request>,
    lost: seq<DriveFile>)

  /** A listing, in the server's order, that shows some of the files and misses the others. */
  ghost predicate Shows(files: seq<DriveFile>, seen: seq<DriveFile>, hidden: seq<DriveFile>) {
    multiset(files) == multiset(seen) + multiset(hidden)
  }

  function EnterRun(files: seq<DriveFile>, seen: seq<DriveFile>, hidden: seq<DriveFile>): FolderRun {
    FolderRun(files, seen, hidden, Build(seen), {}, {}, {}, {}, [])
  }

  /** The server-side copy of t, tagged with the id it is tracked by. */
  function CopyOf(t: Request, newId: Id): DriveFile {
    DriveFile(newId, t.file.name, t.file.mime, t.file.size, t.file.md5, None,
      AppProperties(Some(t.file.id), if t.eff == t.file.id then None else Some(t.eff),
                    if t.file.md5.Some? then t.file.md5.value else ""))
  }

  /**
    The tag of a copy is the id its source is tracked by, and it looks like its source: same
    name, type, size and checksum, and no folder or shortcut.
   */
  lemma CopyIsTagged(t: Request, newId: Id)
    requires t.eff != "" && t.file.id != ""
    ensures var f := CopyOf(t, newId);
            && TagKey(f) == Some(t.eff) && f.id == newId && f.name == t.file.name && f.mime == t.file.mime
            && f.size == t.file.size && f.md5 == t.file.md5 && f.props.sourceFileId == Some(t.file.id)
  {
  }

  /** The next run finds the copy by its tag, whatever else lies in the folder and whatever the mode. */
  lemma CopyIsFoundAgain(files: seq<DriveFile>, t: Request, newId: Id, mode: VerifyMode, allow: bool)
    requires t.eff != "" && t.file.id != "" && !t.file.IsFolder()
    ensures var found := PopMatch(Build(files + [CopyOf(t, newId)]), t.file, mode, allow, Some(t.eff)).0;
            found.Some? && found.value.file == CopyOf(t, newId)
  {
    var items := files + [CopyOf(t, newId)];
    CopyIsTagged(t, newId);
    BuiltTags(items, t.eff);
    assert items[|files|] == CopyOf(t, newId);
    PopMatchMeans(Build(items), t.file, mode, allow, t.eff);
  }

  /** Resume fast path: an id in the log is trusted only if its tag is still in the index. */
  function CheckResume(r: FolderRun, t: Request, copied: set<Id>): (FolderRun, set<Id>) {
    if t.eff !in copied then (r.(checked := r.checked + {t}), copied)
    else
      var (hit, index') := PopByAppProp(r.index, Some(t.eff));
      if hit.Some? then (r.(index := index', took := r.took + {t}), copied)
      else (r.(checked := r.checked + {t}), copied - {t.eff})
  }

  function Match(r: FolderRun, t: Request): FolderRun {
    var (hit, index') := ServedFrom(r.index, t, false);
    if hit.Some? then r.(index := index', took := r.took + {t})
    else r.(missed := r.missed + {t})
  }

  /* -------------------------------- counting ------------------------------- */

  function OfClass(ts: set<Request>, c: Class): set<Request> {
    set t | t in ts && ClassOf(t) == c
  }

  function Count(ts: set<Request>, c: Class): nat {
    |OfClass(ts, c)|
  }

  function Max(a: nat, b: nat): nat {
    if a < b then b else a
  }

  lemma CountAdd(ts: set<Request>, t: Request, c: Class)
    requires t !in ts
    ensures Count(ts + {t}, c) == Count(ts, c) + if ClassOf(t) == c then 1 else 0
  {
    if ClassOf(t) == c {
      assert OfClass(ts + {t}, c) == OfClass(ts, c) + {t};
    } else {
      assert OfClass(ts + {t}, c) == OfClass(ts, c);
    }
  }

  lemma CountSplit(a: set<Request>, b: set<Request>, whole: set<Request>, c: Class)
    requires a !! b && a + b <= whole
    ensures Count(a, c) + Count(b, c) <= Count(whole, c)
    ensures a + b == whole ==> Count(a, c) + Count(b, c) == Count(whole, c)
  {
    assert OfClass(a, c) !! OfClass(b, c);
    assert |OfClass(a, c) + OfClass(b, c)| == Count(a, c) + Count(b, c);
    SubsetSize(OfClass(a, c) + OfClass(b, c), OfClass(whole, c));
    if a + b == whole {
      assert OfClass(a, c) + OfClass(b, c) == OfClass(whole, c);
    }
  }

  lemma CountPositive(ts: set<Request>, t: Request)
    requires t in ts
    ensures Count(ts, ClassOf(t)) > 0
  {
    assert t in OfClass(ts, ClassOf(t));
  }

  /** A folder's requests: tracked under distinct non-empty ids, none of them a folder. */
  ghost predicate Requests(ts: set<Request>) {
    && (forall t :: t in ts ==> t.eff != "" && t.file.id != "" && !t.file.IsFolder())
    && (forall t, u :: t in ts && u in ts && t.eff == u.eff ==> t == u)
  }

  ghost predicate ClassIn(c: Class, ts: set<Request>) {
    exists t :: t in ts && ClassOf(t) == c
  }

  lemma ByIdIsUnique(ts: set<Request>, c: Class)
    requires Requests(ts) && c.ById?
    ensures Count(ts, c) <= 1
  {
    var s := OfClass(ts, c);
    if s != {} {
      var t :| t in s;
      assert forall u :: u in s ==> u == t;
      assert s == {t};
    }
  }

  lemma {:induction false} PresentConcat(a: seq<DriveFile>, b: seq<DriveFile>, c: Class)
    ensures Present(a + b, c) == Present(a, c) + Present(b, c)
  {
    if b == [] {
      assert a + b == a;
    } else {
      assert (a + b)[..|a + b| - 1] == a + b[..|b|-1];
      PresentConcat(a, b[..|b|-1], c);
    }
  }

  /** Taking one file out of a list, wherever it is. */
  lemma PresentWithout(files: seq<DriveFile>, x: DriveFile, c: Class) returns (rest: seq<DriveFile>)
    requires x in files
    ensures multiset(rest) == multiset(files) - multiset{x} && |rest| == |files| - 1
    ensures Present(files, c) == Present(rest, c) + if Serves(x, c) then 1 else 0
  {
    var i :| 0 <= i < |files| && files[i] == x;
    rest := files[..i] + files[i+1..];
    assert files == files[..i] + ([x] + files[i+1..]);
    PresentConcat(files[..i], [x] + files[i+1..], c);
    PresentConcat([x], files[i+1..], c);
    PresentConcat(files[..i], files[i+1..], c);
    assert [x][..0] == [];
  }

  lemma WithoutOne<T>(all: multiset<T>, rest: multiset<T>, part: multiset<T>, other: multiset<T>, x: T)
    requires all == part + other && all == rest + multiset{x} && x in part
    ensures rest == (part - multiset{x}) + other
  {
    forall y ensures rest[y] == ((part - multiset{x}) + other)[y] {
      assert all[y] == part[y] + other[y] && all[y] == rest[y] + multiset{x}[y];
    }
  }

  /** What a listing shows and what it hides add up, in every class. */
  lemma {:induction false} PresentSplit(files: seq<DriveFile>, seen: seq<DriveFile>, hidden: seq<DriveFile>, c: Class)
    requires Shows(files, seen, hidden)
    ensures Present(files, c) == Present(seen, c) + Present(hidden, c)
    decreases |files|
  {
    if files == [] {
      assert |multiset(seen)| == |seen| && |multiset(hidden)| == |hidden|;
    } else {
      var x, rest := files[|files|-1], files[..|files|-1];
      assert files == rest + [x];
      assert multiset(files) == multiset(rest) + multiset{x};
      assert multiset(files)[x] == multiset(seen)[x] + multiset(hidden)[x];
      if x in multiset(seen) {
        WithoutOne(multiset(files), multiset(rest), multiset(seen), multiset(hidden), x);
        var seen' := PresentWithout(seen, x, c);
        PresentSplit(rest, seen', hidden, c);
      } else {
        WithoutOne(multiset(files), multiset(rest), multiset(hidden), multiset(seen), x);
        var hidden' := PresentWithout(hidden, x, c);
        PresentSplit(rest, seen, hidden', c);
      }
    }
  }

  lemma ShowsMembers(files: seq<DriveFile>, seen: seq<DriveFile>, hidden: seq<DriveFile>)
    requires Shows(files, seen, hidden)
    ensures forall x :: x in seen ==> x in files
  {
    forall x | x in seen ensures x in files {
      assert x in multiset(seen);
      assert x in multiset(files);
    }
  }

  /* ------------------------------- invariant ------------------------------- */

  /**
    Between its initial count and the larger of that and the source count, give or take the
    `slipped` files: those some listing of the folder missed and copies reported as failed.
   */
  ghost predicate Bounded(files: seq<DriveFile>, initial: seq<DriveFile>, ts: set<Request>, slipped: seq<DriveFile>, c: Class) {
    Present(initial, c) <= Present(files, c) <= Max(Count(ts, c), Present(initial, c)) + Present(slipped, c)
  }

  ghost predicate ClassInv(files: seq<DriveFile>, r: FolderRun, ts: set<Request>, c: Class) {
    && Avail(r.index, c) + Count(r.took, c) == Avail(Build(r.seen), c)
    && (Count(r.missed, c) > 0 ==> Avail(r.index, c) == 0)
    && Present(files, c) == Present(r.base, c) + Count(r.landed, c) + Present(r.lost, c)
  }

  /** What the folder held on entry was within the slips of earlier runs. */
  ghost predicate EntryInv(r: FolderRun, initial: seq<DriveFile>, ts: set<Request>, slipped: seq<DriveFile>, c: Class) {
    var now := Present(r.hidden, c) + Present(r.lost, c);
    && now <= Present(slipped, c)
    && Present(r.base, c) == Present(r.seen, c) + Present(r.hidden, c)
    && Present(initial, c) <= Present(r.base, c)
    && Present(r.base, c) <= Max(Count(ts, c), Present(initial, c)) + Present(slipped, c) - now
  }

  ghost predicate RunInv(files: seq<DriveFile>, r: FolderRun, initial: seq<DriveFile>, ts: set<Request>, slipped: seq<DriveFile>) {
    && Agreement(r.index) && TagsHonest(r.index, ts)
    && r.checked <= ts && r.took <= ts && r.missed <= r.checked && r.landed <= r.missed
    && r.took !! r.missed
    && forall c :: ClassIn(c, ts) ==> ClassInv(files, r, ts, c) && EntryInv(r, initial, ts, slipped, c)
  }

  lemma EnterKeeps(files: seq<DriveFile>, seen: seq<DriveFile>, hidden: seq<DriveFile>, initial: seq<DriveFile>,
                   ts: set<Request>, slipped: seq<DriveFile>)
    requires Requests(ts) && ListingHonest(files, ts) && Shows(files, seen, hidden)
    requires forall c :: ClassIn(c, ts) ==> Bounded(files, initial, ts, slipped, c)
    ensures RunInv(files, EnterRun(files, seen, hidden), initial, ts, slipped + hidden)
  {
    ShowsMembers(files, seen, hidden);
    forall t, i | t in ts && 0 <= i < |seen| && !seen[i].IsFolder() && TagKey(seen[i]) == Some(t.eff)
      ensures Honest(t, seen[i])
    {
      assert seen[i] in files;
    }
    BuildAgrees(seen);
    BuildTagsHonest(seen, ts);
    var r := EnterRun(files, seen, hidden);
    forall c | ClassIn(c, ts) ensures ClassInv(files, r, ts, c) && EntryInv(r, initial, ts, slipped + hidden, c) {
      assert OfClass({}, c) == {};
      PresentSplit(files, seen, hidden, c);
      PresentConcat(slipped, hidden, c);
    }
  }

  /** A request takes one file of its class out of the index. */
  lemma TakingKeeps(files: seq<DriveFile>, r: FolderRun, initial: seq<DriveFile>, ts: set<Request>,
                    slipped: seq<DriveFile>, t: Request, index: Index)
    requires RunInv(files, r, initial, ts, slipped) && t in ts && t !in r.took && t !in r.missed
    requires Agreement(index) && TagsHonest(index, ts)
    requires forall u :: u in ts ==>
               Avail(index, ClassOf(u)) == Avail(r.index, ClassOf(u)) - if ClassOf(u) == ClassOf(t) then 1 else 0
    ensures RunInv(files, r.(index := index, took := r.took + {t}), initial, ts, slipped)
  {
    var r' := r.(index := index, took := r.took + {t});
    forall c | ClassIn(c, ts) ensures ClassInv(files, r', ts, c) && EntryInv(r', initial, ts, slipped, c) {
      CountAdd(r.took, t, c);
      assert ClassInv(files, r, ts, c) && EntryInv(r, initial, ts, slipped, c);
    }
  }

  /** A request whose class is exhausted misses. */
  lemma MissingKeeps(files: seq<DriveFile>, r: FolderRun, initial: seq<DriveFile>, ts: set<Request>,
                     slipped: seq<DriveFile>, t: Request)
    requires RunInv(files, r, initial, ts, slipped) && t in r.checked && t !in r.took && t !in r.missed
    requires Avail(r.index, ClassOf(t)) == 0
    ensures RunInv(files, r.(missed := r.missed + {t}), initial, ts, slipped)
  {
    var r' := r.(missed := r.missed + {t});
    forall c | ClassIn(c, ts) ensures ClassInv(files, r', ts, c) && EntryInv(r', initial, ts, slipped, c) {
      CountAdd(r.missed, t, c);
      assert ClassInv(files, r, ts, c) && EntryInv(r, initial, ts, slipped, c);
    }
  }

  lemma MatchKeeps(files: seq<DriveFile>, r: FolderRun, initial: seq<DriveFile>, ts: set<Request>,
                   slipped: seq<DriveFile>, t: Request)
    requires RunInv(files, r, initial, ts, slipped)
    requires t in r.checked && t !in r.took && t !in r.missed
    ensures RunInv(files, Match(r, t), initial, ts, slipped)
  {
    ServedExactlyWhenAvailable(r.index, t, ts, false);
    var (hit, index') := ServedFrom(r.index, t, false);
    if hit.Some? {
      TakingKeeps(files, r, initial, ts, slipped, t, index');
    } else {
      MissingKeeps(files, r, initial, ts, slipped, t);
    }
  }

  /** A resume hit is what matching would have found: the log never changes who gets a file. */
  lemma ResumeHitIsMatch(index: Index, t: Request)
    requires t.eff != "" && t.eff in index.appProps
    ensures PopByAppProp(index, Some(t.eff)) == ServedFrom(index, t, false)
  {
  }

  lemma CheckingKeeps(files: seq<DriveFile>, r: FolderRun, initial: seq<DriveFile>, ts: set<Request>,
                      slipped: seq<DriveFile>, t: Request)
    requires RunInv(files, r, initial, ts, slipped) && t in ts
    ensures RunInv(files, r.(checked := r.checked + {t}), initial, ts, slipped)
  {
    var r' := r.(checked := r.checked + {t});
    forall c | ClassIn(c, ts) ensures ClassInv(files, r', ts, c) && EntryInv(r', initial, ts, slipped, c) {
      assert ClassInv(files, r, ts, c) && EntryInv(r, initial, ts, slipped, c);
    }
  }

  lemma CheckResumeKeeps(files: seq<DriveFile>, r: FolderRun, initial: seq<DriveFile>, ts: set<Request>,
                         slipped: seq<DriveFile>, t: Request, copied: set<Id>)
    requires RunInv(files, r, initial, ts, slipped)
    requires t in ts && t !in r.checked && t !in r.took
    ensures RunInv(files, CheckResume(r, t, copied).0, initial, ts, slipped)
  {
    if t.eff in copied && t.eff in r.index.appProps {
      ResumeHitIsMatch(r.index, t);
      ServedExactlyWhenAvailable(r.index, t, ts, false);
      TakingKeeps(files, r, initial, ts, slipped, t, PopByAppProp(r.index, Some(t.eff)).1);
    } else {
      CheckingKeeps(files, r, initial, ts, slipped, t);
    }
  }

  lemma CopyServes(ts: set<Request>, t: Request, u: Request, newId: Id)
    requires Requests(ts) && t in ts && u in ts
    ensures Serves(CopyOf(t, newId), ClassOf(u)) <==> ClassOf(u) == ClassOf(t)
  {
  }

  lemma LandPresent(files: seq<DriveFile>, ts: set<Request>, t: Request, newId: Id, c: Class)
    requires Requests(ts) && t in ts && ClassIn(c, ts)
    ensures Present(files + [CopyOf(t, newId)], c) == Present(files, c) + if ClassOf(t) == c then 1 else 0
  {
    var u :| u in ts && ClassOf(u) == c;
    CopyServes(ts, t, u, newId);
    assert (files + [CopyOf(t, newId)])[..|files|] == files;
  }

  lemma LandHonest(files: seq<DriveFile>, ts: set<Request>, t: Request, newId: Id)
    requires Requests(ts) && t in ts && ListingHonest(files, ts)
    ensures ListingHonest(files + [CopyOf(t, newId)], ts)
  {
  }

  lemma LandKeeps(files: seq<DriveFile>, r: FolderRun, initial: seq<DriveFile>, ts: set<Request>,
                  slipped: seq<DriveFile>, t: Request, newId: Id)
    requires Requests(ts) && RunInv(files, r, initial, ts, slipped)
    requires t in r.missed && t !in r.landed
    ensures RunInv(files + [CopyOf(t, newId)], r.(landed := r.landed + {t}), initial, ts, slipped)
  {
    var r' := r.(landed := r.landed + {t});
    forall c | ClassIn(c, ts) ensures ClassInv(files + [CopyOf(t, newId)], r', ts, c) {
      LandPresent(files, ts, t, newId, c);
      CountAdd(r.landed, t, c);
    }
  }

  /** A copy that was made although the call reported a failure: one file more, and one slip. */
  lemma LoseKeeps(files: seq<DriveFile>, r: FolderRun, initial: seq<DriveFile>, ts: set<Request>,
                  slipped: seq<DriveFile>, t: Request, newId: Id)
    requires Requests(ts) && RunInv(files, r, initial, ts, slipped) && t in ts
    ensures var copy := [CopyOf(t, newId)];
            RunInv(files + copy, r.(lost := r.lost + copy), initial, ts, slipped + copy)
  {
    var copy := [CopyOf(t, newId)];
    var r' := r.(lost := r.lost + copy);
    forall c | ClassIn(c, ts)
      ensures ClassInv(files + copy, r', ts, c) && EntryInv(r', initial, ts, slipped + copy, c)
    {
      PresentConcat(files, copy, c);
      PresentConcat(r.lost, copy, c);
      PresentConcat(slipped, copy, c);
    }
  }

  /** No more is available and taken than was seen, and once something missed, all that was seen is taken. */
  lemma TookFromSeen(files: seq<DriveFile>, r: FolderRun, initial: seq<DriveFile>, ts: set<Request>,
                     slipped: seq<DriveFile>, c: Class)
    requires Requests(ts) && RunInv(files, r, initial, ts, slipped) && ClassIn(c, ts)
    ensures Count(r.took, c) <= Present(r.seen, c)
    ensures Count(r.landed, c) > 0 ==> Count(r.took, c) == Present(r.seen, c)
    ensures Count(r.took, c) + Count(r.landed, c) <= Count(ts, c)
    ensures ts <= r.took + r.landed ==> Count(r.took, c) + Count(r.landed, c) == Count(ts, c)
  {
    assert ClassInv(files, r, ts, c);
    var t :| t in ts && ClassOf(t) == c;
    BuildAvail(r.seen, c);
    CountSplit(r.took, r.landed, ts, c);
    CountSplit(r.took, r.missed, ts, c);
    if c.ById? {
      ByIdIsUnique(ts, c);
    }
    if Count(r.landed, c) > 0 {
      SubsetSize(OfClass(r.landed, c), OfClass(r.missed, c));
    }
    if ts <= r.took + r.landed {
      assert r.took + r.landed == ts;
    }
  }

  /**
    Whatever has happened so far, no class is short of its start or over its target by more
    than the slips; when every file is settled it is at least at its target.
   */
  lemma RunStaysBounded(files: seq<DriveFile>, r: FolderRun, initial: seq<DriveFile>, ts: set<Request>,
                        slipped: seq<DriveFile>, c: Class)
    requires Requests(ts) && RunInv(files, r, initial, ts, slipped) && ClassIn(c, ts)
    ensures Bounded(files, initial, ts, slipped, c)
    ensures ts <= r.took + r.landed ==> Present(files, c) >= Max(Count(ts, c), Present(initial, c))
  {
    assert ClassInv(files, r, ts, c) && EntryInv(r, initial, ts, slipped, c);
    TookFromSeen(files, r, initial, ts, slipped, c);
  }

  /** Something was there for a request that took a file or landed one. */
  lemma DoneIsPresent(files: seq<DriveFile>, r: FolderRun, initial: seq<DriveFile>, ts: set<Request>,
                      slipped: seq<DriveFile>, t: Request)
    requires Requests(ts) && RunInv(files, r, initial, ts, slipped) && t in ts && (t in r.took || t in r.landed)
    ensures Present(files, ClassOf(t)) > 0
  {
    var c := ClassOf(t);
    assert ClassIn(c, ts);
    assert ClassInv(files, r, ts, c);
    BuildAvail(r.seen, c);
    if t in r.took {
      CountPositive(r.took, t);
    } else {
      CountPositive(r.landed, t);
    }
  }
}
