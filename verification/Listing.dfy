/**
  The listing loops (src/gdrive_turbo_copy/copier.py:398-456, 917-953): pages, and batches of
  up to 50 sibling folders in one query with a fallback per folder.
 */
module Listing {
  import opened DriveModel

  /* ---------------------------- one folder, paged -------------------------- */

  datatype Response = Page(files: seq<DriveFile>) | Unreadable

  /** The files of the pages first..end, counted from zero. */
  function FilesOfPages(pages: seq<Response>, first: nat, end: nat): seq<DriveFile>
    requires end <= |pages|
  {
    if end <= first then []
    else FilesOfPages(pages, first, end - 1) + if pages[end-1].Page? then pages[end-1].files else []
  }

  /** The pages that are read before one cannot be, or there are no more. */
  predicate ReadUpTo(pages: seq<Response>, end: nat) {
    && end <= |pages| && (forall i :: 0 <= i < end ==> pages[i].Page?)
    && (end == |pages| || pages[end].Unreadable?)
  }

  /**
    _list_children against a client that answers with these pages in turn: the files of pages
    max(1, from) to `to` (to the last one if that is 0), cut before the first unreadable page; it
    has failed exactly if an unreadable page lies within that range.
   */
  method ListChildren(pages: seq<Response>, fromPage: nat, toPage: nat) returns (out: seq<DriveFile>, failed: bool)
    requires pages != []
    ensures forall end :: ReadUpTo(pages, end) ==>
              out == FilesOfPages(pages, if fromPage > 0 then fromPage - 1 else 0,
                                  if toPage > 0 && toPage < end then toPage else end)
    ensures failed <==> exists i :: 0 <= i < |pages| && pages[i].Unreadable? && (toPage == 0 || i < toPage)
  {
    out, failed := [], false;
    var page := 0;
    var lower := if fromPage > 0 then fromPage else 1;
    while true
      invariant 0 <= page < |pages|
      invariant toPage > 0 ==> page < toPage
      invariant forall i :: 0 <= i < page ==> pages[i].Page?
      invariant out == FilesOfPages(pages, lower - 1, page)
      invariant !failed
      decreases |pages| - page
    {
      if pages[page].Unreadable? {
        failed := true;
        break;
      }
      var files := pages[page].files;
      page := page + 1;
      if page >= lower && (toPage == 0 || page <= toPage) {
        out := out + files;
      }
      if page == |pages| || (toPage > 0 && page >= toPage) {
        break;
      }
    }
  }

  /** There is one such place. */
  lemma {:induction false} SomeEnd(pages: seq<Response>, n: nat) returns (end: nat)
    requires n <= |pages| && forall i :: 0 <= i < n ==> pages[i].Page?
    ensures ReadUpTo(pages, end)
    decreases |pages| - n
  {
    if n < |pages| && pages[n].Page? {
      end := SomeEnd(pages, n + 1);
    } else {
      end := n;
    }
  }

  /** Whatever a page in the range shows is among the files. */
  lemma {:induction false} PagesHold(pages: seq<Response>, first: nat, end: nat, p: nat, f: DriveFile)
    requires first <= p < end <= |pages| && pages[p].Page? && f in pages[p].files
    ensures f in FilesOfPages(pages, first, end)
    decreases end
  {
    if p + 1 < end {
      PagesHold(pages, first, end - 1, p, f);
    }
  }

  /* ------------------------- many folders in one query --------------------- */

  /** A file of a multi-parent answer, with the parents Drive reports for it. */
  datatype RawFile = RawFile(file: DriveFile, parents: seq<Id>)

  function Repeat(f: DriveFile, parents: seq<Id>, pid: Id): seq<DriveFile> {
    if parents == [] then []
    else Repeat(f, parents[..|parents|-1], pid) + if parents[|parents|-1] == pid then [f] else []
  }

  /** The children one parent receives from an answer: a file once per mention of that parent. */
  function Bucket(files: seq<RawFile>, pid: Id): seq<DriveFile> {
    if files == [] then []
    else Bucket(files[..|files|-1], pid) + Repeat(files[|files|-1].file, files[|files|-1].parents, pid)
  }

  function Flatten(pages: seq<seq<RawFile>>): seq<RawFile> {
    if pages == [] then [] else Flatten(pages[..|pages|-1]) + pages[|pages|-1]
  }

  lemma BucketOne(files: seq<RawFile>, f: RawFile, pid: Id)
    ensures Bucket(files + [f], pid) == Bucket(files, pid) + Repeat(f.file, f.parents, pid)
  {
    assert (files + [f])[..|files|] == files;
  }

  lemma FlattenOne(pages: seq<seq<RawFile>>, page: nat)
    requires page < |pages|
    ensures Flatten(pages[..page+1]) == Flatten(pages[..page]) + pages[page]
  {
    assert pages[..page+1][..page] == pages[..page];
  }

  lemma Regroup<T>(x: seq<T>, y: seq<T>, z: seq<T>)
    ensures (x + y) + z == x + (y + z)
  {
  }

  lemma {:induction false} BucketConcat(a: seq<RawFile>, b: seq<RawFile>, pid: Id)
    ensures Bucket(a + b, pid) == Bucket(a, pid) + Bucket(b, pid)
  {
    if b == [] {
      assert a + b == a;
    } else {
      var fewer, last := b[..|b|-1], b[|b|-1];
      BucketConcat(a, fewer, pid);
      assert Bucket(a + b, pid) == Bucket(a + fewer, pid) + Repeat(last.file, last.parents, pid) by {
        assert a + b == (a + fewer) + [last];
        BucketOne(a + fewer, last, pid);
      }
      Regroup(Bucket(a, pid), Bucket(fewer, pid), Repeat(last.file, last.parents, pid));
    }
  }

  /** How often files of this value mention the parent. */
  function Mentions(files: seq<RawFile>, pid: Id, f: DriveFile): nat {
    if files == [] then 0
    else Mentions(files[1..], pid, f) + if files[0].file == f then multiset(files[0].parents)[pid] else 0
  }

  lemma {:induction false} RepeatCounts(f: DriveFile, parents: seq<Id>, pid: Id)
    ensures multiset(Repeat(f, parents, pid)) == multiset{}[f := multiset(parents)[pid]]
  {
    if parents != [] {
      var fewer := parents[..|parents|-1];
      RepeatCounts(f, fewer, pid);
      assert parents == fewer + [parents[|parents|-1]];
    }
  }

  /** A bucket holds each file as often as it mentions the parent, and nothing else. */
  lemma {:induction false} BucketCounts(files: seq<RawFile>, pid: Id, f: DriveFile)
    ensures multiset(Bucket(files, pid))[f] == Mentions(files, pid, f)
  {
    if files != [] {
      var first, rest := files[0], files[1..];
      BucketCounts(rest, pid, f);
      assert files == [first] + rest;
      BucketConcat([first], rest, pid);
      assert [] + [first] == [first];
      BucketOne([], first, pid);
      assert Bucket([first], pid) == Repeat(first.file, first.parents, pid);
      RepeatCounts(first.file, first.parents, pid);
    }
  }

  /** Pages are put one after the other. */
  lemma {:induction false} FlattenConcat(a: seq<seq<RawFile>>, b: seq<seq<RawFile>>)
    ensures Flatten(a + b) == Flatten(a) + Flatten(b)
    ensures forall page :: Flatten([page]) == page
  {
    forall page ensures Flatten([page]) == page {
      assert [page][..0] == [];
    }
    if b == [] {
      assert a + b == a;
    } else {
      var n := |b| - 1;
      assert (a + b)[..|a| + n] == a + b[..n];
      FlattenConcat(a, b[..n]);
      Regroup(Flatten(a), Flatten(b[..n]), b[n]);
    }
  }

  /** Appends one answered file to every requested parent it names. */
  method AppendToParents(out: map<Id, seq<DriveFile>>, f: RawFile) returns (r: map<Id, seq<DriveFile>>)
    ensures r.Keys == out.Keys
    ensures forall pid :: pid in out ==> r[pid] == out[pid] + Repeat(f.file, f.parents, pid)
  {
    r := out;
    for k := 0 to |f.parents|
      invariant r.Keys == out.Keys
      invariant forall pid :: pid in out ==> r[pid] == out[pid] + Repeat(f.file, f.parents[..k], pid)
    {
      var pid := f.parents[k];
      assert f.parents[..k+1][..k] == f.parents[..k];
      if pid in r {
        r := r[pid := r[pid] + [f.file]];
      }
    }
    assert f.parents[..|f.parents|] == f.parents;
  }

  /** Sorts one page into the buckets. */
  method AppendPage(before: map<Id, seq<DriveFile>>, files: seq<RawFile>) returns (out: map<Id, seq<DriveFile>>)
    ensures out.Keys == before.Keys
    ensures forall pid :: pid in out ==> out[pid] == before[pid] + Bucket(files, pid)
  {
    out := before;
    for i := 0 to |files|
      invariant out.Keys == before.Keys
      invariant forall pid :: pid in out ==> out[pid] == before[pid] + Bucket(files[..i], pid)
    {
      assert files[..i+1][..i] == files[..i];
      out := AppendToParents(out, files[i]);
    }
    assert files[..|files|] == files;
  }

  /** _list_multi_pages: every page of one multi-parent query, sorted into buckets. */
  method ListMultiPages(group: seq<Id>, pages: seq<seq<RawFile>>) returns (out: map<Id, seq<DriveFile>>)
    requires pages != []
    ensures forall pid :: pid in group <==> pid in out
    ensures forall pid :: pid in group ==> out[pid] == Bucket(Flatten(pages), pid)
  {
    out := map pid | pid in group :: [];
    var page := 0;
    while page < |pages|
      invariant 0 <= page <= |pages|
      invariant forall pid :: pid in group <==> pid in out
      invariant forall pid :: pid in out ==> out[pid] == Bucket(Flatten(pages[..page]), pid)
    {
      ghost var before := out;
      out := AppendPage(out, pages[page]);
      FlattenOne(pages, page);
      forall pid | pid in out ensures out[pid] == Bucket(Flatten(pages[..page+1]), pid) {
        assert pid in before;
        BucketConcat(Flatten(pages[..page]), pages[page], pid);
      }
      page := page + 1;
    }
    assert pages[..|pages|] == pages;
  }

  const BATCH: nat := 50

  /** The answers of the client: pages of a multi-parent query (None if it failed), and single listings. */
  datatype Client = Client(multi: seq<Id> -> Option<seq<seq<RawFile>>>, single: Id -> seq<DriveFile>)

  /** Every answer has at least one page. */
  ghost predicate Answers(c: Client) {
    forall group :: c.multi(group).Some? ==> c.multi(group).value != []
  }

  /** What the engine believes a folder of a group contains. */
  function Believed(c: Client, group: seq<Id>, fid: Id): seq<DriveFile> {
    if c.multi(group).None? then c.single(fid)
    else
      var bucket := Bucket(Flatten(c.multi(group).value), fid);
      if bucket == [] then c.single(fid) else bucket
  }

  function GroupAnswer(c: Client, group: seq<Id>): map<Id, seq<DriveFile>> {
    map fid | fid in group :: Believed(c, group, fid)
  }

  /** Group after group of at most BATCH ids; an id listed twice keeps its last answer. */
  function BatchedAnswer(c: Client, ids: seq<Id>): map<Id, seq<DriveFile>> {
    if |ids| <= BATCH then GroupAnswer(c, ids)
    else GroupAnswer(c, ids[..BATCH]) + BatchedAnswer(c, ids[BATCH..])
  }

  /** The fallback: each folder of the group is listed by itself. */
  method ListSingly(c: Client, group: seq<Id>) returns (result: map<Id, seq<DriveFile>>)
    ensures result == map fid | fid in group :: c.single(fid)
  {
    result := map[];
    for i := 0 to |group|
      invariant result == map fid | fid in group[..i] :: c.single(fid)
    {
      result := result[group[i] := c.single(group[i])];
      assert group[..i+1] == group[..i] + [group[i]];
    }
    assert group[..|group|] == group;
  }

  /** The answer for one group, falling back to single listings as often as the engine does. */
  method ListGroup(c: Client, group: seq<Id>) returns (result: map<Id, seq<DriveFile>>)
    requires c.multi(group).Some? ==> c.multi(group).value != []
    ensures result == GroupAnswer(c, group)
  {
    var batched: Option<map<Id, seq<DriveFile>>> := None;
    var pages := c.multi(group);
    if pages.Some? {
      var out := ListMultiPages(group, pages.value);
      batched := Some(out);
    }
    if batched.None? || (|group| > 1 && forall fid :: fid in batched.value ==> batched.value[fid] == []) {
      result := ListSingly(c, group);
      return;
    }
    result := map[];
    for i := 0 to |group|
      invariant forall fid :: fid in result <==> fid in group[..i]
      invariant forall fid :: fid in result ==> result[fid] == Believed(c, group, fid)
    {
      var got := batched.value[group[i]];
      result := result[group[i] := if got != [] then got else c.single(group[i])];
    }
    assert group[..|group|] == group;
  }

  lemma BatchedStep(c: Client, ids: seq<Id>, i: nat, end: nat, sofar: map<Id, seq<DriveFile>>)
    requires i < |ids| && end == if i + BATCH < |ids| then i + BATCH else |ids|
    ensures sofar + BatchedAnswer(c, ids[i..]) == (sofar + GroupAnswer(c, ids[i..end])) + BatchedAnswer(c, ids[end..])
  {
    if end < |ids| {
      assert ids[i..][..BATCH] == ids[i..end] && ids[i..][BATCH..] == ids[end..];
    } else {
      assert ids[i..] == ids[i..end] && ids[end..] == [];
    }
  }

  /** _batched_list. */
  method BatchedList(c: Client, ids: seq<Id>) returns (result: map<Id, seq<DriveFile>>)
    requires Answers(c)
    ensures result == BatchedAnswer(c, ids)
  {
    result := map[];
    var i := 0;
    assert ids[0..] == ids;
    while i < |ids|
      invariant 0 <= i <= |ids|
      invariant result + BatchedAnswer(c, ids[i..]) == BatchedAnswer(c, ids)
    {
      var end := if i + BATCH < |ids| then i + BATCH else |ids|;
      BatchedStep(c, ids, i, end, result);
      var answer := ListGroup(c, ids[i..end]);
      result := result + answer;
      i := end;
    }
  }

  lemma {:induction false} BatchedAnswerCovers(c: Client, ids: seq<Id>, fid: Id)
    requires fid in ids
    ensures fid in BatchedAnswer(c, ids)
    ensures exists group :: fid in group && BatchedAnswer(c, ids)[fid] == Believed(c, group, fid)
  {
    if |ids| > BATCH {
      var head, rest := ids[..BATCH], ids[BATCH..];
      assert ids == head + rest;
      if fid in rest {
        BatchedAnswerCovers(c, rest, fid);
      } else if fid in BatchedAnswer(c, rest) {
        BatchedAnswerOnly(c, rest, fid);
      }
    }
  }

  lemma {:induction false} BatchedAnswerOnly(c: Client, ids: seq<Id>, fid: Id)
    requires fid in BatchedAnswer(c, ids)
    ensures fid in ids
  {
    if |ids| > BATCH && fid !in ids[..BATCH] {
      BatchedAnswerOnly(c, ids[BATCH..], fid);
    }
  }

  /**
    The batched answer for a folder is the single-folder listing exactly if the query failed,
    the folder's bucket came back empty, or its bucket was complete. A bucket that came back
    under-counted but not empty is believed.
   */
  lemma BelievedExactlyWhenCompleteOrEmpty(c: Client, group: seq<Id>, fid: Id)
    ensures multiset(Believed(c, group, fid)) == multiset(c.single(fid)) <==>
            (|| c.multi(group).None?
             || Bucket(Flatten(c.multi(group).value), fid) == []
             || multiset(Bucket(Flatten(c.multi(group).value), fid)) == multiset(c.single(fid)))
  {
  }

  /** Every bucket Drive returns is complete, or empty. */
  ghost predicate CompleteOrEmpty(c: Client) {
    forall group, fid :: c.multi(group).Some? && fid in group ==>
      var bucket := Bucket(Flatten(c.multi(group).value), fid);
      bucket == [] || multiset(bucket) == multiset(c.single(fid))
  }

  /** Then the batched map is the per-folder listing for every folder, across all groups. */
  lemma BatchedIsSingle(c: Client, ids: seq<Id>, fid: Id)
    requires CompleteOrEmpty(c) && fid in ids
    ensures fid in BatchedAnswer(c, ids) && multiset(BatchedAnswer(c, ids)[fid]) == multiset(c.single(fid))
  {
    BatchedAnswerCovers(c, ids, fid);
    var group :| fid in group && BatchedAnswer(c, ids)[fid] == Believed(c, group, fid);
    BelievedExactlyWhenCompleteOrEmpty(c, group, fid);
  }

  /** Two files in a folder, one of them missing from the multi-parent answer: only one is seen. */
  lemma UnderCountedBucketIsTrusted(a: DriveFile, b: DriveFile, fid: Id)
    requires a != b
    ensures var c := Client(group => Some([[RawFile(a, [fid])]]), id => [a, b]);
            Believed(c, [fid], fid) == [a] && multiset(Believed(c, [fid], fid)) != multiset(c.single(fid))
  {
    OneFileBucket(a, fid);
    assert multiset([a])[b] == 0 && multiset([a, b])[b] == 1;
  }

  lemma OneFileBucket(a: DriveFile, fid: Id)
    ensures Bucket(Flatten([[RawFile(a, [fid])]]), fid) == [a]
  {
    var page := [RawFile(a, [fid])];
    var pages := [page];
    assert page[..0] == [] && [fid][..0] == [] && pages[..0] == [];
    assert Repeat(a, [fid], fid) == [a];
    assert Bucket(page, fid) == [a];
    assert Flatten(pages) == page;
  }
}
