/**
  What the duplicate index guarantees (src/gdrive_turbo_copy/copier.py:41-120).

  1. In every mode its two dictionaries stay in agreement under any sequence of pops, and the
     files handed out plus the files still listed are exactly the files it was built from.
  2. In checksum mode, when a tag agrees with the content it names, the index behaves like a
     bag of content classes: a request is served exactly when its class is not exhausted, so
     greedy consumption serves min(requested, present) of every class in every order.
 */
module IndexTheory {
  import opened DriveModel
  import opened IndexSpec

  /* ------------------------------- agreement ------------------------------- */

  ghost predicate Agreement(idx: Index) {
    && (forall n :: n in idx.byName ==> idx.byName[n] != [])
    && (forall n, i :: n in idx.byName && 0 <= i < |idx.byName[n]| ==>
          idx.byName[n][i].file.name == n && !idx.byName[n][i].file.IsFolder())
    && (forall k :: k in idx.appProps ==>
          TagKey(idx.appProps[k].file) == Some(k) && k != "" && idx.appProps[k] in Named(idx, idx.appProps[k].file.name))
  }

  function Files(es: seq<Entry>): seq<DriveFile> {
    seq(|es|, i requires 0 <= i < |es| => es[i].file)
  }

  /** The files still listed under a name. */
  function Bag(idx: Index, name: string): multiset<DriveFile> {
    multiset(Files(Named(idx, name)))
  }

  function Only(f: DriveFile, name: string): multiset<DriveFile> {
    if f.name == name then multiset{f} else multiset{}
  }

  lemma RemoveAtBag(es: seq<Entry>, i: nat)
    requires i < |es|
    ensures multiset(Files(es)) == multiset(Files(RemoveAt(es, i))) + multiset{es[i].file}
    ensures forall e :: e in es && e != es[i] ==> e in RemoveAt(es, i)
    ensures forall e :: e in RemoveAt(es, i) ==> e in es
  {
    assert Files(es) == Files(es[..i]) + [es[i].file] + Files(es[i+1..]);
    assert Files(RemoveAt(es, i)) == Files(es[..i]) + Files(es[i+1..]);
    forall e | e in es && e != es[i] ensures e in RemoveAt(es, i) {
      var j :| 0 <= j < |es| && es[j] == e;
      assert RemoveAt(es, i)[if j < i then j else j - 1] == e;
    }
  }

  lemma FirstMatchUnique(cands: seq<Entry>, p: DriveFile -> bool, i: nat)
    requires i < |cands| && p(cands[i].file) && forall j :: 0 <= j < i ==> !p(cands[j].file)
    ensures FirstMatch(cands, p) == Some(i)
  {
    var r := FirstMatch(cands, p);
    if r.None? {
      assert false;
    }
  }

  /** The chosen candidate is the first of its value, so removing by value removes that object. */
  lemma ChosenIsFirstEqual(cands: seq<Entry>, source: DriveFile, mode: VerifyMode, allow: bool)
    requires Choose(cands, source, mode, allow).Some?
    ensures var i := Choose(cands, source, mode, allow).value;
            FirstMatch(cands, f => f == cands[i].file) == Some(i)
  {
    var i := Choose(cands, source, mode, allow).value;
    FirstMatchUnique(cands, f => f == cands[i].file, i);
  }

  lemma RemoveFromNameEffect(idx: Index, e: Entry, i: nat)
    requires Agreement(idx)
    requires i < |Named(idx, e.file.name)| && Named(idx, e.file.name)[i].file == e.file
    requires FirstMatch(Named(idx, e.file.name), f => f == e.file) == Some(i)
    ensures var idx' := RemoveFromName(idx, e);
            && idx'.appProps == idx.appProps
            && Named(idx', e.file.name) == RemoveAt(Named(idx, e.file.name), i)
            && (forall n :: n != e.file.name ==> Named(idx', n) == Named(idx, n))
            && (forall n :: n in idx'.byName ==> n in idx.byName && idx'.byName[n] != [])
            && (forall n :: Bag(idx, n) == Bag(idx', n) + Only(e.file, n))
  {
    RemoveAtBag(Named(idx, e.file.name), i);
  }

  lemma RemovalKeepsNames(idx: Index, e: Entry, i: nat)
    requires Agreement(idx)
    requires i < |Named(idx, e.file.name)| && Named(idx, e.file.name)[i].file == e.file
    requires FirstMatch(Named(idx, e.file.name), f => f == e.file) == Some(i)
    ensures var idx' := RemoveFromName(idx, e);
            forall n, j :: n in idx'.byName && 0 <= j < |idx'.byName[n]| ==>
              idx'.byName[n][j].file.name == n && !idx'.byName[n][j].file.IsFolder()
  {
    RemoveFromNameEffect(idx, e, i);
    var idx' := RemoveFromName(idx, e);
    forall n, j | n in idx'.byName && 0 <= j < |idx'.byName[n]|
      ensures idx'.byName[n][j].file.name == n && !idx'.byName[n][j].file.IsFolder()
    {
      assert idx'.byName[n] == Named(idx', n);
      WasListed(idx, e, i, n, j);
    }
  }

  /** What is listed after a removal was listed before. */
  lemma WasListed(idx: Index, e: Entry, i: nat, n: string, j: nat)
    requires Agreement(idx)
    requires i < |Named(idx, e.file.name)| && Named(idx, e.file.name)[i].file == e.file
    requires FirstMatch(Named(idx, e.file.name), f => f == e.file) == Some(i)
    requires j < |Named(RemoveFromName(idx, e), n)|
    ensures n in idx.byName && Named(RemoveFromName(idx, e), n)[j] in idx.byName[n]
  {
    RemoveFromNameEffect(idx, e, i);
    if n == e.file.name {
      WithoutOneIsPart(Named(idx, n), i, j);
    }
  }

  lemma WithoutOneIsPart<T>(es: seq<T>, i: nat, j: nat)
    requires i < |es| && j < |es| - 1
    ensures (es[..i] + es[i+1..])[j] in es
  {
    assert (es[..i] + es[i+1..])[j] == es[if j < i then j else j + 1];
  }

  lemma PopByAppPropAgrees(idx: Index, eff: Option<Id>)
    requires Agreement(idx)
    ensures var (r, idx') := PopByAppProp(idx, eff);
            && Agreement(idx')
            && (r.Some? <==> eff.Some? && eff.value in idx.appProps)
            && (r.None? ==> idx' == idx)
            && (r.Some? ==> r.value == idx.appProps[eff.value]
                            && idx'.appProps == idx.appProps - {eff.value}
                            && forall n :: Bag(idx, n) == Bag(idx', n) + Only(r.value.file, n))
  {
    if Truthy(eff) && eff.value in idx.appProps {
      var e := idx.appProps[eff.value];
      var cands := Named(idx, e.file.name);
      var mid := idx.(appProps := idx.appProps - {eff.value});
      var at := FirstMatch(cands, f => f == e.file);
      assert at.Some? by {
        var j :| 0 <= j < |cands| && cands[j] == e;
        assert cands[j].file == e.file;
      }
      assert Agreement(mid);
      RemoveFromNameEffect(mid, e, at.value);
      RemovalKeepsNames(mid, e, at.value);
      RemoveAtBag(cands, at.value);
      var idx' := PopByAppProp(idx, eff).1;
      forall k | k in idx'.appProps
        ensures idx'.appProps[k] in Named(idx', idx'.appProps[k].file.name)
      {
        assert idx.appProps[k].file != e.file;
      }
      forall n ensures Bag(idx, n) == Bag(idx', n) + Only(e.file, n) {
        assert Bag(idx, n) == Bag(mid, n);
      }
    }
  }

  function Consumed(idx: Index, m: Entry): Index {
    var idx' := RemoveFromName(idx, m);
    idx'.(appProps := DropTagsOf(idx'.appProps, m))
  }

  lemma ConsumedAgrees(idx: Index, m: Entry, i: nat)
    requires Agreement(idx)
    requires i < |Named(idx, m.file.name)| && Named(idx, m.file.name)[i] == m
    requires FirstMatch(Named(idx, m.file.name), f => f == m.file) == Some(i)
    ensures Agreement(Consumed(idx, m))
    ensures forall n :: Bag(idx, n) == Bag(Consumed(idx, m), n) + Only(m.file, n)
  {
    RemoveFromNameEffect(idx, m, i);
    RemovalKeepsNames(idx, m, i);
    RemoveAtBag(Named(idx, m.file.name), i);
    var mid, idx' := RemoveFromName(idx, m), Consumed(idx, m);
    assert forall n :: Named(idx', n) == Named(mid, n);
    forall k | k in idx'.appProps
      ensures idx'.appProps[k] in Named(idx', idx'.appProps[k].file.name)
    {
      assert idx'.appProps[k] == idx.appProps[k] != m;
    }
    forall n ensures Bag(idx, n) == Bag(idx', n) + Only(m.file, n) {
      assert Bag(idx', n) == Bag(mid, n);
    }
  }

  /** One pop keeps the dictionaries in agreement and moves one file from listed to returned. */
  lemma PopMatchAgrees(idx: Index, source: DriveFile, mode: VerifyMode, allow: bool, eff: Option<Id>)
    requires Agreement(idx)
    ensures var (r, idx') := PopMatch(idx, source, mode, allow, eff);
            && Agreement(idx')
            && (r.None? ==> idx' == idx)
            && (r.Some? ==> forall n :: Bag(idx, n) == Bag(idx', n) + Only(r.value.file, n))
  {
    var key := Or(eff, Some(source.id));
    PopByAppPropAgrees(idx, key);
    var cands := Named(idx, source.name);
    var at := Choose(cands, source, mode, allow);
    if PopByAppProp(idx, key).0.None? && at.Some? {
      var m := cands[at.value];
      assert m.file.name == source.name;
      ChosenIsFirstEqual(cands, source, mode, allow);
      ConsumedAgrees(idx, m, at.value);
      assert PopMatch(idx, source, mode, allow, eff) == (Some(m), Consumed(idx, m));
    }
  }

  lemma AddBag(idx: Index, e: Entry, n: string)
    requires !e.file.IsFolder()
    ensures Bag(Add(idx, e), n) == Bag(idx, n) + Only(e.file, n)
  {
    if n == e.file.name {
      assert Files(Named(idx, n) + [e]) == Files(Named(idx, n)) + [e.file];
    }
  }

  lemma AddAgrees(idx: Index, e: Entry)
    requires Agreement(idx)
    ensures Agreement(Add(idx, e))
    ensures forall n :: Bag(Add(idx, e), n) == Bag(idx, n) + if e.file.IsFolder() then multiset{} else Only(e.file, n)
  {
    if !e.file.IsFolder() {
      var idx' := Add(idx, e);
      var name := e.file.name;
      var before := Named(idx, name);
      assert Named(idx', name) == before + [e];
      assert (before + [e])[|before|] == e;
      forall n ensures Bag(idx', n) == Bag(idx, n) + Only(e.file, n) {
        AddBag(idx, e, n);
      }
      forall k | k in idx'.appProps
        ensures idx'.appProps[k] in Named(idx', idx'.appProps[k].file.name)
      {
        if idx'.appProps[k] != e {
          assert idx'.appProps[k] == idx.appProps[k];
        }
      }
      forall n, i | n in idx'.byName && 0 <= i < |idx'.byName[n]|
        ensures idx'.byName[n][i].file.name == n && !idx'.byName[n][i].file.IsFolder()
      {
        if n == name && i < |before| {
          assert idx'.byName[n][i] == idx.byName[n][i];
        }
      }
    }
  }

  lemma {:induction false} BuildAgrees(items: seq<DriveFile>)
    ensures Agreement(Build(items))
  {
    if items != [] {
      BuildAgrees(items[..|items|-1]);
      AddAgrees(Build(items[..|items|-1]), Entry(|items| - 1, items[|items|-1]));
    }
  }

  /** Every listed file, and no folder, starts out listed under its name. */
  lemma {:induction false} BuildBag(items: seq<DriveFile>, f: DriveFile)
    ensures Bag(Build(items), f.name)[f] == if f.IsFolder() then 0 else multiset(items)[f]
  {
    if items != [] {
      var init, last := items[..|items|-1], items[|items|-1];
      BuildBag(init, f);
      BuildAgrees(init);
      AddAgrees(Build(init), Entry(|items| - 1, last));
      assert items == init + [last];
    }
  }

  /* --------------------------- which file may match ------------------------ */

  /** The file is listed under the name of the source and satisfies p, and is the first that does. */
  ghost predicate FirstOf(es: seq<Entry>, p: DriveFile -> bool, m: Entry) {
    exists i :: 0 <= i < |es| && es[i] == m && p(m.file) && forall j :: 0 <= j < i ==> !p(es[j].file)
  }

  ghost predicate SomeOf(es: seq<Entry>, p: DriveFile -> bool) {
    exists i :: 0 <= i < |es| && p(es[i].file)
  }

  function EqualMd5(source: DriveFile): DriveFile -> bool {
    (f: DriveFile) => source.md5.Some? && source.md5 != Some("") && f.md5 == source.md5
  }

  function EqualSize(source: DriveFile): DriveFile -> bool {
    (f: DriveFile) => source.size.Some? && f.size == source.size
  }

  function Anything(allow: bool): DriveFile -> bool {
    (f: DriveFile) => allow
  }

  /** What makes a listed file of the source's name a match. */
  ghost function Criterion(es: seq<Entry>, source: DriveFile, mode: VerifyMode, allow: bool): DriveFile -> bool {
    match mode
    case NameOnly => Anything(allow)
    case Checksum => EqualMd5(source)
    case NameSize => if SomeOf(es, EqualMd5(source)) then EqualMd5(source) else EqualSize(source)
  }

  /**
    A file tagged with the source is the match. Without one, in each mode it is the first file of
    the source's name with the same checksum; by name and size the first with the same size if
    none has the checksum; by name alone, if that is allowed, the first. Otherwise there is none.
   */
  lemma PopMatchMeans(idx: Index, source: DriveFile, mode: VerifyMode, allow: bool, key: Id)
    requires key != ""
    ensures var found := PopMatch(idx, source, mode, allow, Some(key)).0;
            var es := Named(idx, source.name);
            var p := Criterion(es, source, mode, allow);
            if key in idx.appProps then found == Some(idx.appProps[key])
            else (found.Some? <==> SomeOf(es, p)) && (found.Some? ==> FirstOf(es, p, found.value))
  {
    var es := Named(idx, source.name);
    if key !in idx.appProps {
      var i := Choose(es, source, mode, allow);
      assert forall f :: SameMd5(source, f) <==> EqualMd5(source)(f);
      if i.Some? {
        assert es[i.value] in es;
      }
    }
  }

  /** A match by name loses every tag that refers to it, and no other tag. */
  lemma MatchLosesItsTags(idx: Index, source: DriveFile, mode: VerifyMode, allow: bool, key: Id, k: Id)
    requires key != "" && key !in idx.appProps && PopMatch(idx, source, mode, allow, Some(key)).0.Some?
    ensures var (found, idx') := PopMatch(idx, source, mode, allow, Some(key));
            && (k in idx'.appProps <==> k in idx.appProps && idx.appProps[k] != found.value)
            && (k in idx'.appProps ==> idx'.appProps[k] == idx.appProps[k])
  {
  }

  /** A fresh index holds, under each source key, the last file tagged with it. */
  lemma {:induction false} BuiltTags(items: seq<DriveFile>, k: Id)
    requires k != ""
    ensures forall i :: 0 <= i < |items| && !items[i].IsFolder() && TagKey(items[i]) == Some(k)
                        && (forall j :: i < j < |items| ==> items[j].IsFolder() || TagKey(items[j]) != Some(k))
              ==> k in Build(items).appProps && Build(items).appProps[k] == Entry(i, items[i])
    ensures k in Build(items).appProps ==> exists i :: 0 <= i < |items| && !items[i].IsFolder() && TagKey(items[i]) == Some(k)
  {
    if items != [] {
      var n := |items| - 1;
      BuiltTags(items[..n], k);
      assert forall i :: 0 <= i < n ==> items[..n][i] == items[i];
    }
  }

  /* ------------------------- any sequence of pops -------------------------- */

  datatype Pop =
    | TagOnly(effective: Option<Id>)
    | Matching(source: DriveFile, mode: VerifyMode, allowNameOnly: bool, effective: Option<Id>)

  function PopOne(idx: Index, op: Pop): (Option<Entry>, Index) {
    match op
    case TagOnly(eff) => PopByAppProp(idx, eff)
    case Matching(source, mode, allow, eff) => PopMatch(idx, source, mode, allow, eff)
  }

  lemma PopOneAgrees(idx: Index, op: Pop)
    requires Agreement(idx)
    ensures var (r, idx') := PopOne(idx, op);
            && Agreement(idx')
            && (r.None? ==> idx' == idx)
            && (r.Some? ==> forall n :: Bag(idx, n) == Bag(idx', n) + Only(r.value.file, n))
  {
    match op {
      case TagOnly(eff) => PopByAppPropAgrees(idx, eff);
      case Matching(source, mode, allow, eff) => PopMatchAgrees(idx, source, mode, allow, eff);
    }
  }

  function PopAll(idx: Index, ops: seq<Pop>): (seq<DriveFile>, Index)
    decreases |ops|
  {
    if ops == [] then ([], idx)
    else
      var (r, idx') := PopOne(idx, ops[0]);
      var (rest, end) := PopAll(idx', ops[1..]);
      ((if r.Some? then [r.value.file] else []) + rest, end)
  }

  lemma {:induction false} PopAllConserves(idx: Index, ops: seq<Pop>, f: DriveFile)
    requires Agreement(idx)
    ensures var (returned, end) := PopAll(idx, ops);
            Agreement(end) && Bag(idx, f.name)[f] == Bag(end, f.name)[f] + multiset(returned)[f]
    decreases |ops|
  {
    if ops != [] {
      var (r, idx') := PopOne(idx, ops[0]);
      PopOneAgrees(idx, ops[0]);
      PopAllConserves(idx', ops[1..], f);
      if r.Some? {
        assert Bag(idx, f.name) == Bag(idx', f.name) + Only(r.value.file, f.name);
      }
    }
  }

  /**
    Whatever pops run, in whatever modes: the dictionaries agree at the end, and every file of
    the listing is accounted for once, either returned or still listed; so none is handed out
    more often than it was listed, and folders never are.
   */
  lemma ReturnedPlusRemainingIsBuilt(items: seq<DriveFile>, ops: seq<Pop>, f: DriveFile)
    ensures var (returned, end) := PopAll(Build(items), ops);
            && Agreement(end)
            && multiset(returned)[f] + Bag(end, f.name)[f] == if f.IsFolder() then 0 else multiset(items)[f]
  {
    BuildAgrees(items);
    BuildBag(items, f);
    PopAllConserves(Build(items), ops, f);
  }

  /* ------------------------ checksum mode as a bag ------------------------- */

  /** One source file looking for its copy, under the id it is tracked by. */
  datatype Request = Request(eff: Id, file: DriveFile)

  datatype Class = ByContent(name: string, md5: string) | ById(id: Id)

  /** Files with a checksum are interchangeable by (name, md5); others only match their own tag. */
  function ClassOf(t: Request): Class {
    if Truthy(t.file.md5) then ByContent(t.file.name, t.file.md5.value) else ById(t.eff)
  }

  /** A destination file carrying t's tag has t's content. */
  predicate Honest(t: Request, f: DriveFile) {
    if Truthy(t.file.md5) then f.name == t.file.name && f.md5 == t.file.md5 else !Truthy(f.md5)
  }

  ghost predicate TagsHonest(idx: Index, ts: set<Request>) {
    forall t :: t in ts ==> t.eff != "" && (t.eff in idx.appProps ==> Honest(t, idx.appProps[t.eff].file))
  }

  function CountMd5(es: seq<Entry>, md5: string): nat {
    if es == [] then 0
    else CountMd5(es[..|es|-1], md5) + if es[|es|-1].file.md5 == Some(md5) then 1 else 0
  }

  /** How many requests of class c the index can still serve. */
  function Avail(idx: Index, c: Class): nat {
    match c
    case ByContent(n, m) => CountMd5(Named(idx, n), m)
    case ById(k) => if k in idx.appProps then 1 else 0
  }

  lemma {:induction false} CountMd5Concat(a: seq<Entry>, b: seq<Entry>, md5: string)
    ensures CountMd5(a + b, md5) == CountMd5(a, md5) + CountMd5(b, md5)
  {
    if b == [] {
      assert a + b == a;
    } else {
      assert (a + b)[..|a + b| - 1] == a + b[..|b|-1];
      CountMd5Concat(a, b[..|b|-1], md5);
    }
  }

  lemma CountMd5RemoveAt(es: seq<Entry>, i: nat, md5: string)
    requires i < |es|
    ensures CountMd5(es, md5) == CountMd5(RemoveAt(es, i), md5) + if es[i].file.md5 == Some(md5) then 1 else 0
  {
    assert es == es[..i] + ([es[i]] + es[i+1..]);
    CountMd5Concat(es[..i], [es[i]] + es[i+1..], md5);
    CountMd5Concat([es[i]], es[i+1..], md5);
    CountMd5Concat(es[..i], es[i+1..], md5);
  }

  lemma {:induction false} CountMd5Positive(es: seq<Entry>, md5: string)
    ensures CountMd5(es, md5) > 0 <==> exists i :: 0 <= i < |es| && es[i].file.md5 == Some(md5)
  {
    if es != [] {
      var init := es[..|es|-1];
      CountMd5Positive(init, md5);
      if CountMd5(init, md5) > 0 {
        var i :| 0 <= i < |init| && init[i].file.md5 == Some(md5);
        assert es[i].file.md5 == Some(md5);
      }
    }
  }

  function ServedFrom(idx: Index, t: Request, allow: bool): (Option<Entry>, Index) {
    PopMatch(idx, t.file, Checksum, allow, Some(t.eff))
  }

  lemma RemovedFileCounts(idx: Index, e: Entry, i: nat, c: Class)
    requires Agreement(idx)
    requires i < |Named(idx, e.file.name)| && Named(idx, e.file.name)[i].file == e.file
    requires FirstMatch(Named(idx, e.file.name), f => f == e.file) == Some(i)
    requires c.ByContent?
    ensures Avail(RemoveFromName(idx, e), c)
            == Avail(idx, c) - if c == ByContent(e.file.name, if e.file.md5.Some? then e.file.md5.value else c.md5) && e.file.md5.Some? then 1 else 0
  {
    RemoveFromNameEffect(idx, e, i);
    CountMd5RemoveAt(Named(idx, e.file.name), i, c.md5);
  }

  lemma TaggedRemoval(idx: Index, k: Id, c: Class)
    requires Agreement(idx) && k in idx.appProps
    ensures PopByAppProp(idx, Some(k)).0 == Some(idx.appProps[k])
    ensures PopByAppProp(idx, Some(k)).1.appProps == idx.appProps - {k}
    ensures var f := idx.appProps[k].file;
            c.ByContent? ==>
              Avail(PopByAppProp(idx, Some(k)).1, c) == Avail(idx, c) - if f.md5 == Some(c.md5) && f.name == c.name then 1 else 0
    ensures var f := idx.appProps[k].file; f.md5.Some? ==> Avail(idx, ByContent(f.name, f.md5.value)) > 0
  {
    PopByAppPropAgrees(idx, Some(k));
    var _ := TaggedIsListed(idx, k);
    if c.ByContent? {
      TaggedCounts(idx, k, c);
    }
  }

  lemma TaggedCounts(idx: Index, k: Id, c: Class)
    requires Agreement(idx) && k in idx.appProps && c.ByContent?
    ensures var f := idx.appProps[k].file;
            Avail(PopByAppProp(idx, Some(k)).1, c) == Avail(idx, c) - if f.md5 == Some(c.md5) && f.name == c.name then 1 else 0
  {
    var e := idx.appProps[k];
    var mid := idx.(appProps := idx.appProps - {k});
    var i := TaggedIsListed(idx, k);
    RemoveFromNameEffect(mid, e, i);
    RemovedFileCounts(mid, e, i, c);
  }

  /** A tagged file is found under its name. */
  lemma TaggedIsListed(idx: Index, k: Id) returns (i: nat)
    requires Agreement(idx) && k in idx.appProps
    ensures var e := idx.appProps[k];
            && FirstMatch(Named(idx, e.file.name), f => f == e.file) == Some(i)
            && i < |Named(idx, e.file.name)| && Named(idx, e.file.name)[i].file == e.file
    ensures var f := idx.appProps[k].file; f.md5.Some? ==> Avail(idx, ByContent(f.name, f.md5.value)) > 0
  {
    var e := idx.appProps[k];
    var cands := Named(idx, e.file.name);
    var j :| 0 <= j < |cands| && cands[j] == e;
    assert cands[j].file == e.file;
    i := FirstMatch(cands, f => f == e.file).value;
    if e.file.md5.Some? {
      CountMd5Positive(cands, e.file.md5.value);
    }
  }

  lemma ServedByTag(idx: Index, t: Request, u: Request, ts: set<Request>, allow: bool)
    requires Agreement(idx) && TagsHonest(idx, ts) && t in ts && u in ts
    requires t.eff in idx.appProps
    ensures ServedFrom(idx, t, allow).0.Some?
    ensures Avail(idx, ClassOf(t)) > 0
    ensures Avail(ServedFrom(idx, t, allow).1, ClassOf(u)) == Avail(idx, ClassOf(u)) - if ClassOf(u) == ClassOf(t) then 1 else 0
  {
    TaggedRemoval(idx, t.eff, ClassOf(u));
    assert Honest(t, idx.appProps[t.eff].file);
    if u.eff == t.eff {
      assert Honest(u, idx.appProps[t.eff].file);
    }
  }

  lemma ServedByContent(idx: Index, t: Request, u: Request, ts: set<Request>, allow: bool)
    requires Agreement(idx) && TagsHonest(idx, ts) && t in ts && u in ts
    requires t.eff !in idx.appProps
    ensures ServedFrom(idx, t, allow).0.Some? <==> Avail(idx, ClassOf(t)) > 0
    ensures ServedFrom(idx, t, allow).0.Some? ==>
              Avail(ServedFrom(idx, t, allow).1, ClassOf(u)) == Avail(idx, ClassOf(u)) - if ClassOf(u) == ClassOf(t) then 1 else 0
  {
    var cands := Named(idx, t.file.name);
    var at := Choose(cands, t.file, Checksum, allow);
    if Truthy(t.file.md5) {
      CountMd5Positive(cands, t.file.md5.value);
    }
    if at.Some? {
      var m := cands[at.value];
      assert m.file.name == t.file.name;
      ChosenIsFirstEqual(cands, t.file, Checksum, allow);
      RemoveFromNameEffect(idx, m, at.value);
      if ClassOf(u).ByContent? {
        RemovedFileCounts(idx, m, at.value, ClassOf(u));
      }
    }
  }

  /**
    Refinement of a bag: a request is served exactly when its class is available, serving it
    uses up one of that class and nothing of any other, and the tags stay honest.
   */
  lemma ServedExactlyWhenAvailable(idx: Index, t: Request, ts: set<Request>, allow: bool)
    requires Agreement(idx) && TagsHonest(idx, ts) && t in ts
    ensures var (r, idx') := ServedFrom(idx, t, allow);
            && (r.Some? <==> Avail(idx, ClassOf(t)) > 0)
            && (r.None? ==> idx' == idx)
            && Agreement(idx') && TagsHonest(idx', ts)
            && forall u :: u in ts ==>
                 Avail(idx', ClassOf(u)) == Avail(idx, ClassOf(u)) - if r.Some? && ClassOf(u) == ClassOf(t) then 1 else 0
  {
    var (r, idx') := ServedFrom(idx, t, allow);
    PopMatchAgrees(idx, t.file, Checksum, allow, Some(t.eff));
    PopByAppPropAgrees(idx, Some(t.eff));
    if t.eff in idx.appProps {
      forall u | u in ts
        ensures Avail(idx', ClassOf(u)) == Avail(idx, ClassOf(u)) - if ClassOf(u) == ClassOf(t) then 1 else 0
      {
        ServedByTag(idx, t, u, ts, allow);
      }
      ServedByTag(idx, t, t, ts, allow);
    } else {
      forall u | u in ts && r.Some?
        ensures Avail(idx', ClassOf(u)) == Avail(idx, ClassOf(u)) - if ClassOf(u) == ClassOf(t) then 1 else 0
      {
        ServedByContent(idx, t, u, ts, allow);
      }
      ServedByContent(idx, t, t, ts, allow);
    }
    assert idx'.appProps.Keys <= idx.appProps.Keys;
    assert forall k :: k in idx'.appProps ==> idx'.appProps[k] == idx.appProps[k];
  }

  /* ----------------------- greedy matching is optimal ---------------------- */

  function CountClass(ts: seq<Request>, c: Class): nat {
    if ts == [] then 0 else (if ClassOf(ts[0]) == c then 1 else 0) + CountClass(ts[1..], c)
  }

  /** The requests served when they are tried one after another. */
  function Served(idx: Index, ts: seq<Request>, allow: bool): seq<Request>
    decreases |ts|
  {
    if ts == [] then []
    else
      var (r, idx') := ServedFrom(idx, ts[0], allow);
      (if r.Some? then [ts[0]] else []) + Served(idx', ts[1..], allow)
  }

  lemma {:induction false} CountClassAppend(a: seq<Request>, b: seq<Request>, c: Class)
    ensures CountClass(a + b, c) == CountClass(a, c) + CountClass(b, c)
  {
    if a == [] {
      assert a + b == b;
    } else {
      assert (a + b)[1..] == a[1..] + b;
      CountClassAppend(a[1..], b, c);
    }
  }

  /**
    Greedy consumption serves min(requested, present) of every class. The right-hand side does
    not mention the order of ts, so no order of processing serves more or fewer.
   */
  lemma {:induction false} GreedyServesMin(idx: Index, ts: seq<Request>, all: set<Request>, c: Class, allow: bool)
    requires Agreement(idx) && TagsHonest(idx, all)
    requires forall t :: t in ts ==> t in all
    requires exists u :: u in all && ClassOf(u) == c
    ensures CountClass(Served(idx, ts, allow), c)
            == if CountClass(ts, c) <= Avail(idx, c) then CountClass(ts, c) else Avail(idx, c)
    decreases |ts|
  {
    if ts != [] {
      var t := ts[0];
      var (r, idx') := ServedFrom(idx, t, allow);
      ServedExactlyWhenAvailable(idx, t, all, allow);
      var u :| u in all && ClassOf(u) == c;
      assert Avail(idx', c) == Avail(idx, c) - if r.Some? && c == ClassOf(t) then 1 else 0;
      GreedyServesMin(idx', ts[1..], all, c, allow);
      CountClassAppend(if r.Some? then [t] else [], Served(idx', ts[1..], allow), c);
    }
  }

  /* ------------------- what a freshly built index can serve ---------------- */

  /** Does this destination file count towards class c? */
  predicate Serves(f: DriveFile, c: Class) {
    !f.IsFolder() &&
    match c
    case ByContent(n, m) => f.name == n && f.md5 == Some(m)
    case ById(k) => TagKey(f) == Some(k)
  }

  function Present(items: seq<DriveFile>, c: Class): nat {
    if items == [] then 0
    else Present(items[..|items|-1], c) + if Serves(items[|items|-1], c) then 1 else 0
  }

  ghost predicate ListingHonest(items: seq<DriveFile>, ts: set<Request>) {
    forall t, i :: t in ts && 0 <= i < |items| && !items[i].IsFolder() && TagKey(items[i]) == Some(t.eff) ==>
      Honest(t, items[i])
  }

  /** A fresh index can serve every listed file of a content class, and a tag at most once. */
  lemma {:induction false} BuildAvail(items: seq<DriveFile>, c: Class)
    requires c.ById? ==> c.id != ""
    ensures Avail(Build(items), c) == if c.ById? && Present(items, c) > 1 then 1 else Present(items, c)
  {
    if items != [] {
      var init, last := items[..|items|-1], items[|items|-1];
      BuildAvail(init, c);
      if !last.IsFolder() && c.ByContent? && last.name == c.name {
        CountMd5Concat(Named(Build(init), c.name), [Entry(|items| - 1, last)], c.md5);
      }
    }
  }

  lemma {:induction false} BuildTagsHonest(items: seq<DriveFile>, ts: set<Request>)
    requires ListingHonest(items, ts)
    requires forall t :: t in ts ==> t.eff != ""
    ensures TagsHonest(Build(items), ts)
  {
    if items != [] {
      var init, last := items[..|items|-1], items[|items|-1];
      assert forall i :: 0 <= i < |init| ==> init[i] == items[i];
      BuildTagsHonest(init, ts);
    }
  }
}
