/**
  The index of files already present in one destination folder
  (src/gdrive_turbo_copy/copier.py, class DestinationIndex).

  An Entry is a DriveFile object: `ref` is its identity (two listed objects may be equal as
  values), `file` its value. Python's `in`, `==` and `list.remove` compare values; `is`
  compares identities.
 */
module IndexSpec {
  import opened DriveModel

  datatype VerifyMode = Checksum | NameSize | NameOnly

  datatype Entry = Entry(ref: nat, file: DriveFile)

  /** The two dictionaries: tagged files by source key, all files by name. */
  datatype Index = Index(appProps: map<Id, Entry>, byName: map<string, seq<Entry>>)

  const EMPTY_INDEX := Index(map[], map[])

  /** The source key a destination file was tagged with. */
  function TagKey(f: DriveFile): Option<Id> {
    Or(f.props.sourceShortcutId, f.props.sourceFileId)
  }

  function Named(idx: Index, name: string): seq<Entry> {
    if name in idx.byName then idx.byName[name] else []
  }

  /* --------------------------------- build --------------------------------- */

  function Add(idx: Index, e: Entry): Index {
    if e.file.IsFolder() then idx
    else
      var k := TagKey(e.file);
      Index(if Truthy(k) then idx.appProps[k.value := e] else idx.appProps,
            idx.byName[e.file.name := Named(idx, e.file.name) + [e]])
  }

  function Build(items: seq<DriveFile>): Index {
    if items == [] then EMPTY_INDEX
    else Add(Build(items[..|items|-1]), Entry(|items| - 1, items[|items|-1]))
  }

  /* ---------------------------------- pops --------------------------------- */

  /** Position of the first candidate satisfying p, if any. */
  function FirstMatch(cands: seq<Entry>, p: DriveFile -> bool): (r: Option<nat>)
    ensures r.Some? ==> r.value < |cands| && p(cands[r.value].file)
                        && forall j :: 0 <= j < r.value ==> !p(cands[j].file)
    ensures r.None? ==> forall j :: 0 <= j < |cands| ==> !p(cands[j].file)
  {
    if cands == [] then None
    else if p(cands[0].file) then Some(0)
    else
      var r := FirstMatch(cands[1..], p);
      if r.Some? then Some(r.value + 1) else None
  }

  function RemoveAt(cands: seq<Entry>, i: nat): seq<Entry>
    requires i < |cands|
  {
    cands[..i] + cands[i+1..]
  }

  function RemoveFromName(idx: Index, e: Entry): Index {
    var cands := Named(idx, e.file.name);
    var i := FirstMatch(cands, f => f == e.file);
    if i.None? then idx
    else
      var rest := RemoveAt(cands, i.value);
      idx.(byName := if rest == [] then idx.byName - {e.file.name}
                     else idx.byName[e.file.name := rest])
  }

  function PopByAppProp(idx: Index, eff: Option<Id>): (Option<Entry>, Index) {
    if !Truthy(eff) || eff.value !in idx.appProps then (None, idx)
    else
      var e := idx.appProps[eff.value];
      (Some(e), RemoveFromName(idx.(appProps := idx.appProps - {eff.value}), e))
  }

  predicate SameMd5(source: DriveFile, f: DriveFile) {
    Truthy(source.md5) && Truthy(f.md5) && source.md5 == f.md5
  }

  predicate SameSize(source: DriveFile, f: DriveFile) {
    source.size.Some? && f.size.Some? && source.size == f.size
  }

  /** The candidate the mode selects among the files of the source's name. */
  function Choose(cands: seq<Entry>, source: DriveFile, mode: VerifyMode, allowNameOnly: bool): (r: Option<nat>)
    ensures r.Some? ==> r.value < |cands|
  {
    if cands == [] then None
    else match mode
      case NameOnly => if allowNameOnly then Some(0) else None
      case Checksum => FirstMatch(cands, f => SameMd5(source, f))
      case NameSize =>
        var m := FirstMatch(cands, f => SameMd5(source, f));
        if m.None? && source.size.Some? then FirstMatch(cands, f => SameSize(source, f)) else m
  }

  /** Drop every tag that refers to this very object. */
  function DropTagsOf(props: map<Id, Entry>, e: Entry): map<Id, Entry> {
    map k | k in props && props[k] != e :: props[k]
  }

  function PopMatch(idx: Index, source: DriveFile, mode: VerifyMode, allowNameOnly: bool, effective: Option<Id>)
    : (Option<Entry>, Index)
  {
    var byProp := PopByAppProp(idx, Or(effective, Some(source.id)));
    if byProp.0.Some? then byProp
    else
      var cands := Named(idx, source.name);
      var i := Choose(cands, source, mode, allowNameOnly);
      if i.None? then (None, idx)
      else
        var m := cands[i.value];
        var idx' := RemoveFromName(idx, m);
        (Some(m), idx'.(appProps := DropTagsOf(idx'.appProps, m)))
  }
}
