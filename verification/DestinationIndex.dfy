/**
  The mutable index object of src/gdrive_turbo_copy/copier.py:41-120: two dictionaries over
  the same listed files, consumed by pops. Each method is tied to its function in IndexSpec.
 */
module DestinationIndex {
  import opened DriveModel
  import Spec = IndexSpec

  /** `next((i for i, c in enumerate(cands) if p(c)), None)` as the loop it is. */
  method FindFirst(cands: seq<Spec.Entry>, p: DriveFile -> bool) returns (r: Option<nat>)
    ensures r == Spec.FirstMatch(cands, p)
  {
    var i := 0;
    while i < |cands|
      invariant 0 <= i <= |cands|
      invariant forall j :: 0 <= j < i ==> !p(cands[j].file)
    {
      if p(cands[i].file) {
        return Some(i);
      }
      i := i + 1;
    }
    return None;
  }

  class DestIndex {
    var appProps: map<Id, Spec.Entry>
    var byName: map<string, seq<Spec.Entry>>

    function View(): Spec.Index
      reads this
    {
      Spec.Index(appProps, byName)
    }

    constructor Build(items: seq<DriveFile>)
      ensures View() == Spec.Build(items)
    {
      appProps, byName := map[], map[];
      new;
      for n := 0 to |items|
        invariant View() == Spec.Build(items[..n])
      {
        var item := items[n];
        assert items[..n+1][..n] == items[..n];
        if item.IsFolder() {
          continue;
        }
        var key := Or(item.props.sourceShortcutId, item.props.sourceFileId);
        if Truthy(key) {
          appProps := appProps[key.value := Spec.Entry(n, item)];
        }
        var listed := if item.name in byName then byName[item.name] else [];
        byName := byName[item.name := listed + [Spec.Entry(n, item)]];
      }
      assert items[..|items|] == items;
    }

    method RemoveFromName(item: Spec.Entry)
      modifies this`byName
      ensures View() == Spec.RemoveFromName(old(View()), item)
    {
      if item.file.name in byName {
        var cands := byName[item.file.name];
        var i := FindFirst(cands, f => f == item.file);
        if i.Some? {
          var rest := Spec.RemoveAt(cands, i.value);
          byName := byName[item.file.name := rest];
          if rest == [] {
            byName := byName - {item.file.name};
          }
        }
      }
    }

    method PopByAppProp(effectiveId: Option<Id>) returns (item: Option<Spec.Entry>)
      modifies this
      ensures (item, View()) == Spec.PopByAppProp(old(View()), effectiveId)
    {
      if !Truthy(effectiveId) {
        return None;
      }
      if effectiveId.value !in appProps {
        return None;
      }
      item := Some(appProps[effectiveId.value]);
      appProps := appProps - {effectiveId.value};
      RemoveFromName(item.value);
    }

    /** `for k, v in list(app_props.items()): if v is match: app_props.pop(k)`. */
    method ForgetTagsOf(chosen: Spec.Entry)
      modifies this`appProps
      ensures appProps == Spec.DropTagsOf(old(appProps), chosen)
    {
      ghost var before := appProps;
      var keys := appProps.Keys;
      while keys != {}
        invariant keys <= appProps.Keys
        invariant appProps.Keys <= before.Keys
        invariant forall k :: k in appProps ==> appProps[k] == before[k]
        invariant forall k :: k in appProps && k !in keys ==> before[k] != chosen
        invariant forall k :: k in before && before[k] != chosen ==> k in appProps
        decreases |keys|
      {
        var k :| k in keys;
        keys := keys - {k};
        if appProps[k] == chosen {
          appProps := appProps - {k};
        }
      }
      assert appProps == Spec.DropTagsOf(old(appProps), chosen);
    }

    method PopMatch(source: DriveFile, mode: Spec.VerifyMode, allowNameOnly: bool, effectiveId: Option<Id>)
      returns (found: Option<Spec.Entry>)
      modifies this
      ensures (found, View()) == Spec.PopMatch(old(View()), source, mode, allowNameOnly, effectiveId)
    {
      found := PopByAppProp(Or(effectiveId, Some(source.id)));
      if found.Some? {
        return;
      }
      if source.name !in byName || byName[source.name] == [] {
        return;
      }
      var cands := byName[source.name];
      var at: Option<nat> := None;
      match mode {
        case NameOnly =>
          if allowNameOnly {
            at := Some(0);
          }
        case Checksum =>
          at := FindFirst(cands, f => Spec.SameMd5(source, f));
        case NameSize =>
          at := FindFirst(cands, f => Spec.SameMd5(source, f));
          if at.None? && source.size.Some? {
            at := FindFirst(cands, f => Spec.SameSize(source, f));
          }
      }
      if at.None? {
        return;
      }
      var chosen := cands[at.value];
      RemoveFromName(chosen);
      ForgetTagsOf(chosen);
      found := Some(chosen);
    }
  }
}
