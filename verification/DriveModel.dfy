/**
  The values the copier passes around: files as the Drive API describes them.

  The two MIME types the engine tests for are constructors, and the application properties
  it reads back are the fields of a record; an absent property is None.
 */
module DriveModel {

  datatype Option<+T> = None | Some(value: T)

  type Id = string

  datatype Mime = FolderMime | ShortcutMime | NativeMime(app: string) | OtherMime(name: string)

  datatype AppProperties = AppProperties(
    sourceFileId: Option<Id>,
    sourceShortcutId: Option<Id>,
    sourceMd5: string)

  datatype DriveFile = DriveFile(
    id: Id,
    name: string,
    mime: Mime,
    size: Option<nat>,
    md5: Option<string>,
    shortcutTargetId: Option<Id>,
    props: AppProperties)
  {
    predicate IsFolder() {
      mime.FolderMime?
    }

    predicate IsShortcut() {
      mime.ShortcutMime?
    }
  }

  /** Python truthiness of an optional string: neither None nor empty. */
  predicate Truthy(s: Option<string>) {
    s.Some? && s.value != ""
  }

  /** Python's `a or b` on optional strings. */
  function Or(a: Option<string>, b: Option<string>): Option<string> {
    if Truthy(a) then a else b
  }

  /** `src.size or 0`. */
  function SizeOf(f: DriveFile): nat {
    if f.size.Some? then f.size.value else 0
  }

  lemma {:induction false} SubsetSize<T>(a: set<T>, b: set<T>)
    requires a <= b
    ensures |a| <= |b|
  {
    if a != {} {
      var x :| x in a;
      SubsetSize(a - {x}, b - {x});
    }
  }
}
