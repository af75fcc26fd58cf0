/**
  The resume log as a value: canonical form, migration of older schemas, integrity and the
  round trip (src/gdrive_turbo_copy/resume_store.py:34-130, src/gdrive_turbo_copy/models.py:208-237).

  A log is the JSON object it parses to, as a record of the properties the code reads or
  writes, each absent or present with any JSON value. The hash, the parsing of numeric strings
  and the clock are parameters.
 */
module ResumeLog {
  import opened DriveModel
  import opened Ordering

  datatype Json =
    | JNull
    | JBool(flag: bool)
    | JNum(number: real)
    | JStr(text: string)
    | JArr(items: seq<Json>)
    | JObj(fields: map<string, Json>)

  datatype RawItem = RawItem(
    sourceId: Option<Json>, name: Option<Json>, mimeTypeOld: Option<Json>, mimeType: Option<Json>,
    reason: Option<Json>, errorMessage: Option<Json>, timestamp: Option<Json>, parentSourceId: Option<Json>,
    shortcutTargetId: Option<Json>, sourceShortcutId: Option<Json>, effectiveSourceId: Option<Json>)

  /** The failed_items property: a list of objects, something `or []` skips, or anything else. */
  datatype RawItems = Items(items: seq<RawItem>) | NoItems | OtherThanItems

  datatype RawLog = RawLog(
    schemaVersion: Option<Json>, version: Option<Json>, account: Option<Json>, sourceRootId: Option<Json>,
    destRootId: Option<Json>, runId: Option<Json>, copiedFileIds: Option<Json>, copiedIds: Option<Json>,
    folderMap: Option<Json>, completedFolderIds: Option<Json>, failedItems: RawItems, copiedBytes: Option<Json>,
    lifetimeSizeMb: Option<Json>, createdAt: Option<Json>, updatedAt: Option<Json>, integrity: Option<Json>)

  datatype LogText = LogObject(raw: RawLog) | NotAnObject

  datatype Host = Host(
    hash: RawLog -> string, parseInt: string -> Option<int>, parseFloat: string -> Option<real>, now: string)

  datatype FailedItem = FailedItem(
    sourceId: Json, name: Json, mimeType: Json, reason: Json, errorMessage: Json, timestamp: Json,
    parentSourceId: Json, shortcutTargetId: Json, sourceShortcutId: Json, effectiveSourceId: Json)

  /** Scalars that the code never looks into stay JSON values; None is JNull. */
  datatype ResumeState = ResumeState(
    schemaVersion: int, account: Json, sourceRootId: Json, destRootId: Json, runId: Json,
    copiedIds: set<string>, folderMap: map<string, Json>, completedFolders: set<string>,
    failedItems: seq<FailedItem>, copiedBytes: int, createdAt: Json, updatedAt: Json)

  datatype ReadError = NotAJsonObject | IntegrityMismatch | Malformed

  datatype Reading = Read(state: ResumeState) | Unreadable(error: ReadError)

  const CURRENT_SCHEMA_VERSION: int := 4

  /* ------------------------------- Python values --------------------------- */

  function GetOr(o: Option<Json>, default: Json): Json {
    if o.Some? then o.value else default
  }

  /** What Python's `or` skips. */
  predicate Falsy(j: Json) {
    j == JNull || j == JBool(false) || j == JNum(0.0) || j == JStr("") || j == JArr([]) || j == JObj(map[])
  }

  function OrElse(j: Json, default: Json): Json {
    if Falsy(j) then default else j
  }

  /** int() of a number cuts towards zero. */
  function Truncated(x: real): int {
    if x >= 0.0 then x.Floor else -((-x).Floor)
  }

  function FloatOf(host: Host, j: Json): Option<real> {
    match j
    case JNum(x) => Some(x)
    case JBool(b) => Some(if b then 1.0 else 0.0)
    case JStr(s) => host.parseFloat(s)
    case _ => None
  }

  function IntOf(host: Host, j: Json): Option<int> {
    match j
    case JNum(x) => Some(Truncated(x))
    case JBool(b) => Some(if b then 1 else 0)
    case JStr(s) => host.parseInt(s)
    case _ => None
  }

  /** set(value): a list's members, a string's characters or an object's keys. */
  function IdSet(j: Json): Option<set<string>> {
    match j
    case JArr(items) =>
      if forall i :: 0 <= i < |items| ==> items[i].JStr? then Some(set i | 0 <= i < |items| :: items[i].text) else None
    case JStr(s) => Some(set i | 0 <= i < |s| :: [s[i]])
    case JObj(o) => Some(o.Keys)
    case _ => None
  }

  function IdList(ids: seq<string>): Json {
    JArr(seq(|ids|, i requires 0 <= i < |ids| => JStr(ids[i])))
  }

  lemma IdListIsRead(ids: seq<string>)
    ensures IdSet(OrElse(IdList(ids), JArr([]))) == Some(Members(ids))
  {
    var items := IdList(ids).items;
    assert |items| == |ids| && forall i :: 0 <= i < |items| ==> items[i] == JStr(ids[i]);
    assert OrElse(IdList(ids), JArr([])) == IdList(ids) by {
      if ids == [] {
        assert items == [];
      }
    }
    var read := set i | 0 <= i < |items| :: items[i].text;
    forall x ensures x in read <==> x in Members(ids) {
      if x in Members(ids) {
        var i :| 0 <= i < |ids| && ids[i] == x;
        assert items[i].text == x;
      }
    }
    assert read == Members(ids);
  }

  /* ------------------------------ failed items ----------------------------- */

  function UnlessNone(j: Json): Option<Json> {
    if j.JNull? then None else Some(j)
  }

  /** to_dict: the fields that are not None. */
  function ToDict(f: FailedItem): RawItem {
    RawItem(UnlessNone(f.sourceId), UnlessNone(f.name), None, UnlessNone(f.mimeType), UnlessNone(f.reason),
            UnlessNone(f.errorMessage), UnlessNone(f.timestamp), UnlessNone(f.parentSourceId),
            UnlessNone(f.shortcutTargetId), UnlessNone(f.sourceShortcutId), UnlessNone(f.effectiveSourceId))
  }

  function FromDict(host: Host, d: RawItem): FailedItem {
    FailedItem(
      GetOr(d.sourceId, JStr("")), GetOr(d.name, JStr("?")),
      GetOr(d.mimeTypeOld, GetOr(d.mimeType, JStr(""))), GetOr(d.reason, JStr("unknown")),
      GetOr(d.errorMessage, JStr("")), GetOr(d.timestamp, JStr(host.now)), GetOr(d.parentSourceId, JNull),
      GetOr(d.shortcutTargetId, JNull), GetOr(d.sourceShortcutId, JNull), GetOr(d.effectiveSourceId, JNull))
  }

  function ToDicts(items: seq<FailedItem>): (r: seq<RawItem>)
    ensures |r| == |items|
  {
    if items == [] then [] else [ToDict(items[0])] + ToDicts(items[1..])
  }

  function FromDicts(host: Host, dicts: seq<RawItem>): (r: seq<FailedItem>)
    ensures |r| == |dicts|
  {
    if dicts == [] then [] else [FromDict(host, dicts[0])] + FromDicts(host, dicts[1..])
  }

  /** The fields that are not optional hold a value. */
  predicate Complete(f: FailedItem) {
    && !f.sourceId.JNull? && !f.name.JNull? && !f.mimeType.JNull?
    && !f.reason.JNull? && !f.errorMessage.JNull? && !f.timestamp.JNull?
  }

  lemma {:induction false} FailedItemsRoundTrip(host: Host, items: seq<FailedItem>)
    ensures FromDicts(host, ToDicts(items)) == items <==> forall i :: 0 <= i < |items| ==> Complete(items[i])
  {
    if items != [] {
      FailedItemsRoundTrip(host, items[1..]);
      assert items == [items[0]] + items[1..];
      assert FromDicts(host, ToDicts(items))[1..] == FromDicts(host, ToDicts(items[1..]));
      assert FromDicts(host, ToDicts(items))[0] == FromDict(host, ToDict(items[0]));
      assert (forall i :: 0 <= i < |items| ==> Complete(items[i]))
        <==> Complete(items[0]) && forall i :: 0 <= i < |items[1..]| ==> Complete(items[1..][i]) by {
        assert forall i :: 0 < i < |items| ==> items[i] == items[1..][i-1];
      }
    }
  }

  /* --------------------------------- writing ------------------------------- */

  function Canonical(s: ResumeState): RawLog {
    RawLog(
      Some(JNum(CURRENT_SCHEMA_VERSION as real)), None, Some(s.account), Some(s.sourceRootId),
      Some(s.destRootId), Some(s.runId), Some(IdList(Sorted(s.copiedIds))), None,
      Some(JObj(s.folderMap)), Some(IdList(Sorted(s.completedFolders))), Items(ToDicts(s.failedItems)),
      Some(JNum(s.copiedBytes as real)), None, Some(s.createdAt), Some(s.updatedAt), None)
  }

  /** The hash covers everything except the hash. */
  function Integrity(host: Host, raw: RawLog): Json {
    JStr(host.hash(raw.(integrity := None)))
  }

  function Serialize(host: Host, s: ResumeState): RawLog {
    Canonical(s).(integrity := Some(Integrity(host, Canonical(s))))
  }

  /* --------------------------------- reading ------------------------------- */

  function VersionOf(host: Host, raw: RawLog): Option<int> {
    IntOf(host, OrElse(GetOr(raw.schemaVersion, GetOr(raw.version, JNum(1.0))), JNum(1.0)))
  }

  function SetDefault(o: Option<Json>, default: Json): Option<Json> {
    Some(GetOr(o, default))
  }

  function CopiedIdsNamed(raw: RawLog): RawLog {
    if raw.copiedFileIds.None? then raw.(copiedFileIds := Some(GetOr(raw.copiedIds, JArr([])))) else raw
  }

  function BytesCounted(host: Host, raw: RawLog): Option<RawLog> {
    var megabytes := FloatOf(host, OrElse(GetOr(raw.lifetimeSizeMb, JNum(0.0)), JNum(0.0)));
    var rooted := raw.(sourceRootId := SetDefault(raw.sourceRootId, JNull), destRootId := SetDefault(raw.destRootId, JNull),
                       runId := SetDefault(raw.runId, JNull));
    if raw.copiedBytes.Some? then Some(rooted)
    else if megabytes.None? then None
    else Some(rooted.(copiedBytes := Some(JNum(Truncated(megabytes.value * 1024.0 * 1024.0) as real))))
  }

  function RootsAndBytes(host: Host, version: int, raw: RawLog): Option<RawLog> {
    if version < 3 then BytesCounted(host, raw) else Some(raw)
  }

  function CompletedListed(version: int, raw: RawLog): RawLog {
    if version < 4 then raw.(completedFolderIds := SetDefault(raw.completedFolderIds, JArr([]))) else raw
  }

  /** migrate; None when a version or size is not a number. */
  function Migrate(host: Host, raw: RawLog): Option<RawLog> {
    var version := VersionOf(host, raw);
    if version.None? then None
    else
      var v3 := RootsAndBytes(host, version.value, if version.value < 2 then CopiedIdsNamed(raw) else raw);
      if v3.None? then None
      else Some(CompletedListed(version.value, v3.value).(schemaVersion := Some(JNum(CURRENT_SCHEMA_VERSION as real))))
  }

  /** Where the copied ids are, in any schema. */
  function CopiedField(raw: RawLog): Json {
    GetOr(raw.copiedFileIds, GetOr(raw.copiedIds, JArr([])))
  }

  function FolderMapOf(raw: RawLog): Option<map<string, Json>> {
    var j := OrElse(GetOr(raw.folderMap, JNull), JObj(map[]));
    if j.JObj? then Some(j.fields) else None
  }

  /** The state a migrated log stands for. */
  function StateOf(host: Host, raw: RawLog): Reading {
    var copied := IdSet(OrElse(CopiedField(raw), JArr([])));
    var completed := IdSet(OrElse(GetOr(raw.completedFolderIds, JNull), JArr([])));
    var bytes := IntOf(host, OrElse(GetOr(raw.copiedBytes, JNum(0.0)), JNum(0.0)));
    var folders := FolderMapOf(raw);
    if copied.None? || completed.None? || bytes.None? || folders.None? || raw.failedItems.OtherThanItems? then
      Unreadable(Malformed)
    else
      Read(ResumeState(
        CURRENT_SCHEMA_VERSION, GetOr(raw.account, JNull), GetOr(raw.sourceRootId, JNull),
        GetOr(raw.destRootId, JNull), GetOr(raw.runId, JNull), copied.value, folders.value, completed.value,
        if raw.failedItems.Items? then FromDicts(host, raw.failedItems.items) else [], bytes.value,
        OrElse(GetOr(raw.createdAt, JNull), JStr(host.now)), OrElse(GetOr(raw.updatedAt, JNull), JStr(host.now))))
  }

  function MigrateAndRead(host: Host, raw: RawLog): Reading {
    var migrated := Migrate(host, raw);
    if migrated.None? then Unreadable(Malformed) else StateOf(host, migrated.value)
  }

  function Deserialize(host: Host, log: LogText): Reading {
    if log.NotAnObject? then Unreadable(NotAJsonObject)
    else if GetOr(log.raw.integrity, JNull) != JNull && log.raw.integrity.value != Integrity(host, log.raw) then
      Unreadable(IntegrityMismatch)
    else MigrateAndRead(host, log.raw)
  }

  /* --------------------------------- migration ----------------------------- */

  predicate Kept(before: Option<Json>, after: Option<Json>) {
    before.Some? ==> after == before
  }

  /** Every property of the older log is in the newer one unchanged, the version number apart. */
  predicate Extends(newer: RawLog, older: RawLog) {
    && Kept(older.version, newer.version) && Kept(older.account, newer.account)
    && Kept(older.sourceRootId, newer.sourceRootId) && Kept(older.destRootId, newer.destRootId)
    && Kept(older.runId, newer.runId) && Kept(older.copiedFileIds, newer.copiedFileIds)
    && Kept(older.copiedIds, newer.copiedIds) && Kept(older.folderMap, newer.folderMap)
    && Kept(older.completedFolderIds, newer.completedFolderIds) && Kept(older.copiedBytes, newer.copiedBytes)
    && Kept(older.lifetimeSizeMb, newer.lifetimeSizeMb) && Kept(older.createdAt, newer.createdAt)
    && Kept(older.updatedAt, newer.updatedAt) && Kept(older.integrity, newer.integrity)
    && newer.failedItems == older.failedItems
  }

  lemma StagesKeepEverything(host: Host, version: int, raw: RawLog)
    ensures Extends(CopiedIdsNamed(raw), raw) && Extends(CompletedListed(version, raw), raw)
    ensures RootsAndBytes(host, version, raw).Some? ==> Extends(RootsAndBytes(host, version, raw).value, raw)
  {
  }

  lemma StagesKeepIds(host: Host, version: int, raw: RawLog)
    ensures CopiedField(CopiedIdsNamed(raw)) == CopiedField(raw)
    ensures CopiedField(CompletedListed(version, raw)) == CopiedField(raw)
    ensures RootsAndBytes(host, version, raw).Some? ==>
              CopiedField(RootsAndBytes(host, version, raw).value) == CopiedField(raw)
  {
  }

  lemma ExtendsTransitive(a: RawLog, b: RawLog, c: RawLog)
    requires Extends(b, a) && Extends(c, b)
    ensures Extends(c, a)
  {
  }

  /** Migrating loses or changes no property that was present, except the version. */
  lemma MigrationKeepsEverything(host: Host, raw: RawLog)
    requires Migrate(host, raw).Some?
    ensures Extends(Migrate(host, raw).value, raw)
  {
    var version := VersionOf(host, raw).value;
    var v2 := if version < 2 then CopiedIdsNamed(raw) else raw;
    var v3 := RootsAndBytes(host, version, v2).value;
    StagesKeepEverything(host, version, raw);
    StagesKeepEverything(host, version, v2);
    StagesKeepEverything(host, version, v3);
    ExtendsTransitive(raw, v2, v3);
    ExtendsTransitive(raw, v3, CompletedListed(version, v3));
  }

  /** Migrating drops no copied id, whichever schema and name it was under. */
  lemma MigrationDropsNoId(host: Host, raw: RawLog)
    requires Migrate(host, raw).Some?
    ensures CopiedField(Migrate(host, raw).value) == CopiedField(raw)
  {
    var version := VersionOf(host, raw).value;
    var v2 := if version < 2 then CopiedIdsNamed(raw) else raw;
    StagesKeepIds(host, version, raw);
    StagesKeepIds(host, version, v2);
    StagesKeepIds(host, version, RootsAndBytes(host, version, v2).value);
  }

  /** A log at the current version is left alone, so migrating twice is migrating once. */
  lemma MigrationIsIdempotent(host: Host, raw: RawLog)
    requires Migrate(host, raw).Some?
    ensures Migrate(host, Migrate(host, raw).value) == Migrate(host, raw)
  {
    var m := Migrate(host, raw).value;
    assert m.schemaVersion == Some(JNum(4.0));
    assert Truncated(4.0) == 4;
  }

  /** Whatever its schema, a log that can be read is read with the ids, folders and map it holds. */
  lemma AnySchemaIsRead(host: Host, raw: RawLog)
    requires MigrateAndRead(host, raw).Read?
    ensures var s := MigrateAndRead(host, raw).state;
            && s.schemaVersion == CURRENT_SCHEMA_VERSION
            && Some(s.copiedIds) == IdSet(OrElse(CopiedField(raw), JArr([])))
            && Some(s.completedFolders) == IdSet(OrElse(GetOr(raw.completedFolderIds, JNull), JArr([])))
            && Some(s.folderMap) == FolderMapOf(raw)
  {
    MigrationDropsNoId(host, raw);
    MigrationKeepsEverything(host, raw);
  }

  /** The scalars are read as they stand, in every schema; an absent one is None. */
  lemma ScalarsAreRead(host: Host, raw: RawLog)
    requires MigrateAndRead(host, raw).Read?
    ensures var s := MigrateAndRead(host, raw).state;
            && s.account == (if raw.account.Some? then raw.account.value else JNull)
            && s.sourceRootId == (if raw.sourceRootId.Some? then raw.sourceRootId.value else JNull)
            && s.destRootId == (if raw.destRootId.Some? then raw.destRootId.value else JNull)
            && s.runId == (if raw.runId.Some? then raw.runId.value else JNull)
            && (raw.createdAt.Some? && !Falsy(raw.createdAt.value) ==> s.createdAt == raw.createdAt.value)
            && (raw.updatedAt.Some? && !Falsy(raw.updatedAt.value) ==> s.updatedAt == raw.updatedAt.value)
  {
    MigrationKeepsEverything(host, raw);
    var migrated := Migrate(host, raw).value;
    assert StateOf(host, migrated).Read?;
    NothingAdded(host, raw);
  }

  /** What migration adds where there was nothing is None, zero or an empty list. */
  lemma NothingAdded(host: Host, raw: RawLog)
    requires Migrate(host, raw).Some?
    ensures var m := Migrate(host, raw).value;
            && m.account == raw.account && m.createdAt == raw.createdAt && m.updatedAt == raw.updatedAt
            && (raw.sourceRootId.None? ==> GetOr(m.sourceRootId, JNull) == JNull)
            && (raw.destRootId.None? ==> GetOr(m.destRootId, JNull) == JNull)
            && (raw.runId.None? ==> GetOr(m.runId, JNull) == JNull)
  {
  }

  /** A whole number of bytes in the log is read as it stands, whatever else the log holds. */
  lemma BytesAreRead(host: Host, raw: RawLog, n: nat)
    requires raw.copiedBytes == Some(JNum(n as real)) && MigrateAndRead(host, raw).Read?
    ensures MigrateAndRead(host, raw).state.copiedBytes == n
  {
    MigrationKeepsEverything(host, raw);
    TruncatedWhole(n);
  }

  /** int() cuts towards zero: never further from zero than the number, and by less than one. */
  lemma TruncatedTowardsZero(x: real)
    ensures x >= 0.0 ==> 0.0 <= Truncated(x) as real <= x < Truncated(x) as real + 1.0
    ensures x < 0.0 ==> Truncated(x) as real - 1.0 < x <= Truncated(x) as real <= 0.0
  {
  }

  /** A failed item of which only the id is known. */
  lemma ItemDefaults(host: Host, id: Json)
    ensures var d := RawItem(Some(id), None, None, None, None, None, None, None, None, None, None);
            FromDict(host, d) == FailedItem(id, JStr("?"), JStr(""), JStr("unknown"), JStr(""), JStr(host.now),
                                            JNull, JNull, JNull, JNull)
  {
  }

  /** A type under the older name is the one read, even beside one under the newer name. */
  lemma OlderMimeTypeWins(host: Host, d: RawItem)
    ensures d.mimeTypeOld.Some? ==> Some(FromDict(host, d).mimeType) == d.mimeTypeOld
    ensures d.mimeTypeOld.None? && d.mimeType.Some? ==> Some(FromDict(host, d).mimeType) == d.mimeType
  {
  }

  /** No version under either name, or one that is null, zero or otherwise empty. */
  predicate Unversioned(raw: RawLog) {
    if raw.schemaVersion.Some? then Falsy(raw.schemaVersion.value)
    else raw.version.None? || Falsy(raw.version.value)
  }

  /** A log without a version is taken for one of the first schema: it is given all that later ones have. */
  lemma UnversionedIsFilledIn(host: Host, raw: RawLog)
    requires Unversioned(raw) && Migrate(host, raw).Some?
    ensures var m := Migrate(host, raw).value;
            && m.copiedFileIds.Some? && m.copiedBytes.Some? && m.completedFolderIds.Some?
            && m.sourceRootId.Some? && m.destRootId.Some? && m.runId.Some?
  {
    assert VersionOf(host, raw) == Some(Truncated(1.0));
  }

  /** The version decides what is added: ids below 2, bytes and roots below 3, completed folders below 4. */
  lemma VersionDecidesWhatIsAdded(host: Host, raw: RawLog, version: real)
    requires raw.schemaVersion == Some(JNum(version)) && version != 0.0 && Migrate(host, raw).Some?
    ensures var m := Migrate(host, raw).value;
            && m.schemaVersion == Some(JNum(4.0))
            && (m.copiedFileIds.Some? <==> raw.copiedFileIds.Some? || version < 2.0)
            && (m.copiedBytes.Some? <==> raw.copiedBytes.Some? || version < 3.0)
            && (m.runId.Some? <==> raw.runId.Some? || version < 3.0)
            && (m.completedFolderIds.Some? <==> raw.completedFolderIds.Some? || version < 4.0)
  {
    assert VersionOf(host, raw) == Some(Truncated(version));
  }

  /** An old log's size in mebibytes becomes the bytes it stands for, cut to a whole number. */
  lemma MegabytesBecomeBytes(host: Host, raw: RawLog, mb: real)
    requires VersionOf(host, raw).Some? && VersionOf(host, raw).value < 3
    requires raw.copiedBytes.None? && raw.lifetimeSizeMb == Some(JNum(mb)) && mb >= 0.0
    requires MigrateAndRead(host, raw).Read?
    ensures MigrateAndRead(host, raw).state.copiedBytes == (mb * 1048576.0).Floor
  {
    MebibytesAsBytes(mb);
    TruncatedWhole((mb * 1048576.0).Floor);
  }

  lemma MebibytesAsBytes(mb: real)
    ensures mb * 1024.0 * 1024.0 == mb * 1048576.0
    ensures mb >= 0.0 ==> mb * 1048576.0 >= 0.0
  {
  }

  /* --------------------------------- round trip ---------------------------- */

  /** What reading back a written log gives: the state, with fresh defaults for what was missing. */
  function Restored(host: Host, s: ResumeState): ResumeState {
    s.(schemaVersion := CURRENT_SCHEMA_VERSION, failedItems := FromDicts(host, ToDicts(s.failedItems)),
       createdAt := OrElse(s.createdAt, JStr(host.now)), updatedAt := OrElse(s.updatedAt, JStr(host.now)))
  }

  /** Every written log passes its own integrity check and is read back with every id, folder and count. */
  lemma WrittenLogIsRead(host: Host, s: ResumeState)
    ensures Deserialize(host, LogObject(Serialize(host, s))) == Read(Restored(host, s))
  {
    var raw := Serialize(host, s);
    assert raw.(integrity := None) == Canonical(s).(integrity := None);
    IdListIsRead(Sorted(s.copiedIds));
    IdListIsRead(Sorted(s.completedFolders));
    assert Truncated(4.0) == 4 && VersionOf(host, raw) == Some(4);
    assert Migrate(host, raw) == Some(raw);
    assert Truncated(s.copiedBytes as real) == s.copiedBytes by {
      TruncatedWhole(s.copiedBytes);
    }
  }

  lemma TruncatedWhole(n: int)
    ensures Truncated(n as real) == n
  {
    assert (-(n as real)) == (-n) as real;
  }

  /** Writing and reading restores the state exactly when nothing in it is missing. */
  lemma RoundTripExactlyWhen(host: Host, s: ResumeState)
    requires host.now != ""
    ensures Deserialize(host, LogObject(Serialize(host, s))) == Read(s)
       <==> && s.schemaVersion == CURRENT_SCHEMA_VERSION
            && !Falsy(s.createdAt) && !Falsy(s.updatedAt)
            && forall i :: 0 <= i < |s.failedItems| ==> Complete(s.failedItems[i])
  {
    WrittenLogIsRead(host, s);
    FailedItemsRoundTrip(host, s.failedItems);
  }

  /** An edit of a written log that keeps its hash is rejected exactly if the hash tells the contents apart. */
  lemma EditDetectedExactlyWhen(host: Host, s: ResumeState, edited: RawLog)
    requires edited.integrity == Serialize(host, s).integrity
    ensures Deserialize(host, LogObject(edited)) == Unreadable(IntegrityMismatch)
       <==> host.hash(edited.(integrity := None)) != host.hash(Canonical(s))
  {
    assert Canonical(s).(integrity := None) == Canonical(s);
  }

  /** A log without a hash, absent or null, is not checked: it is read like any other ... */
  lemma UnsignedIsNotChecked(host: Host, raw: RawLog)
    requires raw.integrity.None? || raw.integrity == Some(JNull)
    ensures Deserialize(host, LogObject(raw)) == MigrateAndRead(host, raw)
  {
  }

  /** ... so taking the hash off a written log changes nothing about what is read. */
  lemma UnsignedLogIsAccepted(host: Host, s: ResumeState)
    ensures Deserialize(host, LogObject(Serialize(host, s).(integrity := None))) == Read(Restored(host, s))
  {
    WrittenLogIsRead(host, s);
    UnsignedIsNotChecked(host, Canonical(s));
    assert Serialize(host, s).(integrity := None) == Canonical(s);
    HashIsNotRead(host, Canonical(s), Serialize(host, s).integrity);
  }

  lemma StateIgnoresHash(host: Host, raw: RawLog, hash: Option<Json>)
    ensures StateOf(host, raw.(integrity := hash)) == StateOf(host, raw)
  {
  }

  lemma BytesIgnoreHash(host: Host, version: int, raw: RawLog, hash: Option<Json>)
    ensures var counted := RootsAndBytes(host, version, raw);
            RootsAndBytes(host, version, raw.(integrity := hash))
            == if counted.Some? then Some(counted.value.(integrity := hash)) else None
  {
  }

  lemma NamesIgnoreHash(version: int, raw: RawLog, hash: Option<Json>)
    ensures CopiedIdsNamed(raw.(integrity := hash)) == CopiedIdsNamed(raw).(integrity := hash)
    ensures CompletedListed(version, raw.(integrity := hash)) == CompletedListed(version, raw).(integrity := hash)
  {
  }

  lemma MigrateIgnoresHash(host: Host, raw: RawLog, hash: Option<Json>)
    ensures var migrated := Migrate(host, raw);
            Migrate(host, raw.(integrity := hash))
            == if migrated.Some? then Some(migrated.value.(integrity := hash)) else None
  {
    var version := VersionOf(host, raw);
    assert VersionOf(host, raw.(integrity := hash)) == version;
    if version.Some? {
      var v2 := if version.value < 2 then CopiedIdsNamed(raw) else raw;
      NamesIgnoreHash(version.value, raw, hash);
      BytesIgnoreHash(host, version.value, v2, hash);
      var v3 := RootsAndBytes(host, version.value, v2);
      if v3.Some? {
        NamesIgnoreHash(version.value, v3.value, hash);
      }
    }
  }

  /** What is read of a log does not depend on its hash. */
  lemma HashIsNotRead(host: Host, raw: RawLog, hash: Option<Json>)
    ensures MigrateAndRead(host, raw.(integrity := hash)) == MigrateAndRead(host, raw)
  {
    MigrateIgnoresHash(host, raw, hash);
    if Migrate(host, raw).Some? {
      StateIgnoresHash(host, Migrate(host, raw).value, hash);
    }
  }
}
