/**
  Finding, merging and saving resume logs in the destination folder
  (src/gdrive_turbo_copy/resume_store.py:133-249).

  The folder's listing and each download are given; what the store asks the client to write is
  returned as a request, and the client's answer is a parameter.
 */
module ResumeStore {
  import opened DriveModel
  import opened ResumeLog

  const LOG_PREFIX := ".gdrive_copy_resume"
  const LOG_SUFFIX := ".json"

  predicate SafeChar(c: char) {
    'A' <= c <= 'Z' || 'a' <= c <= 'z' || '0' <= c <= '9' || c == '.' || c == '_' || c == '-'
  }

  function LogNameFor(account: string): string {
    if account == "" then LOG_PREFIX + LOG_SUFFIX
    else LOG_PREFIX + "." + seq(|account|, i requires 0 <= i < |account| => if SafeChar(account[i]) then account[i] else '_')
         + LOG_SUFFIX
  }

  /** A file in the folder; no content when the download or the JSON text is bad. */
  datatype LogFile = LogFile(id: Id, name: string, content: Option<LogText>)

  function ReadFile(host: Host, f: LogFile): Reading {
    if f.content.None? then Unreadable(Malformed) else Deserialize(host, f.content.value)
  }

  predicate IsLog(f: LogFile) {
    LOG_PREFIX <= f.name
  }

  /** The logs among a list of files, in order. */
  function LogsAmong(files: seq<LogFile>): seq<LogFile> {
    if files == [] then []
    else LogsAmong(files[..|files|-1]) + if IsLog(files[|files|-1]) then [files[|files|-1]] else []
  }

  /** The logs on the pages; a page that is None is a listing error. */
  function Listed(pages: seq<Option<seq<LogFile>>>): Option<seq<LogFile>> {
    if pages == [] then Some([])
    else
      var before := Listed(pages[..|pages|-1]);
      var page := pages[|pages|-1];
      if before.None? || page.None? then None else Some(before.value + LogsAmong(page.value))
  }

  method ListLogFiles(pages: seq<Option<seq<LogFile>>>) returns (r: Option<seq<LogFile>>)
    ensures r == Listed(pages)
  {
    var out: seq<LogFile> := [];
    for p := 0 to |pages|
      invariant Listed(pages[..p]) == Some(out)
    {
      assert pages[..p+1][..p] == pages[..p];
      if pages[p].None? {
        ListingErrorStays(pages, p + 1);
        return None;
      }
      var files := pages[p].value;
      var before := out;
      for k := 0 to |files|
        invariant out == before + LogsAmong(files[..k])
      {
        assert files[..k+1][..k] == files[..k];
        if IsLog(files[k]) {
          out := out + [files[k]];
        }
      }
      assert files[..|files|] == files;
    }
    assert pages[..|pages|] == pages;
    return Some(out);
  }

  lemma {:induction false} ListingErrorStays(pages: seq<Option<seq<LogFile>>>, p: nat)
    requires p <= |pages| && Listed(pages[..p]).None?
    ensures Listed(pages).None?
    decreases |pages|
  {
    if p < |pages| {
      assert pages[..|pages|-1][..p] == pages[..p];
      ListingErrorStays(pages[..|pages|-1], p);
    } else {
      assert pages[..p] == pages;
    }
  }

  /** A listing holds exactly the files of its pages that are named like a log. */
  lemma {:induction false} ListedMeans(pages: seq<Option<seq<LogFile>>>, f: LogFile)
    ensures Listed(pages).Some? <==> forall p :: 0 <= p < |pages| ==> pages[p].Some?
    ensures Listed(pages).Some? ==>
              (f in Listed(pages).value <==>
               ".gdrive_copy_resume" <= f.name && exists p :: 0 <= p < |pages| && pages[p].Some? && f in pages[p].value)
  {
    if pages != [] {
      var n := |pages| - 1;
      ListedMeans(pages[..n], f);
      assert forall p :: 0 <= p < n ==> pages[..n][p] == pages[p];
      if pages[n].Some? {
        LogsAmongMeans(pages[n].value, f);
      }
    }
  }

  lemma {:induction false} LogsAmongMeans(files: seq<LogFile>, f: LogFile)
    ensures f in LogsAmong(files) <==> f in files && ".gdrive_copy_resume" <= f.name
  {
    if files != [] {
      LogsAmongMeans(files[..|files|-1], f);
      assert files == files[..|files|-1] + [files[|files|-1]];
    }
  }

  /** A log is read as its text says; one that cannot be downloaded or parsed is malformed, and never empty. */
  lemma UnparsedLogIsUnreadable(host: Host, f: LogFile)
    ensures ReadFile(host, f) == if f.content.None? then Unreadable(Malformed) else Deserialize(host, f.content.value)
    ensures f.content == Some(NotAnObject) ==> ReadFile(host, f) == Unreadable(NotAJsonObject)
  {
  }

  /** The log of any account is listed as one, and its name is safe. */
  lemma LogNamesAreListed(account: string)
    ensures ".gdrive_copy_resume" <= LogNameFor(account)
    ensures forall i :: 0 <= i < |LogNameFor(account)| ==> SafeChar(LogNameFor(account)[i])
  {
  }

  /** Accounts of safe characters have logs of their own. */
  lemma LogNamesDiffer(a: string, b: string)
    requires (forall c :: c in a ==> SafeChar(c)) && (forall c :: c in b ==> SafeChar(c)) && a != b
    ensures LogNameFor(a) != LogNameFor(b)
  {
    if a != "" && b != "" {
      LogNameOfSafe(a);
      LogNameOfSafe(b);
      assert LogNameFor(a)[|LOG_PREFIX| + 1..][..|a|] == a;
      assert LogNameFor(b)[|LOG_PREFIX| + 1..][..|b|] == b;
    }
  }

  lemma LogNameOfSafe(a: string)
    requires (forall c :: c in a ==> SafeChar(c)) && a != ""
    ensures LogNameFor(a) == ".gdrive_copy_resume." + a + ".json"
  {
    assert seq(|a|, i requires 0 <= i < |a| => if SafeChar(a[i]) then a[i] else '_') == a;
  }

  /* ---------------------------------- merging ------------------------------ */

  /** A log and what reading it gave. */
  datatype ReadLog = ReadLog(id: Id, name: string, reading: Reading)

  function ReadAll(host: Host, logs: seq<LogFile>): seq<ReadLog> {
    seq(|logs|, k requires 0 <= k < |logs| => ReadLog(logs[k].id, logs[k].name, ReadFile(host, logs[k])))
  }

  /** The state under construction and the file the store will write to. */
  datatype Merged = Merged(state: ResumeState, own: Option<Id>)

  function Fresh(host: Host, account: string, parent: Id): ResumeState {
    ResumeState(CURRENT_SCHEMA_VERSION, if account == "" then JNull else JStr(account), JNull, JStr(parent), JNull,
                {}, map[], {}, [], 0, JStr(host.now), JStr(host.now))
  }

  /** Entries already there win. */
  function FirstWins(first: map<string, Json>, second: map<string, Json>): map<string, Json> {
    second + first
  }

  function MergeOne(ownName: string, acc: Merged, f: ReadLog, s: ResumeState): Merged {
    var a := acc.state;
    var united := a.(copiedIds := a.copiedIds + s.copiedIds, folderMap := FirstWins(a.folderMap, s.folderMap),
                     completedFolders := a.completedFolders + s.completedFolders,
                     failedItems := a.failedItems + s.failedItems);
    if f.name == ownName then
      Merged(united.(runId := s.runId, copiedBytes := s.copiedBytes, createdAt := s.createdAt,
                     sourceRootId := OrElse(s.sourceRootId, a.sourceRootId)), Some(f.id))
    else Merged(united, acc.own)
  }

  /** The readable logs merged in order. */
  function MergeAll(ownName: string, start: Merged, logs: seq<ReadLog>): Merged {
    if logs == [] then start
    else
      var acc := MergeAll(ownName, start, logs[..|logs|-1]);
      var r := logs[|logs|-1].reading;
      if r.Read? then MergeOne(ownName, acc, logs[|logs|-1], r.state) else acc
  }

  lemma MergeNext(ownName: string, start: Merged, logs: seq<ReadLog>, k: nat)
    requires k < |logs|
    ensures var acc := MergeAll(ownName, start, logs[..k]);
            var r := logs[k].reading;
            MergeAll(ownName, start, logs[..k+1]) == if r.Read? then MergeOne(ownName, acc, logs[k], r.state) else acc
  {
    assert logs[..k+1][..k] == logs[..k];
  }

  /** The logs before the first unreadable one. */
  function ReadablePrefix(logs: seq<ReadLog>): seq<ReadLog> {
    if logs == [] || logs[0].reading.Unreadable? then [] else [logs[0]] + ReadablePrefix(logs[1..])
  }

  predicate AllReadable(logs: seq<ReadLog>) {
    forall i :: 0 <= i < |logs| ==> logs[i].reading.Read?
  }

  lemma {:induction false} PrefixStopsAt(logs: seq<ReadLog>, k: nat)
    requires k < |logs| && logs[k].reading.Unreadable?
    requires forall i :: 0 <= i < k ==> logs[i].reading.Read?
    ensures ReadablePrefix(logs) == logs[..k]
  {
    if k > 0 {
      var rest := logs[1..];
      assert forall i :: 0 <= i < |rest| ==> rest[i] == logs[i+1];
      PrefixStopsAt(rest, k - 1);
      assert logs[..k] == [logs[0]] + rest[..k-1];
    }
  }

  lemma {:induction false} PrefixIsAll(logs: seq<ReadLog>)
    requires AllReadable(logs)
    ensures ReadablePrefix(logs) == logs
  {
    if logs != [] {
      assert forall i :: 0 <= i < |logs| - 1 ==> logs[1..][i] == logs[i+1];
      PrefixIsAll(logs[1..]);
      assert logs == [logs[0]] + logs[1..];
    }
  }

  /* --------------------------------- the store ----------------------------- */

  datatype WriteRequest = UpdateContent(id: Id, data: RawLog) | CreateFile(name: string, parent: Json, data: RawLog)

  /** What the client answers; a created file's id may be missing from the answer. */
  datatype Response = Failed | Confirmed(id: Option<Id>)

  predicate HasOwnLog(own: Option<Id>) {
    own.Some? && own.value != ""
  }

  function RequestFor(host: Host, own: Option<Id>, ownName: Option<string>, s: ResumeState): WriteRequest {
    if HasOwnLog(own) then UpdateContent(own.value, Serialize(host, s))
    else CreateFile(if ownName.Some? && ownName.value != "" then ownName.value
                    else LogNameFor(if s.account.JStr? then s.account.text else ""),
                    OrElse(s.destRootId, JStr("")), Serialize(host, s))
  }

  function TargetAfter(own: Option<Id>, answer: Response): Option<Id> {
    if HasOwnLog(own) || answer.Failed? then own else answer.id
  }

  class Store {
    var ownLogFileId: Option<Id>
    var ownLogName: Option<string>

    constructor ()
      ensures ownLogFileId == None && ownLogName == None
    {
      ownLogFileId, ownLogName := None, None;
    }

    /** One pass of the merge loop. */
    method Absorb(merged: ResumeState, entry: ReadLog, state: ResumeState) returns (r: ResumeState)
      requires ownLogName.Some?
      modifies this`ownLogFileId
      ensures Merged(r, ownLogFileId) == MergeOne(ownLogName.value, Merged(merged, old(ownLogFileId)), entry, state)
    {
      r := merged.(
        copiedIds := merged.copiedIds + state.copiedIds,
        folderMap := FirstWins(merged.folderMap, state.folderMap),
        completedFolders := merged.completedFolders + state.completedFolders,
        failedItems := merged.failedItems + state.failedItems);
      if entry.name == ownLogName.value {
        ownLogFileId := Some(entry.id);
        r := r.(runId := state.runId, copiedBytes := state.copiedBytes, createdAt := state.createdAt,
                sourceRootId := OrElse(state.sourceRootId, r.sourceRootId));
      }
    }

    /** The merge loop: every log in order, stopping at one that could not be read unless told to skip it. */
    method MergeLogs(initial: ResumeState, logs: seq<ReadLog>, ignoreBroken: bool) returns (r: Option<ResumeState>)
      requires ownLogName.Some?
      modifies this`ownLogFileId
      ensures var merged := MergeAll(ownLogName.value, Merged(initial, old(ownLogFileId)),
                                     if ignoreBroken then logs else ReadablePrefix(logs));
              && ownLogFileId == merged.own
              && r == if ignoreBroken || AllReadable(logs) then Some(merged.state) else None
    {
      var merged := initial;
      ghost var start := Merged(initial, ownLogFileId);
      for k := 0 to |logs|
        invariant Merged(merged, ownLogFileId) == MergeAll(ownLogName.value, start, logs[..k])
        invariant ignoreBroken || forall i :: 0 <= i < k ==> logs[i].reading.Read?
      {
        MergeNext(ownLogName.value, start, logs, k);
        if logs[k].reading.Unreadable? {
          if !ignoreBroken {
            PrefixStopsAt(logs, k);
            return None;
          }
          continue;
        }
        merged := Absorb(merged, logs[k], logs[k].reading.state);
      }
      assert logs[..|logs|] == logs;
      if !ignoreBroken {
        PrefixIsAll(logs);
      }
      return Some(merged);
    }

    /** None is the RuntimeError: the folder could not be listed, or a log could not be read. */
    method Load(host: Host, pages: seq<Option<seq<LogFile>>>, parent: Id, account: string,
                ignoreBroken: bool, startFresh: bool) returns (r: Option<ResumeState>)
      modifies this
      ensures ownLogName == Some(LogNameFor(account))
      ensures Listed(pages).None? ==>
                && r == (if startFresh then Some(Fresh(host, account, parent)) else None)
                && ownLogFileId == old(ownLogFileId)
      ensures Listed(pages).Some? ==>
                var logs := ReadAll(host, Listed(pages).value);
                var merged := MergeAll(LogNameFor(account), Merged(Fresh(host, account, parent), old(ownLogFileId)),
                                       if ignoreBroken then logs else ReadablePrefix(logs));
                && r == (if ignoreBroken || AllReadable(logs) then Some(merged.state) else None)
                && ownLogFileId == merged.own
    {
      ownLogName := Some(LogNameFor(account));
      var merged := Fresh(host, account, parent);
      var listing := ListLogFiles(pages);
      if listing.None? {
        return if startFresh then Some(merged) else None;
      }
      r := MergeLogs(merged, ReadAll(host, listing.value), ignoreBroken);
    }

    /** The state with its new timestamp, the request made, and whether it was confirmed. */
    method Save(host: Host, state: ResumeState, answer: Response)
      returns (ok: bool, stamped: ResumeState, request: WriteRequest)
      modifies this`ownLogFileId
      ensures ok == answer.Confirmed?
      ensures stamped == state.(updatedAt := JStr(host.now))
      ensures request == RequestFor(host, old(ownLogFileId), ownLogName, stamped)
      ensures ownLogFileId == TargetAfter(old(ownLogFileId), answer)
    {
      stamped := state.(updatedAt := JStr(host.now));
      var data := Serialize(host, stamped);
      ok := answer.Confirmed?;
      if ownLogFileId.Some? && ownLogFileId.value != "" {
        request := UpdateContent(ownLogFileId.value, data);
        return;
      }
      request := CreateFile(if ownLogName.Some? && ownLogName.value != "" then ownLogName.value
                            else LogNameFor(if stamped.account.JStr? then stamped.account.text else ""),
                            OrElse(stamped.destRootId, JStr("")), data);
      if answer.Confirmed? {
        ownLogFileId := answer.id;
      }
    }
  }

  /* ------------------------------ what a load yields ----------------------- */

  function CopiedIn(f: ReadLog): set<string> {
    if f.reading.Read? then f.reading.state.copiedIds else {}
  }

  function CompletedIn(f: ReadLog): set<string> {
    if f.reading.Read? then f.reading.state.completedFolders else {}
  }

  function FoldersIn(f: ReadLog): map<string, Json> {
    if f.reading.Read? then f.reading.state.folderMap else map[]
  }

  /** The first log that knows a folder. */
  predicate FirstToKnow(logs: seq<ReadLog>, k: int, folder: string) {
    0 <= k < |logs| && folder in FoldersIn(logs[k]) && forall j :: 0 <= j < k ==> folder !in FoldersIn(logs[j])
  }

  predicate IsOwn(ownName: string, f: ReadLog) {
    f.name == ownName && f.reading.Read?
  }

  /** The last log of this name that can be read. */
  predicate LastOwn(ownName: string, logs: seq<ReadLog>, k: int) {
    && 0 <= k < |logs| && IsOwn(ownName, logs[k])
    && forall j :: k < j < |logs| ==> !IsOwn(ownName, logs[j])
  }

  predicate CopiedInSome(logs: seq<ReadLog>, x: string) {
    exists f :: f in logs && x in CopiedIn(f)
  }

  predicate CompletedInSome(logs: seq<ReadLog>, x: string) {
    exists f :: f in logs && x in CompletedIn(f)
  }

  /** The ids and completed folders of a load are the union over the readable logs. */
  lemma {:induction false} LoadedIdsAreTheUnion(ownName: string, start: Merged, logs: seq<ReadLog>, x: string)
    ensures var m := MergeAll(ownName, start, logs).state;
            && (x in m.copiedIds <==> x in start.state.copiedIds || CopiedInSome(logs, x))
            && (x in m.completedFolders <==> x in start.state.completedFolders || CompletedInSome(logs, x))
  {
    if logs != [] {
      var n := |logs| - 1;
      LoadedIdsAreTheUnion(ownName, start, logs[..n], x);
      assert logs == logs[..n] + [logs[n]];
      assert CopiedInSome(logs, x) <==> CopiedInSome(logs[..n], x) || x in CopiedIn(logs[n]);
      assert CompletedInSome(logs, x) <==> CompletedInSome(logs[..n], x) || x in CompletedIn(logs[n]);
    }
  }

  /** So they do not depend on the order the folder lists its logs in. */
  lemma LoadedIdsIgnoreOrder(ownName: string, start: Merged, logs: seq<ReadLog>, other: seq<ReadLog>)
    requires multiset(logs) == multiset(other)
    ensures MergeAll(ownName, start, logs).state.copiedIds == MergeAll(ownName, start, other).state.copiedIds
    ensures MergeAll(ownName, start, logs).state.completedFolders
         == MergeAll(ownName, start, other).state.completedFolders
  {
    assert forall f :: f in logs <==> f in multiset(logs);
    assert forall f :: f in other <==> f in multiset(other);
    var m, o := MergeAll(ownName, start, logs).state, MergeAll(ownName, start, other).state;
    forall x ensures x in m.copiedIds <==> x in o.copiedIds
             ensures x in m.completedFolders <==> x in o.completedFolders
    {
      LoadedIdsAreTheUnion(ownName, start, logs, x);
      LoadedIdsAreTheUnion(ownName, start, other, x);
    }
  }

  /** A folder goes to the destination the first readable log that knows it gives. */
  lemma {:induction false} FirstLogDecidesFolder(ownName: string, start: Merged, logs: seq<ReadLog>, folder: string)
    requires folder !in start.state.folderMap
    ensures var m := MergeAll(ownName, start, logs).state.folderMap;
            && (folder in m <==> exists k :: FirstToKnow(logs, k, folder))
            && forall k :: FirstToKnow(logs, k, folder) ==> m[folder] == FoldersIn(logs[k])[folder]
  {
    if logs != [] {
      var n := |logs| - 1;
      var before := MergeAll(ownName, start, logs[..n]).state.folderMap;
      FirstLogDecidesFolder(ownName, start, logs[..n], folder);
      assert forall k :: 0 <= k < n ==> logs[..n][k] == logs[k];
      assert forall k :: FirstToKnow(logs[..n], k, folder) ==> FirstToKnow(logs, k, folder);
      assert forall k :: k < n && FirstToKnow(logs, k, folder) ==> FirstToKnow(logs[..n], k, folder);
      if folder !in before && folder in FoldersIn(logs[n]) {
        KnownBy(logs, n, folder);
        assert FirstToKnow(logs, n, folder);
      }
    }
  }

  /** The failed items of the readable logs, in their order. */
  function FailuresIn(logs: seq<ReadLog>): seq<FailedItem> {
    if logs == [] then []
    else (if logs[0].reading.Read? then logs[0].reading.state.failedItems else []) + FailuresIn(logs[1..])
  }

  lemma {:induction false} FailuresConcat(a: seq<ReadLog>, b: seq<ReadLog>)
    ensures FailuresIn(a + b) == FailuresIn(a) + FailuresIn(b)
  {
    if a == [] {
      assert a + b == b;
    } else {
      assert (a + b)[1..] == a[1..] + b;
      FailuresConcat(a[1..], b);
    }
  }

  /** A load knows the failed items of every readable log, one after the other, and drops none. */
  lemma {:induction false} LoadedFailuresAreAll(ownName: string, start: Merged, logs: seq<ReadLog>)
    ensures MergeAll(ownName, start, logs).state.failedItems == start.state.failedItems + FailuresIn(logs)
  {
    if logs != [] {
      var n := |logs| - 1;
      LoadedFailuresAreAll(ownName, start, logs[..n]);
      assert logs == logs[..n] + [logs[n]];
      FailuresConcat(logs[..n], [logs[n]]);
      assert [logs[n]][1..] == [];
    }
  }

  /** Whose log it is, where it lies and when it was written are never taken from a log. */
  lemma {:induction false} LoadKeepsIdentity(ownName: string, start: Merged, logs: seq<ReadLog>)
    ensures var m := MergeAll(ownName, start, logs).state;
            && m.schemaVersion == start.state.schemaVersion && m.account == start.state.account
            && m.destRootId == start.state.destRootId && m.updatedAt == start.state.updatedAt
  {
    if logs != [] {
      LoadKeepsIdentity(ownName, start, logs[..|logs|-1]);
    }
  }

  /** Before any log is read nothing is known, except whose state it is and where. */
  lemma FreshKnowsNothing(host: Host, account: string, parent: Id)
    ensures var s := Fresh(host, account, parent);
            && s.copiedIds == {} && s.completedFolders == {} && s.folderMap == map[] && s.failedItems == []
            && s.copiedBytes == 0 && s.schemaVersion == 4 && s.destRootId == JStr(parent)
            && (account != "" ==> s.account == JStr(account))
            && s.createdAt == JStr(host.now) && s.updatedAt == JStr(host.now)
  {
  }

  /** If nobody before k is first to know a folder, nobody before k knows it. */
  lemma {:induction false} KnownBy(logs: seq<ReadLog>, k: nat, folder: string)
    requires k <= |logs|
    requires forall j :: !FirstToKnow(logs[..k], j, folder)
    ensures forall j :: 0 <= j < k ==> folder !in FoldersIn(logs[j])
  {
    if k > 0 {
      var shorter := logs[..k-1];
      assert forall i :: 0 <= i < k - 1 ==> shorter[i] == logs[..k][i];
      forall j ensures !FirstToKnow(shorter, j, folder) {
        if FirstToKnow(shorter, j, folder) {
          assert FirstToKnow(logs[..k], j, folder);
        }
      }
      KnownBy(logs, k - 1, folder);
      assert !FirstToKnow(logs[..k], k - 1, folder);
      assert forall i :: 0 <= i < k ==> logs[..k][i] == logs[i];
    }
  }

  /** The last readable log of the account's own name decides the scalars and where the next save goes. */
  lemma {:induction false} OwnLogDecidesScalars(ownName: string, start: Merged, logs: seq<ReadLog>, k: nat)
    requires LastOwn(ownName, logs, k)
    ensures var m := MergeAll(ownName, start, logs);
            var s := logs[k].reading.state;
            && m.own == Some(logs[k].id) && m.state.runId == s.runId
            && m.state.copiedBytes == s.copiedBytes && m.state.createdAt == s.createdAt
            && (!Falsy(s.sourceRootId) ==> m.state.sourceRootId == s.sourceRootId)
    decreases |logs|
  {
    var n := |logs| - 1;
    if k < n {
      assert forall j :: 0 <= j < n ==> logs[..n][j] == logs[j];
      OwnLogDecidesScalars(ownName, start, logs[..n], k);
    }
  }

  /** Without a readable log of that name they stay what they were before the load. */
  lemma {:induction false} NoOwnLogNoTarget(ownName: string, start: Merged, logs: seq<ReadLog>)
    requires forall j :: 0 <= j < |logs| ==> !IsOwn(ownName, logs[j])
    ensures var m := MergeAll(ownName, start, logs);
            && m.own == start.own && m.state.runId == start.state.runId
            && m.state.copiedBytes == start.state.copiedBytes && m.state.createdAt == start.state.createdAt
            && m.state.sourceRootId == start.state.sourceRootId
  {
    if logs != [] {
      var n := |logs| - 1;
      assert !IsOwn(ownName, logs[n]);
      assert forall j :: 0 <= j < n ==> logs[..n][j] == logs[j];
      NoOwnLogNoTarget(ownName, start, logs[..n]);
    }
  }
}
