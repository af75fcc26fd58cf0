/**
  Any number of accounts, crashes and restarts over one destination folder's resume logs
  (src/gdrive_turbo_copy/resume_store.py:150-285, src/gdrive_turbo_copy/copier.py:254-276,
  1106-1164).

  A crash is a Restart: the session's memory is replaced by what a load yields. Each log name
  has at most one session at a time. A run that ended fully ok trashes every log the tool owns,
  other accounts' included; trashed files are not listed, but can still be written.
 */
module ResumeSessions {
  import opened DriveModel
  import opened ResumeLog
  import opened ResumeStore

  /** A log file on the destination: its name, what reading it gives, and whether it carries the tool's tag. */
  datatype File = File(name: string, reading: Reading, owned: bool, trashed: bool)

  datatype Session = Session(own: Option<Id>, state: ResumeState)

  /** `slips` counts, per log name, the creations whose confirmation was lost and the loads that gave up. */
  datatype World = World(files: map<Id, File>, sessions: map<string, Session>, slips: multiset<string>)

  datatype Fate = Refused | ConfirmationLost | Done

  datatype Action =
    | Restart(name: string, order: seq<Id>, initial: ResumeState)
    | StartFresh(name: string, initial: ResumeState)
    | Work(name: string, next: ResumeState, discarded: set<Id>)
    | SaveLog(name: string, now: Json, fate: Fate, newId: Id)
    | CleanUp(name: string, spared: set<Id>)   // the end of a fully ok run; some trashings may fail

  function Entries(files: map<Id, File>, order: seq<Id>): (r: seq<ReadLog>)
    requires forall id :: id in order ==> id in files
    ensures |r| == |order|
    ensures forall k :: 0 <= k < |order| ==> r[k] == ReadLog(order[k], files[order[k]].name, files[order[k]].reading)
  {
    seq(|order|, k requires 0 <= k < |order| => ReadLog(order[k], files[order[k]].name, files[order[k]].reading))
  }

  predicate Live(files: map<Id, File>, id: Id) {
    id in files && !files[id].trashed
  }

  /** A listing of the folder: every file that is not trashed, in any order. */
  predicate Lists(order: seq<Id>, files: map<Id, File>) {
    (forall id :: id in order ==> Live(files, id)) && forall id :: id in files && Live(files, id) ==> id in order
  }

  predicate Enabled(w: World, a: Action) {
    match a
    case Restart(_, order, _) => Lists(order, w.files)
    case StartFresh(_, _) => true
    case Work(n, next, discarded) =>
      && n in w.sessions
      && w.sessions[n].state.copiedIds - discarded <= next.copiedIds
      && w.sessions[n].state.completedFolders <= next.completedFolders
    case SaveLog(n, _, _, newId) => n in w.sessions && newId != "" && newId !in w.files
    case CleanUp(n, _) => n in w.sessions
  }

  function Loaded(w: World, name: string, order: seq<Id>, initial: ResumeState): Session
    requires forall id :: id in order ==> id in w.files
  {
    var m := MergeAll(name, Merged(initial, None), Entries(w.files, order));
    Session(m.own, m.state)
  }

  /** What reading back a save of this state gives. */
  function Written(host: Host, s: ResumeState): Reading {
    Deserialize(host, LogObject(Serialize(host, s)))
  }

  function Opened(w: World, name: string, s: Session): World {
    w.(sessions := w.sessions[name := s])
  }

  /** New content for a file, trashed or not; an id that is gone is refused by the server. */
  function Updated(files: map<Id, File>, id: Id, reading: Reading): map<Id, File> {
    if id in files then files[id := files[id].(reading := reading)] else files
  }

  /** cleanup: the tool's own logs go to the trash, whoever they belong to. */
  function Cleaned(files: map<Id, File>, spared: set<Id>): map<Id, File> {
    map id | id in files :: if files[id].owned && id !in spared then files[id].(trashed := true) else files[id]
  }

  /** A save of the stamped state, which reads back so: an update of the known own log, else a creation. */
  function Saved(w: World, name: string, stamped: ResumeState, reading: Reading, fate: Fate, newId: Id): World
    requires name in w.sessions
  {
    var s := w.sessions[name];
    if fate.Refused? then Opened(w, name, s.(state := stamped))
    else if HasOwnLog(s.own) then
      Opened(w, name, s.(state := stamped)).(files := Updated(w.files, s.own.value, reading))
    else
      Opened(w, name, Session(if fate.Done? then Some(newId) else s.own, stamped)).(
        files := w.files[newId := File(name, reading, true, false)],
        slips := if fate.Done? then w.slips else w.slips + multiset{name})
  }

  function Apply(host: Host, w: World, a: Action): World
    requires Enabled(w, a)
  {
    match a
    case Restart(n, order, initial) => Opened(w, n, Loaded(w, n, order, initial))
    case StartFresh(n, initial) => Opened(w, n, Session(None, initial)).(slips := w.slips + multiset{n})
    case Work(n, next, _) => Opened(w, n, w.sessions[n].(state := next))
    case SaveLog(n, now, fate, newId) =>
      var stamped := w.sessions[n].state.(updatedAt := now);
      Saved(w, n, stamped, Written(host, stamped), fate, newId)
    case CleanUp(n, spared) => w.(files := Cleaned(w.files, spared), sessions := w.sessions - {n})
  }

  predicate Runs(host: Host, w: World, actions: seq<Action>)
    decreases |actions|
  {
    actions != [] ==> Enabled(w, actions[0]) && Runs(host, Apply(host, w, actions[0]), actions[1..])
  }

  function After(host: Host, w: World, actions: seq<Action>): World
    requires Runs(host, w, actions)
    decreases |actions|
  {
    if actions == [] then w else After(host, Apply(host, w, actions[0]), actions[1..])
  }

  /* ------------------------- saving is what the store does ------------------ */

  /** The client carries the request out: new content for a file that is there, or a new file with the tool's tag. */
  function Performed(host: Host, files: map<Id, File>, request: WriteRequest, newId: Id): map<Id, File> {
    match request
    case UpdateContent(id, data) =>
      if id in files then
        files[id := File(files[id].name, Deserialize(host, LogObject(data)), files[id].owned, files[id].trashed)]
      else files
    case CreateFile(name, _, data) => files[newId := File(name, Deserialize(host, LogObject(data)), true, false)]
  }

  /** What the store hears of it. */
  function Answered(fate: Fate, newId: Id): Response {
    if fate.Done? then Confirmed(Some(newId)) else Failed
  }

  lemma PerformedIsWritten(host: Host, files: map<Id, File>, own: Option<Id>, name: string, s: ResumeState, newId: Id)
    requires name != ""
    ensures Performed(host, files, RequestFor(host, own, Some(name), s), newId)
            == if HasOwnLog(own) then Updated(files, own.value, Written(host, s))
               else files[newId := File(name, Written(host, s), true, false)]
  {
  }

  /**
    The request of Store.Save, carried out unless it is refused, and the target the store keeps
    after the answer: that is what a save does to the sessions.
   */
  lemma SaveIsSaved(host: Host, w: World, name: string, stamped: ResumeState, fate: Fate, newId: Id)
    requires name in w.sessions && name != ""
    ensures var own := w.sessions[name].own;
            var request := RequestFor(host, own, Some(name), stamped);
            var after := Saved(w, name, stamped, Written(host, stamped), fate, newId);
            && after.files == (if fate.Refused? then w.files else Performed(host, w.files, request, newId))
            && after.sessions == w.sessions[name := Session(TargetAfter(own, Answered(fate, newId)), stamped)]
  {
    PerformedIsWritten(host, w.files, w.sessions[name].own, name, stamped, newId);
  }

  /** A known own log is written over; otherwise a log of the session's name is created in the destination root. */
  lemma KnownLogIsUpdated(host: Host, own: Option<Id>, name: string, stamped: ResumeState)
    requires name != ""
    ensures var request := RequestFor(host, own, Some(name), stamped);
            && (request.UpdateContent? <==> HasOwnLog(own))
            && (request.UpdateContent? ==> request.id == own.value)
            && (request.CreateFile? ==> request.name == name
                                        && (!Falsy(stamped.destRootId) ==> request.parent == stamped.destRootId))
  {
  }

  /** A creation that took effect is found by the next load under its name, and taken for its own. */
  lemma CreatedLogIsLoaded(host: Host, w: World, name: string, stamped: ResumeState, fate: Fate, newId: Id,
                           order: seq<Id>, initial: ResumeState)
    requires name in w.sessions && !HasOwnLog(w.sessions[name].own) && !fate.Refused? && newId !in w.files
    requires forall id :: Live(w.files, id) ==> !OwnIn(w, name, id)
    requires Lists(order, Saved(w, name, stamped, Written(host, stamped), fate, newId).files)
    ensures Loaded(Saved(w, name, stamped, Written(host, stamped), fate, newId), name, order, initial).own == Some(newId)
  {
    WrittenLogIsRead(host, stamped);
    var after := Saved(w, name, stamped, Written(host, stamped), fate, newId);
    assert after.files == w.files[newId := File(name, Written(host, stamped), true, false)];
    NewOwnLog(w, after, name, newId);
    OnlyOwnLogIsLoaded(after, name, newId, order, initial);
  }

  predicate LiveOwn(w: World, name: string, id: Id) {
    Live(w.files, id) && OwnIn(w, name, id)
  }

  lemma NewOwnLog(w: World, after: World, name: string, newId: Id)
    requires newId in after.files && after.files == w.files[newId := after.files[newId]]
    requires after.files[newId].name == name && after.files[newId].reading.Read? && !after.files[newId].trashed
    requires forall id :: Live(w.files, id) ==> !OwnIn(w, name, id)
    ensures forall id :: LiveOwn(after, name, id) <==> id == newId
  {
    forall id ensures LiveOwn(after, name, id) <==> id == newId {
      assert id != newId && LiveOwn(after, name, id) ==> Live(w.files, id) && OwnIn(w, name, id);
    }
  }

  lemma OnlyOwnLogIsLoaded(w: World, name: string, own: Id, order: seq<Id>, initial: ResumeState)
    requires Lists(order, w.files) && forall id :: LiveOwn(w, name, id) <==> id == own
    ensures Loaded(w, name, order, initial).own == Some(own)
  {
    var es := Entries(w.files, order);
    assert LiveOwn(w, name, own);
    var j :| 0 <= j < |order| && order[j] == own;
    assert IsOwn(name, es[j]);
    LastOwnExists(name, es);
    var k :| LastOwn(name, es, k);
    assert LiveOwn(w, name, order[k]);
    OwnLogDecidesScalars(name, Merged(initial, None), es, k);
  }

  /* --------------------------- nothing is forgotten ------------------------ */

  datatype Fact = CopiedFile(id: Id) | CompletedFolder(id: Id)

  predicate Knows(s: ResumeState, f: Fact) {
    match f case CopiedFile(id) => id in s.copiedIds case CompletedFolder(id) => id in s.completedFolders
  }

  predicate FileKnows(file: File, f: Fact) {
    file.reading.Read? && Knows(file.reading.state, f)
  }

  /** Some readable log in the destination folder records the fact. */
  predicate Records(w: World, id: Id, f: Fact) {
    Live(w.files, id) && FileKnows(w.files[id], f)
  }

  predicate Recorded(w: World, f: Fact) {
    exists id :: id in w.files && Records(w, id, f)
  }

  /** If the action cleans up, some log that records the fact is not the tool's or is spared. */
  predicate Survives(w: World, a: Action, f: Fact) {
    a.CleanUp? ==> exists id :: id in w.files && Records(w, id, f) && (!w.files[id].owned || id in a.spared)
  }

  /** The only way the copier un-learns a fact: a resume hit that the destination did not confirm. */
  predicate Discards(a: Action, f: Fact) {
    a.Work? && f.CopiedFile? && f.id in a.discarded
  }

  /** A session that writes to a file knows what that file records. */
  predicate Consistent(w: World, f: Fact) {
    && "" !in w.files
    && forall n :: n in w.sessions && HasOwnLog(w.sessions[n].own) ==>
         var id := w.sessions[n].own.value;
         id in w.files && w.files[id].name == n && (FileKnows(w.files[id], f) ==> Knows(w.sessions[n].state, f))
  }

  lemma WrittenKnows(host: Host, s: ResumeState, f: Fact)
    ensures Written(host, s).Read? && (Knows(Written(host, s).state, f) <==> Knows(s, f))
  {
    WrittenLogIsRead(host, s);
  }

  /** A load knows exactly what the readable logs record, and what it started with. */
  lemma LoadedKnows(w: World, name: string, order: seq<Id>, initial: ResumeState, f: Fact)
    requires Lists(order, w.files)
    ensures Knows(Loaded(w, name, order, initial).state, f) <==> Knows(initial, f) || Recorded(w, f)
  {
    var es := Entries(w.files, order);
    LoadedIdsAreTheUnion(name, Merged(initial, None), es, f.id);
    if Recorded(w, f) {
      var id :| id in w.files && Records(w, id, f);
      var k :| 0 <= k < |order| && order[k] == id;
      assert es[k] in es;
    }
    assert forall k :: 0 <= k < |es| ==> Live(w.files, order[k]) && es[k].reading == w.files[order[k]].reading;
  }

  predicate OwnIn(w: World, name: string, id: Id) {
    id in w.files && w.files[id].name == name && w.files[id].reading.Read?
  }

  /** A load points at a log of its own name, if one can be read. */
  lemma LoadedOwnLog(w: World, name: string, order: seq<Id>, initial: ResumeState)
    requires Lists(order, w.files)
    ensures var own := Loaded(w, name, order, initial).own;
            (own.Some? && OwnIn(w, name, own.value))
            || (own.None? && forall id :: Live(w.files, id) ==> !OwnIn(w, name, id))
  {
    var es := Entries(w.files, order);
    if exists k :: 0 <= k < |es| && IsOwn(name, es[k]) {
      LastOwnExists(name, es);
      var k :| LastOwn(name, es, k);
      assert Live(w.files, order[k]);
      OwnLogDecidesScalars(name, Merged(initial, None), es, k);
    } else {
      NoOwnLogNoTarget(name, Merged(initial, None), es);
      forall id | Live(w.files, id) ensures !OwnIn(w, name, id) {
        if OwnIn(w, name, id) {
          var k :| 0 <= k < |order| && order[k] == id;
          assert IsOwn(name, es[k]);
        }
      }
    }
  }

  lemma {:induction false} LastOwnExists(name: string, es: seq<ReadLog>)
    requires exists k :: 0 <= k < |es| && IsOwn(name, es[k])
    ensures exists k :: LastOwn(name, es, k)
  {
    var n := |es| - 1;
    if IsOwn(name, es[n]) {
      assert LastOwn(name, es, n);
    } else {
      assert forall k :: 0 <= k < n ==> es[..n][k] == es[k];
      var k :| 0 <= k < |es| && IsOwn(name, es[k]);
      assert IsOwn(name, es[..n][k]);
      LastOwnExists(name, es[..n]);
      var last :| LastOwn(name, es[..n], last);
      assert LastOwn(name, es, last);
    }
  }

  lemma OpenedConsistent(w: World, name: string, s: Session, f: Fact)
    requires Consistent(w, f)
    requires HasOwnLog(s.own) ==>
               var id := s.own.value;
               id in w.files && w.files[id].name == name && (FileKnows(w.files[id], f) ==> Knows(s.state, f))
    ensures Consistent(Opened(w, name, s), f)
  {
  }

  lemma SavedConsistent(w: World, name: string, stamped: ResumeState, reading: Reading, fate: Fate, newId: Id, f: Fact)
    requires Consistent(w, f) && name in w.sessions && newId != "" && newId !in w.files
    requires reading.Read? && (Knows(reading.state, f) ==> Knows(stamped, f))
    requires Knows(w.sessions[name].state, f) ==> Knows(stamped, f)
    ensures Consistent(Saved(w, name, stamped, reading, fate, newId), f)
  {
  }

  lemma ConsistencyKept(host: Host, w: World, a: Action, f: Fact)
    requires Consistent(w, f) && Enabled(w, a) && !Discards(a, f)
    ensures Consistent(Apply(host, w, a), f)
  {
    match a
    case Restart(n, order, initial) =>
      LoadedOwnLog(w, n, order, initial);
      LoadedKnowsItsOwn(w, n, order, initial, f);
      OpenedConsistent(w, n, Loaded(w, n, order, initial), f);
    case SaveLog(n, now, fate, newId) =>
      var stamped := w.sessions[n].state.(updatedAt := now);
      WrittenKnows(host, stamped, f);
      SavedConsistent(w, n, stamped, Written(host, stamped), fate, newId, f);
    case StartFresh(n, initial) =>
      OpenedConsistent(w, n, Session(None, initial), f);
    case Work(n, next, _) =>
      OpenedConsistent(w, n, w.sessions[n].(state := next), f);
    case CleanUp(_, _) =>
  }

  /** The log a load points at is one it has read. */
  lemma LoadedKnowsItsOwn(w: World, name: string, order: seq<Id>, initial: ResumeState, f: Fact)
    requires Lists(order, w.files)
    ensures var s := Loaded(w, name, order, initial);
            s.own.Some? && s.own.value in w.files && FileKnows(w.files[s.own.value], f) ==> Knows(s.state, f)
  {
    var es := Entries(w.files, order);
    LoadedKnows(w, name, order, initial, f);
    if exists k :: 0 <= k < |es| && IsOwn(name, es[k]) {
      LastOwnExists(name, es);
      var k :| LastOwn(name, es, k);
      OwnLogDecidesScalars(name, Merged(initial, None), es, k);
      assert Live(w.files, order[k]);
      assert FileKnows(w.files[order[k]], f) ==> Records(w, order[k], f);
    } else {
      NoOwnLogNoTarget(name, Merged(initial, None), es);
    }
  }

  lemma SavedRecords(
    w: World, n: string, stamped: ResumeState, reading: Reading, fate: Fate, newId: Id, f: Fact, id: Id)
    requires Consistent(w, f) && n in w.sessions && newId !in w.files
    requires reading.Read? && (Knows(w.sessions[n].state, f) ==> Knows(reading.state, f))
    requires Records(w, id, f)
    ensures Records(Saved(w, n, stamped, reading, fate, newId), id, f)
  {
  }

  /** What some log records stays recorded, unless a clean-up leaves no log that records it. */
  lemma RecordKeptExactlyWhen(host: Host, w: World, a: Action, f: Fact)
    requires Consistent(w, f) && Enabled(w, a) && Recorded(w, f)
    ensures Recorded(Apply(host, w, a), f) <==> Survives(w, a, f)
  {
    var id :| id in w.files && Records(w, id, f);
    match a
    case SaveLog(n, now, fate, newId) =>
      var stamped := w.sessions[n].state.(updatedAt := now);
      WrittenKnows(host, stamped, f);
      SavedRecords(w, n, stamped, Written(host, stamped), fate, newId, f, id);
    case CleanUp(_, spared) => CleaningKeepsExactly(host, w, a, f);
    case _ =>
      assert Records(Apply(host, w, a), id, f);
  }

  lemma CleaningKeepsExactly(host: Host, w: World, a: Action, f: Fact)
    requires Enabled(w, a) && a.CleanUp?
    ensures Recorded(Apply(host, w, a), f) <==> Survives(w, a, f)
  {
    var after := Apply(host, w, a);
    forall id | id in w.files ensures Records(after, id, f) <==> Records(w, id, f) && (!w.files[id].owned || id in a.spared) {
    }
    if Survives(w, a, f) {
      var id :| id in w.files && Records(w, id, f) && (!w.files[id].owned || id in a.spared);
      assert Records(after, id, f);
    }
    if Recorded(after, f) {
      var id :| id in after.files && Records(after, id, f);
      assert id in w.files && Records(w, id, f);
    }
  }

  /** No action of the run discards the fact or cleans up all its records. */
  predicate Safe(host: Host, w: World, actions: seq<Action>, f: Fact)
    requires Runs(host, w, actions)
    decreases |actions|
  {
    actions != [] ==>
      !Discards(actions[0], f) && Survives(w, actions[0], f) && Safe(host, Apply(host, w, actions[0]), actions[1..], f)
  }

  /**
    Over any run of saves that fail, succeed or lose their confirmation, crashes, restarts,
    fresh starts and clean-ups of any number of accounts: what one log records stays recorded
    until the copier itself discards it or a fully ok run trashes every log that records it,
    and every later load knows it.
   */
  lemma {:induction false} NothingIsForgotten(host: Host, w: World, actions: seq<Action>, f: Fact)
    requires Consistent(w, f) && Recorded(w, f) && Runs(host, w, actions) && Safe(host, w, actions, f)
    ensures Recorded(After(host, w, actions), f)
    ensures forall name, order, initial | Lists(order, After(host, w, actions).files) ::
              Knows(Loaded(After(host, w, actions), name, order, initial).state, f)
    decreases |actions|
  {
    if actions == [] {
      forall name, order, initial | Lists(order, w.files)
        ensures Knows(Loaded(w, name, order, initial).state, f)
      {
        LoadedKnows(w, name, order, initial, f);
      }
    } else {
      ConsistencyKept(host, w, actions[0], f);
      RecordKeptExactlyWhen(host, w, actions[0], f);
      NothingIsForgotten(host, Apply(host, w, actions[0]), actions[1..], f);
    }
  }

  /** After another account's clean-up, a session goes on saving into the trash: no load sees it. */
  lemma SavesIntoTrash(host: Host, w: World, n: string, now: Json, fate: Fate, newId: Id, f: Fact)
    requires Enabled(w, SaveLog(n, now, fate, newId)) && HasOwnLog(w.sessions[n].own)
    requires w.sessions[n].own.value in w.files && w.files[w.sessions[n].own.value].trashed
    ensures Recorded(Apply(host, w, SaveLog(n, now, fate, newId)), f) <==> Recorded(w, f)
  {
    var after := Apply(host, w, SaveLog(n, now, fate, newId));
    assert forall id :: Records(after, id, f) <==> Records(w, id, f);
    if Recorded(w, f) {
      var id :| id in w.files && Records(w, id, f);
      assert id in after.files && Records(after, id, f);
    }
  }

  predicate NoForeignLogs(w: World) {
    forall id :: id in w.files ==> w.files[id].owned
  }

  /** A full clean-up leaves exactly what logs without the tool's tag record ... */
  lemma OnlyForeignLogsSurvive(host: Host, w: World, n: string, f: Fact)
    requires n in w.sessions
    ensures Recorded(Apply(host, w, CleanUp(n, {})), f) <==> exists id :: id in w.files && Records(w, id, f) && !w.files[id].owned
  {
    var after := Apply(host, w, CleanUp(n, {}));
    assert forall id :: id in w.files ==> (Records(after, id, f) <==> Records(w, id, f) && !w.files[id].owned);
    if exists id :: id in w.files && Records(w, id, f) && !w.files[id].owned {
      var id :| id in w.files && Records(w, id, f) && !w.files[id].owned;
      assert id in after.files && Records(after, id, f);
    }
  }

  lemma {:induction false} RunMakesNoForeignLogs(host: Host, w: World, actions: seq<Action>)
    requires NoForeignLogs(w) && Runs(host, w, actions)
    ensures NoForeignLogs(After(host, w, actions))
    decreases |actions|
  {
    if actions != [] {
      RunMakesNoForeignLogs(host, Apply(host, w, actions[0]), actions[1..]);
    }
  }

  /**
    ... and every log the store creates carries it: unless a log without the tag was there
    before, one fully ok run makes the whole folder forget everything, whichever accounts
    recorded it.
   */
  lemma CleanUpForgetsEverything(host: Host, w: World, actions: seq<Action>, n: string, f: Fact)
    requires NoForeignLogs(w) && Runs(host, w, actions) && n in After(host, w, actions).sessions
    ensures !Recorded(Apply(host, After(host, w, actions), CleanUp(n, {})), f)
  {
    RunMakesNoForeignLogs(host, w, actions);
    OnlyForeignLogsSurvive(host, After(host, w, actions), n, f);
  }

  /* ----------------------------- one log per account ----------------------- */

  /** The logs of a name that a load would find. */
  function OwnLogs(w: World, name: string): set<Id> {
    set id | id in w.files && Live(w.files, id) && OwnIn(w, name, id)
  }

  /** How many logs a name may have: the ones it started with, at least one, and one per slip. */
  predicate Bounded(w: World, name: string, initially: nat) {
    var allowed := (if initially == 0 then 1 else initially) + w.slips[name];
    && "" !in w.files
    && (forall n :: n in w.sessions && HasOwnLog(w.sessions[n].own) ==> OwnIn(w, n, w.sessions[n].own.value))
    && |OwnLogs(w, name)| <= allowed
    && (name in w.sessions && !HasOwnLog(w.sessions[name].own) ==> |OwnLogs(w, name)| < allowed)
  }

  lemma OneMore(s: set<Id>, t: set<Id>, id: Id)
    requires t <= s + {id}
    ensures |t| <= |s| + 1
  {
    assert t - {id} <= s;
    SubsetSize(t - {id}, s);
    assert |t| <= |t - {id}| + 1;
  }

  lemma OpenedBounded(w: World, n: string, s: Session, name: string, initially: nat)
    requires Bounded(w, name, initially)
    requires HasOwnLog(s.own) ==> OwnIn(w, n, s.own.value)
    requires n == name && !HasOwnLog(s.own) ==> |OwnLogs(w, name)| < (if initially == 0 then 1 else initially) + w.slips[name]
    ensures Bounded(Opened(w, n, s), name, initially)
  {
    assert OwnLogs(Opened(w, n, s), name) == OwnLogs(w, name);
  }

  lemma SavedBounded(
    w: World, n: string, stamped: ResumeState, reading: Reading, fate: Fate, newId: Id, name: string, initially: nat)
    requires Bounded(w, name, initially) && n in w.sessions && newId != "" && newId !in w.files && reading.Read?
    ensures Bounded(Saved(w, n, stamped, reading, fate, newId), name, initially)
  {
    var after := Saved(w, n, stamped, reading, fate, newId);
    if !fate.Refused? && !HasOwnLog(w.sessions[n].own) && n == name {
      OneMore(OwnLogs(w, name), OwnLogs(after, name), newId);
    } else {
      assert OwnLogs(after, name) == OwnLogs(w, name);
    }
  }

  lemma CleanedBounded(w: World, n: string, spared: set<Id>, name: string, initially: nat)
    requires Bounded(w, name, initially) && n in w.sessions
    ensures Bounded(w.(files := Cleaned(w.files, spared), sessions := w.sessions - {n}), name, initially)
  {
    var after := w.(files := Cleaned(w.files, spared), sessions := w.sessions - {n});
    assert OwnLogs(after, name) <= OwnLogs(w, name);
    SubsetSize(OwnLogs(after, name), OwnLogs(w, name));
  }

  lemma BoundKept(host: Host, w: World, a: Action, name: string, initially: nat)
    requires Bounded(w, name, initially) && Enabled(w, a)
    ensures Bounded(Apply(host, w, a), name, initially)
  {
    match a
    case Restart(n, order, initial) =>
      var s := Loaded(w, n, order, initial);
      LoadedOwnLog(w, n, order, initial);
      if s.own.None? && n == name {
        assert OwnLogs(w, name) == {};
      }
      OpenedBounded(w, n, s, name, initially);
    case SaveLog(n, now, fate, newId) =>
      var stamped := w.sessions[n].state.(updatedAt := now);
      WrittenLogIsRead(host, stamped);
      SavedBounded(w, n, stamped, Written(host, stamped), fate, newId, name, initially);
    case StartFresh(n, initial) =>
      var slipped := w.(slips := w.slips + multiset{n});
      assert OwnLogs(slipped, name) == OwnLogs(w, name);
      OpenedBounded(slipped, n, Session(None, initial), name, initially);
    case Work(n, next, _) =>
      OpenedBounded(w, n, w.sessions[n].(state := next), name, initially);
    case CleanUp(n, spared) =>
      CleanedBounded(w, n, spared, name, initially);
  }

  /**
    However many saves, crashes, restarts and clean-ups there are, a name never has more
    readable logs than it began with (or one, if it began with none) plus one per lost
    confirmation or forced fresh start: saving creates a second log for no other reason.
   */
  lemma {:induction false} OneLogPerSlip(host: Host, w: World, actions: seq<Action>, name: string)
    requires w.sessions == map[] && w.slips == multiset{} && "" !in w.files && Runs(host, w, actions)
    ensures var after := After(host, w, actions);
            var began := |OwnLogs(w, name)|;
            |OwnLogs(after, name)| <= (if began == 0 then 1 else began) + after.slips[name]
  {
    BoundKeptThroughout(host, w, actions, name, |OwnLogs(w, name)|);
  }

  lemma {:induction false} BoundKeptThroughout(host: Host, w: World, actions: seq<Action>, name: string, initially: nat)
    requires Bounded(w, name, initially) && Runs(host, w, actions)
    ensures Bounded(After(host, w, actions), name, initially)
    decreases |actions|
  {
    if actions != [] {
      BoundKept(host, w, actions[0], name, initially);
      BoundKeptThroughout(host, Apply(host, w, actions[0]), actions[1..], name, initially);
    }
  }

  /* --------------------------- the ignored broken log ---------------------- */

  /** Some action of the run trashes this file. */
  predicate Trashes(actions: seq<Action>, file: File, id: Id) {
    exists a :: a in actions && a.CleanUp? && file.owned && id !in a.spared
  }

  /**
    An account whose own log is unreadable and ignored writes beside it, never over it: through
    every run the broken file keeps its content, and it stays in the folder exactly unless a
    fully ok run trashes it.
   */
  lemma {:induction false} BrokenLogIsNeverTouched(
    host: Host, w: World, actions: seq<Action>, name: string, initially: nat, id: Id)
    requires Bounded(w, name, initially) && Runs(host, w, actions)
    requires id in w.files && w.files[id].reading.Unreadable?
    ensures id in After(host, w, actions).files
    ensures After(host, w, actions).files[id]
            == w.files[id].(trashed := w.files[id].trashed || Trashes(actions, w.files[id], id))
    decreases |actions|
  {
    if actions != [] {
      var w1 := Apply(host, w, actions[0]);
      BoundKept(host, w, actions[0], name, initially);
      BrokenLogKept(host, w, actions[0], name, initially, id);
      BrokenLogIsNeverTouched(host, w1, actions[1..], name, initially, id);
      assert actions == [actions[0]] + actions[1..];
      assert Trashes(actions, w.files[id], id)
        <==> (actions[0].CleanUp? && w.files[id].owned && id !in actions[0].spared) || Trashes(actions[1..], w1.files[id], id);
    }
  }

  lemma BrokenLogKept(host: Host, w: World, a: Action, name: string, initially: nat, id: Id)
    requires Bounded(w, name, initially) && Enabled(w, a)
    requires id in w.files && w.files[id].reading.Unreadable?
    ensures id in Apply(host, w, a).files
    ensures Apply(host, w, a).files[id]
            == w.files[id].(trashed := w.files[id].trashed || (a.CleanUp? && w.files[id].owned && id !in a.spared))
  {
    match a
    case SaveLog(n, _, _, newId) =>
      var s := w.sessions[n];
      assert HasOwnLog(s.own) ==> s.own.value != id && OwnIn(w, n, s.own.value);
      assert newId != id;
    case CleanUp(_, _) =>
    case _ =>
      assert Apply(host, w, a).files == w.files;
  }
}
