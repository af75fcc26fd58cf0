/**
  Building histories of SyncRuns: which states can be reached from which, under given faults
  (src/gdrive_turbo_copy/copier.py:254-276, 458-529, 576-695).
 */
module Histories {
  import opened DriveModel
  import opened IndexTheory
  import opened FolderSync
  import opened SyncRuns

  ghost predicate AllAllowed(faults: set<Fault>, steps: seq<Step>) {
    forall i :: 0 <= i < |steps| ==> Allowed(faults, steps[i])
  }

  ghost predicate Leads(src: Source, faults: set<Fault>, s: State, steps: seq<Step>, s': State) {
    Runs(src, s, steps) && AllAllowed(faults, steps) && After(src, s, steps) == s'
  }

  /** Some history in which no other faults occur leads from s to s'. */
  ghost predicate Reaches(src: Source, faults: set<Fault>, s: State, s': State) {
    exists steps :: Leads(src, faults, s, steps, s')
  }

  /** The walk can get to every folder of the source. */
  ghost predicate AllReachable(src: Source) {
    forall f :: f in src.tasks ==> exists path :: WalkTo(src, path, f)
  }

  /* ---------------------------- composing histories ------------------------ */

  lemma {:induction false} RunsAppend(src: Source, s: State, a: seq<Step>, b: seq<Step>)
    requires Runs(src, s, a) && Runs(src, After(src, s, a), b)
    ensures Runs(src, s, a + b) && After(src, s, a + b) == After(src, After(src, s, a), b)
    decreases |a|
  {
    if a == [] {
      assert a + b == b;
    } else {
      assert (a + b)[1..] == a[1..] + b;
      RunsAppend(src, Apply(src, s, a[0]), a[1..], b);
    }
  }

  lemma Stay(src: Source, faults: set<Fault>, s: State)
    ensures Reaches(src, faults, s, s)
  {
    assert Leads(src, faults, s, [], s);
  }

  lemma Follow(src: Source, faults: set<Fault>, s: State, s': State, s'': State)
    requires Reaches(src, faults, s, s') && Reaches(src, faults, s', s'')
    ensures Reaches(src, faults, s, s'')
  {
    var a :| Leads(src, faults, s, a, s');
    var b :| Leads(src, faults, s', b, s'');
    RunsAppend(src, s, a, b);
    assert Leads(src, faults, s, a + b, s'');
  }

  lemma Take(src: Source, faults: set<Fault>, s: State, step: Step)
    requires Enabled(src, s, step) && Allowed(faults, step)
    ensures Reaches(src, faults, s, Apply(src, s, step))
  {
    assert [step][1..] == [];
    assert Runs(src, Apply(src, s, step), []);
    assert Leads(src, faults, s, [step], Apply(src, s, step));
  }

  lemma Then(src: Source, faults: set<Fault>, s: State, s': State, step: Step)
    requires Reaches(src, faults, s, s') && Enabled(src, s', step) && Allowed(faults, step)
    ensures Reaches(src, faults, s, Apply(src, s', step))
  {
    Take(src, faults, s', step);
    Follow(src, faults, s, s', Apply(src, s', step));
  }

  /** Everything reachable keeps the invariant, and without faults nothing slips. */
  lemma ReachedInv(src: Source, faults: set<Fault>, initial: Dest, skip: bool, s: State)
    requires ValidSource(src) && ValidDest(src, initial) && Reaches(src, faults, Start(initial, skip), s)
    ensures Inv(src, initial, s)
    ensures faults == {} ==> NoSlips(s)
  {
    var steps :| Leads(src, faults, Start(initial, skip), steps, s);
    StartInv(src, initial, skip);
    RunKeepsInv(src, initial, Start(initial, skip), steps);
    if faults == {} {
      NoFaultsNoSlips(src, Start(initial, skip), steps);
    }
  }

  /* ---------------------------- entering folders --------------------------- */

  ghost predicate WellFormed(src: Source, s: State) {
    Keyed(src, s)
  }

  function EnterFull(s: State, f: Id): Step
    requires f in s.dest
  {
    Enter(f, s.dest[f], [])
  }

  /** Entering with a full listing changes nothing but the run of that folder. */
  lemma EnterFullIs(src: Source, s: State, f: Id)
    requires WellFormed(src, s) && f in src.tasks && f !in s.runs && OneWay(src, s, f) && !Skips(src, s, f)
    ensures Enabled(src, s, EnterFull(s, f))
    ensures Apply(src, s, EnterFull(s, f)) == s.(runs := s.runs[f := EnterRun(s.dest[f], s.dest[f], [])])
  {
    assert s.slipped[f] + [] == s.slipped[f];
    assert s.slipped[f := s.slipped[f]] == s.slipped;
  }

  /** s' is s after entering some folders, with full listings. */
  ghost predicate OnlyEntered(s: State, s': State) {
    && s' == s.(runs := s'.runs)
    && s.runs.Keys <= s'.runs.Keys
    && forall x :: x in s'.runs ==> if x in s.runs then s'.runs[x] == s.runs[x]
                                    else x in s.dest && s'.runs[x] == EnterRun(s.dest[x], s.dest[x], [])
  }

  /** A run that has nothing to skip. */
  predicate SkipsNothing(s: State) {
    s.skip ==> s.completed == {}
  }

  /** A state of a run that skips nothing, and a path through its source. */
  ghost predicate ReadyFor(src: Source, s: State, path: seq<Id>) {
    WellFormed(src, s) && SkipsNothing(s) && Walk(src, path)
  }

  ghost predicate EnteredUpTo(src: Source, faults: set<Fault>, s: State, s': State, path: seq<Id>, n: nat) {
    && n <= |path| && Reaches(src, faults, s, s') && OnlyEntered(s, s') && s'.runs.Keys <= src.tasks.Keys
    && AllIn(path, n, s'.runs.Keys)
    && forall f :: f in s'.runs ==> f in s.runs || f in path[..n]
  }

  predicate AllIn(path: seq<Id>, n: nat, names: set<Id>) {
    n <= |path| && forall i :: 0 <= i < n ==> path[i] in names
  }

  lemma PrefixIsWalk(src: Source, path: seq<Id>, i: nat)
    requires Walk(src, path) && i < |path|
    ensures WalkTo(src, path[..i+1], path[i])
  {
    var short := path[..i+1];
    assert forall j :: 0 < j < |short| ==> (Edge(src, path, j) ==> Edge(src, short, j));
  }

  lemma PrefixLeadsOn(src: Source, s: State, path: seq<Id>, i: nat)
    requires Walk(src, path) && i < |path| && AllIn(path, i, s.runs.Keys)
    ensures OneWay(src, s, path[i])
  {
    PrefixIsWalk(src, path, i);
    assert Entered(s, path[..i+1]);
  }

  lemma NextIsEnabled(src: Source, s: State, s': State, path: seq<Id>, i: nat)
    requires ReadyFor(src, s, path) && i < |path| && OnlyEntered(s, s') && s'.runs.Keys <= src.tasks.Keys
    requires path[i] !in s'.runs && AllIn(path, i, s'.runs.Keys)
    ensures path[i] in src.tasks && Enabled(src, s', EnterFull(s', path[i]))
    ensures var f := path[i];
            Apply(src, s', EnterFull(s', f)) == s'.(runs := s'.runs[f := EnterRun(s'.dest[f], s'.dest[f], [])])
  {
    PrefixLeadsOn(src, s', path, i);
    EnterFullIs(src, s', path[i]);
  }

  lemma EnterNext(src: Source, faults: set<Fault>, s: State, s': State, path: seq<Id>, n: nat) returns (s'': State)
    requires ReadyFor(src, s, path) && n < |path| && Reaches(src, faults, s, s') && OnlyEntered(s, s')
    requires s'.runs.Keys <= src.tasks.Keys && AllIn(path, n, s'.runs.Keys)
    ensures Reaches(src, faults, s, s'') && OnlyEntered(s, s'') && s''.runs.Keys == s'.runs.Keys + {path[n]}
  {
    if path[n] in s'.runs {
      s'' := s';
    } else {
      NextIsEnabled(src, s, s', path, n);
      Then(src, faults, s, s', EnterFull(s', path[n]));
      s'' := Apply(src, s', EnterFull(s', path[n]));
    }
  }

  lemma EnterMore(src: Source, faults: set<Fault>, s: State, s': State, path: seq<Id>, n: nat) returns (s'': State)
    requires ReadyFor(src, s, path) && n < |path| && EnteredUpTo(src, faults, s, s', path, n)
    ensures EnteredUpTo(src, faults, s, s'', path, n + 1)
  {
    s'' := EnterNext(src, faults, s, s', path, n);
    OneFurther(s'.runs.Keys, s''.runs.Keys, s.runs.Keys, path, n);
    assert path[n] in src.tasks;
  }

  lemma OneFurther(names: set<Id>, names': set<Id>, before: set<Id>, path: seq<Id>, n: nat)
    requires n < |path| && names' == names + {path[n]} && AllIn(path, n, names)
    requires forall f :: f in names ==> f in before || f in path[..n]
    ensures AllIn(path, n + 1, names') && forall f :: f in names' ==> f in before || f in path[..n+1]
  {
    assert path[..n+1] == path[..n] + [path[n]];
  }

  lemma {:induction false} EnterAlong(src: Source, faults: set<Fault>, s: State, path: seq<Id>, n: nat) returns (s': State)
    requires ReadyFor(src, s, path) && n <= |path|
    ensures EnteredUpTo(src, faults, s, s', path, n)
    decreases n
  {
    if n == 0 {
      s' := s;
      Stay(src, faults, s);
    } else {
      var before := EnterAlong(src, faults, s, path, n - 1);
      s' := EnterMore(src, faults, s, before, path, n - 1);
    }
  }

  /** Where f comes first on a path that has it. */
  lemma {:induction false} FirstOn(path: seq<Id>, f: Id, k: nat) returns (i: nat)
    requires k < |path| && path[k] == f
    ensures i <= k && path[i] == f && f !in path[..i]
    decreases k
  {
    if f in path[..k] {
      var j :| 0 <= j < k && path[..k][j] == f;
      i := FirstOn(path, f, j);
    } else {
      i := k;
    }
  }

  /** A folder that can be entered next. */
  ghost predicate AtHand(src: Source, s: State, f: Id) {
    f in src.tasks && f !in s.runs && OneWay(src, s, f)
  }

  ghost predicate MayEnter(src: Source, s: State) {
    WellFormed(src, s) && SkipsNothing(s) && AllReachable(src)
  }

  ghost predicate EnteredFrom(src: Source, faults: set<Fault>, s: State, s': State) {
    Reaches(src, faults, s, s') && OnlyEntered(s, s') && WellFormed(src, s')
  }

  /** A fresh run can come to the point of entering any one folder. */
  lemma EnterTo(src: Source, faults: set<Fault>, s: State, f: Id) returns (s': State)
    requires WellFormed(src, s) && SkipsNothing(s) && s.runs == map[] && AllReachable(src) && f in src.tasks
    ensures EnteredFrom(src, faults, s, s') && AtHand(src, s', f)
  {
    var path :| WalkTo(src, path, f);
    var i := FirstOn(path, f, |path| - 1);
    s' := EnterAlong(src, faults, s, path, i);
    PrefixLeadsOn(src, s', path, i);
  }

  lemma EnterOne(src: Source, faults: set<Fault>, s: State, f: Id) returns (s': State)
    requires MayEnter(src, s) && f in src.tasks
    ensures EnteredFrom(src, faults, s, s') && MayEnter(src, s') && f in s'.runs
  {
    var path :| WalkTo(src, path, f);
    s' := EnterAlong(src, faults, s, path, |path|);
    assert path[|path|-1] in s'.runs;
  }

  lemma EnteredOn(src: Source, faults: set<Fault>, s: State, s1: State, s': State)
    requires EnteredFrom(src, faults, s, s1) && EnteredFrom(src, faults, s1, s')
    ensures EnteredFrom(src, faults, s, s') && s1.runs.Keys <= s'.runs.Keys
  {
    Follow(src, faults, s, s1, s');
  }

  lemma {:induction false} EnterEach(src: Source, faults: set<Fault>, s: State, todo: set<Id>) returns (s': State)
    requires MayEnter(src, s) && todo <= src.tasks.Keys
    ensures EnteredFrom(src, faults, s, s') && todo <= s'.runs.Keys
    decreases |todo|
  {
    if todo == {} {
      s' := s;
      Stay(src, faults, s);
    } else {
      var f :| f in todo;
      var s1 := EnterOne(src, faults, s, f);
      s' := EnterEach(src, faults, s1, todo - {f});
      EnteredOn(src, faults, s, s1, s');
    }
  }

  lemma EnterAll(src: Source, faults: set<Fault>, s: State) returns (s': State)
    requires MayEnter(src, s)
    ensures EnteredFrom(src, faults, s, s') && s'.runs.Keys == src.tasks.Keys
  {
    s' := EnterEach(src, faults, s, src.tasks.Keys);
  }

  /* ----------------------------- settling files ---------------------------- */

  predicate Untouched(r: FolderRun, t: Request) {
    t !in r.checked && t !in r.took && t !in r.missed && t !in r.landed
  }

  predicate SettledIn(r: FolderRun, t: Request) {
    t in r.took || t in r.landed
  }

  /** Among the files of folder h, only these are new in the set. */
  predicate OnlyNew(ts: set<Request>, ts': set<Request>, h: Id, pairs: set<Pair>) {
    ts <= ts' && forall t :: t in ts' && t !in ts ==> (h, t) in pairs
  }

  /** Nothing happened in the run of folder h except to these files. */
  predicate Grown(r: FolderRun, r': FolderRun, h: Id, pairs: set<Pair>) {
    && r'.base == r.base && r'.seen == r.seen && r'.hidden == r.hidden && r'.lost == r.lost
    && OnlyNew(r.checked, r'.checked, h, pairs) && OnlyNew(r.took, r'.took, h, pairs)
    && OnlyNew(r.missed, r'.missed, h, pairs) && OnlyNew(r.landed, r'.landed, h, pairs)
  }

  predicate HasId(pairs: set<Pair>, id: Id) {
    exists p :: p in pairs && p.1.eff == id
  }

  /** Exactly the ids of these files were recorded. */
  ghost predicate Learned(copied: set<Id>, copied': set<Id>, pairs: set<Pair>) {
    forall id :: id in copied' <==> id in copied || HasId(pairs, id)
  }

  ghost predicate AllSettled(s: State, pairs: set<Pair>) {
    forall p :: p in pairs ==> p.0 in s.runs && SettledIn(s.runs[p.0], p.1)
  }

  ghost predicate AllGrown(s: State, s': State, pairs: set<Pair>) {
    s'.runs.Keys == s.runs.Keys && forall h :: h in s.runs ==> Grown(s.runs[h], s'.runs[h], h, pairs)
  }

  /** Only the files of entered folders, their runs and the copied ids differ. */
  ghost predicate SameElsewhere(s: State, s': State) {
    && s' == s.(dest := s'.dest, copied := s'.copied, runs := s'.runs)
    && s'.dest.Keys == s.dest.Keys && s'.runs.Keys == s.runs.Keys
    && forall h :: h in s.dest && h !in s.runs ==> s'.dest[h] == s.dest[h]
  }

  /** s' is s after these files were settled and recorded. */
  ghost predicate Advanced(s: State, s': State, pairs: set<Pair>) {
    SameElsewhere(s, s') && Learned(s.copied, s'.copied, pairs) && AllGrown(s, s', pairs) && AllSettled(s', pairs)
  }

  ghost predicate Settleable(src: Source, s: State, p: Pair) {
    InRun(src, s, p.0, p.1) && Untouched(s.runs[p.0], p.1)
  }

  /** s' is s after one file was settled and recorded. */
  ghost predicate OneSettled(s: State, s': State, f: Id, t: Request) {
    && f in s.runs && f in s.dest && f in s'.runs && f in s'.dest
    && s' == s.(dest := s.dest[f := s'.dest[f]], copied := s.copied + {t.eff}, runs := s.runs[f := s'.runs[f]])
    && Grown(s.runs[f], s'.runs[f], f, {(f, t)}) && SettledIn(s'.runs[f], t)
  }

  lemma AdvancedOne(s: State, s': State, f: Id, t: Request)
    requires OneSettled(s, s', f, t)
    ensures Advanced(s, s', {(f, t)})
  {
    assert forall id :: HasId({(f, t)}, id) <==> id == t.eff by {
      assert (f, t) in {(f, t)};
    }
  }

  predicate NotYet(src: Source, s: State, f: Id, t: Request) {
    InRun(src, s, f, t) && t in s.runs[f].checked && t !in s.runs[f].took && t !in s.runs[f].landed
  }

  /** A file that was checked against the log but not yet matched is settled by matching or copying. */
  lemma SettleChecked(src: Source, faults: set<Fault>, s: State, f: Id, t: Request) returns (s': State)
    requires NotYet(src, s, f, t) && t !in s.runs[f].missed
    ensures Reaches(src, faults, s, s') && OneSettled(s, s', f, t)
  {
    Take(src, faults, s, TryMatch(f, t));
    var s1 := Apply(src, s, TryMatch(f, t));
    if t in s1.runs[f].took {
      Then(src, faults, s, s1, RecordExisting(f, t));
      s' := Apply(src, s1, RecordExisting(f, t));
      assert s.dest[f := s.dest[f]] == s.dest;
    } else {
      s' := CopyMissed(src, faults, s1, f, t);
      Follow(src, faults, s, s1, s');
      assert s'.runs == s.runs[f := s'.runs[f]];
    }
  }

  lemma CopyMissed(src: Source, faults: set<Fault>, s: State, f: Id, t: Request) returns (s': State)
    requires NotYet(src, s, f, t) && t in s.runs[f].missed
    ensures Reaches(src, faults, s, s') && OneSettled(s, s', f, t)
  {
    Take(src, faults, s, Land(f, t, "copy"));
    var s1 := Apply(src, s, Land(f, t, "copy"));
    Then(src, faults, s, s1, MarkCopied(f, t));
    s' := Apply(src, s1, MarkCopied(f, t));
    assert s'.runs == s.runs[f := s'.runs[f]];
  }

  lemma SettleOne(src: Source, faults: set<Fault>, s: State, f: Id, t: Request) returns (s': State)
    requires Settleable(src, s, (f, t))
    ensures Reaches(src, faults, s, s') && Advanced(s, s', {(f, t)})
  {
    Take(src, faults, s, Check(f, t));
    var s1 := Apply(src, s, Check(f, t));
    if t in s1.runs[f].took {
      s' := s1;
      assert s.dest[f := s.dest[f]] == s.dest;
      assert s'.copied == s.copied + {t.eff};
    } else {
      s' := SettleChecked(src, faults, s1, f, t);
      Follow(src, faults, s, s1, s');
      assert s'.copied == s.copied + {t.eff};
      assert s'.runs == s.runs[f := s'.runs[f]];
    }
    AdvancedOne(s, s', f, t);
  }

  lemma GrownMore(r: FolderRun, r1: FolderRun, r': FolderRun, h: Id, one: set<Pair>, rest: set<Pair>)
    requires Grown(r, r1, h, one) && Grown(r1, r', h, rest)
    ensures Grown(r, r', h, one + rest)
  {
  }

  lemma AllGrownMore(s: State, s1: State, s': State, one: set<Pair>, rest: set<Pair>)
    requires AllGrown(s, s1, one) && AllGrown(s1, s', rest)
    ensures AllGrown(s, s', one + rest)
  {
    forall h | h in s.runs ensures Grown(s.runs[h], s'.runs[h], h, one + rest) {
      GrownMore(s.runs[h], s1.runs[h], s'.runs[h], h, one, rest);
    }
  }

  lemma StaysSettled(s1: State, s': State, rest: set<Pair>, p: Pair)
    requires AllGrown(s1, s', rest) && p.0 in s1.runs && SettledIn(s1.runs[p.0], p.1)
    ensures p.0 in s'.runs && SettledIn(s'.runs[p.0], p.1)
  {
    assert Grown(s1.runs[p.0], s'.runs[p.0], p.0, rest);
  }

  lemma LearnedMore(copied: set<Id>, copied1: set<Id>, copied': set<Id>, one: set<Pair>, rest: set<Pair>)
    requires Learned(copied, copied1, one) && Learned(copied1, copied', rest)
    ensures Learned(copied, copied', one + rest)
  {
    forall id ensures HasId(one + rest, id) <==> HasId(one, id) || HasId(rest, id) {
      if HasId(one, id) {
        var p :| p in one && p.1.eff == id;
        assert p in one + rest;
      }
      if HasId(rest, id) {
        var p :| p in rest && p.1.eff == id;
        assert p in one + rest;
      }
    }
  }

  lemma AdvancedMore(s: State, s1: State, s': State, one: set<Pair>, rest: set<Pair>)
    requires Advanced(s, s1, one) && Advanced(s1, s', rest)
    ensures Advanced(s, s', one + rest)
  {
    LearnedMore(s.copied, s1.copied, s'.copied, one, rest);
    AllGrownMore(s, s1, s', one, rest);
    forall p | p in one + rest ensures p.0 in s'.runs && SettledIn(s'.runs[p.0], p.1) {
      if p in one {
        StaysSettled(s1, s', rest, p);
      }
    }
  }

  lemma StillSettleable(src: Source, s: State, s': State, done: set<Pair>, p: Pair)
    requires Advanced(s, s', done) && Settleable(src, s, p) && p !in done
    ensures Settleable(src, s', p)
  {
    assert Grown(s.runs[p.0], s'.runs[p.0], p.0, done);
    assert p == (p.0, p.1);
  }

  ghost predicate AllSettleable(src: Source, s: State, todo: set<Pair>) {
    forall p :: p in todo ==> Settleable(src, s, p)
  }

  ghost predicate SettledFrom(src: Source, faults: set<Fault>, s: State, s': State, todo: set<Pair>) {
    Reaches(src, faults, s, s') && Advanced(s, s', todo)
  }

  lemma SettleFirst(src: Source, faults: set<Fault>, s: State, todo: set<Pair>, p: Pair) returns (s': State)
    requires AllSettleable(src, s, todo) && p in todo
    ensures SettledFrom(src, faults, s, s', {p}) && AllSettleable(src, s', todo - {p})
  {
    assert p == (p.0, p.1);
    s' := SettleOne(src, faults, s, p.0, p.1);
    forall q | q in todo - {p} ensures Settleable(src, s', q) {
      StillSettleable(src, s, s', {p}, q);
    }
  }

  lemma SettledTwice(src: Source, faults: set<Fault>, s: State, s1: State, s': State, p: Pair, todo: set<Pair>)
    requires SettledFrom(src, faults, s, s1, {p}) && SettledFrom(src, faults, s1, s', todo - {p}) && p in todo
    ensures SettledFrom(src, faults, s, s', todo)
  {
    Follow(src, faults, s, s1, s');
    AdvancedMore(s, s1, s', {p}, todo - {p});
    assert {p} + (todo - {p}) == todo;
  }

  /** Any untouched files of entered folders can be settled, one after another. */
  lemma {:induction false} SettleAll(src: Source, faults: set<Fault>, s: State, todo: set<Pair>) returns (s': State)
    requires AllSettleable(src, s, todo)
    ensures SettledFrom(src, faults, s, s', todo)
    decreases |todo|
  {
    if todo == {} {
      s' := s;
      SettledNothing(src, faults, s);
    } else {
      var p :| p in todo;
      var s1 := SettleFirst(src, faults, s, todo, p);
      s' := SettleAll(src, faults, s1, todo - {p});
      SettledTwice(src, faults, s, s1, s', p, todo);
    }
  }

  lemma SettledNothing(src: Source, faults: set<Fault>, s: State)
    ensures SettledFrom(src, faults, s, s, {})
  {
    Stay(src, faults, s);
  }

  /* ----------------------------- finishing a run --------------------------- */

  function AllPairs(src: Source): set<Pair> {
    set f, t | f in src.tasks && t in src.tasks[f] :: (f, t)
  }

  /** Every file of an entered folder is either untouched or settled. */
  ghost predicate Tidy(src: Source, s: State) {
    forall f, t :: f in s.runs && f in src.tasks && t in src.tasks[f] ==>
      Untouched(s.runs[f], t) || SettledIn(s.runs[f], t)
  }

  function Unsettled(src: Source, s: State): set<Pair> {
    set p | p in AllPairs(src) && p.0 in s.runs && !SettledIn(s.runs[p.0], p.1)
  }

  /** The folders this run skips, and what is in them, stay as they are. */
  ghost predicate KeepsSkipped(src: Source, s: State, s': State) {
    && s'.skip == s.skip && s'.completed == s.completed && s'.log == s.log && s'.slipped == s.slipped
    && s'.dest.Keys == s.dest.Keys
    && forall f :: Skips(src, s, f) && f in s.dest && f !in s.runs ==> f !in s'.runs && s'.dest[f] == s.dest[f]
  }

  ghost predicate InProgress(src: Source, s: State) {
    WellFormed(src, s) && Tidy(src, s)
  }

  ghost predicate Continues(src: Source, faults: set<Fault>, s: State, s': State) {
    Reaches(src, faults, s, s') && InProgress(src, s') && KeepsSkipped(src, s, s')
  }

  lemma ContinuesOn(src: Source, faults: set<Fault>, s: State, s1: State, s': State)
    requires Continues(src, faults, s, s1) && Continues(src, faults, s1, s')
    ensures Continues(src, faults, s, s')
  {
    Follow(src, faults, s, s1, s');
    assert forall f :: Skips(src, s1, f) <==> Skips(src, s, f);
  }

  lemma UnsettledIsSettleable(src: Source, s: State)
    requires WellFormed(src, s) && Tidy(src, s)
    ensures AllSettleable(src, s, Unsettled(src, s))
  {
    forall p | p in Unsettled(src, s) ensures Settleable(src, s, p) {
      assert InRun(src, s, p.0, p.1);
    }
  }

  lemma AllSettledAfter(src: Source, s: State, s': State)
    requires WellFormed(src, s) && Advanced(s, s', Unsettled(src, s))
    ensures forall f, t :: f in s'.runs && f in src.tasks && t in src.tasks[f] ==> SettledIn(s'.runs[f], t)
  {
    var todo := Unsettled(src, s);
    forall f, t | f in s'.runs && f in src.tasks && t in src.tasks[f] ensures SettledIn(s'.runs[f], t) {
      assert (f, t) in AllPairs(src);
      if (f, t) !in todo {
        StaysSettled(s, s', todo, (f, t));
      } else {
        var p := (f, t);
        assert p in todo && p.0 in s'.runs && SettledIn(s'.runs[p.0], p.1);
      }
    }
  }

  lemma SettleEntered(src: Source, faults: set<Fault>, s: State) returns (s': State)
    requires InProgress(src, s)
    ensures Continues(src, faults, s, s') && s'.runs.Keys == s.runs.Keys
    ensures forall f, t :: f in s'.runs && f in src.tasks && t in src.tasks[f] ==> SettledIn(s'.runs[f], t)
  {
    UnsettledIsSettleable(src, s);
    s' := SettleAll(src, faults, s, Unsettled(src, s));
    AllSettledAfter(src, s, s');
  }

  /** A path on which all but the last folder is entered, and that is not skipped. */
  ghost predicate Waiting(src: Source, s: State, path: seq<Id>) {
    Walk(src, path) && Entered(s, path) && path[|path|-1] !in s.runs && !Skips(src, s, path[|path|-1])
  }

  lemma EnterWaiting(src: Source, faults: set<Fault>, s: State, path: seq<Id>) returns (s': State)
    requires InProgress(src, s) && Waiting(src, s, path)
    ensures Continues(src, faults, s, s') && s'.runs.Keys == s.runs.Keys + {path[|path|-1]}
  {
    var f := path[|path|-1];
    assert WalkTo(src, path, f);
    EnterFullIs(src, s, f);
    Take(src, faults, s, EnterFull(s, f));
    s' := Apply(src, s, EnterFull(s, f));
  }

  lemma {:induction false} ClearIsEntered(src: Source, s: State, path: seq<Id>, n: nat)
    requires Walk(src, path) && Clear(src, s, path) && n <= |path| && forall p :: !Waiting(src, s, p)
    ensures AllIn(path, n, s.runs.Keys)
    decreases n
  {
    if n > 0 {
      ClearIsEntered(src, s, path, n - 1);
      PrefixIsWalk(src, path, n - 1);
      assert !Waiting(src, s, path[..n]);
      assert Entered(s, path[..n]);
    }
  }

  lemma NothingWaiting(src: Source, s: State)
    requires InProgress(src, s) && forall path :: !Waiting(src, s, path)
    requires forall f, t :: f in s.runs && f in src.tasks && t in src.tasks[f] ==> SettledIn(s.runs[f], t)
    ensures RunComplete(src, s)
  {
    forall f | f in s.runs && f in src.tasks ensures src.tasks[f] <= s.runs[f].took + s.runs[f].landed {
      forall t | t in src.tasks[f] ensures t in s.runs[f].took + s.runs[f].landed {
        assert SettledIn(s.runs[f], t);
      }
    }
    forall path | Walk(src, path) && Clear(src, s, path) ensures path[|path|-1] in s.runs {
      ClearIsEntered(src, s, path, |path|);
    }
  }

  /** Settle what was entered; then either the run is complete or a further folder is entered. */
  lemma GoOn(src: Source, faults: set<Fault>, s: State) returns (s': State)
    requires InProgress(src, s)
    ensures Continues(src, faults, s, s') && s.runs.Keys <= s'.runs.Keys
    ensures RunComplete(src, s') || s.runs.Keys < s'.runs.Keys
  {
    var s1 := SettleEntered(src, faults, s);
    if exists path :: Waiting(src, s1, path) {
      var path :| Waiting(src, s1, path);
      s' := EnterWaiting(src, faults, s1, path);
      ContinuesOn(src, faults, s, s1, s');
    } else {
      s' := s1;
      NothingWaiting(src, s1);
    }
  }

  /** From any tidy moment of a run some continuation completes it. */
  lemma {:induction false} FinishRun(src: Source, faults: set<Fault>, s: State) returns (s': State)
    requires InProgress(src, s)
    ensures Continues(src, faults, s, s') && RunComplete(src, s')
    decreases src.tasks.Keys - s.runs.Keys
  {
    s' := GoOn(src, faults, s);
    if !RunComplete(src, s') {
      var s1 := s';
      s' := FinishRun(src, faults, s1);
      ContinuesOn(src, faults, s, s1, s');
    }
  }

  /* -------------------------- a run that is stopped ------------------------ */

  function Blank(src: Source): Dest {
    map f | f in src.tasks :: []
  }

  lemma BlankReachedInv(src: Source, faults: set<Fault>, skip: bool, s: State)
    requires ValidSource(src) && Reaches(src, faults, Start(Blank(src), skip), s)
    ensures Inv(src, Blank(src), s)
  {
    assert ValidDest(src, Blank(src));
    ReachedInv(src, faults, Blank(src), skip, s);
  }

  lemma StepsKeepInv(src: Source, faults: set<Fault>, initial: Dest, s: State, s': State)
    requires ValidSource(src) && Inv(src, initial, s) && Reaches(src, faults, s, s')
    ensures Inv(src, initial, s')
  {
    var steps :| Leads(src, faults, s, steps, s');
    RunKeepsInv(src, initial, s, steps);
  }

  /** One file of an entered folder is left while the rest of the folder is settled. */
  ghost predicate OneLeft(src: Source, s: State, f: Id, t: Request) {
    && InRun(src, s, f, t) && Untouched(s.runs[f], t) && f in s.slipped && s.slipped[f] == []
    && s.runs[f].base == [] && s.runs[f].seen == [] && s.runs[f].lost == []
    && s.runs[f].took + s.runs[f].landed == src.tasks[f] - {t}
  }

  /** A run over a blank destination that settled every file but one. */
  ghost predicate AllButThis(src: Source, faults: set<Fault>, skip: bool, f: Id, t: Request, s: State) {
    && Reaches(src, faults, Start(Blank(src), skip), s) && WellFormed(src, s) && s.runs.Keys == src.tasks.Keys
    && s.skip == skip && s.completed == {}
    && Learned({}, s.copied, AllPairs(src) - {(f, t)}) && OneLeft(src, s, f, t)
  }

  /** Every folder was just listed. */
  ghost predicate JustListed(src: Source, s: State) {
    && WellFormed(src, s) && s.runs.Keys == src.tasks.Keys
    && forall f :: f in s.runs ==> s.runs[f] == EnterRun(s.dest[f], s.dest[f], [])
  }

  lemma SettleButOne(src: Source, faults: set<Fault>, s: State, f: Id, t: Request) returns (s': State)
    requires JustListed(src, s)
    ensures SettledFrom(src, faults, s, s', AllPairs(src) - {(f, t)})
  {
    var todo := AllPairs(src) - {(f, t)};
    forall p | p in todo ensures Settleable(src, s, p) {
      assert s.runs[p.0] == EnterRun(s.dest[p.0], s.dest[p.0], []);
    }
    s' := SettleAll(src, faults, s, todo);
  }

  /** The first run over a blank destination has just listed every folder. */
  ghost predicate FirstListed(src: Source, faults: set<Fault>, skip: bool, s: State) {
    && Reaches(src, faults, Start(Blank(src), skip), s) && JustListed(src, s)
    && s == Start(Blank(src), skip).(runs := s.runs)
  }

  lemma ListAll(src: Source, faults: set<Fault>, skip: bool) returns (s: State)
    requires AllReachable(src)
    ensures FirstListed(src, faults, skip, s)
  {
    s := EnterAll(src, faults, Start(Blank(src), skip));
  }

  lemma AllButOne(src: Source, faults: set<Fault>, skip: bool, f: Id, t: Request) returns (s: State)
    requires ValidSource(src) && AllReachable(src) && f in src.tasks && t in src.tasks[f]
    ensures AllButThis(src, faults, skip, f, t, s) && Inv(src, Blank(src), s)
    ensures Present(s.dest[f], ClassOf(t)) == Count(src.tasks[f], ClassOf(t)) - 1
  {
    var s1 := ListAll(src, faults, skip);
    s := SettleButOne(src, faults, s1, f, t);
    Follow(src, faults, Start(Blank(src), skip), s1, s);
    BlankReachedInv(src, faults, skip, s);
    OneIsLeft(src, faults, skip, s1, s, f, t);
    ShortByOne(src, Blank(src), s, f, t);
  }

  lemma OneIsLeft(src: Source, faults: set<Fault>, skip: bool, s1: State, s: State, f: Id, t: Request)
    requires f in src.tasks && t in src.tasks[f] && FirstListed(src, faults, skip, s1)
    requires Reaches(src, faults, Start(Blank(src), skip), s) && Inv(src, Blank(src), s)
    requires Advanced(s1, s, AllPairs(src) - {(f, t)})
    ensures AllButThis(src, faults, skip, f, t, s)
  {
    VisitWithin(src, Blank(src), s, f);
    OnlyThisLeft(src, s1, s, f, t);
  }

  lemma OnlyThisLeft(src: Source, s1: State, s: State, f: Id, t: Request)
    requires f in src.tasks && t in src.tasks[f] && JustListed(src, s1) && f in s1.runs && s1.dest[f] == []
    requires f in s1.slipped && s1.slipped[f] == [] && Advanced(s1, s, AllPairs(src) - {(f, t)})
    requires f in s.runs ==> s.runs[f].took + s.runs[f].landed <= src.tasks[f]
    ensures OneLeft(src, s, f, t)
  {
    assert s1.runs[f] == EnterRun([], [], []);
    assert Grown(s1.runs[f], s.runs[f], f, AllPairs(src) - {(f, t)});
    forall u | u in src.tasks[f] - {t} ensures SettledIn(s.runs[f], u) {
      var p := (f, u);
      assert p in AllPairs(src);
      assert p.0 in s.runs && SettledIn(s.runs[p.0], p.1);
    }
  }

  lemma VisitWithin(src: Source, initial: Dest, s: State, f: Id)
    requires Inv(src, initial, s) && f in s.runs
    ensures f in src.tasks && s.runs[f].took + s.runs[f].landed <= src.tasks[f]
  {
  }

  /** With nothing there on entry, the class of the one unsettled file is one short. */
  lemma ShortByOne(src: Source, initial: Dest, s: State, f: Id, t: Request)
    requires ValidSource(src) && Inv(src, initial, s) && OneLeft(src, s, f, t)
    ensures Present(s.dest[f], ClassOf(t)) == Count(src.tasks[f], ClassOf(t)) - 1
  {
    var ts, r, c := src.tasks[f], s.runs[f], ClassOf(t);
    assert ClassIn(c, ts) && ClassInv(s.dest[f], r, ts, c);
    TookFromSeen(s.dest[f], r, initial[f], ts, s.slipped[f], c);
    AllButOneCount(ts, r.took, r.landed, t);
  }

  lemma AllButOneCount(ts: set<Request>, a: set<Request>, b: set<Request>, t: Request)
    requires t in ts && a !! b && a + b == ts - {t}
    ensures Count(a, ClassOf(t)) + Count(b, ClassOf(t)) == Count(ts, ClassOf(t)) - 1
  {
    CountSplit(a, b, ts - {t}, ClassOf(t));
    CountAdd(ts - {t}, t, ClassOf(t));
    assert ts - {t} + {t} == ts;
  }
}
