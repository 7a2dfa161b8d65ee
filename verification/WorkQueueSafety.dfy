// What every run of the work queue keeps, for any number of workers and crashes.
module WorkQueueSafety {
  import opened Wrappers
  import opened Text
  import opened JsonText
  import opened WorkQueue

  // ---- Placement ----

  function Ids(d: Directory): set<nat> {
    set name | name in d :: d[name].id
  }

  ghost predicate OneNameEach(d: Directory) {
    forall m, n :: m in d && n in d && d[m].id == d[n].id ==> m == n
  }

  ghost predicate NoDuplicates(xs: seq<nat>) {
    forall i, j :: 0 <= i < j < |xs| ==> xs[i] != xs[j]
  }

  // Each submitted file is in exactly one directory, under one name, and those that left pending
  // were claimed exactly once.
  ghost predicate Placed(s: State) {
    && InOneDirectory(s.pending, s.processing, s.done, s.failed, s.submitted)
    && ClaimedOnce(s.claims, s.submitted - Ids(s.pending))
    && NamesUsed(s.processing.Keys, s.done.Keys, s.failed.Keys, s.usedNames)
  }

  ghost predicate InOneDirectory(pending: Directory, processing: Directory, done: Directory, failed: Directory, submitted: set<nat>) {
    && OneNameEach(pending) && OneNameEach(processing) && OneNameEach(done) && OneNameEach(failed)
    && Ids(pending) !! Ids(processing) !! Ids(done) !! Ids(failed)
    && Ids(pending) + Ids(processing) + Ids(done) + Ids(failed) == submitted
  }

  ghost predicate ClaimedOnce(claims: seq<nat>, claimed: set<nat>) {
    NoDuplicates(claims) && forall id :: id in claimed <==> id in claims
  }

  ghost predicate NamesUsed(processing: set<string>, done: set<string>, failed: set<string>, used: set<string>) {
    processing !! done !! failed && processing + done + failed <= used
  }

  lemma AddFile(d: Directory, name: string, f: File)
    requires name !in d && OneNameEach(d) && f.id !in Ids(d)
    ensures Ids(d[name := f]) == Ids(d) + {f.id} && OneNameEach(d[name := f])
  {
    var e := d[name := f];
    forall id | id in Ids(d) + {f.id} ensures id in Ids(e) {
      if id in Ids(d) {
        var m :| m in d && d[m].id == id;
        assert m in e && e[m].id == id;
      } else {
        assert e[name].id == id;
      }
    }
    forall m | m in d ensures d[m].id in Ids(d) {}
  }

  lemma RemoveFile(d: Directory, name: string)
    requires name in d && OneNameEach(d)
    ensures Ids(d - {name}) == Ids(d) - {d[name].id} && OneNameEach(d - {name})
    ensures d[name].id in Ids(d)
  {
    var e := d - {name};
    forall id | id in Ids(d) - {d[name].id} ensures id in Ids(e) {
      var m :| m in d && d[m].id == id;
      assert m in e && e[m].id == id;
    }
    forall id | id in Ids(e) ensures id in Ids(d) && id != d[name].id {
      var m :| m in e && e[m].id == id;
      assert m in d && m != name;
    }
  }

  lemma SubmitPlaces(s: State, name: string, file: File)
    requires Placed(s)
    ensures Placed(Step(s, Submit(name, file)))
  {
    if name !in s.pending && file.id !in s.submitted {
      AddFile(s.pending, name, file.(source := name));
      var t := Step(s, Submit(name, file));
      assert t.submitted - Ids(t.pending) == s.submitted - Ids(s.pending);
    }
  }

  lemma ClaimOnce(claims: seq<nat>, claimed: set<nat>, id: nat)
    requires ClaimedOnce(claims, claimed) && id !in claimed
    ensures ClaimedOnce(claims + [id], claimed + {id})
  {}

  lemma ClaimPlaces(s: State, w: nat, source: string, suffix: string)
    requires Placed(s)
    ensures Placed(ClaimStep(s, w, source, suffix))
  {
    var t := ClaimStep(s, w, source, suffix);
    if t != s {
      var f := s.pending[source];
      RemoveFile(s.pending, source);
      AddFile(s.processing, ClaimedName(source, suffix), f);
      ClaimOnce(s.claims, s.submitted - Ids(s.pending), f.id);
      assert t.submitted - Ids(t.pending) == s.submitted - Ids(s.pending) + {f.id};
    }
  }

  // A processed file changes directory under its name.
  lemma FileMoves(from: Directory, to: Directory, name: string)
    requires OneNameEach(from) && OneNameEach(to) && Ids(from) !! Ids(to) && name in from && name !in to
    ensures OneNameEach(from - {name}) && OneNameEach(to[name := from[name]])
    ensures Ids(from - {name}) == Ids(from) - {from[name].id} && Ids(to[name := from[name]]) == Ids(to) + {from[name].id}
    ensures from[name].id in Ids(from)
  {
    RemoveFile(from, name);
    AddFile(to, name, from[name]);
  }

  lemma MoveDonePlaces(s: State, w: nat)
    requires Placed(s) && Working(s, w) && s.workers[w].at.MoveDone?
    ensures Placed(MoveStep(s, w, true))
  {
    FileMoves(s.processing, s.done, s.workers[w].name);
  }

  lemma MoveFailedPlaces(s: State, w: nat)
    requires Placed(s) && Working(s, w) && s.workers[w].at.MoveFailed?
    ensures Placed(MoveStep(s, w, true))
  {
    FileMoves(s.processing, s.failed, s.workers[w].name);
  }

  lemma MovePlaces(s: State, w: nat, ok: bool)
    requires Placed(s) && Working(s, w)
    ensures Placed(MoveStep(s, w, ok))
  {
    if ok && s.workers[w].at.MoveDone? {
      MoveDonePlaces(s, w);
    } else if ok && s.workers[w].at.MoveFailed? {
      MoveFailedPlaces(s, w);
    }
  }

  predicate SameFiles(s: State, t: State) {
    && t.pending == s.pending && t.processing == s.processing && t.done == s.done && t.failed == s.failed
    && t.submitted == s.submitted && t.claims == s.claims && t.usedNames == s.usedNames
  }

  lemma OpenAuditMovesNothing(s: State, w: nat, ok: bool)
    requires Working(s, w)
    ensures SameFiles(s, OpenAuditStep(s, w, ok))
  {}

  lemma WriteAuditMovesNothing(s: State, w: nat, outcome: AuditOutcome)
    requires Working(s, w)
    ensures SameFiles(s, WriteAuditStep(s, w, outcome))
  {}

  lemma CloseAuditMovesNothing(s: State, w: nat, removed: bool)
    requires Working(s, w)
    ensures SameFiles(s, CloseAuditStep(s, w, removed))
  {}

  lemma OpenResultMovesNothing(s: State, w: nat, ok: bool)
    requires Working(s, w)
    ensures SameFiles(s, OpenResultStep(s, w, ok))
  {}

  lemma WriteResultMovesNothing(s: State, w: nat, ok: bool, removed: bool)
    requires Working(s, w)
    ensures SameFiles(s, WriteResultStep(s, w, ok, removed))
  {}

  lemma CheckMovesNothing(s: State, w: nat, readable: bool)
    requires Working(s, w)
    ensures SameFiles(s, CheckStep(s, w, readable))
  {}

  lemma ExecuteMovesNothing(s: State, w: nat, result: Option<Json>)
    requires Working(s, w)
    ensures SameFiles(s, ExecuteStep(s, w, result))
  {}

  lemma AuditMovesNothing(s: State, e: Event)
    requires (e.OpenAudit? || e.WriteAudit? || e.CloseAudit?) && Working(s, e.w)
    ensures SameFiles(s, Step(s, e))
  {
    match e
    case OpenAudit(w, ok) => OpenAuditMovesNothing(s, w, ok);
    case WriteAudit(w, outcome) => WriteAuditMovesNothing(s, w, outcome);
    case CloseAudit(w, removed) => CloseAuditMovesNothing(s, w, removed);
  }

  lemma WorkMovesNothing(s: State, e: Event)
    requires (e.CheckTask? || e.RunTask? || e.OpenResult? || e.WriteResult?) && Working(s, e.w)
    ensures SameFiles(s, Step(s, e))
  {
    match e
    case CheckTask(w, readable) => CheckMovesNothing(s, w, readable);
    case RunTask(w, result) => ExecuteMovesNothing(s, w, result);
    case OpenResult(w, ok) => OpenResultMovesNothing(s, w, ok);
    case WriteResult(w, ok, removed) => WriteResultMovesNothing(s, w, ok, removed);
  }

  lemma StopMovesNothing(s: State, w: nat)
    ensures SameFiles(s, Step(s, Crash(w))) && SameFiles(s, Step(s, Restart(w)))
  {}

  lemma UnlockMovesNothing(s: State)
    ensures SameFiles(s, Step(s, RemoveStaleLock))
  {}

  lemma OtherStepsMoveNothing(s: State, e: Event)
    requires !e.Submit? && !e.Claim? && !e.Move?
    ensures SameFiles(s, Step(s, e))
  {
    if e.Crash? || e.Restart? {
      StopMovesNothing(s, e.w);
    } else if e.RemoveStaleLock? {
      UnlockMovesNothing(s);
    } else if !Working(s, e.w) {
      assert Step(s, e) == s;
    } else if e.OpenAudit? || e.WriteAudit? || e.CloseAudit? {
      AuditMovesNothing(s, e);
    } else {
      WorkMovesNothing(s, e);
    }
  }

  lemma SameFilesPlaced(s: State, t: State)
    requires Placed(s) && SameFiles(s, t)
    ensures Placed(t)
  {}

  lemma StepPlaces(s: State, e: Event)
    requires Placed(s)
    ensures Placed(Step(s, e))
  {
    if e.Submit? {
      SubmitPlaces(s, e.name, e.file);
    } else if e.Claim? {
      ClaimPlaces(s, e.w, e.source, e.suffix);
    } else if e.Move? {
      if Working(s, e.w) {
        MovePlaces(s, e.w, e.ok);
      }
    } else {
      OtherStepsMoveNothing(s, e);
      SameFilesPlaced(s, Step(s, e));
    }
  }

  // Every submitted file is in exactly one of the four directories and is claimed at most once.
  lemma {:induction false} RunsPlace(workers: nat, events: seq<Event>)
    ensures Placed(Run(Start(workers), events))
  {
    if events != [] {
      RunsPlace(workers, events[..|events| - 1]);
      StepPlaces(Run(Start(workers), events[..|events| - 1]), events[|events| - 1]);
    }
  }

  // ---- Progress of a claimed file ----

  // The audit phases logged for one submission, in log order.
  function PhasesOf(log: seq<Entry>, file: nat): seq<Phase> {
    if log == [] then []
    else
      var last := log[|log| - 1];
      PhasesOf(log[..|log| - 1], file) + if last.file == file then [last.phase] else []
  }

  lemma PhasesSnoc(log: seq<Entry>, e: Entry, file: nat)
    ensures PhasesOf(log + [e], file) == PhasesOf(log, file) + if e.file == file then [e.phase] else []
  {
    var longer := log + [e];
    assert longer[..|longer| - 1] == log && longer[|longer| - 1] == e;
  }

  // The phases a worker on its way to done has logged; None once an error occurred.
  function Expected(at: Point): Option<seq<Phase>> {
    match at
    case AuditOpen(phase) => Before(phase)
    case AuditWrite(phase) => Before(phase)
    case AuditClose(phase, failed) =>
      if failed || phase.Failed? then None else Some(Before(phase).value + [phase])
    case Check => Some([Claimed])
    case Execute => Some([Claimed, Started])
    case ResultOpen(payload) => if payload.Finished? then Some([Claimed, Started]) else None
    case ResultWrite(payload) => if payload.Finished? then Some([Claimed, Started]) else None
    case MoveDone(detail) => Some([Claimed, Started, Completed(detail)])
    case MoveFailed => None
  }

  function Before(phase: Phase): (r: Option<seq<Phase>>)
    ensures !phase.Failed? ==> r.Some?
  {
    match phase
    case Claimed => Some([])
    case Started => Some([Claimed])
    case Completed(_) => Some([Claimed, Started])
    case Failed => None
  }

  // The result file a worker relies on.
  function OwnResult(at: Point, id: nat): Option<ResultFile> {
    match at
    case ResultWrite(_) => Some(Partial(id))
    case AuditOpen(phase) => Reported(phase, id)
    case AuditWrite(phase) => Reported(phase, id)
    case AuditClose(phase, _) => Reported(phase, id)
    case MoveDone(detail) => Some(Full(id, Finished(detail)))
    case _ => None
  }

  function Reported(phase: Phase, id: nat): Option<ResultFile> {
    if phase.Completed? then Some(Full(id, Finished(phase.detail))) else None
  }

  // The task was read and found valid.
  predicate IsValidated(at: Point) {
    match at
    case AuditOpen(phase) => phase.Started? || phase.Completed?
    case AuditWrite(phase) => phase.Started? || phase.Completed?
    case AuditClose(phase, _) => phase.Started? || phase.Completed?
    case Execute => true
    case ResultOpen(payload) => payload.Finished?
    case ResultWrite(payload) => payload.Finished?
    case MoveDone(_) => true
    case _ => false
  }

  // All lines of a submission name this task.
  ghost predicate TaskLogged(log: seq<Entry>, file: nat, task: string) {
    forall i :: 0 <= i < |log| && log[i].file == file ==> log[i].task == task
  }

  ghost predicate Progress(log: seq<Entry>, results: map<string, ResultFile>, at: Point, f: File, task: string) {
    && (Expected(at).Some? ==> PhasesOf(log, f.id) == Expected(at).value && TaskLogged(log, f.id, task))
    && (OwnResult(at, f.id).Some? ==> task in results && results[task] == OwnResult(at, f.id).value)
    && (IsValidated(at) ==> Acceptable(f, task))
  }

  // The audit log holds exactly CLAIMED, STARTED, COMPLETED for the file, with its own result.
  ghost predicate Finalised(log: seq<Entry>, results: map<string, ResultFile>, f: File, task: string) {
    && Acceptable(f, task) && task in results && results[task].Full? && results[task].owner == f.id
    && results[task].payload.Finished?
    && PhasesOf(log, f.id) == [Claimed, Started, Completed(results[task].payload.detail)] && TaskLogged(log, f.id, task)
  }

  ghost predicate WorkerOk(s: State, w: nat) {
    w < |s.workers| && s.workers[w].Busy? ==>
      && s.workers[w].name in s.processing
      && Progress(s.log, s.results, s.workers[w].at, s.processing[s.workers[w].name], TaskOf(s.workers[w].name))
  }

  ghost predicate OwnNames(s: State) {
    forall v, w ::
      (0 <= v < |s.workers| && 0 <= w < |s.workers| && s.workers[v].Busy? && s.workers[w].Busy?
       && s.workers[v].name == s.workers[w].name) ==> v == w
  }

  ghost predicate InOrder(s: State) {
    && (forall w :: 0 <= w < |s.workers| ==> WorkerOk(s, w))
    && OwnNames(s)
    && (forall name :: name in s.done ==> Finalised(s.log, s.results, s.done[name], TaskOf(name)))
    && (forall i :: 0 <= i < |s.log| ==> s.log[i].file in s.claims)
  }

  // ---- What one worker's step may touch ----

  // Results change only at the worker's own task, and only if absent or its own partial file.
  ghost predicate OwnChange(before: map<string, ResultFile>, after: map<string, ResultFile>, task: string, id: nat) {
    && (forall k :: k != task ==> ((k in after <==> k in before) && (k in before ==> after[k] == before[k])))
    && (task in before && before[task] != Partial(id) ==> task in after && after[task] == before[task])
  }

  ghost predicate OwnLog(before: seq<Entry>, after: seq<Entry>, id: nat) {
    after == before || (|after| == |before| + 1 && after[..|before|] == before && after[|before|].file == id)
  }

  lemma OthersKeepProgress(log: seq<Entry>, log': seq<Entry>, results: map<string, ResultFile>,
                           results': map<string, ResultFile>, task: string, id: nat, at: Point, f: File, own: string)
    requires OwnLog(log, log', id) && OwnChange(results, results', task, id) && f.id != id
    requires Progress(log, results, at, f, own)
    ensures Progress(log', results', at, f, own)
  {
    if log' != log {
      assert log' == log + [log'[|log|]];
      PhasesSnoc(log, log'[|log|], f.id);
    }
  }

  lemma OthersStayFinalised(log: seq<Entry>, log': seq<Entry>, results: map<string, ResultFile>,
                            results': map<string, ResultFile>, task: string, id: nat, f: File, own: string)
    requires OwnLog(log, log', id) && OwnChange(results, results', task, id) && f.id != id
    requires Finalised(log, results, f, own)
    ensures Finalised(log', results', f, own)
  {
    if log' != log {
      assert log' == log + [log'[|log|]];
      PhasesSnoc(log, log'[|log|], f.id);
    }
  }

  // A step in which worker w moves to another point, on its own file.
  lemma AdvanceKeepsOrder(s: State, t: State, w: nat)
    requires Placed(s) && InOrder(s) && Working(s, w) && SameFiles(s, t)
    requires |t.workers| == |s.workers| && t.workers == s.workers[w := t.workers[w]]
    requires t.workers[w].Busy? && t.workers[w].name == s.workers[w].name
    requires var name := s.workers[w].name;
      && OwnLog(s.log, t.log, s.processing[name].id)
      && OwnChange(s.results, t.results, TaskOf(name), s.processing[name].id)
      && Progress(t.log, t.results, t.workers[w].at, s.processing[name], TaskOf(name))
    ensures InOrder(t)
  {
    var name := s.workers[w].name;
    var task, id := TaskOf(name), s.processing[name].id;
    assert WorkerOk(s, w);
    forall v | 0 <= v < |t.workers| ensures WorkerOk(t, v) {
      assert WorkerOk(s, v);
      if v != w && s.workers[v].Busy? {
        var f := s.processing[s.workers[v].name];
        OthersKeepProgress(s.log, t.log, s.results, t.results, task, id, s.workers[v].at, f, TaskOf(s.workers[v].name));
      }
    }
    forall n | n in t.done ensures Finalised(t.log, t.results, t.done[n], TaskOf(n)) {
      assert s.done[n].id in Ids(s.done) && id in Ids(s.processing);
      OthersStayFinalised(s.log, t.log, s.results, t.results, task, id, s.done[n], TaskOf(n));
    }
    WorkingIsClaimed(s, w);
    forall i | 0 <= i < |t.log| ensures t.log[i].file in t.claims {
      if i < |s.log| {
        assert t.log[i] == s.log[i];
      }
    }
  }

  lemma WorkingIsClaimed(s: State, w: nat)
    requires Placed(s) && Working(s, w)
    ensures s.processing[s.workers[w].name].id in s.claims
  {
    var id := s.processing[s.workers[w].name].id;
    assert id in Ids(s.processing);
    assert id in s.submitted - Ids(s.pending);
  }

  // ---- The steps ----

  // After an error nothing is needed any more.
  lemma ErrorProgress(log: seq<Entry>, results: map<string, ResultFile>, at: Point, f: File, task: string)
    ensures Progress(log, results, AfterError(at), f, task)
  {}

  lemma OpenedProgress(log: seq<Entry>, results: map<string, ResultFile>, phase: Phase, f: File, task: string)
    requires Progress(log, results, AuditOpen(phase), f, task)
    ensures Progress(log, results, AuditWrite(phase), f, task)
  {}

  lemma WrittenProgress(log: seq<Entry>, results: map<string, ResultFile>, phase: Phase, f: File, task: string)
    requires Progress(log, results, AuditWrite(phase), f, task)
    ensures Progress(log + [Entry(phase, task, f.id)], results, AuditClose(phase, false), f, task)
  {
    PhasesSnoc(log, Entry(phase, task, f.id), f.id);
  }

  lemma WriteFailedProgress(log: seq<Entry>, log': seq<Entry>, results: map<string, ResultFile>, phase: Phase, f: File, task: string)
    requires Progress(log, results, AuditWrite(phase), f, task)
    ensures Progress(log', results, AuditClose(phase, true), f, task)
  {}

  lemma ClosedProgress(log: seq<Entry>, results: map<string, ResultFile>, phase: Phase, f: File, task: string)
    requires Progress(log, results, AuditClose(phase, false), f, task)
    ensures Progress(log, results, AfterAudit(phase), f, task)
  {}

  lemma ReportedProgress(log: seq<Entry>, results: map<string, ResultFile>, payload: Payload, f: File, task: string)
    requires Progress(log, results, ResultWrite(payload), f, task)
    ensures Progress(log, results[task := Full(f.id, payload)],
                     AuditOpen(if payload.Finished? then Completed(payload.detail) else Failed), f, task)
  {}

  lemma CreatedProgress(log: seq<Entry>, results: map<string, ResultFile>, payload: Payload, f: File, task: string)
    requires Progress(log, results, ResultOpen(payload), f, task)
    ensures Progress(log, results[task := Partial(f.id)], ResultWrite(payload), f, task)
  {}

  lemma OpenAuditKeepsOrder(s: State, w: nat, ok: bool)
    requires Placed(s) && InOrder(s) && Working(s, w) && s.workers[w].at.AuditOpen?
    ensures InOrder(OpenAuditStep(s, w, ok))
  {
    var at, name := s.workers[w].at, s.workers[w].name;
    assert WorkerOk(s, w);
    OpenedProgress(s.log, s.results, at.phase, s.processing[name], TaskOf(name));
    ErrorProgress(s.log, s.results, at, s.processing[name], TaskOf(name));
    AdvanceKeepsOrder(s, OpenAuditStep(s, w, ok), w);
  }

  lemma WriteAuditKeepsOrder(s: State, w: nat, outcome: AuditOutcome)
    requires Placed(s) && InOrder(s) && Working(s, w) && s.workers[w].at.AuditWrite?
    ensures InOrder(WriteAuditStep(s, w, outcome))
  {
    var at, name := s.workers[w].at, s.workers[w].name;
    assert WorkerOk(s, w);
    var t := WriteAuditStep(s, w, outcome);
    if outcome.Appended? {
      WrittenProgress(s.log, s.results, at.phase, s.processing[name], TaskOf(name));
    } else {
      WriteFailedProgress(s.log, t.log, s.results, at.phase, s.processing[name], TaskOf(name));
    }
    AdvanceKeepsOrder(s, t, w);
  }

  lemma CloseAuditKeepsOrder(s: State, w: nat, removed: bool)
    requires Placed(s) && InOrder(s) && Working(s, w) && s.workers[w].at.AuditClose?
    ensures InOrder(CloseAuditStep(s, w, removed))
  {
    var at, name := s.workers[w].at, s.workers[w].name;
    assert WorkerOk(s, w);
    if !at.failed {
      ClosedProgress(s.log, s.results, at.phase, s.processing[name], TaskOf(name));
    }
    ErrorProgress(s.log, s.results, at, s.processing[name], TaskOf(name));
    AdvanceKeepsOrder(s, CloseAuditStep(s, w, removed), w);
  }

  lemma CheckedProgress(log: seq<Entry>, results: map<string, ResultFile>, f: File, task: string)
    requires Progress(log, results, Check, f, task) && Acceptable(f, task)
    ensures Progress(log, results, AuditOpen(Started), f, task)
  {}

  lemma CheckKeepsOrder(s: State, w: nat, readable: bool)
    requires Placed(s) && InOrder(s) && Working(s, w) && s.workers[w].at.Check?
    ensures InOrder(CheckStep(s, w, readable))
  {
    var at, name := s.workers[w].at, s.workers[w].name;
    assert WorkerOk(s, w);
    if Acceptable(s.processing[name], TaskOf(name)) {
      CheckedProgress(s.log, s.results, s.processing[name], TaskOf(name));
    }
    ErrorProgress(s.log, s.results, at, s.processing[name], TaskOf(name));
    AdvanceKeepsOrder(s, CheckStep(s, w, readable), w);
  }

  lemma ExecutedProgress(log: seq<Entry>, results: map<string, ResultFile>, detail: Json, f: File, task: string)
    requires Progress(log, results, Execute, f, task)
    ensures Progress(log, results, ResultOpen(Finished(detail)), f, task)
  {}

  lemma ExecuteKeepsOrder(s: State, w: nat, result: Option<Json>)
    requires Placed(s) && InOrder(s) && Working(s, w) && s.workers[w].at.Execute?
    ensures InOrder(ExecuteStep(s, w, result))
  {
    var at, name := s.workers[w].at, s.workers[w].name;
    assert WorkerOk(s, w);
    if result.Some? {
      ExecutedProgress(s.log, s.results, result.value, s.processing[name], TaskOf(name));
    }
    ErrorProgress(s.log, s.results, at, s.processing[name], TaskOf(name));
    AdvanceKeepsOrder(s, ExecuteStep(s, w, result), w);
  }

  lemma OpenResultKeepsOrder(s: State, w: nat, ok: bool)
    requires Placed(s) && InOrder(s) && Working(s, w) && s.workers[w].at.ResultOpen?
    ensures InOrder(OpenResultStep(s, w, ok))
  {
    var at, name := s.workers[w].at, s.workers[w].name;
    assert WorkerOk(s, w);
    CreatedProgress(s.log, s.results, at.payload, s.processing[name], TaskOf(name));
    ErrorProgress(s.log, s.results, at, s.processing[name], TaskOf(name));
    AdvanceKeepsOrder(s, OpenResultStep(s, w, ok), w);
  }

  lemma WriteResultKeepsOrder(s: State, w: nat, ok: bool, removed: bool)
    requires Placed(s) && InOrder(s) && Working(s, w) && s.workers[w].at.ResultWrite?
    ensures InOrder(WriteResultStep(s, w, ok, removed))
  {
    var at, name := s.workers[w].at, s.workers[w].name;
    assert WorkerOk(s, w);
    var t := WriteResultStep(s, w, ok, removed);
    ReportedProgress(s.log, s.results, at.payload, s.processing[name], TaskOf(name));
    ErrorProgress(s.log, t.results, at, s.processing[name], TaskOf(name));
    AdvanceKeepsOrder(s, t, w);
  }

  lemma ClaimKeepsWorkers(s: State, w: nat, source: string, suffix: string)
    requires Placed(s) && InOrder(s) && ClaimStep(s, w, source, suffix) != s
    ensures OwnNames(ClaimStep(s, w, source, suffix))
    ensures forall v :: 0 <= v < |s.workers| && v != w ==> WorkerOk(ClaimStep(s, w, source, suffix), v)
  {
    var t, name := ClaimStep(s, w, source, suffix), ClaimedName(source, suffix);
    forall v | 0 <= v < |s.workers| && v != w ensures WorkerOk(t, v) && (t.workers[v].Busy? ==> t.workers[v].name != name) {
      assert WorkerOk(s, v);
      if s.workers[v].Busy? {
        assert s.workers[v].name in s.processing.Keys && s.workers[v].name in s.usedNames;
      }
    }
  }

  lemma ClaimKeepsOrder(s: State, w: nat, source: string, suffix: string)
    requires Placed(s) && InOrder(s)
    ensures InOrder(ClaimStep(s, w, source, suffix))
  {
    var t := ClaimStep(s, w, source, suffix);
    if t != s {
      var f := s.pending[source];
      assert f.id in Ids(s.pending) && f.id !in s.claims;
      NoEntries(s.log, f.id);
      ClaimKeepsWorkers(s, w, source, suffix);
      assert WorkerOk(t, w);
    }
  }

  lemma {:induction false} NoEntries(log: seq<Entry>, id: nat)
    requires forall i :: 0 <= i < |log| ==> log[i].file != id
    ensures PhasesOf(log, id) == []
  {
    if log != [] {
      NoEntries(log[..|log| - 1], id);
    }
  }

  lemma LeavingKeepsWorkers(s: State, t: State, w: nat)
    requires InOrder(s) && Working(s, w)
    requires t.workers == s.workers[w := Idle] && t.log == s.log && t.results == s.results
    requires t.processing == s.processing || t.processing == s.processing - {s.workers[w].name}
    ensures (forall v :: 0 <= v < |t.workers| ==> WorkerOk(t, v)) && OwnNames(t)
  {
    forall v | 0 <= v < |t.workers| ensures WorkerOk(t, v) {
      assert WorkerOk(s, v);
    }
  }

  lemma MoveDoneKeepsOrder(s: State, w: nat)
    requires Placed(s) && InOrder(s) && Working(s, w) && s.workers[w].at.MoveDone?
    ensures InOrder(MoveStep(s, w, true))
  {
    assert WorkerOk(s, w);
    LeavingKeepsWorkers(s, MoveStep(s, w, true), w);
  }

  lemma MoveFailedKeepsOrder(s: State, w: nat, ok: bool)
    requires Placed(s) && InOrder(s) && Working(s, w) && s.workers[w].at.MoveFailed?
    ensures InOrder(MoveStep(s, w, ok))
  {
    LeavingKeepsWorkers(s, MoveStep(s, w, ok), w);
  }

  lemma MoveKeepsOrder(s: State, w: nat, ok: bool)
    requires Placed(s) && InOrder(s) && Working(s, w)
    ensures InOrder(MoveStep(s, w, ok))
  {
    if s.workers[w].at.MoveDone? {
      if ok {
        MoveDoneKeepsOrder(s, w);
      } else {
        AdvanceKeepsOrder(s, MoveStep(s, w, ok), w);
      }
    } else if s.workers[w].at.MoveFailed? {
      MoveFailedKeepsOrder(s, w, ok);
    }
  }

  lemma StopKeepsOrder(s: State, w: nat, to: Worker)
    requires InOrder(s) && w < |s.workers| && !to.Busy?
    ensures InOrder(s.(workers := s.workers[w := to]))
  {
    var t := s.(workers := s.workers[w := to]);
    forall v | 0 <= v < |t.workers| ensures WorkerOk(t, v) {
      assert WorkerOk(s, v);
    }
  }

  lemma OutsideKeepsOrder(s: State, pending: Directory, submitted: set<nat>, locked: bool)
    requires InOrder(s)
    ensures InOrder(s.(pending := pending, submitted := submitted, auditLocked := locked))
  {
    var t := s.(pending := pending, submitted := submitted, auditLocked := locked);
    forall v | 0 <= v < |t.workers| ensures WorkerOk(t, v) {
      assert WorkerOk(s, v);
    }
  }

  lemma AuditKeepsOrder(s: State, e: Event)
    requires Placed(s) && InOrder(s) && (e.OpenAudit? || e.WriteAudit? || e.CloseAudit?) && Working(s, e.w)
    ensures InOrder(Step(s, e))
  {
    var at := s.workers[e.w].at;
    if e.OpenAudit? {
      if at.AuditOpen? { OpenAuditKeepsOrder(s, e.w, e.ok); }
    } else if e.WriteAudit? {
      if at.AuditWrite? { WriteAuditKeepsOrder(s, e.w, e.outcome); }
    } else {
      if at.AuditClose? { CloseAuditKeepsOrder(s, e.w, e.removed); }
    }
  }

  lemma TaskKeepsOrder(s: State, e: Event)
    requires Placed(s) && InOrder(s) && (e.CheckTask? || e.RunTask? || e.OpenResult? || e.WriteResult?) && Working(s, e.w)
    ensures InOrder(Step(s, e))
  {
    var at := s.workers[e.w].at;
    if e.CheckTask? {
      if at.Check? { CheckKeepsOrder(s, e.w, e.readable); }
    } else if e.RunTask? {
      if at.Execute? { ExecuteKeepsOrder(s, e.w, e.result); }
    } else if e.OpenResult? {
      if at.ResultOpen? { OpenResultKeepsOrder(s, e.w, e.ok); }
    } else {
      if at.ResultWrite? { WriteResultKeepsOrder(s, e.w, e.ok, e.removed); }
    }
  }

  lemma StepKeepsOrder(s: State, e: Event)
    requires Placed(s) && InOrder(s)
    ensures InOrder(Step(s, e))
  {
    if e.Crash? || e.Restart? {
      if e.w < |s.workers| {
        StopKeepsOrder(s, e.w, if e.Crash? then Crashed else Idle);
      }
    } else if e.RemoveStaleLock? || e.Submit? {
      var t := Step(s, e);
      OutsideKeepsOrder(s, t.pending, t.submitted, t.auditLocked);
    } else if e.Claim? {
      ClaimKeepsOrder(s, e.w, e.source, e.suffix);
    } else if Working(s, e.w) {
      if e.OpenAudit? || e.WriteAudit? || e.CloseAudit? {
        AuditKeepsOrder(s, e);
      } else if e.Move? {
        MoveKeepsOrder(s, e.w, e.ok);
      } else {
        TaskKeepsOrder(s, e);
      }
    }
  }

  lemma {:induction false} RunsKeepOrder(workers: nat, events: seq<Event>)
    ensures Placed(Run(Start(workers), events)) && InOrder(Run(Start(workers), events))
  {
    RunsPlace(workers, events);
    if events != [] {
      RunsKeepOrder(workers, events[..|events| - 1]);
      StepKeepsOrder(Run(Start(workers), events[..|events| - 1]), events[|events| - 1]);
    }
  }

  // ---- Main results ----

  // A file in done was valid under its own task id, the audit log holds exactly CLAIMED, STARTED and
  // COMPLETED for it in that order, and the result on disk is the one it reported.
  lemma DoneIsAudited(workers: nat, events: seq<Event>, name: string)
    requires name in Run(Start(workers), events).done
    ensures var s := Run(Start(workers), events); Finalised(s.log, s.results, s.done[name], TaskOf(name))
  {
    RunsKeepOrder(workers, events);
  }

  // ---- Names ----

  // The name of a claimed file begins with its submitted name, up to the ".json", and a dot.
  predicate ClaimedFrom(name: string, source: string) {
    IsJsonName(source) && Stem(source) + "." <= name
  }

  ghost predicate AllClaimedFrom(d: Directory) {
    forall n :: n in d ==> ClaimedFrom(n, d[n].source)
  }

  ghost predicate Sourced(pending: Directory, processing: Directory, done: Directory, failed: Directory) {
    && (forall n :: n in pending ==> pending[n].source == n)
    && AllClaimedFrom(processing) && AllClaimedFrom(done) && AllClaimedFrom(failed)
  }

  lemma ClaimKeepsSources(s: State, w: nat, source: string, suffix: string)
    requires Sourced(s.pending, s.processing, s.done, s.failed)
    ensures var t := ClaimStep(s, w, source, suffix); Sourced(t.pending, t.processing, t.done, t.failed)
  {
    if ClaimStep(s, w, source, suffix) != s {
      assert Stem(source) + "." <= ClaimedName(source, suffix);
    }
  }

  lemma FileKeepsSource(from: Directory, to: Directory, name: string)
    requires AllClaimedFrom(from) && AllClaimedFrom(to) && name in from
    ensures AllClaimedFrom(from - {name}) && AllClaimedFrom(to[name := from[name]])
  {}

  lemma MoveKeepsSources(s: State, w: nat, ok: bool)
    requires Sourced(s.pending, s.processing, s.done, s.failed) && Working(s, w)
    ensures var t := MoveStep(s, w, ok); Sourced(t.pending, t.processing, t.done, t.failed)
  {
    var name := s.workers[w].name;
    FileKeepsSource(s.processing, s.done, name);
    FileKeepsSource(s.processing, s.failed, name);
    if ok && s.workers[w].at.MoveDone? {
      assert MoveStep(s, w, ok).done == s.done[name := s.processing[name]];
    } else if ok && s.workers[w].at.MoveFailed? {
      assert MoveStep(s, w, ok).failed == s.failed[name := s.processing[name]];
    }
  }

  lemma {:induction false} RunsKeepSources(workers: nat, events: seq<Event>)
    ensures var s := Run(Start(workers), events); Sourced(s.pending, s.processing, s.done, s.failed)
  {
    if events != [] {
      var s, e := Run(Start(workers), events[..|events| - 1]), events[|events| - 1];
      RunsKeepSources(workers, events[..|events| - 1]);
      if e.Claim? {
        ClaimKeepsSources(s, e.w, e.source, e.suffix);
      } else if e.Move? {
        if Working(s, e.w) {
          MoveKeepsSources(s, e.w, e.ok);
        }
      } else if !e.Submit? {
        OtherStepsMoveNothing(s, e);
      }
    }
  }

  lemma ClaimedFromId(name: string, id: string)
    requires '.' !in id && ClaimedFrom(name, id + ".json")
    ensures id + "." <= name && TaskOf(name) == id
  {
    assert Stem(id + ".json") == id;
    assert name == id + "." + name[|id| + 1..];
    TaskOfSplits(id, name[|id| + 1..]);
  }

  // From the submitted name to the result: a file submitted as id.json that reached done was a valid
  // document of that id, the result under that id is its own, and its three log lines, in order, name
  // that id.
  lemma DoneUnderItsId(workers: nat, events: seq<Event>, name: string, id: string)
    requires '.' !in id && name in Run(Start(workers), events).done
    requires Run(Start(workers), events).done[name].source == id + ".json"
    ensures var s := Run(Start(workers), events);
            var f := s.done[name];
      && id + "." <= name && f.size <= 65536 && f.content.Some? && ValidTask(f.content.value, id)
      && id in s.results && s.results[id].Full? && s.results[id].owner == f.id && s.results[id].payload.Finished?
      && PhasesOf(s.log, f.id) == [Claimed, Started, Completed(s.results[id].payload.detail)]
      && (forall i :: 0 <= i < |s.log| && s.log[i].file == f.id ==> s.log[i].task == id)
  {
    DoneIsAudited(workers, events, name);
    RunsKeepSources(workers, events);
    ClaimedFromId(name, id);
  }

  // For each task id at most one file ever reaches done.
  lemma AtMostOneDone(workers: nat, events: seq<Event>, m: string, n: string)
    requires var s := Run(Start(workers), events); m in s.done && n in s.done && TaskOf(m) == TaskOf(n)
    ensures m == n
  {
    RunsKeepOrder(workers, events);
  }

  ghost predicate HasResult(s: State, task: string, r: ResultFile) {
    task in s.results && s.results[task] == r
  }

  lemma NextStepKeepsResult(workers: nat, events: seq<Event>, task: string, r: ResultFile)
    requires events != [] && r.Full? && HasResult(Run(Start(workers), events[..|events| - 1]), task, r)
    ensures HasResult(Run(Start(workers), events), task, r)
  {
    var s := Run(Start(workers), events[..|events| - 1]);
    RunsKeepOrder(workers, events[..|events| - 1]);
    FullResultsStay(s, events[|events| - 1], task);
  }

  // A completely written result is never replaced, changed or removed by any later step.
  lemma {:induction false} ResultsNeverChange(workers: nat, events: seq<Event>, more: seq<Event>, task: string, r: ResultFile)
    requires r.Full? && HasResult(Run(Start(workers), events), task, r)
    ensures HasResult(Run(Start(workers), events + more), task, r)
  {
    if more == [] {
      assert events + more == events;
    } else {
      var before := more[..|more| - 1];
      assert (events + more)[..|events + more| - 1] == events + before;
      ResultsNeverChange(workers, events, before, task, r);
      NextStepKeepsResult(workers, events + more, task, r);
    }
  }

  lemma FullResultsStay(s: State, e: Event, task: string)
    requires InOrder(s) && task in s.results && s.results[task].Full?
    ensures task in Step(s, e).results && Step(s, e).results[task] == s.results[task]
  {
    match e
    case OpenResult(w, ok) => if Working(s, w) { OpenResultKeepsFull(s, w, ok, task); }
    case WriteResult(w, ok, removed) => if Working(s, w) { WriteResultKeepsFull(s, w, ok, removed, task); }
    case OpenAudit(w, ok) =>
    case WriteAudit(w, outcome) =>
    case CloseAudit(w, removed) =>
    case _ =>
  }

  lemma OpenResultKeepsFull(s: State, w: nat, ok: bool, task: string)
    requires Working(s, w) && task in s.results
    ensures task in OpenResultStep(s, w, ok).results && OpenResultStep(s, w, ok).results[task] == s.results[task]
  {}

  // A worker only writes or removes a result file that is still its own partial one.
  lemma WriteResultKeepsFull(s: State, w: nat, ok: bool, removed: bool, task: string)
    requires InOrder(s) && Working(s, w) && task in s.results && s.results[task].Full?
    ensures task in WriteResultStep(s, w, ok, removed).results
    ensures WriteResultStep(s, w, ok, removed).results[task] == s.results[task]
  {
    assert WorkerOk(s, w);
  }

  // ---- The audit lock ----

  ghost predicate AuditExclusive(s: State) {
    && (forall w :: 0 <= w < |s.workers| && HoldsAudit(s.workers[w]) ==> s.auditLocked)
    && (forall v, w ::
          (0 <= v < |s.workers| && 0 <= w < |s.workers| && HoldsAudit(s.workers[v]) && HoldsAudit(s.workers[w])) ==> v == w)
  }

  lemma OneWorkerChanges(s: State, t: State, w: nat)
    requires AuditExclusive(s) && w < |s.workers| && |t.workers| == |s.workers|
    requires t.workers == s.workers[w := t.workers[w]]
    requires HoldsAudit(t.workers[w]) ==> t.auditLocked && (HoldsAudit(s.workers[w]) || !s.auditLocked)
    requires s.auditLocked && !t.auditLocked ==> HoldsAudit(s.workers[w])
    ensures AuditExclusive(t)
  {}

  lemma OpenAuditExclusive(s: State, w: nat, ok: bool)
    requires AuditExclusive(s) && Working(s, w) && s.workers[w].at.AuditOpen?
    ensures AuditExclusive(OpenAuditStep(s, w, ok))
  {
    OneWorkerChanges(s, OpenAuditStep(s, w, ok), w);
  }

  lemma WriteAuditExclusive(s: State, w: nat, outcome: AuditOutcome)
    requires AuditExclusive(s) && Working(s, w) && s.workers[w].at.AuditWrite?
    ensures AuditExclusive(WriteAuditStep(s, w, outcome))
  {
    OneWorkerChanges(s, WriteAuditStep(s, w, outcome), w);
  }

  lemma CloseAuditExclusive(s: State, w: nat, removed: bool)
    requires AuditExclusive(s) && Working(s, w) && s.workers[w].at.AuditClose?
    ensures AuditExclusive(CloseAuditStep(s, w, removed))
  {
    OneWorkerChanges(s, CloseAuditStep(s, w, removed), w);
  }

  // The other steps of a worker touch neither the lock nor the holder.
  lemma OpenResultExclusive(s: State, w: nat, ok: bool)
    requires AuditExclusive(s) && Working(s, w) && s.workers[w].at.ResultOpen?
    ensures AuditExclusive(OpenResultStep(s, w, ok))
  {
    OneWorkerChanges(s, OpenResultStep(s, w, ok), w);
  }

  lemma WriteResultExclusive(s: State, w: nat, ok: bool, removed: bool)
    requires AuditExclusive(s) && Working(s, w) && s.workers[w].at.ResultWrite?
    ensures AuditExclusive(WriteResultStep(s, w, ok, removed))
  {
    OneWorkerChanges(s, WriteResultStep(s, w, ok, removed), w);
  }

  lemma CheckExclusive(s: State, w: nat, readable: bool)
    requires AuditExclusive(s) && Working(s, w) && s.workers[w].at.Check?
    ensures AuditExclusive(CheckStep(s, w, readable))
  {
    OneWorkerChanges(s, CheckStep(s, w, readable), w);
  }

  lemma ExecuteExclusive(s: State, w: nat, result: Option<Json>)
    requires AuditExclusive(s) && Working(s, w) && s.workers[w].at.Execute?
    ensures AuditExclusive(ExecuteStep(s, w, result))
  {
    OneWorkerChanges(s, ExecuteStep(s, w, result), w);
  }

  lemma MoveStepExclusive(s: State, w: nat, ok: bool)
    requires AuditExclusive(s) && Working(s, w)
    ensures AuditExclusive(MoveStep(s, w, ok))
  {
    if MoveStep(s, w, ok) != s {
      OneWorkerChanges(s, MoveStep(s, w, ok), w);
    }
  }

  lemma StopExclusive(s: State, e: Event)
    requires AuditExclusive(s) && (e.Crash? || e.Restart? || e.Claim?)
    ensures AuditExclusive(Step(s, e))
  {
    if e.w < |s.workers| && Step(s, e) != s {
      OneWorkerChanges(s, Step(s, e), e.w);
    }
  }

  lemma WorkerStepExclusive(s: State, e: Event)
    requires AuditExclusive(s) && !e.Submit? && !e.RemoveStaleLock? && !e.Crash? && !e.Restart? && !e.Claim?
    requires Working(s, e.w)
    ensures AuditExclusive(Step(s, e))
  {
    var at := s.workers[e.w].at;
    match e
    case OpenAudit(w, ok) => if at.AuditOpen? { OpenAuditExclusive(s, w, ok); }
    case WriteAudit(w, outcome) => if at.AuditWrite? { WriteAuditExclusive(s, w, outcome); }
    case CloseAudit(w, removed) => if at.AuditClose? { CloseAuditExclusive(s, w, removed); }
    case CheckTask(w, readable) => if at.Check? { CheckExclusive(s, w, readable); }
    case RunTask(w, result) => if at.Execute? { ExecuteExclusive(s, w, result); }
    case OpenResult(w, ok) => if at.ResultOpen? { OpenResultExclusive(s, w, ok); }
    case WriteResult(w, ok, removed) => if at.ResultWrite? { WriteResultExclusive(s, w, ok, removed); }
    case Move(w, ok) => MoveStepExclusive(s, w, ok);
  }

  // In every run at most one worker is between creating and removing the audit lock file.
  lemma {:induction false} RunsAreExclusive(workers: nat, events: seq<Event>)
    ensures AuditExclusive(Run(Start(workers), events))
  {
    if events != [] {
      var s, e := Run(Start(workers), events[..|events| - 1]), events[|events| - 1];
      RunsAreExclusive(workers, events[..|events| - 1]);
      if e.Crash? || e.Restart? || e.Claim? {
        StopExclusive(s, e);
      } else if !e.Submit? && !e.RemoveStaleLock? && Working(s, e.w) {
        WorkerStepExclusive(s, e);
      }
    }
  }
}
