// One worker's own control flow: claim_one, atomic_result, append_audit and process_one as methods on
// the queue's files, each proved to be a run of the work queue's machine.
module QueueWorker {
  import opened Wrappers
  import opened Text
  import opened JsonText
  import opened WorkQueue

  // How the I/O of one audit append, one result file, and one task goes.
  datatype AuditEnv = AuditEnv(created: bool, outcome: AuditOutcome, removed: bool)
  datatype ResultEnv = ResultEnv(created: bool, written: bool, removed: bool)
  datatype TaskEnv = TaskEnv(claimed: AuditEnv, readable: bool, started: AuditEnv, result: Option<Json>,
                             written: ResultEnv, completed: AuditEnv, moved: bool,
                             noted: ResultEnv, failed: AuditEnv, movedFailed: bool)

  // How os.rename of one listed file goes when the file is there: refused because the target exists,
  // or, there or not, another error.
  datatype Rename = Renames | TargetExists | RenameError

  // claim_one found nothing, raised, or moved a file to this name.
  datatype ClaimResult = NoTask | ClaimRaised | Took(name: string)

  function AuditEvents(env: AuditEnv): seq<Event> {
    [OpenAudit(0, env.created), WriteAudit(0, env.outcome), CloseAudit(0, env.removed)]
  }

  function ResultEvents(env: ResultEnv): seq<Event> {
    [OpenResult(0, env.created), WriteResult(0, env.written, env.removed)]
  }

  // ---- Runs ----

  lemma {:induction false} RunConcat(s: State, a: seq<Event>, b: seq<Event>)
    ensures Run(s, a + b) == Run(Run(s, a), b)
  {
    if b == [] {
      assert a + b == a;
    } else {
      assert (a + b)[..|a + b| - 1] == a + b[..|b| - 1];
      RunConcat(s, a, b[..|b| - 1]);
    }
  }

  lemma RunOne(s: State, e: Event)
    ensures Run(s, [e]) == Step(s, e)
  {
    assert [e][..0] == [];
  }

  lemma RunTwo(s: State, e: Event, f: Event)
    ensures Run(s, [e, f]) == Step(Step(s, e), f)
  {
    RunOne(s, e);
    assert [e, f][..1] == [e];
  }

  lemma RunThree(s: State, e: Event, f: Event, g: Event)
    ensures Run(s, [e, f, g]) == Step(Step(Step(s, e), f), g)
  {
    RunTwo(s, e, f);
    assert [e, f, g][..2] == [e, f];
  }

  // ---- One operation without interruption ----

  predicate Alone(s: State, at: Point, name: string) {
    s.workers == [Busy(at, name)] && name in s.processing
  }

  function At(s: State, at: Point, name: string): State {
    s.(workers := [Busy(at, name)])
  }

  lemma OpenAuditAlone(s: State, phase: Phase, name: string, ok: bool)
    requires Alone(s, AuditOpen(phase), name)
    ensures Step(s, OpenAudit(0, ok)) ==
      if ok && !s.auditLocked then At(s.(auditLocked := true), AuditWrite(phase), name)
      else At(s, AfterError(AuditOpen(phase)), name)
  {}

  lemma WriteAuditAlone(s: State, phase: Phase, name: string, outcome: AuditOutcome)
    requires Alone(s, AuditWrite(phase), name)
    ensures Step(s, WriteAudit(0, outcome))
         == At(s.(log := Logged(s.log, phase, TaskOf(name), s.processing[name].id, outcome)),
               AuditClose(phase, !outcome.Appended?), name)
  {}

  lemma CloseAuditAlone(s: State, phase: Phase, failed: bool, name: string, removed: bool)
    requires Alone(s, AuditClose(phase, failed), name)
    ensures Step(s, CloseAudit(0, removed))
         == At(s.(auditLocked := s.auditLocked && !removed),
               if removed && !failed then AfterAudit(phase) else AfterError(AuditOpen(phase)), name)
  {}

  lemma AuditIgnored(s: State, at: Point, name: string, outcome: AuditOutcome, removed: bool)
    requires Alone(s, at, name) && !at.AuditWrite? && !at.AuditClose?
    ensures Step(s, WriteAudit(0, outcome)) == s && Step(s, CloseAudit(0, removed)) == s
  {}

  lemma OpenResultAlone(s: State, payload: Payload, name: string, ok: bool)
    requires Alone(s, ResultOpen(payload), name)
    ensures Step(s, OpenResult(0, ok)) ==
      if ok && IsTaskId(TaskOf(name)) && TaskOf(name) !in s.results
      then At(s.(results := s.results[TaskOf(name) := Partial(s.processing[name].id)]), ResultWrite(payload), name)
      else At(s, AfterError(ResultOpen(payload)), name)
  {}

  lemma WriteResultAlone(s: State, payload: Payload, name: string, ok: bool, removed: bool)
    requires Alone(s, ResultWrite(payload), name)
    ensures Step(s, WriteResult(0, ok, removed)) ==
      if ok then At(s.(results := s.results[TaskOf(name) := Full(s.processing[name].id, payload)]), ReportAt(payload), name)
      else At(s.(results := if removed then s.results - {TaskOf(name)} else s.results), AfterError(ResultOpen(payload)), name)
  {}

  lemma WriteResultIgnored(s: State, at: Point, name: string, ok: bool, removed: bool)
    requires Alone(s, at, name) && !at.ResultWrite?
    ensures Step(s, WriteResult(0, ok, removed)) == s
  {}

  lemma AuditRefused(s: State, phase: Phase, name: string, env: AuditEnv)
    requires Alone(s, AuditOpen(phase), name) && (!env.created || s.auditLocked)
    ensures Run(s, AuditEvents(env)) == At(s, AfterError(AuditOpen(phase)), name)
  {
    RunThree(s, OpenAudit(0, env.created), WriteAudit(0, env.outcome), CloseAudit(0, env.removed));
    OpenAuditAlone(s, phase, name, env.created);
    AuditIgnored(At(s, AfterError(AuditOpen(phase)), name), AfterError(AuditOpen(phase)), name, env.outcome, env.removed);
  }

  function Logged(log: seq<Entry>, phase: Phase, task: string, id: nat, outcome: AuditOutcome): seq<Entry> {
    if outcome.NotAppended? then log else log + [Entry(phase, task, id)]
  }

  lemma AuditWritten(s: State, phase: Phase, name: string, env: AuditEnv)
    requires Alone(s, AuditOpen(phase), name) && env.created && !s.auditLocked
    ensures Run(s, AuditEvents(env)) ==
      At(s.(auditLocked := !env.removed, log := Logged(s.log, phase, TaskOf(name), s.processing[name].id, env.outcome)),
         if env.outcome.Appended? && env.removed then AfterAudit(phase) else AfterError(AuditOpen(phase)), name)
  {
    RunThree(s, OpenAudit(0, env.created), WriteAudit(0, env.outcome), CloseAudit(0, env.removed));
    OpenAuditAlone(s, phase, name, env.created);
    var s1 := At(s.(auditLocked := true), AuditWrite(phase), name);
    WriteAuditAlone(s1, phase, name, env.outcome);
    CloseAuditAlone(Step(s1, WriteAudit(0, env.outcome)), phase, !env.outcome.Appended?, name, env.removed);
  }

  lemma ResultRefused(s: State, payload: Payload, name: string, env: ResultEnv)
    requires Alone(s, ResultOpen(payload), name)
    requires !env.created || !IsTaskId(TaskOf(name)) || TaskOf(name) in s.results
    ensures Run(s, ResultEvents(env)) == At(s, AfterError(ResultOpen(payload)), name)
  {
    RunTwo(s, OpenResult(0, env.created), WriteResult(0, env.written, env.removed));
    OpenResultAlone(s, payload, name, env.created);
    WriteResultIgnored(At(s, AfterError(ResultOpen(payload)), name), AfterError(ResultOpen(payload)), name, env.written, env.removed);
  }

  lemma ResultCreated(s: State, payload: Payload, name: string, env: ResultEnv)
    requires Alone(s, ResultOpen(payload), name)
    requires env.created && IsTaskId(TaskOf(name)) && TaskOf(name) !in s.results
    ensures Run(s, ResultEvents(env)) ==
      At(s.(results := AfterWrite(s.results, TaskOf(name), s.processing[name].id, payload, env)),
         if env.written then ReportAt(payload) else AfterError(ResultOpen(payload)), name)
  {
    RunTwo(s, OpenResult(0, env.created), WriteResult(0, env.written, env.removed));
    OpenResultAlone(s, payload, name, env.created);
    var task, id := TaskOf(name), s.processing[name].id;
    WriteResultAlone(At(s.(results := s.results[task := Partial(id)]), ResultWrite(payload), name), payload, name, env.written, env.removed);
    assert s.results[task := Partial(id)][task := Full(id, payload)] == s.results[task := Full(id, payload)];
    assert s.results[task := Partial(id)] - {task} == s.results;
  }

  predicate ResultOk(results: map<string, ResultFile>, task: string, env: ResultEnv) {
    env.created && IsTaskId(task) && task !in results && env.written
  }

  function AfterResult(results: map<string, ResultFile>, task: string, id: nat, payload: Payload, env: ResultEnv): map<string, ResultFile> {
    if env.created && IsTaskId(task) && task !in results then AfterWrite(results, task, id, payload, env) else results
  }

  lemma ResultRun(s: State, payload: Payload, name: string, env: ResultEnv)
    requires Alone(s, ResultOpen(payload), name)
    ensures Run(s, ResultEvents(env)) ==
      At(s.(results := AfterResult(s.results, TaskOf(name), s.processing[name].id, payload, env)),
         if ResultOk(s.results, TaskOf(name), env) then ReportAt(payload) else AfterError(ResultOpen(payload)), name)
  {
    if env.created && IsTaskId(TaskOf(name)) && TaskOf(name) !in s.results {
      ResultCreated(s, payload, name, env);
    } else {
      ResultRefused(s, payload, name, env);
    }
  }

  lemma CheckStep(s: State, name: string, readable: bool)
    requires Alone(s, Check, name)
    ensures Step(s, CheckTask(0, readable)) ==
      At(s, if readable && Acceptable(s.processing[name], TaskOf(name)) then AuditOpen(Started) else ResultOpen(FailureNote), name)
  {}

  lemma CheckAlone(s: State, name: string, readable: bool)
    requires Alone(s, Check, name)
    ensures Run(s, [CheckTask(0, readable)]) ==
      At(s, if readable && Acceptable(s.processing[name], TaskOf(name)) then AuditOpen(Started) else ResultOpen(FailureNote), name)
  {
    RunOne(s, CheckTask(0, readable));
    CheckStep(s, name, readable);
  }

  lemma ExecuteAlone(s: State, name: string, result: Option<Json>)
    requires Alone(s, Execute, name)
    ensures Run(s, [RunTask(0, result)]) ==
      At(s, if result.Some? then ResultOpen(Finished(result.value)) else ResultOpen(FailureNote), name)
  {
    RunOne(s, RunTask(0, result));
  }

  lemma MoveDoneStep(s: State, detail: Json, name: string, ok: bool)
    requires Alone(s, MoveDone(detail), name)
    ensures Step(s, Move(0, ok)) ==
      if ok then s.(processing := s.processing - {name}, done := s.done[name := s.processing[name]], workers := [Idle])
      else At(s, ResultOpen(FailureNote), name)
  {}

  lemma MoveDoneAlone(s: State, detail: Json, name: string, ok: bool)
    requires Alone(s, MoveDone(detail), name)
    ensures Run(s, [Move(0, ok)]) ==
      if ok then s.(processing := s.processing - {name}, done := s.done[name := s.processing[name]], workers := [Idle])
      else At(s, ResultOpen(FailureNote), name)
  {
    RunOne(s, Move(0, ok));
    MoveDoneStep(s, detail, name, ok);
  }

  lemma MoveFailedStep(s: State, name: string, ok: bool)
    requires Alone(s, MoveFailed, name)
    ensures Step(s, Move(0, ok)) ==
      if ok then s.(processing := s.processing - {name}, failed := s.failed[name := s.processing[name]], workers := [Idle])
      else s.(workers := [Idle])
  {}

  lemma MoveFailedAlone(s: State, name: string, ok: bool)
    requires Alone(s, MoveFailed, name)
    ensures Run(s, [Move(0, ok)]) ==
      if ok then s.(processing := s.processing - {name}, failed := s.failed[name := s.processing[name]], workers := [Idle])
      else s.(workers := [Idle])
  {
    RunOne(s, Move(0, ok));
    MoveFailedStep(s, name, ok);
  }

  predicate AuditOk(env: AuditEnv) {
    env.created && env.outcome.Appended? && env.removed
  }

  // The task was found valid, its claim and start are logged, and it ran.
  predicate Executes(s: State, name: string, env: TaskEnv)
    requires name in s.processing
  {
    && !s.auditLocked && AuditOk(env.claimed) && env.readable && Acceptable(s.processing[name], TaskOf(name))
    && AuditOk(env.started) && env.result.Some?
  }

  // Everything process_one needs to bring a task to done.
  predicate Succeeds(s: State, name: string, env: TaskEnv)
    requires name in s.processing
  {
    && Executes(s, name, env) && TaskOf(name) !in s.results && env.written.created && env.written.written
    && AuditOk(env.completed) && env.moved
  }

  function StartLines(task: string, id: nat): seq<Entry> {
    [Entry(Claimed, task, id), Entry(Started, task, id)]
  }

  function DoneLines(task: string, id: nat, detail: Json): seq<Entry> {
    [Entry(Claimed, task, id), Entry(Started, task, id), Entry(Completed(detail), task, id)]
  }

  // Every audit append that gets as far as removing its lock file succeeds in that.
  predicate LocksRemoved(env: TaskEnv) {
    env.claimed.removed && env.started.removed && env.completed.removed
  }

  // Where a claimed file ended: in done exactly when everything succeeded, with its three log lines and
  // its result, else in failed, unless that last rename failed too, with a failure line if the log could
  // be written, and a failure result if that could be and the task had not run; another submission's
  // result is left alone.
  predicate Outcome(s: State, t: State, name: string, env: TaskEnv)
    requires name in s.processing
  {
    var file, task := s.processing[name], TaskOf(name);
    if Succeeds(s, name, env) then
      && name in t.done && t.done[name] == file
      && t.log == s.log + DoneLines(task, file.id, env.result.value)
      && t.results == s.results[task := Full(file.id, Finished(env.result.value))]
    else
      && t.done == s.done
      && (if env.movedFailed then name in t.failed && t.failed[name] == file
          else name in t.processing && t.processing[name] == file)
      && (!s.auditLocked && LocksRemoved(env) && AuditOk(env.failed) ==>
            t.log != [] && t.log[|t.log| - 1] == Entry(Failed, task, file.id))
      && (!Executes(s, name, env) && IsTaskId(task) && task !in s.results && env.noted.created && env.noted.written ==>
            t.results == s.results[task := Full(file.id, FailureNote)])
      && (task in s.results ==> t.results == s.results)
  }

  // From the submitted name to the result: a valid document submitted as id.json, when every step of its
  // processing works, ends in done under a name that begins with the id and a dot, its result under the
  // id, and its three lines, which name the id, at the end of the log.
  lemma SubmittedIsDone(s: State, t: State, id: string, suffix: string, env: TaskEnv)
    requires IsTaskId(id) && id + ".json" in s.pending && |s.workers| == 1 && s.workers[0].Idle?
    requires ClaimedName(id + ".json", suffix) !in s.usedNames && !s.auditLocked && id !in s.results
    requires var f := s.pending[id + ".json"]; f.size <= 65536 && f.content.Some? && ValidTask(f.content.value, id)
    requires AuditOk(env.claimed) && env.readable && AuditOk(env.started) && env.result.Some?
    requires env.written.created && env.written.written && AuditOk(env.completed) && env.moved
    requires var claimed := ClaimStep(s, 0, id + ".json", suffix); var name := ClaimedName(id + ".json", suffix);
      name in claimed.processing && Outcome(claimed, t, name, env)
    ensures var name, f := ClaimedName(id + ".json", suffix), s.pending[id + ".json"];
      && id + "." <= name && name in t.done && t.done[name] == f
      && t.results == s.results[id := Full(f.id, Finished(env.result.value))]
      && t.log == s.log + [Entry(Claimed, id, f.id), Entry(Started, id, f.id), Entry(Completed(env.result.value), id, f.id)]
  {
    TaskIdsHaveNoDot(id);
    ClaimedUnderItsId(id, suffix);
  }

  // claim_one passes over the j-th listed file: it is gone, or its target exists.
  predicate Skips(s: State, listing: seq<string>, rename: nat -> Rename, j: nat)
    requires j < |listing|
  {
    !rename(j).RenameError? && (listing[j] !in s.pending || rename(j).TargetExists?)
  }

  // The i-th listed file is the first it does not pass over.
  predicate StopsAt(s: State, listing: seq<string>, rename: nat -> Rename, i: nat) {
    i < |listing| && !Skips(s, listing, rename, i) && forall j :: 0 <= j < i ==> Skips(s, listing, rename, j)
  }

  // That file is claimed under this name.
  predicate ClaimsAt(s: State, listing: seq<string>, rename: nat -> Rename, i: nat, suffix: nat -> string, name: string) {
    && StopsAt(s, listing, rename, i) && !rename(i).RenameError? && |s.workers| == 1 && IsJsonName(listing[i])
    && name == ClaimedName(listing[i], suffix(i)) && name in ClaimStep(s, 0, listing[i], suffix(i)).processing
  }

  function ReportAt(payload: Payload): Point {
    AuditOpen(if payload.Finished? then Completed(payload.detail) else Failed)
  }

  function AfterWrite(results: map<string, ResultFile>, task: string, id: nat, payload: Payload, env: ResultEnv): map<string, ResultFile>
    requires task !in results
  {
    if env.written then results[task := Full(id, payload)]
    else if env.removed then results
    else results[task := Partial(id)]
  }

  // A trace continued from the state it reached.
  ghost function Then(s: State, trace: seq<Event>, t: State, more: seq<Event>): (r: seq<Event>)
    requires Run(s, trace) == t
    ensures Run(s, r) == Run(t, more)
  {
    RunConcat(s, trace, more);
    trace + more
  }

  // ---- The worker ----

  class TaskWorker {
    var pending: Directory
    var processing: Directory
    var done: Directory
    var failed: Directory
    var results: map<string, ResultFile>
    var auditLocked: bool
    var log: seq<Entry>
    ghost var submitted: set<nat>
    ghost var claims: seq<nat>
    ghost var usedNames: set<string>

    constructor ()
      ensures Abs(Idle) == Start(1)
    {
      pending, processing, done, failed, results := map[], map[], map[], map[], map[];
      auditLocked, log := false, [];
      submitted, claims, usedNames := {}, [], {};
    }

    // The machine's state with this worker, the only one, at the given point.
    ghost function Abs(worker: Worker): State
      reads this
    {
      State(pending, processing, done, failed, results, auditLocked, log, [worker], submitted, claims, usedNames)
    }

    // Rename the first listed file that is still pending.
    method ClaimOne(listing: seq<string>, suffix: nat -> string, rename: nat -> Rename)
      returns (r: ClaimResult, ghost trace: seq<Event>)
      requires forall i :: 0 <= i < |listing| ==> IsJsonName(listing[i]) && ClaimedName(listing[i], suffix(i)) !in usedNames
      modifies this
      ensures !r.Took? ==> trace == [] && Abs(Idle) == old(Abs(Idle))
      ensures r.NoTask? <==> old(forall j :: 0 <= j < |listing| ==> Skips(Abs(Idle), listing, rename, j))
      ensures r.ClaimRaised? ==> exists i :: old(StopsAt(Abs(Idle), listing, rename, i)) && rename(i).RenameError?
      ensures r.Took? ==>
        && r.name in processing && Abs(Busy(AuditOpen(Claimed), r.name)) == Run(old(Abs(Idle)), trace)
        && exists i :: 0 <= i < |listing| && ClaimsAt(old(Abs(Idle)), listing, rename, i, suffix, r.name)
             && Abs(Busy(AuditOpen(Claimed), r.name)) == ClaimStep(old(Abs(Idle)), 0, listing[i], suffix(i))
    {
      r, trace := NoTask, [];
      for i := 0 to |listing|
        invariant r.NoTask? && trace == [] && Abs(Idle) == old(Abs(Idle))
        invariant forall j :: 0 <= j < i ==> Skips(Abs(Idle), listing, rename, j)
      {
        var source := listing[i];
        if rename(i).RenameError? {
          assert StopsAt(old(Abs(Idle)), listing, rename, i);
          return ClaimRaised, [];
        }
        if source in pending && rename(i).Renames? {
          var name := ClaimedName(source, suffix(i));
          trace := [Claim(0, source, suffix(i))];
          RunOne(old(Abs(Idle)), trace[0]);
          assert ClaimStep(old(Abs(Idle)), 0, source, suffix(i)).processing == processing[name := pending[source]];
          assert !Skips(old(Abs(Idle)), listing, rename, i);
          assert ClaimsAt(old(Abs(Idle)), listing, rename, i, suffix, name);
          claims, usedNames := claims + [pending[source].id], usedNames + {name};
          processing := processing[name := pending[source]];
          pending := pending - {source};
          r := Took(name);
          return;
        }
      }
    }

    // Append one audit line under the lock file.
    method AppendAudit(phase: Phase, name: string, env: AuditEnv) returns (ok: bool)
      requires name in processing
      modifies this`auditLocked, this`log
      ensures Abs(Busy(if ok then AfterAudit(phase) else AfterError(AuditOpen(phase)), name))
           == Run(old(Abs(Busy(AuditOpen(phase), name))), AuditEvents(env))
      ensures ok <==> env.created && !old(auditLocked) && env.outcome.Appended? && env.removed
      ensures log == if env.created && !old(auditLocked)
                     then Logged(old(log), phase, TaskOf(name), processing[name].id, env.outcome) else old(log)
      ensures auditLocked == (old(auditLocked) || (env.created && !env.removed))
    {
      ghost var s := Abs(Busy(AuditOpen(phase), name));
      if env.created && !auditLocked {
        AuditWritten(s, phase, name, env);
      } else {
        AuditRefused(s, phase, name, env);
      }
      if !env.created || auditLocked {
        return false;
      }
      auditLocked := true;
      if !env.outcome.NotAppended? {
        log := log + [Entry(phase, TaskOf(name), processing[name].id)];
      }
      if env.removed {
        auditLocked := false;
      }
      ok := env.outcome.Appended? && env.removed;
    }

    // Create the task's result file exclusively and write it; on an error, remove it again.
    method AtomicResult(name: string, payload: Payload, env: ResultEnv) returns (ok: bool)
      requires name in processing
      modifies this`results
      ensures Abs(Busy(if ok then ReportAt(payload) else AfterError(ResultOpen(payload)), name))
           == Run(old(Abs(Busy(ResultOpen(payload), name))), ResultEvents(env))
      ensures ok <==> ResultOk(old(results), TaskOf(name), env)
      ensures results == AfterResult(old(results), TaskOf(name), processing[name].id, payload, env)
    {
      ghost var s := Abs(Busy(ResultOpen(payload), name));
      ResultRun(s, payload, name, env);
      var task := TaskOf(name);
      if !IsTaskId(task) || !env.created || task in results {
        return false;
      }
      results := results[task := Partial(processing[name].id)];
      ok := env.written;
      if ok {
        results := results[task := Full(processing[name].id, payload)];
      } else if env.removed {
        results := results - {task};
      }
      assert results == AfterResult(old(results), task, processing[name].id, payload, env);
    }

    // The task is read and found valid.
    method CheckOne(name: string, readable: bool) returns (ok: bool)
      requires name in processing
      ensures ok <==> readable && Acceptable(processing[name], TaskOf(name))
    {
      var file := processing[name];
      if file.size > MAX_TASK_BYTES || !readable || file.content.None? {
        return false;
      }
      var r := ValidateTaskEnvelope(file.content.value, TaskOf(name));
      ok := r.Success?;
    }

    method MoveToDone(name: string, ghost detail: Json, moved: bool) returns (ok: bool)
      requires name in processing
      modifies this`processing, this`done
      ensures Abs(if ok then Idle else Busy(ResultOpen(FailureNote), name))
           == Run(old(Abs(Busy(MoveDone(detail), name))), [Move(0, moved)])
      ensures ok == moved
      ensures ok ==> processing == old(processing) - {name} && done == old(done)[name := old(processing)[name]]
      ensures !ok ==> processing == old(processing) && done == old(done)
    {
      MoveDoneAlone(Abs(Busy(MoveDone(detail), name)), detail, name, moved);
      if moved {
        done, processing := done[name := processing[name]], processing - {name};
      }
      ok := moved;
    }

    method MoveToFailed(name: string, moved: bool)
      requires name in processing
      modifies this`processing, this`failed
      ensures Abs(Idle) == Run(old(Abs(Busy(MoveFailed, name))), [Move(0, moved)])
      ensures processing == if moved then old(processing) - {name} else old(processing)
      ensures failed == if moved then old(failed)[name := old(processing)[name]] else old(failed)
    {
      MoveFailedAlone(Abs(Busy(MoveFailed, name)), name, moved);
      if moved {
        failed, processing := failed[name := processing[name]], processing - {name};
      }
    }

    // From the result on.
    method Complete(ghost s: State, ghost before: seq<Event>, name: string, detail: Json, env: TaskEnv)
      returns (raised: bool, ghost trace: seq<Event>)
      requires name in processing && !auditLocked
      requires Run(s, before) == Abs(Busy(AuditOpen(Completed(detail)), name))
      modifies this`auditLocked, this`log, this`processing, this`done
      ensures Run(s, trace) == Abs(if raised then Busy(ResultOpen(FailureNote), name) else Idle)
      ensures !raised <==> AuditOk(env.completed) && env.moved
      ensures !raised ==> log == old(log) + [Entry(Completed(detail), TaskOf(name), old(processing)[name].id)]
      ensures env.completed.removed ==> !auditLocked
      ensures raised ==> processing == old(processing) && done == old(done)
      ensures !raised ==> processing == old(processing) - {name} && done == old(done)[name := old(processing)[name]]
    {
      trace := Then(s, before, Abs(Busy(AuditOpen(Completed(detail)), name)), AuditEvents(env.completed));
      var ok := AppendAudit(Completed(detail), name, env.completed);
      if !ok {
        return true, trace;
      }
      trace := Then(s, trace, Abs(Busy(MoveDone(detail), name)), [Move(0, env.moved)]);
      ok := MoveToDone(name, detail, env.moved);
      raised := !ok;
    }

    // From execution on.
    method Finish(ghost s: State, ghost before: seq<Event>, name: string, env: TaskEnv)
      returns (raised: bool, ghost trace: seq<Event>)
      requires name in processing && Acceptable(processing[name], TaskOf(name)) && !auditLocked
      requires Run(s, before) == Abs(Busy(Execute, name))
      modifies this`auditLocked, this`log, this`results, this`processing, this`done
      ensures Run(s, trace) == Abs(if raised then Busy(ResultOpen(FailureNote), name) else Idle)
      ensures !raised <==>
        && env.result.Some? && TaskOf(name) !in old(results) && env.written.created && env.written.written
        && AuditOk(env.completed) && env.moved
      ensures !raised ==>
        && log == old(log) + [Entry(Completed(env.result.value), TaskOf(name), old(processing)[name].id)]
        && results == old(results)[TaskOf(name) := Full(old(processing)[name].id, Finished(env.result.value))]
      ensures env.result.None? || TaskOf(name) in old(results) ==> results == old(results)
      ensures env.completed.removed ==> !auditLocked
      ensures raised ==> processing == old(processing) && done == old(done)
      ensures !raised ==> processing == old(processing) - {name} && done == old(done)[name := old(processing)[name]]
    {
      trace := Then(s, before, Abs(Busy(Execute, name)), [RunTask(0, env.result)]);
      ExecuteAlone(Abs(Busy(Execute, name)), name, env.result);
      if env.result.None? {
        return true, trace;
      }
      var detail := env.result.value;
      trace := Then(s, trace, Abs(Busy(ResultOpen(Finished(detail)), name)), ResultEvents(env.written));
      var ok := AtomicResult(name, Finished(detail), env.written);
      if !ok {
        return true, trace;
      }
      raised, trace := Complete(s, trace, name, detail, env);
    }

    // The handler: a failure result and a TASK_FAILED line, each if possible, and the move to failed.
    method HandleFailure(ghost s: State, ghost before: seq<Event>, name: string, env: TaskEnv)
      returns (raised: bool, ghost trace: seq<Event>)
      requires name in processing && Run(s, before) == Abs(Busy(ResultOpen(FailureNote), name))
      modifies this`auditLocked, this`log, this`results, this`processing, this`failed
      ensures Run(s, trace) == Abs(Idle)
      ensures processing == if env.movedFailed then old(processing) - {name} else old(processing)
      ensures failed == if env.movedFailed then old(failed)[name := old(processing)[name]] else old(failed)
      ensures raised <==> old(auditLocked) || !AuditOk(env.failed)
      ensures log == if old(auditLocked) || !env.failed.created || env.failed.outcome.NotAppended? then old(log)
                     else old(log) + [Entry(Failed, TaskOf(name), old(processing)[name].id)]
      ensures IsTaskId(TaskOf(name)) && TaskOf(name) !in old(results) && env.noted.created && env.noted.written ==>
        results == old(results)[TaskOf(name) := Full(old(processing)[name].id, FailureNote)]
      ensures !IsTaskId(TaskOf(name)) || TaskOf(name) in old(results) ==> results == old(results)
    {
      trace := Then(s, before, Abs(Busy(ResultOpen(FailureNote), name)), ResultEvents(env.noted));
      var noted := AtomicResult(name, FailureNote, env.noted);
      raised, trace := LogFailure(s, trace, name, env);
    }

    // The TASK_FAILED line, and the move whether or not it was written.
    method LogFailure(ghost s: State, ghost before: seq<Event>, name: string, env: TaskEnv)
      returns (raised: bool, ghost trace: seq<Event>)
      requires name in processing && Run(s, before) == Abs(Busy(AuditOpen(Failed), name))
      modifies this`auditLocked, this`log, this`processing, this`failed
      ensures Run(s, trace) == Abs(Idle)
      ensures processing == if env.movedFailed then old(processing) - {name} else old(processing)
      ensures failed == if env.movedFailed then old(failed)[name := old(processing)[name]] else old(failed)
      ensures raised <==> old(auditLocked) || !AuditOk(env.failed)
      ensures log == if old(auditLocked) || !env.failed.created || env.failed.outcome.NotAppended? then old(log)
                     else old(log) + [Entry(Failed, TaskOf(name), old(processing)[name].id)]
    {
      trace := Then(s, before, Abs(Busy(AuditOpen(Failed), name)), AuditEvents(env.failed));
      var logged := AppendAudit(Failed, name, env.failed);
      trace := Then(s, trace, Abs(Busy(MoveFailed, name)), [Move(0, env.movedFailed)]);
      MoveToFailed(name, env.movedFailed);
      raised := !logged;
    }

    // Up to execution: the claim is logged, the task checked and its start logged.
    method Admit(name: string, env: TaskEnv) returns (ok: bool, ghost trace: seq<Event>)
      requires name in processing
      modifies this`auditLocked, this`log
      ensures Run(old(Abs(Busy(AuditOpen(Claimed), name))), trace) == Abs(Busy(if ok then Execute else ResultOpen(FailureNote), name))
      ensures ok <==>
        && !old(auditLocked) && AuditOk(env.claimed) && env.readable && Acceptable(processing[name], TaskOf(name))
        && AuditOk(env.started)
      ensures ok ==> !auditLocked && log == old(log) + StartLines(TaskOf(name), processing[name].id)
      ensures !old(auditLocked) && env.claimed.removed && env.started.removed ==> !auditLocked
    {
      ghost var s := Abs(Busy(AuditOpen(Claimed), name));
      ok := AppendAudit(Claimed, name, env.claimed);
      trace := AuditEvents(env.claimed);
      if ok {
        ok := CheckOne(name, env.readable);
        trace := Then(s, trace, Abs(Busy(Check, name)), [CheckTask(0, env.readable)]);
        CheckAlone(Abs(Busy(Check, name)), name, env.readable);
        if ok {
          trace := Then(s, trace, Abs(Busy(AuditOpen(Started), name)), AuditEvents(env.started));
          ok := AppendAudit(Started, name, env.started);
        }
      }
    }

    // The protected part of process_one.
    method Attempt(name: string, env: TaskEnv) returns (raised: bool, ghost trace: seq<Event>)
      requires name in processing
      modifies this`auditLocked, this`log, this`results, this`processing, this`done
      ensures Run(old(Abs(Busy(AuditOpen(Claimed), name))), trace)
           == Abs(if raised then Busy(ResultOpen(FailureNote), name) else Idle)
      ensures !raised <==> old(Succeeds(Abs(Idle), name, env))
      ensures !raised ==>
        && log == old(log) + DoneLines(TaskOf(name), old(processing)[name].id, env.result.value)
        && results == old(results)[TaskOf(name) := Full(old(processing)[name].id, Finished(env.result.value))]
      ensures old(!Executes(Abs(Idle), name, env)) || TaskOf(name) in old(results) ==> results == old(results)
      ensures !old(auditLocked) && LocksRemoved(env) ==> !auditLocked
      ensures raised ==> processing == old(processing) && done == old(done)
      ensures !raised ==> processing == old(processing) - {name} && done == old(done)[name := old(processing)[name]]
    {
      var ok;
      ok, trace := Admit(name, env);
      if !ok {
        return true, trace;
      }
      raised, trace := Finish(old(Abs(Busy(AuditOpen(Claimed), name))), trace, name, env);
    }

    // A claimed file's processing, with its handler: None when the handler's audit append raised.
    method WorkOn(name: string, env: TaskEnv) returns (worked: Option<bool>, ghost trace: seq<Event>)
      requires name in processing
      modifies this`auditLocked, this`log, this`results, this`processing, this`done, this`failed
      ensures Run(old(Abs(Busy(AuditOpen(Claimed), name))), trace) == Abs(Idle)
      ensures worked != Some(false) && Outcome(old(Abs(Idle)), Abs(Idle), name, env)
    {
      var raised;
      raised, trace := Attempt(name, env);
      worked := Some(true);
      if raised {
        raised, trace := HandleFailure(old(Abs(Busy(AuditOpen(Claimed), name))), trace, name, env);
        if raised {
          worked := None;
        }
      }
    }

    // One poll: whether a task was claimed, or None when claiming or the handler's audit append raised.
    method ProcessOne(listing: seq<string>, suffix: nat -> string, rename: nat -> Rename, env: TaskEnv)
      returns (worked: Option<bool>, claim: ClaimResult, ghost trace: seq<Event>)
      requires forall i :: 0 <= i < |listing| ==> IsJsonName(listing[i]) && ClaimedName(listing[i], suffix(i)) !in usedNames
      modifies this
      ensures Abs(Idle) == Run(old(Abs(Idle)), trace)
      ensures worked == Some(false) <==> claim.NoTask?
      ensures claim.NoTask? <==> old(forall j :: 0 <= j < |listing| ==> Skips(Abs(Idle), listing, rename, j))
      ensures claim.ClaimRaised? ==>
        worked.None? && Abs(Idle) == old(Abs(Idle))
        && exists i :: old(StopsAt(Abs(Idle), listing, rename, i)) && rename(i).RenameError?
      ensures claim.Took? ==>
        exists i :: 0 <= i < |listing| && ClaimsAt(old(Abs(Idle)), listing, rename, i, suffix, claim.name)
          && Outcome(ClaimStep(old(Abs(Idle)), 0, listing[i], suffix(i)), Abs(Idle), claim.name, env)
    {
      ghost var s := Abs(Idle);
      claim, trace := ClaimOne(listing, suffix, rename);
      if !claim.Took? {
        worked := if claim.NoTask? then Some(false) else None;
        return;
      }
      ghost var mid := Abs(Busy(AuditOpen(Claimed), claim.name));
      ghost var more;
      worked, more := WorkOn(claim.name, env);
      trace := Then(s, trace, mid, more);
    }
  }
}
