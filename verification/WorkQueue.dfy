// The file-based work queue (controller/worker.py): several workers claim tasks by renaming files,
// write results with create-exclusive, and share one audit log guarded by a lock file. The machine's
// steps are the file system operations, so workers interleave and crash between any two of them.
module WorkQueue {
  import opened Wrappers
  import opened Text
  import opened JsonText

  // ---- Task documents ----

  function AllowedFields(): set<string> {
    {"task_id", "action", "relative_path", "expected_sha256", "purpose", "expected_effect"}
  }

  function AllowedActions(): set<string> {
    {"health_snapshot", "sha256_file", "verify_sha256"}
  }

  const MAX_TASK_BYTES := 65536

  predicate IsTaskId(s: string) {
    1 <= |s| <= 80
    && forall c :: c in s ==> 'A' <= c <= 'Z' || 'a' <= c <= 'z' || IsDigit(c) || c == '_' || c == '-'
  }

  predicate OnlyKeys(ms: Members, allowed: set<string>) {
    match ms
    case NoMembers => true
    case Member(key, _, rest) => key in allowed && OnlyKeys(rest, allowed)
  }

  // A non-blank string of at most 500 characters once stripped.
  predicate IsNote(j: Json) {
    j.Str? && !Blank(j.s) && |Strip(j.s)| <= 500
  }

  predicate ValidTask(task: Json, taskId: string) {
    && task.Obj? && OnlyKeys(task.members, AllowedFields())
    && Field(task.members, "task_id") == Str(taskId) && IsTaskId(taskId)
    && Field(task.members, "action").Str? && Field(task.members, "action").s in AllowedActions()
    && IsNote(Field(task.members, "purpose")) && IsNote(Field(task.members, "expected_effect"))
  }

  // The characters of a task id, in full.
  lemma TaskIdMeaning(s: string)
    ensures IsTaskId(s) <==> 1 <= |s| <= 80 && forall c :: c in s ==> IsIdCharacter(c)
  {
    forall c: char
      ensures IsIdCharacter(c) <==> 'A' <= c <= 'Z' || 'a' <= c <= 'z' || '0' <= c <= '9' || c == '_' || c == '-'
    {
      Letters(c);
    }
  }

  predicate IsIdCharacter(c: char) {
    IsLetter(c) || c in "0123456789_-"
  }

  predicate IsLetter(c: char) {
    c in "ABCDEFGHIJKLMNOPQRSTUVWXYZ" || c in "abcdefghijklmnopqrstuvwxyz"
  }

  lemma Letters(c: char)
    ensures IsLetter(c) <==> 'A' <= c <= 'Z' || 'a' <= c <= 'z'
  {
    Upper(c);
    Lower(c);
  }

  lemma Upper(c: char)
    ensures c in "ABCDEFGHIJKLMNOPQRSTUVWXYZ" <==> 'A' <= c <= 'Z'
  {
    var letters := "ABCDEFGHIJKLMNOPQRSTUVWXYZ";
    assert 'A' <= c <= 'Z' ==> c == letters[c as int - 'A' as int];
  }

  lemma Lower(c: char)
    ensures c in "abcdefghijklmnopqrstuvwxyz" <==> 'a' <= c <= 'z'
  {
    var letters := "abcdefghijklmnopqrstuvwxyz";
    assert 'a' <= c <= 'z' ==> c == letters[c as int - 'a' as int];
  }

  // A document with these six members at most, its own id, one of the three actions and two notes is a
  // valid task.
  lemma TaskAccepted(id: string, action: string, purpose: string, effect: string, path: Json, digest: Json)
    requires IsTaskId(id) && action in {"health_snapshot", "sha256_file", "verify_sha256"}
    requires !Blank(purpose) && !Blank(effect) && |Strip(purpose)| <= 500 && |Strip(effect)| <= 500
    ensures ValidTask(Document(id, action, purpose, effect, path, digest), id)
  {
    var m6 := Member("task_id", Str(id), NoMembers);
    var m5 := Member("relative_path", path, m6);
    var m4 := Member("purpose", Str(purpose), m5);
    var m3 := Member("expected_sha256", digest, m4);
    var m2 := Member("expected_effect", Str(effect), m3);
    SkipMember("relative_path", path, m6, "task_id");
    SkipMember("purpose", Str(purpose), m5, "task_id");
    SkipMember("expected_sha256", digest, m4, "task_id");
    SkipMember("expected_effect", Str(effect), m3, "task_id");
    SkipMember("action", Str(action), m2, "task_id");
    SkipMember("expected_sha256", digest, m4, "purpose");
    SkipMember("expected_effect", Str(effect), m3, "purpose");
    SkipMember("action", Str(action), m2, "purpose");
    SkipMember("action", Str(action), m2, "expected_effect");
    DocumentKeys(id, action, purpose, effect, path, digest);
  }

  lemma DocumentKeys(id: string, action: string, purpose: string, effect: string, path: Json, digest: Json)
    ensures OnlyKeys(Document(id, action, purpose, effect, path, digest).members, AllowedFields())
  {
    var allowed := AllowedFields();
    assert "task_id" in allowed && "action" in allowed && "relative_path" in allowed;
    assert "expected_sha256" in allowed && "purpose" in allowed && "expected_effect" in allowed;
    var m5 := Member("relative_path", path, Member("task_id", Str(id), NoMembers));
    var m3 := Member("expected_sha256", digest, Member("purpose", Str(purpose), m5));
    assert OnlyKeys(m5.rest, allowed) && OnlyKeys(m5, allowed);
    assert OnlyKeys(m3.rest, allowed) && OnlyKeys(m3, allowed);
  }

  function Document(id: string, action: string, purpose: string, effect: string, path: Json, digest: Json): Json {
    Obj(Member("action", Str(action), Member("expected_effect", Str(effect), Member("expected_sha256", digest,
        Member("purpose", Str(purpose), Member("relative_path", path, Member("task_id", Str(id), NoMembers)))))))
  }

  // Any other member, action or id, or a note too long, makes a document invalid.
  lemma TaskRefused(task: Json, taskId: string)
    requires task.Obj?
    ensures (exists key :: HasKey(task.members, key) && key !in {"task_id", "action", "relative_path",
               "expected_sha256", "purpose", "expected_effect"}) ==> !ValidTask(task, taskId)
    ensures ValidTask(task, taskId) ==>
      && Field(task.members, "task_id") == Str(taskId) && Field(task.members, "action").Str?
      && Field(task.members, "action").s in {"health_snapshot", "sha256_file", "verify_sha256"}
      && Field(task.members, "purpose").Str? && 1 <= |Strip(Field(task.members, "purpose").s)| <= 500
      && Field(task.members, "expected_effect").Str? && 1 <= |Strip(Field(task.members, "expected_effect").s)| <= 500
  {
    if ValidTask(task, taskId) {
      forall key | HasKey(task.members, key) ensures key in AllowedFields() {
        OnlyAllowed(task.members, AllowedFields(), key);
      }
      ghost var _, _ := StripMeaning(Field(task.members, "purpose").s);
      ghost var _, _ := StripMeaning(Field(task.members, "expected_effect").s);
    }
  }

  lemma {:induction false} OnlyAllowed(ms: Members, allowed: set<string>, key: string)
    requires OnlyKeys(ms, allowed) && HasKey(ms, key)
    ensures key in allowed
  {
    if ms.key != key {
      OnlyAllowed(ms.rest, allowed, key);
    }
  }

  datatype TaskError = NotAnObject | UnsupportedField | BadTaskId | UnknownAction | BadNote

  datatype Envelope = Envelope(action: string, purpose: string, effect: string)

  method ValidateTaskEnvelope(task: Json, taskId: string) returns (r: Result<Envelope, TaskError>)
    ensures r.Success? <==> ValidTask(task, taskId)
    ensures r.Success? ==>
      && Field(task.members, "action") == Str(r.value.action)
      && r.value.purpose == Strip(Field(task.members, "purpose").s)
      && r.value.effect == Strip(Field(task.members, "expected_effect").s)
      && r.value.action in {"health_snapshot", "sha256_file", "verify_sha256"}
      && 1 <= |r.value.purpose| <= 500 && 1 <= |r.value.effect| <= 500
  {
    if !task.Obj? { return Failure(NotAnObject); }
    var ms := task.members;
    if !OnlyKeys(ms, AllowedFields()) { return Failure(UnsupportedField); }
    if Field(ms, "task_id") != Str(taskId) || !IsTaskId(taskId) { return Failure(BadTaskId); }
    var action := Field(ms, "action");
    if !action.Str? || action.s !in AllowedActions() { return Failure(UnknownAction); }
    var purpose, effect := Field(ms, "purpose"), Field(ms, "expected_effect");
    if !purpose.Str? || Blank(purpose.s) || |Strip(purpose.s)| > 500 { return Failure(BadNote); }
    if !effect.Str? || Blank(effect.s) || |Strip(effect.s)| > 500 { return Failure(BadNote); }
    ghost var _, _ := StripMeaning(purpose.s);
    ghost var _, _ := StripMeaning(effect.s);
    r := Success(Envelope(action.s, Strip(purpose.s), Strip(effect.s)));
  }

  // ---- Files, results and the audit log ----

  // A submitted file: which submission it is, the name it was submitted under, its size, and its JSON
  // value if it parses.
  datatype File = File(id: nat, source: string, size: nat, content: Option<Json>)

  type Directory = map<string, File>

  datatype Phase = Claimed | Started | Completed(detail: Json) | Failed

  // An audit line, with the submission whose processing wrote it.
  datatype Entry = Entry(phase: Phase, task: string, file: nat)

  datatype Payload = Finished(detail: Json) | FailureNote

  // A result file: created but not completely written, or completely written.
  datatype ResultFile = Partial(owner: nat) | Full(owner: nat, payload: Payload)

  // Where a worker stands in process_one.
  datatype Point =
    | AuditOpen(phase: Phase)                   // about to create the audit lock file
    | AuditWrite(phase: Phase)                  // holding the lock, the line is not written
    | AuditClose(phase: Phase, failed: bool)    // about to remove the lock; failed: an error is pending
    | Check                                     // about to read and validate the task
    | Execute
    | ResultOpen(payload: Payload)              // about to create the result file
    | ResultWrite(payload: Payload)             // created it, about to write it
    | MoveDone(detail: Json)
    | MoveFailed

  datatype Worker = Idle | Busy(at: Point, name: string) | Crashed

  datatype State = State(
    pending: Directory, processing: Directory, done: Directory, failed: Directory,
    results: map<string, ResultFile>, auditLocked: bool, log: seq<Entry>, workers: seq<Worker>,
    submitted: set<nat>, claims: seq<nat>, usedNames: set<string>)

  function Start(workers: nat): State {
    State(map[], map[], map[], map[], map[], false, [], seq(workers, i => Idle), {}, [], {})
  }

  // name.split(".", 1)[0]
  function TaskOf(name: string): string {
    if name == "" || name[0] == '.' then "" else [name[0]] + TaskOf(name[1..])
  }

  // path.stem of a name that ends in ".json"
  function Stem(name: string): string
    requires IsJsonName(name)
  {
    name[..|name| - 5]
  }

  // The name a claimed file gets; the suffix holds host, process and a fresh uuid.
  function ClaimedName(name: string, suffix: string): string
    requires IsJsonName(name)
  {
    Stem(name) + "." + suffix
  }

  // The task id of a name is what stands before its first dot.
  lemma {:induction false} TaskOfSplits(id: string, rest: string)
    requires '.' !in id
    ensures TaskOf(id + "." + rest) == id
  {
    var name := id + "." + rest;
    if id == "" {
      assert name[0] == '.';
    } else {
      assert name[0] == id[0] && name[1..] == id[1..] + "." + rest;
      assert id[0] in id && forall c :: c in id[1..] ==> c in id;
      TaskOfSplits(id[1..], rest);
    }
  }

  lemma TaskIdsHaveNoDot(id: string)
    requires IsTaskId(id)
    ensures '.' !in id && 1 <= |id| <= 80
  {}

  // A file submitted as id.json is claimed under a name that begins with the id and a dot, and is the
  // task of that id.
  lemma ClaimedUnderItsId(id: string, suffix: string)
    requires '.' !in id
    ensures IsJsonName(id + ".json") && id + "." <= ClaimedName(id + ".json", suffix)
    ensures TaskOf(ClaimedName(id + ".json", suffix)) == id
  {
    assert Stem(id + ".json") == id;
    TaskOfSplits(id, suffix);
  }

  // ---- Steps ----

  datatype AuditOutcome = Appended | NotAppended | AppendedThenRaised

  datatype Event =
    | Submit(name: string, file: File)
    | Claim(w: nat, source: string, suffix: string)
    | OpenAudit(w: nat, ok: bool)
    | WriteAudit(w: nat, outcome: AuditOutcome)
    | CloseAudit(w: nat, removed: bool)
    | CheckTask(w: nat, readable: bool)
    | RunTask(w: nat, result: Option<Json>)
    | OpenResult(w: nat, ok: bool)
    | WriteResult(w: nat, ok: bool, removed: bool)
    | Move(w: nat, ok: bool)
    | Crash(w: nat)
    | Restart(w: nat)
    | RemoveStaleLock

  // After a completed audit append.
  function AfterAudit(phase: Phase): Point {
    match phase
    case Claimed => Check
    case Started => Execute
    case Completed(detail) => MoveDone(detail)
    case Failed => MoveFailed
  }

  // Where an exception at a point leads: the handler writes a failure result, then a TASK_FAILED
  // line, then moves the file to failed.
  function AfterError(at: Point): Point {
    match at
    case AuditOpen(phase) => if phase.Failed? then MoveFailed else ResultOpen(FailureNote)
    case AuditWrite(phase) => if phase.Failed? then MoveFailed else ResultOpen(FailureNote)
    case AuditClose(phase, _) => if phase.Failed? then MoveFailed else ResultOpen(FailureNote)
    case ResultOpen(payload) => if payload.FailureNote? then AuditOpen(Failed) else ResultOpen(FailureNote)
    case ResultWrite(payload) => if payload.FailureNote? then AuditOpen(Failed) else ResultOpen(FailureNote)
    case _ => ResultOpen(FailureNote)
  }

  predicate HoldsAudit(w: Worker) {
    w.Busy? && (w.at.AuditWrite? || w.at.AuditClose?)
  }

  predicate Acceptable(f: File, task: string) {
    f.size <= MAX_TASK_BYTES && f.content.Some? && ValidTask(f.content.value, task)
  }

  // The worker moves on, having touched at most the log, the results and the lock.
  function Advance(s: State, w: nat, at: Point, log: seq<Entry>, results: map<string, ResultFile>, locked: bool): State
    requires w < |s.workers| && s.workers[w].Busy?
  {
    s.(workers := s.workers[w := Busy(at, s.workers[w].name)], log := log, results := results, auditLocked := locked)
  }

  function GoTo(s: State, w: nat, at: Point): State
    requires w < |s.workers| && s.workers[w].Busy?
  {
    Advance(s, w, at, s.log, s.results, s.auditLocked)
  }

  // The worker is at a point where it works on a file it claimed.
  predicate Working(s: State, w: nat) {
    w < |s.workers| && s.workers[w].Busy? && s.workers[w].name in s.processing
  }

  function ClaimStep(s: State, w: nat, source: string, suffix: string): State {
    // os.rename: atomic, and refused when another worker was faster
    if w < |s.workers| && s.workers[w].Idle? && source in s.pending && IsJsonName(source)
       && ClaimedName(source, suffix) !in s.usedNames then
      var name, f := ClaimedName(source, suffix), s.pending[source];
      s.(pending := s.pending - {source}, processing := s.processing[name := f],
         workers := s.workers[w := Busy(AuditOpen(Claimed), name)],
         claims := s.claims + [f.id], usedNames := s.usedNames + {name})
    else s
  }

  function OpenAuditStep(s: State, w: nat, ok: bool): State
    requires Working(s, w)
  {
    // os.open with O_CREAT | O_EXCL: refused while the lock file exists
    var at := s.workers[w].at;
    if !at.AuditOpen? then s
    else if ok && !s.auditLocked then Advance(s, w, AuditWrite(at.phase), s.log, s.results, true)
    else GoTo(s, w, AfterError(at))
  }

  function WriteAuditStep(s: State, w: nat, outcome: AuditOutcome): State
    requires Working(s, w)
  {
    var at, name := s.workers[w].at, s.workers[w].name;
    if !at.AuditWrite? then s
    else
      Advance(s, w, AuditClose(at.phase, !outcome.Appended?),
              if outcome.NotAppended? then s.log else s.log + [Entry(at.phase, TaskOf(name), s.processing[name].id)],
              s.results, s.auditLocked)
  }

  function CloseAuditStep(s: State, w: nat, removed: bool): State
    requires Working(s, w)
  {
    var at := s.workers[w].at;
    if !at.AuditClose? then s
    else
      Advance(s, w, if removed && !at.failed then AfterAudit(at.phase) else AfterError(at),
              s.log, s.results, s.auditLocked && !removed)
  }

  function CheckStep(s: State, w: nat, readable: bool): State
    requires Working(s, w)
  {
    var at, name := s.workers[w].at, s.workers[w].name;
    if !at.Check? then s
    else if readable && Acceptable(s.processing[name], TaskOf(name)) then GoTo(s, w, AuditOpen(Started))
    else GoTo(s, w, AfterError(at))
  }

  function ExecuteStep(s: State, w: nat, result: Option<Json>): State
    requires Working(s, w)
  {
    var at := s.workers[w].at;
    if !at.Execute? then s
    else GoTo(s, w, if result.Some? then ResultOpen(Finished(result.value)) else AfterError(at))
  }

  function OpenResultStep(s: State, w: nat, ok: bool): State
    requires Working(s, w)
  {
    // os.open with O_CREAT | O_EXCL: refused when a result exists
    var at, name := s.workers[w].at, s.workers[w].name;
    if !at.ResultOpen? then s
    else if ok && IsTaskId(TaskOf(name)) && TaskOf(name) !in s.results then
      Advance(s, w, ResultWrite(at.payload), s.log, s.results[TaskOf(name) := Partial(s.processing[name].id)], s.auditLocked)
    else GoTo(s, w, AfterError(at))
  }

  function WriteResultStep(s: State, w: nat, ok: bool, removed: bool): State
    requires Working(s, w)
  {
    var at, name := s.workers[w].at, s.workers[w].name;
    if !at.ResultWrite? then s
    else if ok then
      Advance(s, w, AuditOpen(if at.payload.Finished? then Completed(at.payload.detail) else Failed),
              s.log, s.results[TaskOf(name) := Full(s.processing[name].id, at.payload)], s.auditLocked)
    else Advance(s, w, AfterError(at), s.log, if removed then s.results - {TaskOf(name)} else s.results, s.auditLocked)
  }

  function MoveStep(s: State, w: nat, ok: bool): State
    requires Working(s, w)
  {
    var at, name := s.workers[w].at, s.workers[w].name;
    var f, idle := s.processing[name], s.workers[w := Idle];
    if at.MoveDone? then
      if ok then s.(processing := s.processing - {name}, done := s.done[name := f], workers := idle)
      else GoTo(s, w, AfterError(at))
    else if at.MoveFailed? then
      if ok then s.(processing := s.processing - {name}, failed := s.failed[name := f], workers := idle)
      else s.(workers := idle)
    else s
  }

  // One step; a step whose worker is not at that point changes nothing.
  function Step(s: State, e: Event): State {
    match e
    case Submit(name, file) =>
      if name in s.pending || file.id in s.submitted then s
      else s.(pending := s.pending[name := file.(source := name)], submitted := s.submitted + {file.id})
    case Claim(w, source, suffix) => ClaimStep(s, w, source, suffix)
    case RemoveStaleLock =>
      if exists w :: 0 <= w < |s.workers| && HoldsAudit(s.workers[w]) then s else s.(auditLocked := false)
    case Crash(w) => if w < |s.workers| then s.(workers := s.workers[w := Crashed]) else s
    case Restart(w) => if w < |s.workers| && s.workers[w].Crashed? then s.(workers := s.workers[w := Idle]) else s
    case OpenAudit(w, ok) => if Working(s, w) then OpenAuditStep(s, w, ok) else s
    case WriteAudit(w, outcome) => if Working(s, w) then WriteAuditStep(s, w, outcome) else s
    case CloseAudit(w, removed) => if Working(s, w) then CloseAuditStep(s, w, removed) else s
    case CheckTask(w, readable) => if Working(s, w) then CheckStep(s, w, readable) else s
    case RunTask(w, result) => if Working(s, w) then ExecuteStep(s, w, result) else s
    case OpenResult(w, ok) => if Working(s, w) then OpenResultStep(s, w, ok) else s
    case WriteResult(w, ok, removed) => if Working(s, w) then WriteResultStep(s, w, ok, removed) else s
    case Move(w, ok) => if Working(s, w) then MoveStep(s, w, ok) else s
  }

  function Run(s: State, events: seq<Event>): State {
    if events == [] then s else Step(Run(s, events[..|events| - 1]), events[|events| - 1])
  }
}
