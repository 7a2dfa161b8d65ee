// The bounded autoscaler (controller/runtime_control.py): one control cycle against an environment
// that may fail at every step.
module RuntimeControl {
  import opened Wrappers
  import opened JsonText

  const MIN_REPLICAS := 1
  const MAX_REPLICAS := 3
  const SCALE_UP_CPU := 75.0
  const SCALE_UP_MEMORY := 80.0
  const SCALE_DOWN_CPU := 20.0
  const SCALE_DOWN_MEMORY := 50.0
  const LOW_SAMPLES_REQUIRED := 3

  // What collect_snapshot measures.
  datatype Snapshot = Snapshot(replicas: int, running: int, cpu: real, memory: real)

  datatype Action = ScaleUp | ScaleDown

  // ---- The decision ----

  predicate Overloaded(s: Snapshot) {
    s.cpu >= 75.0 || s.memory >= 80.0
  }

  // Low use with capacity to remove.
  predicate Low(s: Snapshot) {
    s.cpu <= 20.0 && s.memory <= 50.0 && 2 <= s.replicas <= 3
  }

  // The action and the next low-sample count.
  function Decide(s: Snapshot, low: nat): (Option<Action>, nat) {
    if s.replicas < MIN_REPLICAS || s.replicas > MAX_REPLICAS then (None, 0)
    else if s.cpu >= SCALE_UP_CPU || s.memory >= SCALE_UP_MEMORY then
      if s.replicas >= MAX_REPLICAS then (None, 0) else (Some(ScaleUp), 0)
    else if s.cpu <= SCALE_DOWN_CPU && s.memory <= SCALE_DOWN_MEMORY then
      if s.replicas <= MIN_REPLICAS then (None, 0)
      else
        var next := if low + 1 < LOW_SAMPLES_REQUIRED then low + 1 else LOW_SAMPLES_REQUIRED;
        if next >= LOW_SAMPLES_REQUIRED then (Some(ScaleDown), 0) else (None, next)
    else (None, 0)
  }

  // The decision in terms of the sample's kind: one more worker below three when overloaded, one fewer
  // at the third low sample; the target is one off the observed count and stays in 1..3.
  lemma DecisionMeaning(s: Snapshot, low: nat)
    ensures var (action, next) := Decide(s, low);
      && (action == Some(ScaleUp) <==> Overloaded(s) && 1 <= s.replicas <= 2)
      && (action == Some(ScaleDown) <==> Low(s) && low >= 2)
      && next == (if Low(s) && low < 2 then low + 1 else 0)
      && (action == Some(ScaleUp) ==> TargetOf(ScaleUp, s.replicas) == s.replicas + 1 <= 3)
      && (action == Some(ScaleDown) ==> TargetOf(ScaleDown, s.replicas) == s.replicas - 1 >= 1)
      && (action.Some? ==> 1 <= s.replicas <= 3 && 1 <= TargetOf(action.value, s.replicas) <= 3)
  {}

  function TargetOf(action: Action, replicas: int): int {
    if action.ScaleUp? then replicas + 1 else replicas - 1
  }

  // ---- The state file ----

  // Foreign: JSON that is not an object, on which the read raises.
  datatype StateFile = Absent | Unreadable | Foreign | Stored(count: Json)

  // None stands for the exception.
  function ReadLowSamples(f: StateFile): Option<nat> {
    match f
    case Absent => Some(0)
    case Unreadable => Some(0)
    case Foreign => None
    case Stored(count) =>
      if !count.Int? || count.n < 0 then Some(0)
      else Some(if count.n < LOW_SAMPLES_REQUIRED then count.n else LOW_SAMPLES_REQUIRED)
  }

  // ---- One cycle ----

  datatype Status = NoData | NoAction | NotExecuted | NeedsOptIn | ActionVerified | RolledBack | RollbackFailed

  datatype AuditEvent =
    | Observation
    | DecisionEvent(id: nat, action: Option<Action>, before: int, target: int, enabled: bool, status: Status)
    | VerifyEvent(id: nat, target: int)
    | RollbackEvent(id: nat, before: int, attempted: int, status: Status)

  // What leaves the process, in order: appended audit lines and calls of scale_worker.
  datatype Act = Audit(event: AuditEvent) | Scale(replicas: int)

  // How append_audit ends: its lock is taken or its write fails, or an error follows the write.
  datatype AuditOutcome = Appended | NotAppended | AppendedThenRaised

  // What the environment does at each step of a cycle; None and false stand for exceptions.
  datatype Env = Env(first: Option<Snapshot>, stateWritten: bool, decisionAudit: AuditOutcome,
                     scaled: bool, second: Option<Snapshot>, verifyAudit: AuditOutcome,
                     scaledBack: bool, third: Option<Snapshot>, rollbackAudit: AuditOutcome)

  datatype Input = Input(id: nat, env: Env, allowActions: bool, allowScaleDown: bool)

  // status is None when the cycle ends in an exception.
  datatype Outcome = Outcome(file: StateFile, acts: seq<Act>, status: Option<Status>)

  function Logged(event: AuditEvent, outcome: AuditOutcome): seq<Act> {
    if outcome.NotAppended? then [] else [Audit(event)]
  }

  predicate Matches(s: Option<Snapshot>, replicas: int) {
    s.Some? && s.value.replicas == replicas && s.value.running == replicas
  }

  function InitialStatus(action: Option<Action>, c: Input): Status {
    if action == Some(ScaleDown) && !c.allowScaleDown && c.allowActions then NeedsOptIn
    else if action.Some? && !c.allowActions then NotExecuted
    else NoAction
  }

  function DecisionOf(c: Input, s: Snapshot, action: Option<Action>): AuditEvent {
    DecisionEvent(c.id, action, s.replicas, CycleTargetOf(s, action), c.allowActions, InitialStatus(action, c))
  }

  predicate MayAct(c: Input, action: Option<Action>) {
    action.Some? && c.allowActions && (action == Some(ScaleDown) ==> c.allowScaleDown)
  }

  // The action was carried out and seen to have worked.
  predicate SeenToWork(c: Input, target: int) {
    c.env.scaled && Matches(c.env.second, target)
  }

  function Tried(c: Input, target: int, verify: AuditOutcome): seq<Act> {
    [Scale(target)] + if SeenToWork(c, target) then Logged(VerifyEvent(c.id, target), verify) else []
  }

  function UndoStatus(c: Input, before: int): Status {
    if c.env.scaledBack && Matches(c.env.third, before) then RolledBack else RollbackFailed
  }

  // The way back, after an action that was not verified.
  function Undone(c: Input, before: int, target: int, rollback: AuditOutcome): seq<Act> {
    [Scale(before)] + Logged(RollbackEvent(c.id, before, target, UndoStatus(c, before)), rollback)
  }

  // Acting on a decision: the acts after the DECISION line, and how the cycle ends.
  function ActOn(c: Input, before: int, target: int): (seq<Act>, Option<Status>) {
    var verify, rollback := c.env.verifyAudit, c.env.rollbackAudit;
    if SeenToWork(c, target) && verify.Appended? then (Tried(c, target, verify), Some(ActionVerified))
    else (Tried(c, target, verify) + Undone(c, before, target, rollback),
          if rollback.Appended? then Some(UndoStatus(c, before)) else None)
  }

  // The part of Cycle after the state file was written.
  function Proceed(c: Input, s: Snapshot, action: Option<Action>): (seq<Act>, Option<Status>) {
    var event := DecisionOf(c, s, action);
    var logged := Logged(event, c.env.decisionAudit);
    if !c.env.decisionAudit.Appended? then (logged, None)
    else if !MayAct(c, action) then (logged, Some(event.status))
    else
      var (acts, status) := ActOn(c, s.replicas, event.target);
      (logged + acts, status)
  }

  function Cycle(f: StateFile, c: Input): Outcome {
    if c.env.first.None? then
      Outcome(f, Logged(Observation, c.env.decisionAudit), if c.env.decisionAudit.Appended? then Some(NoData) else None)
    else if ReadLowSamples(f).None? || !c.env.stateWritten then Outcome(f, [], None)
    else
      var s := c.env.first.value;
      var (action, next) := Decide(s, ReadLowSamples(f).value);
      var (acts, status) := Proceed(c, s, action);
      Outcome(Stored(Int(next)), acts, status)
  }

  // ---- The audit lock file ----

  // One append's I/O: whether creating the lock file works (another process may hold it), how the
  // write ends, and whether the lock file is removed again.
  datatype AuditIo = AuditIo(created: bool, written: AuditOutcome, removed: bool)

  // How the append ends, given whether the lock file is already there.
  function Ends(locked: bool, io: AuditIo): AuditOutcome {
    if locked || !io.created || io.written.NotAppended? then NotAppended
    else if io.written.Appended? && io.removed then Appended
    else AppendedThenRaised
  }

  function LockAfter(locked: bool, io: AuditIo): bool {
    locked || (io.created && !io.removed)
  }

  // The input of the specification once its last two appends' outcomes are known.
  function ResolveAct(c: Input, locked: bool, target: int, verify: AuditIo, rollback: AuditIo): Input {
    c.(env := c.env.(verifyAudit := Ends(locked, verify),
                     rollbackAudit := Ends(if SeenToWork(c, target) then LockAfter(locked, verify) else locked, rollback)))
  }

  function CycleTargetOf(s: Snapshot, action: Option<Action>): int {
    if action.Some? then TargetOf(action.value, s.replicas) else s.replicas
  }

  // Acting does not look at the DECISION line's append.
  lemma SameActs(c: Input, d: Input, before: int, target: int)
    requires d == c.(env := c.env.(decisionAudit := d.env.decisionAudit))
    ensures ActOn(c, before, target) == ActOn(d, before, target)
  {}

  // The same for all three.
  function Resolve(f: StateFile, c: Input, locked: bool, decision: AuditIo, verify: AuditIo, rollback: AuditIo): Input {
    var c1 := c.(env := c.env.(decisionAudit := Ends(locked, decision)));
    if c.env.first.None? || ReadLowSamples(f).None? then c1
    else ResolveAct(c1, LockAfter(locked, decision), CycleTargetOf(c.env.first.value, Decide(c.env.first.value, ReadLowSamples(f).value).0), verify, rollback)
  }

  // The lock file after acting, after the DECISION line, and after a whole cycle.
  function LockAfterAct(c: Input, locked: bool, target: int, verify: AuditIo, rollback: AuditIo): bool {
    if !SeenToWork(c, target) then LockAfter(locked, rollback)
    else if Ends(locked, verify).Appended? then LockAfter(locked, verify)
    else LockAfter(LockAfter(locked, verify), rollback)
  }

  function LockAfterProposal(c: Input, locked: bool, s: Snapshot, action: Option<Action>,
                             decision: AuditIo, verify: AuditIo, rollback: AuditIo): bool {
    if Ends(locked, decision).Appended? && MayAct(c, action)
    then LockAfterAct(c, LockAfter(locked, decision), TargetOf(action.value, s.replicas), verify, rollback)
    else LockAfter(locked, decision)
  }

  function LockAfterCycle(f: StateFile, c: Input, locked: bool, decision: AuditIo, verify: AuditIo, rollback: AuditIo): bool {
    if c.env.first.None? then LockAfter(locked, decision)
    else if ReadLowSamples(f).None? || !c.env.stateWritten then locked
    else
      var s := c.env.first.value;
      LockAfterProposal(c, locked, s, Decide(s, ReadLowSamples(f).value).0, decision, verify, rollback)
  }

  // The controller's surroundings as it changes them.
  class Controller {
    var file: StateFile
    var auditLocked: bool
    var acts: seq<Act>

    constructor ()
      ensures file == Absent && !auditLocked && acts == []
    {
      file, auditLocked, acts := Absent, false, [];
    }

    // Under a lock file created exclusively, which stays behind when it cannot be removed.
    method AppendAudit(event: AuditEvent, io: AuditIo) returns (ok: bool)
      modifies this`acts, this`auditLocked
      ensures acts == old(acts) + Logged(event, Ends(old(auditLocked), io))
      ensures auditLocked == LockAfter(old(auditLocked), io) && ok == Ends(old(auditLocked), io).Appended?
      ensures auditLocked <==> old(auditLocked) || (io.created && !io.removed)
      ensures ok <==> !old(auditLocked) && io.created && io.written.Appended? && io.removed
      ensures acts == if old(auditLocked) || !io.created || io.written.NotAppended? then old(acts)
                      else old(acts) + [Audit(event)]
    {
      if auditLocked || !io.created {
        return false;
      }
      auditLocked := true;
      if !io.written.NotAppended? {
        acts := acts + [Audit(event)];
      }
      if io.removed {
        auditLocked := false;
      }
      ok := io.written.Appended? && io.removed;
    }

    // The bound is checked before the command is run.
    method ScaleWorker(replicas: int, done: bool) returns (ok: bool)
      modifies this`acts
      ensures acts == old(acts) + if 1 <= replicas <= 3 then [Scale(replicas)] else []
      ensures ok <==> done && 1 <= replicas <= 3
    {
      if replicas < MIN_REPLICAS || replicas > MAX_REPLICAS {
        return false;
      }
      acts := acts + [Scale(replicas)];
      ok := done;
    }

    // The outcomes of the appends in c are those the lock file and their own I/O give.
    method RunCycle(c: Input, decision: AuditIo, verify: AuditIo, rollback: AuditIo) returns (status: Option<Status>)
      modifies this
      ensures var o := Cycle(old(file), Resolve(old(file), c, old(auditLocked), decision, verify, rollback));
        file == o.file && acts == old(acts) + o.acts && status == o.status
      ensures auditLocked == LockAfterCycle(old(file), c, old(auditLocked), decision, verify, rollback)
    {
      if c.env.first.None? {
        var ok := AppendAudit(Observation, decision);
        return if ok then Some(NoData) else None;
      }
      var s := c.env.first.value;
      var low := ReadLowSamples(file);
      if low.None? {
        return None;
      }
      var (action, next) := Decide(s, low.value);
      if !c.env.stateWritten {
        return None;
      }
      file := Stored(Int(next));
      DecisionMeaning(s, low.value);
      status := Propose(c, s, action, decision, verify, rollback);
    }

    // From the DECISION line on.
    method Propose(c: Input, s: Snapshot, action: Option<Action>, decision: AuditIo, verify: AuditIo, rollback: AuditIo)
      returns (status: Option<Status>)
      requires action.Some? ==>
        MIN_REPLICAS <= s.replicas <= MAX_REPLICAS && MIN_REPLICAS <= TargetOf(action.value, s.replicas) <= MAX_REPLICAS
      modifies this`acts, this`auditLocked
      ensures var r := ResolveAct(c.(env := c.env.(decisionAudit := Ends(old(auditLocked), decision))),
                                  LockAfter(old(auditLocked), decision), CycleTargetOf(s, action), verify, rollback);
              acts == old(acts) + Proceed(r, s, action).0 && status == Proceed(r, s, action).1
      ensures auditLocked == LockAfterProposal(c, old(auditLocked), s, action, decision, verify, rollback)
    {
      ghost var r := ResolveAct(c.(env := c.env.(decisionAudit := Ends(auditLocked, decision))),
                                LockAfter(auditLocked, decision), CycleTargetOf(s, action), verify, rollback);
      assert DecisionOf(r, s, action) == DecisionOf(c, s, action) && MayAct(r, action) == MayAct(c, action);
      var initial, audited := LogDecision(c, s, action, decision);
      if !audited {
        return None;
      }
      if action.None? || !c.allowActions || (action == Some(ScaleDown) && !c.allowScaleDown) {
        return Some(initial);
      }
      var target := CycleTargetOf(s, action);
      assert ActOn(r, s.replicas, target) == ActOn(ResolveAct(c, auditLocked, target, verify, rollback), s.replicas, target) by {
        SameActs(r, ResolveAct(c, auditLocked, target, verify, rollback), s.replicas, target);
      }
      status := Act(c, s.replicas, target, verify, rollback);
    }

    // The DECISION line, and the status it carries.
    method LogDecision(c: Input, s: Snapshot, action: Option<Action>, io: AuditIo) returns (initial: Status, ok: bool)
      modifies this`acts, this`auditLocked
      ensures acts == old(acts) + Logged(DecisionOf(c, s, action), Ends(old(auditLocked), io))
      ensures auditLocked == LockAfter(old(auditLocked), io) && ok == Ends(old(auditLocked), io).Appended?
      ensures initial == InitialStatus(action, c)
    {
      var target := s.replicas;
      if action == Some(ScaleUp) {
        target := target + 1;
      } else if action == Some(ScaleDown) {
        target := target - 1;
      }
      initial := NoAction;
      if action == Some(ScaleDown) && !c.allowScaleDown && c.allowActions {
        initial := NeedsOptIn;
      } else if action.Some? && !c.allowActions {
        initial := NotExecuted;
      }
      ok := AppendAudit(DecisionEvent(c.id, action, s.replicas, target, c.allowActions, initial), io);
    }

    method Act(c: Input, before: int, target: int, verify: AuditIo, rollback: AuditIo) returns (status: Option<Status>)
      requires MIN_REPLICAS <= before <= MAX_REPLICAS && MIN_REPLICAS <= target <= MAX_REPLICAS
      modifies this`acts, this`auditLocked
      ensures var (done, end) := ActOn(ResolveAct(c, old(auditLocked), target, verify, rollback), before, target);
        acts == old(acts) + done && status == end
      ensures auditLocked == LockAfterAct(c, old(auditLocked), target, verify, rollback)
    {
      ghost var r := ResolveAct(c, auditLocked, target, verify, rollback);
      assert Tried(r, target, r.env.verifyAudit) == Tried(c, target, Ends(auditLocked, verify));
      assert forall o :: Undone(r, before, target, o) == Undone(c, before, target, o);
      var verified := TryAction(c, target, verify);
      if verified {
        return Some(ActionVerified);
      }
      status := RollBack(c, before, target, rollback);
    }

    method TryAction(c: Input, target: int, verify: AuditIo) returns (verified: bool)
      requires MIN_REPLICAS <= target <= MAX_REPLICAS
      modifies this`acts, this`auditLocked
      ensures acts == old(acts) + Tried(c, target, Ends(old(auditLocked), verify))
      ensures verified <==> SeenToWork(c, target) && Ends(old(auditLocked), verify).Appended?
      ensures auditLocked == if SeenToWork(c, target) then LockAfter(old(auditLocked), verify) else old(auditLocked)
    {
      verified := false;
      var scaled := ScaleWorker(target, c.env.scaled);
      if scaled && Matches(c.env.second, target) {
        verified := AppendAudit(VerifyEvent(c.id, target), verify);
      }
    }

    method RollBack(c: Input, before: int, target: int, io: AuditIo) returns (status: Option<Status>)
      requires MIN_REPLICAS <= before <= MAX_REPLICAS
      modifies this`acts, this`auditLocked
      ensures acts == old(acts) + Undone(c, before, target, Ends(old(auditLocked), io))
      ensures status == if Ends(old(auditLocked), io).Appended? then Some(UndoStatus(c, before)) else None
      ensures auditLocked == LockAfter(old(auditLocked), io)
    {
      var ended := RollbackFailed;
      var scaledBack := ScaleWorker(before, c.env.scaledBack);
      if scaledBack && Matches(c.env.third, before) {
        ended := RolledBack;
      }
      var audited := AppendAudit(RollbackEvent(c.id, before, target, ended), io);
      status := if audited then Some(ended) else None;
    }
  }

  // ---- One cycle's guarantees ----

  // Call k of scale_worker is bounded, and the act at j is the DECISION line of the same cycle.
  predicate Authorised(acts: seq<Act>, j: nat, k: nat) {
    && j < k < |acts| && acts[k].Scale? && acts[j].Audit? && acts[j].event.DecisionEvent?
    && var d := acts[j].event;
       && d.enabled && d.status.NoAction? && d.action.Some?
       && (acts[k].replicas == d.target || acts[k].replicas == d.before)
       && d.target == (if d.action.value.ScaleUp? then d.before + 1 else d.before - 1)
       && 1 <= acts[k].replicas <= 3
       && forall i :: j < i < k ==> !(acts[i].Audit? && acts[i].event.DecisionEvent?)
  }

  // Audit before act: in a cycle's acts the DECISION line comes first and every call follows it.
  lemma CallsAreAuthorised(f: StateFile, c: Input, k: nat)
    requires k < |Cycle(f, c).acts| && Cycle(f, c).acts[k].Scale?
    ensures Authorised(Cycle(f, c).acts, 0, k)
    ensures c.env.first.Some? && Cycle(f, c).acts[0].event.before == c.env.first.value.replicas
    ensures c.allowActions && (Cycle(f, c).acts[0].event.action == Some(ScaleDown) ==> c.allowScaleDown)
    ensures -1 <= Cycle(f, c).acts[k].replicas - c.env.first.value.replicas <= 1
  {
    DecisionMeaning(c.env.first.value, ReadLowSamples(f).value);
  }

  // The observation shows this many workers, all of them running.
  predicate Shows(s: Option<Snapshot>, replicas: int) {
    s.Some? && s.value.replicas == replicas && s.value.running == replicas
  }

  // A verified end means the last observation showed the target; a rolled-back end, the original count.
  lemma EndsAreObserved(f: StateFile, c: Input)
    ensures var o := Cycle(f, c);
      && (o.status == Some(ActionVerified) ==>
            && o.acts != [] && o.acts[|o.acts| - 1].Audit? && o.acts[|o.acts| - 1].event.VerifyEvent?
            && Shows(c.env.second, o.acts[|o.acts| - 1].event.target) && o.acts[|o.acts| - 1].event.id == c.id
            && o.acts[1] == Scale(o.acts[|o.acts| - 1].event.target))
      && (o.status == Some(RolledBack) ==>
            && c.env.first.Some? && Shows(c.env.third, c.env.first.value.replicas)
            && o.acts != [] && o.acts[|o.acts| - 1].Audit? && o.acts[|o.acts| - 1].event.RollbackEvent?
            && o.acts[|o.acts| - 1].event.before == c.env.first.value.replicas
            && o.acts[|o.acts| - 1].event.status == RolledBack && o.acts[|o.acts| - 1].event.id == c.id
            && o.acts[1] == Scale(o.acts[|o.acts| - 1].event.attempted))
  {}

  // Without a measurement a cycle logs that and does nothing else; when the state file cannot be read or
  // written it raises before it logs anything.
  lemma BlindCycles(f: StateFile, c: Input)
    ensures c.env.first.None? ==>
      && Cycle(f, c).file == f && (Cycle(f, c).status == Some(NoData) <==> c.env.decisionAudit.Appended?)
      && Cycle(f, c).acts == if c.env.decisionAudit.NotAppended? then [] else [Audit(Observation)]
    ensures c.env.first.Some? && (f.Foreign? || !c.env.stateWritten) ==> Cycle(f, c) == Outcome(f, [], None)
    ensures Cycle(f, c).status == Some(NoData) ==> c.env.first.None?
  {}

  // What a cycle without a call of scale_worker reports, once its DECISION line is logged.
  lemma ProposalsAreReported(f: StateFile, c: Input)
    requires c.env.first.Some? && ReadLowSamples(f).Some? && c.env.stateWritten && c.env.decisionAudit.Appended?
    ensures var s, o, action := c.env.first.value, Cycle(f, c), Decide(c.env.first.value, ReadLowSamples(f).value).0;
      && o.acts != [] && o.acts[0].Audit? && o.acts[0].event.DecisionEvent? && o.acts[0].event.id == c.id
      && o.acts[0].event.action == action && o.acts[0].event.before == s.replicas
      && o.acts[0].event.enabled == c.allowActions && (o.acts[1..] == [] ==> o.status == Some(o.acts[0].event.status))
      && (action == Some(ScaleDown) && c.allowActions && !c.allowScaleDown ==> o.acts[1..] == [] && o.status == Some(NeedsOptIn))
      && (action.Some? && !c.allowActions ==> o.acts[1..] == [] && o.status == Some(NotExecuted))
      && (action.None? ==> o.acts[1..] == [] && o.status == Some(NoAction) && o.acts[0].event.target == s.replicas)
      && (action.Some? && c.allowActions && (action.value.ScaleUp? || c.allowScaleDown) ==>
            |o.acts| > 1 && o.acts[1] == Scale(if action.value.ScaleUp? then s.replicas + 1 else s.replicas - 1))
  {
    DecisionMeaning(c.env.first.value, ReadLowSamples(f).value);
  }

  // A cycle that can remove its lock files leaves none, and a lock file that was there stays.
  lemma LocksAreReturned(f: StateFile, c: Input, locked: bool, decision: AuditIo, verify: AuditIo, rollback: AuditIo)
    ensures !locked && decision.removed && verify.removed && rollback.removed ==>
      !LockAfterCycle(f, c, locked, decision, verify, rollback)
    ensures locked ==> LockAfterCycle(f, c, locked, decision, verify, rollback)
  {}

  // The count read from a stored object: what is not a count from nought to three is taken as none or,
  // above three, as three; a missing or unreadable file is none; JSON that is no object raises.
  lemma CountRead(f: StateFile)
    ensures f.Absent? || f.Unreadable? ==> ReadLowSamples(f) == Some(0)
    ensures f.Foreign? <==> ReadLowSamples(f).None?
    ensures f.Stored? && f.count.Int? && 0 <= f.count.n <= 3 ==> ReadLowSamples(f) == Some(f.count.n)
    ensures f.Stored? && f.count.Int? && f.count.n > 3 ==> ReadLowSamples(f) == Some(3)
    ensures f.Stored? && (!f.count.Int? || f.count.n < 0) ==> ReadLowSamples(f) == Some(0)
  {}

  // No change is left standing without verification: when a cycle called scale_worker and did not
  // end verified, even in an exception, its last call asked for the original count.
  lemma UnverifiedIsRolledBack(f: StateFile, c: Input)
    requires exists k :: 0 <= k < |Cycle(f, c).acts| && Cycle(f, c).acts[k].Scale?
    requires Cycle(f, c).status != Some(ActionVerified)
    ensures var acts := Cycle(f, c).acts;
      exists k :: 1 < k < |acts| && acts[k] == Scale(c.env.first.value.replicas)
                  && forall i :: k < i < |acts| ==> acts[i].Audit?
  {
    var acts, e := Cycle(f, c).acts, c.env;
    var k := if acts[|acts| - 1].Scale? then |acts| - 1 else |acts| - 2;
    assert acts[k] == Scale(c.env.first.value.replicas);
  }

  // ---- Runs ----

  // Between cycles the state file may disappear or become unreadable.
  datatype Turn = Running(c: Input) | Disturbed(file: StateFile)

  predicate TurnAllowed(t: Turn) {
    t.Disturbed? ==> !t.file.Stored?
  }

  datatype World = World(file: StateFile, acts: seq<Act>)

  function Step(w: World, t: Turn): World {
    match t
    case Running(c) => World(Cycle(w.file, c).file, w.acts + Cycle(w.file, c).acts)
    case Disturbed(file) => w.(file := file)
  }

  // From an absent state file and an empty log.
  function Run(turns: seq<Turn>): World {
    if turns == [] then World(Absent, []) else Step(Run(turns[..|turns| - 1]), turns[|turns| - 1])
  }

  lemma AuthorisedShifts(acts: seq<Act>, more: seq<Act>, j: nat, k: nat)
    requires Authorised(more, j, k)
    ensures Authorised(acts + more, |acts| + j, |acts| + k)
  {
    var all := acts + more;
    assert all[|acts| + j] == more[j] && all[|acts| + k] == more[k];
    assert forall i :: |acts| + j < i < |acts| + k ==> all[i] == more[i - |acts|];
  }

  lemma AuthorisedStays(acts: seq<Act>, more: seq<Act>, j: nat, k: nat)
    requires Authorised(acts, j, k)
    ensures Authorised(acts + more, j, k)
  {
    assert forall i :: 0 <= i < |acts| ==> (acts + more)[i] == acts[i];
  }

  // Bounded, audited actuation over whole runs, under arbitrary failures.
  lemma {:induction false} RunsAreAuthorised(turns: seq<Turn>, k: nat)
    requires k < |Run(turns).acts| && Run(turns).acts[k].Scale?
    ensures exists j :: 0 <= j < k && Authorised(Run(turns).acts, j, k)
  {
    var front := turns[..|turns| - 1];
    var w, t := Run(front), turns[|turns| - 1];
    if k < |w.acts| {
      RunsAreAuthorised(front, k);
      var j :| 0 <= j < k && Authorised(w.acts, j, k);
      if t.Running? {
        AuthorisedStays(w.acts, Cycle(w.file, t.c).acts, j, k);
      }
      assert Authorised(Run(turns).acts, j, k);
    } else {
      CallsAreAuthorised(w.file, t.c, k - |w.acts|);
      AuthorisedShifts(w.acts, Cycle(w.file, t.c).acts, 0, k - |w.acts|);
      assert Authorised(Run(turns).acts, |w.acts|, k);
    }
  }

  // ---- Debouncing ----

  // The turn observed the stack and stored its low-sample count.
  predicate Stores(f: StateFile, t: Turn) {
    t.Running? && t.c.env.first.Some? && ReadLowSamples(f).Some? && t.c.env.stateWritten
  }

  // The stored observations of a run, oldest first.
  function Recorded(turns: seq<Turn>): seq<Snapshot> {
    if turns == [] then []
    else
      var front, t := turns[..|turns| - 1], turns[|turns| - 1];
      Recorded(front) + if Stores(Run(front).file, t) then [t.c.env.first.value] else []
  }

  // How many of the latest stored observations were low, since the state file was last disturbed.
  function Streak(turns: seq<Turn>): nat {
    if turns == [] then 0
    else
      var front, t := turns[..|turns| - 1], turns[|turns| - 1];
      if t.Disturbed? then 0
      else if !Stores(Run(front).file, t) then Streak(front)
      else if Low(t.c.env.first.value) then Streak(front) + 1
      else 0
  }

  // The last turn decided to remove a worker.
  predicate DecidesDown(turns: seq<Turn>) {
    turns != []
    && var f, t := Run(turns[..|turns| - 1]).file, turns[|turns| - 1];
       Stores(f, t) && Decide(t.c.env.first.value, ReadLowSamples(f).value).0 == Some(ScaleDown)
  }

  ghost predicate AllAllowed(turns: seq<Turn>) {
    forall i :: 0 <= i < |turns| ==> TurnAllowed(turns[i])
  }

  function NextCount(s: Snapshot, low: nat): nat {
    if Low(s) && low + 1 < LOW_SAMPLES_REQUIRED then low + 1 else 0
  }

  // What one turn does to the state file.
  lemma TurnEffect(f: StateFile, acts: seq<Act>, t: Turn)
    ensures t.Disturbed? ==> Step(World(f, acts), t).file == t.file
    ensures Stores(f, t) ==>
      && Step(World(f, acts), t).file == Stored(Int(NextCount(t.c.env.first.value, ReadLowSamples(f).value)))
      && ((Decide(t.c.env.first.value, ReadLowSamples(f).value).0 == Some(ScaleDown))
            <==> (Low(t.c.env.first.value) && ReadLowSamples(f).value + 1 >= LOW_SAMPLES_REQUIRED))
    ensures t.Running? && !Stores(f, t) ==> Step(World(f, acts), t).file == f
  {
    if Stores(f, t) {
      DecisionMeaning(t.c.env.first.value, ReadLowSamples(f).value);
    }
  }

  lemma NextModThree(n: nat)
    ensures (n + 1) % 3 == if n % 3 + 1 < 3 then n % 3 + 1 else 0
  {}

  // The persisted counter is always 0, 1 or 2: the length of the streak modulo three.
  lemma {:induction false} CounterIsStreak(turns: seq<Turn>)
    requires AllAllowed(turns)
    ensures CountsTo(Run(turns).file, Streak(turns))
  {
    if turns != [] {
      var front, t := turns[..|turns| - 1], turns[|turns| - 1];
      CounterIsStreak(front);
      assert TurnAllowed(t);
      TurnEffect(Run(front).file, Run(front).acts, t);
      NextModThree(Streak(front));
    }
  }

  predicate CountsTo(f: StateFile, streak: nat) {
    if f.Stored? then f.count == Int(streak % 3) else streak == 0
  }

  lemma CountIsRemainder(f: StateFile, streak: nat)
    requires CountsTo(f, streak) && ReadLowSamples(f).Some?
    ensures ReadLowSamples(f).value == streak % 3
  {}

  // Exactly when a scale-down is decided: at every third observation of an unbroken low streak.
  lemma ScaleDownExactly(turns: seq<Turn>)
    requires AllAllowed(turns) && turns != []
    requires Stores(Run(turns[..|turns| - 1]).file, turns[|turns| - 1])
    ensures DecidesDown(turns) <==> Streak(turns) > 0 && Streak(turns) % 3 == 0
  {
    var front, t := turns[..|turns| - 1], turns[|turns| - 1];
    var f, n := Run(front).file, Streak(front);
    CounterIsStreak(front);
    CountIsRemainder(f, n);
    TurnEffect(f, Run(front).acts, t);
    NextModThree(n);
    assert DecidesDown(turns) <==> Low(t.c.env.first.value) && n % 3 + 1 >= 3;
    assert Streak(turns) == if Low(t.c.env.first.value) then n + 1 else 0;
  }

  lemma {:induction false} StreakIsLow(turns: seq<Turn>)
    ensures Streak(turns) <= |Recorded(turns)|
    ensures forall i :: |Recorded(turns)| - Streak(turns) <= i < |Recorded(turns)| ==> Low(Recorded(turns)[i])
  {
    if turns != [] {
      StreakIsLow(turns[..|turns| - 1]);
    }
  }

  // A scale-down is decided only when the last three stored observations were all low: low CPU, low
  // memory, two or three replicas.
  lemma ScaleDownNeedsThreeLow(turns: seq<Turn>)
    requires AllAllowed(turns) && DecidesDown(turns)
    ensures var r := Recorded(turns); |r| >= 3 && Low(r[|r| - 1]) && Low(r[|r| - 2]) && Low(r[|r| - 3])
  {
    ScaleDownExactly(turns);
    StreakIsLow(turns);
  }

  // After a decision the counter starts again: it never exceeds the observations stored since.
  lemma {:induction false} CounterCountsSince(turns: seq<Turn>, i: nat)
    requires AllAllowed(turns) && i <= |turns| && DecidesDown(turns[..i])
    ensures |Recorded(turns)| >= |Recorded(turns[..i])|
    ensures ReadLowSamples(Run(turns).file).Some? ==>
      ReadLowSamples(Run(turns).file).value <= |Recorded(turns)| - |Recorded(turns[..i])|
    decreases |turns|
  {
    if i == |turns| {
      assert turns[..i] == turns;
      TurnEffect(Run(turns[..i - 1]).file, Run(turns[..i - 1]).acts, turns[i - 1]);
    } else {
      var front := turns[..|turns| - 1];
      assert front[..i] == turns[..i];
      CounterCountsSince(front, i);
      TurnEffect(Run(front).file, Run(front).acts, turns[|turns| - 1]);
      assert TurnAllowed(turns[|turns| - 1]);
    }
  }

  // The three low observations of a scale-down are disjoint from those of every earlier one.
  lemma ScaleDownsAreDisjoint(turns: seq<Turn>, i: nat)
    requires AllAllowed(turns) && i < |turns| && DecidesDown(turns[..i]) && DecidesDown(turns)
    ensures |Recorded(turns)| >= |Recorded(turns[..i])| + 3
  {
    var front, t := turns[..|turns| - 1], turns[|turns| - 1];
    assert front[..i] == turns[..i];
    CounterCountsSince(front, i);
    DecisionMeaning(t.c.env.first.value, ReadLowSamples(Run(front).file).value);
  }

  // The successful observations of a run, stored or not.
  function Observed(turns: seq<Turn>): seq<Snapshot> {
    if turns == [] then []
    else
      var t := turns[|turns| - 1];
      Observed(turns[..|turns| - 1]) + if t.Running? && t.c.env.first.Some? then [t.c.env.first.value] else []
  }

  // For each successful observation, whether it was stored.
  function Kept(turns: seq<Turn>): (r: seq<bool>)
    ensures |r| == |Observed(turns)|
  {
    if turns == [] then []
    else
      var front, t := turns[..|turns| - 1], turns[|turns| - 1];
      Kept(front) + if t.Running? && t.c.env.first.Some? then [Stores(Run(front).file, t)] else []
  }

  // Among the last n successful observations, a stored one is low as long as n is within the streak.
  lemma {:induction false} KeptAreLow(turns: seq<Turn>, n: nat)
    requires n <= Streak(turns)
    ensures forall k :: 0 <= k < |Observed(turns)| && |Observed(turns)| - n <= k && Kept(turns)[k] ==> Low(Observed(turns)[k])
  {
    if n > 0 {
      var front, t := turns[..|turns| - 1], turns[|turns| - 1];
      if t.Running? && t.c.env.first.Some? {
        KeptAreLow(front, n - 1);
      } else {
        KeptAreLow(front, n);
      }
    }
  }

  predicate LastThreeLow(turns: seq<Turn>) {
    |Observed(turns)| >= 3
    && forall k :: |Observed(turns)| - 3 <= k < |Observed(turns)| ==> Low(Observed(turns)[k])
  }

  // One of the last three successful observations was not low and was not stored: reading the count
  // raised, or writing it failed.
  predicate ForgotBusy(turns: seq<Turn>) {
    exists k :: 0 <= k < |Observed(turns)| && |Observed(turns)| - 3 <= k && !Kept(turns)[k] && !Low(Observed(turns)[k])
  }

  // The debounce, exactly: when a scale-down is decided, the last three successful observations were
  // all low unless a busy one among them was forgotten.
  lemma DebounceExactly(turns: seq<Turn>)
    requires AllAllowed(turns) && DecidesDown(turns)
    ensures LastThreeLow(turns) <==> !ForgotBusy(turns)
  {
    ScaleDownExactly(turns);
    StreakIsLow(turns);
    StoredAreObserved(turns);
    KeptAreLow(turns, 3);
  }

  lemma {:induction false} AllStoredKeeps(turns: seq<Turn>)
    requires AllStored(turns)
    ensures forall k :: 0 <= k < |Kept(turns)| ==> Kept(turns)[k]
  {
    if turns != [] {
      AllStoredKeeps(turns[..|turns| - 1]);
    }
  }

  // So it holds of every run in which each successful observation was stored.
  lemma DebounceWhenStored(turns: seq<Turn>)
    requires AllAllowed(turns) && DecidesDown(turns) && AllStored(turns)
    ensures LastThreeLow(turns)
  {
    AllStoredKeeps(turns);
    DebounceExactly(turns);
  }

  // State writes succeed, and the state file is never replaced by JSON that is not an object: it may
  // still disappear or become unreadable.
  predicate Benign(t: Turn) {
    match t
    case Running(c) => c.env.stateWritten
    case Disturbed(file) => !file.Foreign?
  }

  // Then every successful observation is stored.
  lemma {:induction false} BenignRunsStore(turns: seq<Turn>)
    requires forall k :: 0 <= k < |turns| ==> Benign(turns[k])
    ensures AllStored(turns) && !Run(turns).file.Foreign?
  {
    if turns != [] {
      var front := turns[..|turns| - 1];
      assert forall k :: 0 <= k < |front| ==> Benign(front[k]);
      BenignRunsStore(front);
    }
  }

  lemma {:induction false} ObservedSince(turns: seq<Turn>, i: nat)
    requires i <= |turns|
    ensures |Recorded(turns)| - |Recorded(turns[..i])| <= |Observed(turns)| - |Observed(turns[..i])|
    ensures Observed(turns[..i]) <= Observed(turns)
    decreases |turns|
  {
    if i == |turns| {
      assert turns[..i] == turns;
    } else {
      var front := turns[..|turns| - 1];
      assert front[..i] == turns[..i];
      ObservedSince(front, i);
    }
  }

  // The last three successful observations at a scale-down are disjoint from those of every earlier
  // one, stored or not.
  lemma ObservedAreDisjoint(turns: seq<Turn>, i: nat)
    requires AllAllowed(turns) && i < |turns| && DecidesDown(turns[..i]) && DecidesDown(turns)
    ensures Observed(turns[..i]) <= Observed(turns) && |Observed(turns)| >= |Observed(turns[..i])| + 3
  {
    ScaleDownsAreDisjoint(turns, i);
    ObservedSince(turns, i);
  }

  // Every successful observation could read its low-sample count and store the next one.
  predicate AllStored(turns: seq<Turn>) {
    turns == []
    || var front, t := turns[..|turns| - 1], turns[|turns| - 1];
       AllStored(front) && (t.Running? && t.c.env.first.Some? ==> Stores(Run(front).file, t))
  }

  lemma SnocEqual(a: seq<Snapshot>, b: seq<Snapshot>, x: Snapshot)
    ensures a + [x] == b + [x] <==> a == b
  {
    assert (a + [x])[..|a|] == a && (b + [x])[..|b|] == b;
  }

  // The stored observations are all the successful ones exactly when none failed to be stored.
  lemma {:induction false} StoredAreObserved(turns: seq<Turn>)
    ensures |Recorded(turns)| <= |Observed(turns)|
    ensures Recorded(turns) == Observed(turns) <==> AllStored(turns)
  {
    if turns != [] {
      var front, t := turns[..|turns| - 1], turns[|turns| - 1];
      StoredAreObserved(front);
      if Stores(Run(front).file, t) {
        SnocEqual(Recorded(front), Observed(front), t.c.env.first.value);
      } else if t.Running? && t.c.env.first.Some? {
        assert |Observed(turns)| == |Observed(front)| + 1 && Recorded(turns) == Recorded(front);
      } else {
        assert Observed(turns) == Observed(front) && Recorded(turns) == Recorded(front);
      }
    }
  }

  // Without that, a busy observation whose state write failed is forgotten, and the next low one
  // still counts as the third: four observations, low, low, busy, low, and a scale-down.
  lemma ForgottenObservation(low: Snapshot, busy: Snapshot, e: Env)
    requires Low(low) && !Low(busy) && e.stateWritten && e.first == Some(low)
    ensures var lowTurn := Running(Input(0, e, true, true));
            var busyTurn := Running(Input(0, e.(first := Some(busy), stateWritten := false), true, true));
            var turns := [lowTurn, lowTurn, busyTurn, lowTurn];
            DecidesDown(turns) && Observed(turns) == [low, low, busy, low] && !LastThreeLow(turns)
  {
    var lowTurn := Running(Input(0, e, true, true));
    var busyTurn := Running(Input(0, e.(first := Some(busy), stateWritten := false), true, true));
    var turns := [lowTurn, lowTurn, busyTurn, lowTurn];
    var t1, t2, t3 := [lowTurn], [lowTurn, lowTurn], [lowTurn, lowTurn, busyTurn];
    assert turns[..3] == t3 && t3[..2] == t2 && t2[..1] == t1 && t1[..0] == [];
    DecisionMeaning(low, 0);
    DecisionMeaning(low, 1);
    DecisionMeaning(low, 2);
    assert Run(t1) == Step(Run([]), lowTurn) && Run(t1).file == Stored(Int(1));
    assert Run(t2).file == Stored(Int(2));
    assert Run(t3).file == Stored(Int(2));
    assert Observed([]) == [] && Observed(t1) == [] + [low];
    assert Observed(t1) == [low] && Observed(t2) == [low, low] && Observed(t3) == [low, low, busy];
    assert Observed(turns)[2] == busy;
  }
}
