// Several processes running append_snapshot on one measurement ledger, as a machine over the steps
// lock, verify, write and unlock, with crashes and I/O errors at any of them.
module MeasurementProtocol {
  import opened Wrappers
  import opened Text
  import opened JsonText
  import opened Digest
  import opened HostValues
  import opened Measurement

  // What a completed append reports: the record's sequence number and its hash.
  datatype Receipt = Receipt(sequence: nat, eventHash: string)

  datatype Pc =
    | Idle
    | HoldsLock                       // the lock file was created by this process
    | Ready(seen: Verified)           // the file was verified, nothing is written yet
    | Leaving(receipt: Option<Receipt>)  // about to unlink the lock file; None after an error
    | Crashed

  // How the write of the record's line can end; a line is written completely or not at all.
  datatype WriteOutcome = Written | NotWritten | WrittenThenRaised

  datatype State = State(lines: seq<Line>, locked: bool, procs: seq<Pc>, returned: seq<Receipt>)

  datatype Event =
    | TakeLock(p: nat)
    | Verify(p: nat, readable: bool)
    | Write(p: nat, recordedAt: string, snapshot: Json, outcome: WriteOutcome)
    | Unlock(p: nat, removed: bool)
    | Crash(p: nat)
    | Restart(p: nat)
    | RemoveStaleLock                 // an operator, after inspecting that no process is inside

  predicate Inside(pc: Pc) {
    pc.HoldsLock? || pc.Ready? || pc.Leaving?
  }

  function Payload(seen: Verified, recordedAt: string, snapshot: Json): Members {
    Member("previous_hash", Str(seen.lastHash), Member("recorded_at_utc", Str(recordedAt),
      Member("sequence", Int(seen.events + 1), Member("snapshot", snapshot, NoMembers))))
  }

  function Record(host: Host, seen: Verified, recordedAt: string, snapshot: Json): Json {
    var payload := Payload(seen, recordedAt, snapshot);
    Obj(Member("event_hash", Str(EventHash(host, seen.lastHash, payload)), payload))
  }

  // One step; a step whose process is not at that point changes nothing.
  function Step(host: Host, s: State, e: Event): State {
    if e.RemoveStaleLock? then
      if exists p :: 0 <= p < |s.procs| && Inside(s.procs[p]) then s else s.(locked := false)
    else if e.p >= |s.procs| then s
    else
      var pc := s.procs[e.p];
      match e
      case TakeLock(p) =>
        // os.open with O_CREAT | O_EXCL: refused while the lock file exists
        if pc.Idle? && !s.locked then s.(locked := true, procs := s.procs[p := HoldsLock]) else s
      case Verify(p, readable) =>
        if !pc.HoldsLock? then s
        else if readable && ChainValid(host, s.lines) then
          s.(procs := s.procs[p := Ready(Verified(|s.lines|, LastHash(s.lines)))])
        else s.(procs := s.procs[p := Leaving(None)])
      case Write(p, recordedAt, snapshot, outcome) =>
        if !pc.Ready? then s
        else
          var record := Record(host, pc.seen, recordedAt, snapshot);
          var hash := EventHash(host, pc.seen.lastHash, Payload(pc.seen, recordedAt, snapshot));
          s.(lines := if outcome.NotWritten? then s.lines else s.lines + [Doc(record)],
             procs := s.procs[p := Leaving(if outcome.Written? then Some(Receipt(pc.seen.events + 1, hash)) else None)])
      case Unlock(p, removed) =>
        if !pc.Leaving? then s
        else
          s.(locked := s.locked && !removed, procs := s.procs[p := Idle],
             returned := if removed && pc.receipt.Some? then s.returned + [pc.receipt.value] else s.returned)
      case Crash(p) => s.(procs := s.procs[p := Crashed])
      case Restart(p) => if pc.Crashed? then s.(procs := s.procs[p := Idle]) else s
  }

  function Run(host: Host, s: State, events: seq<Event>): State {
    if events == [] then s else Step(host, Run(host, s, events[..|events| - 1]), events[|events| - 1])
  }

  // A file, and any number of processes that have not started.
  function Start(lines: seq<Line>, processes: nat): State {
    State(lines, false, seq(processes, i => Idle), [])
  }

  // ---- What every step keeps ----

  ghost predicate MutualExclusion(s: State) {
    && (forall p :: 0 <= p < |s.procs| && Inside(s.procs[p]) ==> s.locked)
    && (forall p, q :: 0 <= p < |s.procs| && 0 <= q < |s.procs| && Inside(s.procs[p]) && Inside(s.procs[q]) ==> p == q)
  }

  // The state a process computed is still the file's.
  ghost predicate SeenIsCurrent(s: State) {
    && (forall p :: 0 <= p < |s.procs| && s.procs[p].Ready? ==>
          s.procs[p].seen == Verified(|s.lines|, LastHash(s.lines)))
    && (forall p :: 0 <= p < |s.procs| && s.procs[p].Leaving? && s.procs[p].receipt.Some? ==>
          s.procs[p].receipt.value == Receipt(|s.lines|, LastHash(s.lines)) && s.lines != [])
  }

  // Each reported append has its record in the file, and later reports have later records.
  ghost predicate ReceiptsHold(s: State) {
    && (forall i :: 0 <= i < |s.returned| ==> ReceiptHolds(s.lines, s.returned[i]))
    && (forall i, j :: 0 <= i < j < |s.returned| ==> s.returned[i].sequence < s.returned[j].sequence)
    && (forall p, i :: 0 <= p < |s.procs| && s.procs[p].Leaving? && s.procs[p].receipt.Some? && 0 <= i < |s.returned| ==>
          s.returned[i].sequence < s.procs[p].receipt.value.sequence)
  }

  predicate ReceiptHolds(lines: seq<Line>, r: Receipt) {
    1 <= r.sequence <= |lines| && LastHash(lines[..r.sequence]) == r.eventHash
  }

  ghost predicate Safe(host: Host, s: State) {
    ChainValid(host, s.lines) && MutualExclusion(s) && SeenIsCurrent(s) && ReceiptsHold(s)
  }

  lemma PayloadFields(seen: Verified, recordedAt: string, snapshot: Json)
    ensures var payload := Payload(seen, recordedAt, snapshot);
      && Without(payload, "event_hash") == payload
      && HasKey(payload, "sequence") && Lookup(payload, "sequence") == Int(seen.events + 1)
      && HasKey(payload, "previous_hash") && Lookup(payload, "previous_hash") == Str(seen.lastHash)
  {
    var m4 := Member("snapshot", snapshot, NoMembers);
    var m3 := Member("sequence", Int(seen.events + 1), m4);
    var m2 := Member("recorded_at_utc", Str(recordedAt), m3);
    assert Without(m4, "event_hash") == m4 && Without(m3, "event_hash") == m3 && Without(m2, "event_hash") == m2;
    SkipMember("recorded_at_utc", Str(recordedAt), m3, "sequence");
    SkipMember("previous_hash", Str(seen.lastHash), m2, "sequence");
  }

  // What a line of the ledger says, member by member.
  predicate Holds(line: Line, sequence: int, eventHash: string, recordedAt: string, snapshot: Json) {
    && line.Doc? && line.json.Obj?
    && var ms := line.json.members;
       && HasKey(ms, "sequence") && Lookup(ms, "sequence") == Int(sequence)
       && HasKey(ms, "event_hash") && Lookup(ms, "event_hash") == Str(eventHash)
       && HasKey(ms, "recorded_at_utc") && Lookup(ms, "recorded_at_utc") == Str(recordedAt)
       && HasKey(ms, "snapshot") && Lookup(ms, "snapshot") == snapshot
  }

  // The record built for a snapshot holds it, with its time, number and hash.
  lemma RecordHolds(host: Host, seen: Verified, recordedAt: string, snapshot: Json)
    ensures Holds(Doc(Record(host, seen, recordedAt, snapshot)), seen.events + 1,
                  EventHash(host, seen.lastHash, Payload(seen, recordedAt, snapshot)), recordedAt, snapshot)
    ensures KeysAscend(Record(host, seen, recordedAt, snapshot).members)
  {
    var m4 := Member("snapshot", snapshot, NoMembers);
    var m3 := Member("sequence", Int(seen.events + 1), m4);
    var m2 := Member("recorded_at_utc", Str(recordedAt), m3);
    var m1 := Member("previous_hash", Str(seen.lastHash), m2);
    var hash := Str(EventHash(host, seen.lastHash, m1));
    SkipMember("sequence", Int(seen.events + 1), m4, "snapshot");
    SkipMember("recorded_at_utc", Str(recordedAt), m3, "snapshot");
    SkipMember("recorded_at_utc", Str(recordedAt), m3, "sequence");
    SkipMember("previous_hash", Str(seen.lastHash), m2, "snapshot");
    SkipMember("previous_hash", Str(seen.lastHash), m2, "sequence");
    SkipMember("previous_hash", Str(seen.lastHash), m2, "recorded_at_utc");
    SkipMember("event_hash", hash, m1, "snapshot");
    SkipMember("event_hash", hash, m1, "sequence");
    SkipMember("event_hash", hash, m1, "recorded_at_utc");
    Ascends("sequence", Int(seen.events + 1), m4, 1);
    Ascends("recorded_at_utc", Str(recordedAt), m3, 0);
    Ascends("previous_hash", Str(seen.lastHash), m2, 0);
    Ascends("event_hash", hash, m1, 0);
  }

  lemma HeadMember(key: string, value: Json, rest: Members)
    requires Without(rest, key) == rest
    ensures Without(Member(key, value, rest), key) == rest
    ensures HasKey(Member(key, value, rest), key) && Lookup(Member(key, value, rest), key) == value
  {}

  // The record built from the verified state extends the chain.
  lemma RecordExtends(host: Host, lines: seq<Line>, recordedAt: string, snapshot: Json)
    requires ChainValid(host, lines)
    ensures var seen := Verified(|lines|, LastHash(lines));
            var longer := lines + [Doc(Record(host, seen, recordedAt, snapshot))];
            && ChainValid(host, longer)
            && LastHash(longer) == EventHash(host, seen.lastHash, Payload(seen, recordedAt, snapshot))
  {
    var seen := Verified(|lines|, LastHash(lines));
    var payload := Payload(seen, recordedAt, snapshot);
    var j := Record(host, seen, recordedAt, snapshot);
    PayloadFields(seen, recordedAt, snapshot);
    HeadMember("event_hash", Str(EventHash(host, seen.lastHash, payload)), payload);
    assert Extends(host, j, LastHash(lines), |lines|);
    ExtendedChain(host, lines, j);
  }

  lemma ExtendedChain(host: Host, lines: seq<Line>, j: Json)
    requires ChainValid(host, lines) && Extends(host, j, LastHash(lines), |lines|)
    ensures ChainValid(host, lines + [Doc(j)])
    ensures LastHash(lines + [Doc(j)]) == Lookup(j.members, "event_hash").s
  {
    var longer := lines + [Doc(j)];
    assert longer[..|longer| - 1] == lines && longer[|longer| - 1] == Doc(j);
  }

  lemma WriteKeepsReceipts(s: State, t: State, p: nat, line: Line)
    requires MutualExclusion(s) && SeenIsCurrent(s) && ReceiptsHold(s) && p < |s.procs| && s.procs[p].Ready?
    requires t.lines == s.lines + [line] && t.returned == s.returned && |t.procs| == |s.procs|
    requires t.procs == s.procs[p := t.procs[p]]
    requires t.procs[p].Leaving? && (t.procs[p].receipt.Some? ==>
      t.procs[p].receipt.value == Receipt(|t.lines|, LastHash(t.lines)))
    ensures ReceiptsHold(t)
  {
    forall i | 0 <= i < |t.returned| ensures ReceiptHolds(t.lines, t.returned[i]) {
      assert ReceiptHolds(s.lines, s.returned[i]);
      assert t.lines[..s.returned[i].sequence] == s.lines[..s.returned[i].sequence];
    }
  }

  lemma LeavingKeepsExclusion(s: State, t: State, p: nat)
    requires MutualExclusion(s) && p < |s.procs| && Inside(s.procs[p])
    requires t.locked == s.locked && |t.procs| == |s.procs| && t.procs == s.procs[p := t.procs[p]]
    ensures MutualExclusion(t)
    ensures forall q :: 0 <= q < |t.procs| && q != p ==> !Inside(t.procs[q])
  {}

  lemma LineWrittenIsSafe(host: Host, s: State, p: nat, line: Line, receipt: Option<Receipt>)
    requires Safe(host, s) && p < |s.procs| && s.procs[p].Ready? && ChainValid(host, s.lines + [line])
    requires receipt.Some? ==> receipt.value == Receipt(|s.lines| + 1, LastHash(s.lines + [line]))
    ensures Safe(host, s.(lines := s.lines + [line], procs := s.procs[p := Leaving(receipt)]))
  {
    var t := s.(lines := s.lines + [line], procs := s.procs[p := Leaving(receipt)]);
    LeavingKeepsExclusion(s, t, p);
    WriteKeepsReceipts(s, t, p, line);
  }

  lemma NotWrittenIsSafe(host: Host, s: State, p: nat)
    requires Safe(host, s) && p < |s.procs| && s.procs[p].Ready?
    ensures Safe(host, s.(procs := s.procs[p := Leaving(None)]))
  {
    LeavingKeepsExclusion(s, s.(procs := s.procs[p := Leaving(None)]), p);
  }

  lemma WriteIsSafe(host: Host, s: State, p: nat, recordedAt: string, snapshot: Json, outcome: WriteOutcome)
    requires Safe(host, s)
    ensures Safe(host, Step(host, s, Write(p, recordedAt, snapshot, outcome)))
  {
    if p < |s.procs| && s.procs[p].Ready? {
      if outcome.NotWritten? {
        NotWrittenIsSafe(host, s, p);
      } else {
        var seen := s.procs[p].seen;
        var hash := EventHash(host, seen.lastHash, Payload(seen, recordedAt, snapshot));
        RecordExtends(host, s.lines, recordedAt, snapshot);
        LineWrittenIsSafe(host, s, p, Doc(Record(host, seen, recordedAt, snapshot)),
                          if outcome.Written? then Some(Receipt(seen.events + 1, hash)) else None);
      }
    }
  }

  lemma TakeLockIsSafe(host: Host, s: State, p: nat)
    requires Safe(host, s)
    ensures Safe(host, Step(host, s, TakeLock(p)))
  {}

  lemma VerifyIsSafe(host: Host, s: State, p: nat, readable: bool)
    requires Safe(host, s)
    ensures Safe(host, Step(host, s, Verify(p, readable)))
  {}

  lemma UnlockIsSafe(host: Host, s: State, p: nat, removed: bool)
    requires Safe(host, s)
    ensures Safe(host, Step(host, s, Unlock(p, removed)))
  {
    if p < |s.procs| && s.procs[p].Leaving? {
      assert s.lines[..|s.lines|] == s.lines;
      var t := Step(host, s, Unlock(p, removed));
      assert forall q :: 0 <= q < |t.procs| ==> !Inside(t.procs[q]);
    }
  }

  lemma CrashIsSafe(host: Host, s: State, p: nat)
    requires Safe(host, s)
    ensures Safe(host, Step(host, s, Crash(p)))
  {}

  lemma RestartIsSafe(host: Host, s: State, p: nat)
    requires Safe(host, s)
    ensures Safe(host, Step(host, s, Restart(p)))
  {}

  lemma StepIsSafe(host: Host, s: State, e: Event)
    requires Safe(host, s)
    ensures Safe(host, Step(host, s, e))
  {
    match e
    case TakeLock(p) => TakeLockIsSafe(host, s, p);
    case Verify(p, readable) => VerifyIsSafe(host, s, p, readable);
    case Write(p, recordedAt, snapshot, outcome) => WriteIsSafe(host, s, p, recordedAt, snapshot, outcome);
    case Unlock(p, removed) => UnlockIsSafe(host, s, p, removed);
    case Crash(p) => CrashIsSafe(host, s, p);
    case Restart(p) => RestartIsSafe(host, s, p);
    case RemoveStaleLock =>
  }

  // In every run, from a valid file: the ledger is always chain-valid, at most one process is
  // between lock and unlock, what it verified equals the file, and reported appends stay recorded.
  lemma {:induction false} RunsAreSafe(host: Host, lines: seq<Line>, processes: nat, events: seq<Event>)
    requires ChainValid(host, lines)
    ensures Safe(host, Run(host, Start(lines, processes), events))
  {
    if events != [] {
      RunsAreSafe(host, lines, processes, events[..|events| - 1]);
      StepIsSafe(host, Run(host, Start(lines, processes), events[..|events| - 1]), events[|events| - 1]);
    }
  }

  // No step changes or removes a line, or forgets a report.
  lemma {:induction false} RunsOnlyAppend(host: Host, s: State, events: seq<Event>)
    ensures s.lines <= Run(host, s, events).lines
    ensures s.returned <= Run(host, s, events).returned
  {
    if events != [] {
      RunsOnlyAppend(host, s, events[..|events| - 1]);
    }
  }

  // ---- What reported appends hold ----

  // Event k of the run is a write: it appended line number n, which holds its snapshot and its time.
  ghost predicate WroteLine(host: Host, s0: State, events: seq<Event>, k: nat, lines: seq<Line>, r: Receipt) {
    && k < |events| && events[k].Write? && 1 <= r.sequence <= |lines|
    && |Run(host, s0, events[..k]).lines| == r.sequence - 1 && |Run(host, s0, events[..k + 1]).lines| == r.sequence
    && Holds(lines[r.sequence - 1], r.sequence, r.eventHash, events[k].recordedAt, events[k].snapshot)
  }

  ghost predicate Kept(host: Host, s0: State, lines: seq<Line>, r: Receipt, events: seq<Event>) {
    exists k :: 0 <= k < |events| && WroteLine(host, s0, events, k, lines, r)
  }

  lemma KeptStays(host: Host, s0: State, lines: seq<Line>, r: Receipt, events: seq<Event>, after: seq<Line>, e: Event)
    requires Kept(host, s0, lines, r, events) && lines <= after
    ensures Kept(host, s0, after, r, events + [e])
  {
    var k :| 0 <= k < |events| && WroteLine(host, s0, events, k, lines, r);
    assert (events + [e])[..k] == events[..k] && (events + [e])[..k + 1] == events[..k + 1];
    assert WroteLine(host, s0, events + [e], k, after, r);
  }

  ghost predicate AllKept(host: Host, s0: State, s: State, events: seq<Event>) {
    && (forall i :: 0 <= i < |s.returned| ==> Kept(host, s0, s.lines, s.returned[i], events))
    && (forall p :: 0 <= p < |s.procs| && s.procs[p].Leaving? && s.procs[p].receipt.Some? ==>
          Kept(host, s0, s.lines, s.procs[p].receipt.value, events))
  }

  lemma WriteKeeps(host: Host, s0: State, events: seq<Event>, e: Event)
    requires var s := Run(host, s0, events);
      Safe(host, s) && e.Write? && e.p < |s.procs| && s.procs[e.p].Ready? && e.outcome.Written?
    ensures var t := Step(host, Run(host, s0, events), e);
      && t.procs[e.p].Leaving? && t.procs[e.p].receipt.Some?
      && Kept(host, s0, t.lines, t.procs[e.p].receipt.value, events + [e])
  {
    var s := Run(host, s0, events);
    var t, seen := Step(host, s, e), s.procs[e.p].seen;
    RecordHolds(host, seen, e.recordedAt, e.snapshot);
    assert t.lines == s.lines + [Doc(Record(host, seen, e.recordedAt, e.snapshot))];
    var longer := events + [e];
    assert longer[..|events|] == events && longer[..|events| + 1] == longer && longer[|longer| - 1] == e;
    assert WroteLine(host, s0, longer, |events|, t.lines, t.procs[e.p].receipt.value);
  }

  predicate Holding(s: State, r: Receipt) {
    r in s.returned
    || exists p :: 0 <= p < |s.procs| && s.procs[p].Leaving? && s.procs[p].receipt == Some(r)
  }

  predicate IsReportedWrite(s: State, e: Event) {
    e.Write? && e.p < |s.procs| && s.procs[e.p].Ready? && e.outcome.Written?
  }

  // Only a reported write brings a new receipt.
  lemma ReceiptsPersist(host: Host, s: State, e: Event)
    ensures forall r :: r in Step(host, s, e).returned ==> Holding(s, r)
    ensures var t := Step(host, s, e);
      forall p :: 0 <= p < |t.procs| && t.procs[p].Leaving? && t.procs[p].receipt.Some? ==>
        Holding(s, t.procs[p].receipt.value) || (IsReportedWrite(s, e) && p == e.p)
    ensures s.lines <= Step(host, s, e).lines
  {}

  lemma StepKeepsAll(host: Host, s0: State, events: seq<Event>, e: Event)
    requires Safe(host, Run(host, s0, events)) && AllKept(host, s0, Run(host, s0, events), events)
    ensures AllKept(host, s0, Step(host, Run(host, s0, events), e), events + [e])
  {
    var s := Run(host, s0, events);
    ReceiptsPersist(host, s, e);
    forall r | Holding(s, r) ensures Kept(host, s0, Step(host, s, e).lines, r, events + [e]) {
      assert Kept(host, s0, s.lines, r, events);
      KeptStays(host, s0, s.lines, r, events, Step(host, s, e).lines, e);
    }
    if IsReportedWrite(s, e) {
      WriteKeeps(host, s0, events, e);
    }
  }

  ghost predicate RunKeepsAll(host: Host, s0: State, events: seq<Event>) {
    AllKept(host, s0, Run(host, s0, events), events)
  }

  lemma NextKeepsAll(host: Host, s0: State, front: seq<Event>, e: Event)
    requires Safe(host, Run(host, s0, front)) && RunKeepsAll(host, s0, front)
    ensures RunKeepsAll(host, s0, front + [e])
  {
    StepKeepsAll(host, s0, front, e);
    var longer := front + [e];
    assert longer[..|longer| - 1] == front && longer[|longer| - 1] == e;
  }

  // In every run, from a valid file, each reported append names the line that one of the run's writes
  // appended, and that line holds the write's snapshot and time, the reported number and the reported
  // hash.
  lemma {:induction false} ReportedAppendsHold(host: Host, lines: seq<Line>, processes: nat, events: seq<Event>)
    requires ChainValid(host, lines)
    ensures RunKeepsAll(host, Start(lines, processes), events)
  {
    if events == [] {
      assert AllKept(host, Start(lines, processes), Start(lines, processes), []);
    } else {
      var front, last := events[..|events| - 1], events[|events| - 1];
      ReportedAppendsHold(host, lines, processes, front);
      RunsAreSafe(host, lines, processes, front);
      NextKeepsAll(host, Start(lines, processes), front, last);
      assert events == front + [last];
    }
  }

  // Why the operator has to look first: removing a lock whose holder is still inside lets two
  // processes write the same sequence number, and the file is no longer a chain.
  lemma RemovingALiveLockBreaksTheChain(host: Host, recordedAt: string, snapshot: Json)
    ensures var s := Run(host, Start([], 2), [TakeLock(0), Verify(0, true)]).(locked := false);
            !ChainValid(host, Run(host, s, [TakeLock(1), Verify(1, true), Write(0, recordedAt, snapshot, Written),
                                            Write(1, recordedAt, snapshot, Written)]).lines)
  {
    var seen, j := Verified(0, LastHash([])), Record(host, Verified(0, LastHash([])), recordedAt, snapshot);
    PairUnfolds(host, Start([], 2), [TakeLock(0), Verify(0, true)]);
    var s := Run(host, Start([], 2), [TakeLock(0), Verify(0, true)]).(locked := false);
    assert s == State([], false, [Ready(seen), Idle], []);
    PassUnfolds(host, s, [TakeLock(1), Verify(1, true), Write(0, recordedAt, snapshot, Written), Write(1, recordedAt, snapshot, Written)]);
    var s1 := Step(host, s, TakeLock(1));
    assert s1 == State([], true, [Ready(seen), HoldsLock], []);
    var s2 := Step(host, s1, Verify(1, true));
    assert s2 == State([], true, [Ready(seen), Ready(seen)], []);
    var s3 := Step(host, s2, Write(0, recordedAt, snapshot, Written));
    assert s3.lines == [Doc(j)] && s3.procs[1] == Ready(seen);
    PayloadFields(seen, recordedAt, snapshot);
    assert Step(host, s3, Write(1, recordedAt, snapshot, Written)).lines == [Doc(j), Doc(j)];
    TwiceIsNoChain(host, j);
  }

  // A record that is first in the file is not also second.
  lemma TwiceIsNoChain(host: Host, j: Json)
    requires j.Obj? && HasKey(Without(j.members, "event_hash"), "sequence")
    requires Lookup(Without(j.members, "event_hash"), "sequence") == Int(1)
    ensures !ChainValid(host, [Doc(j), Doc(j)])
  {
    assert [Doc(j), Doc(j)][..1] == [Doc(j)];
  }

  lemma PairUnfolds(host: Host, s: State, pair: seq<Event>)
    requires |pair| == 2
    ensures Run(host, s, pair) == Step(host, Step(host, s, pair[0]), pair[1])
  {
    assert pair[..1][..0] == [] && pair[..1][0] == pair[0];
    assert Run(host, s, pair[..1]) == Step(host, s, pair[0]);
  }

  // ---- The sequential code ----

  // One process alone, at one point of its pass.
  function Alone(lines: seq<Line>, locked: bool, pc: Pc): State {
    State(lines, locked, [pc], [])
  }

  lemma LockAlone(host: Host, lines: seq<Line>)
    ensures Step(host, Alone(lines, false, Idle), TakeLock(0)) == Alone(lines, true, HoldsLock)
  {}

  lemma VerifyAlone(host: Host, lines: seq<Line>, readable: bool)
    ensures Step(host, Alone(lines, true, HoldsLock), Verify(0, readable)) == Alone(lines, true,
      if readable && ChainValid(host, lines) then Ready(Verified(|lines|, LastHash(lines))) else Leaving(None))
  {}

  lemma WriteAlone(host: Host, lines: seq<Line>, seen: Verified, recordedAt: string, snapshot: Json, outcome: WriteOutcome)
    ensures Step(host, Alone(lines, true, Ready(seen)), Write(0, recordedAt, snapshot, outcome)) == Alone(
      if outcome.NotWritten? then lines else lines + [Doc(Record(host, seen, recordedAt, snapshot))], true,
      Leaving(if outcome.Written? then Some(Receipt(seen.events + 1,
        EventHash(host, seen.lastHash, Payload(seen, recordedAt, snapshot)))) else None))
  {}

  lemma UnlockAlone(host: Host, lines: seq<Line>, receipt: Option<Receipt>, removed: bool)
    ensures Step(host, Alone(lines, true, Leaving(receipt)), Unlock(0, removed))
         == State(lines, !removed, [Idle], if removed && receipt.Some? then [receipt.value] else [])
  {}

  // Steps that do not apply.
  lemma SkippedAlone(host: Host, lines: seq<Line>, readable: bool, recordedAt: string, snapshot: Json,
                     outcome: WriteOutcome, removed: bool)
    ensures Step(host, Alone(lines, true, Idle), TakeLock(0)) == Alone(lines, true, Idle)
    ensures Step(host, Alone(lines, true, Idle), Verify(0, readable)) == Alone(lines, true, Idle)
    ensures Step(host, Alone(lines, true, Idle), Write(0, recordedAt, snapshot, outcome)) == Alone(lines, true, Idle)
    ensures Step(host, Alone(lines, true, Idle), Unlock(0, removed)) == Alone(lines, true, Idle)
    ensures Step(host, Alone(lines, true, Leaving(None)), Write(0, recordedAt, snapshot, outcome))
         == Alone(lines, true, Leaving(None))
  {}

  // The state append_snapshot leaves when nothing interrupts it, and the receipt it returns.
  function Pass(host: Host, lines: seq<Line>, locked: bool, recordedAt: string, snapshot: Json,
                readable: bool, outcome: WriteOutcome, removed: bool): (seq<Line>, bool, Option<Receipt>) {
    var pass := [TakeLock(0), Verify(0, readable), Write(0, recordedAt, snapshot, outcome), Unlock(0, removed)];
    var t := Run(host, Alone(lines, locked, Idle), pass);
    (t.lines, t.locked, if t.returned == [] then None else Some(t.returned[|t.returned| - 1]))
  }

  // The same, spelled out.
  lemma PassOutcome(host: Host, lines: seq<Line>, locked: bool, recordedAt: string, snapshot: Json,
                    readable: bool, outcome: WriteOutcome, removed: bool)
    ensures var seen := Verified(|lines|, LastHash(lines));
      Pass(host, lines, locked, recordedAt, snapshot, readable, outcome, removed) ==
        if locked then (lines, true, None)
        else if !readable || !ChainValid(host, lines) then (lines, !removed, None)
        else (if outcome.NotWritten? then lines else lines + [Doc(Record(host, seen, recordedAt, snapshot))], !removed,
              if outcome.Written? && removed then Some(Receipt(|lines| + 1,
                EventHash(host, seen.lastHash, Payload(seen, recordedAt, snapshot)))) else None)
  {
    var pass := [TakeLock(0), Verify(0, readable), Write(0, recordedAt, snapshot, outcome), Unlock(0, removed)];
    var s := Alone(lines, locked, Idle);
    PassUnfolds(host, s, pass);
    SkippedAlone(host, lines, readable, recordedAt, snapshot, outcome, removed);
    if !locked {
      var seen := Verified(|lines|, LastHash(lines));
      LockAlone(host, lines);
      VerifyAlone(host, lines, readable);
      if readable && ChainValid(host, lines) {
        WriteAlone(host, lines, seen, recordedAt, snapshot, outcome);
        var longer := if outcome.NotWritten? then lines else lines + [Doc(Record(host, seen, recordedAt, snapshot))];
        UnlockAlone(host, longer, if outcome.Written? then Some(Receipt(seen.events + 1,
          EventHash(host, seen.lastHash, Payload(seen, recordedAt, snapshot)))) else None, removed);
      } else {
        UnlockAlone(host, lines, None, removed);
      }
    }
  }

  lemma PassUnfolds(host: Host, s: State, pass: seq<Event>)
    requires |pass| == 4
    ensures Run(host, s, pass) == Step(host, Step(host, Step(host, Step(host, s, pass[0]), pass[1]), pass[2]), pass[3])
  {
    assert pass[..3][..2][..1][..0] == [];
    assert pass[..3][..2][..1][0] == pass[0] && pass[..3][..2][1] == pass[1] && pass[..3][2] == pass[2];
    assert Run(host, s, pass[..3][..2][..1]) == Step(host, s, pass[0]);
    assert Run(host, s, pass[..3][..2]) == Step(host, Step(host, s, pass[0]), pass[1]);
  }

  // The ledger file and the lock file beside it.
  class LedgerDirectory {
    var lines: seq<Line>
    var locked: bool

    constructor (lines: seq<Line>)
      ensures this.lines == lines && !locked
    {
      this.lines, this.locked := lines, false;
    }

    // append_snapshot, with the outcome of each I/O step given: uninterrupted, it is one pass of the
    // machine, and returns what that pass reports.
    method AppendSnapshot(host: Host, recordedAt: string, snapshot: Json,
                          readable: bool, outcome: WriteOutcome, removed: bool)
      returns (receipt: Option<Receipt>)
      modifies this
      ensures (lines, locked, receipt)
           == Pass(host, old(lines), old(locked), recordedAt, snapshot, readable, outcome, removed)
      ensures receipt.Some? <==>
        !old(locked) && readable && ChainValid(host, old(lines)) && outcome.Written? && removed
      ensures receipt.Some? ==>
        && |lines| == |old(lines)| + 1 && lines[..|old(lines)|] == old(lines) && receipt.value.sequence == |lines|
        && Holds(lines[|lines| - 1], |lines|, receipt.value.eventHash, recordedAt, snapshot) && ChainValid(host, lines)
    {
      PassOutcome(host, lines, locked, recordedAt, snapshot, readable, outcome, removed);
      receipt := None;
      if locked {
        return;
      }
      locked := true;
      if readable {
        var r := VerifyLedger(host, lines);
        if r.Success? {
          var payload := Payload(r.value, recordedAt, snapshot);
          var digest := EventHash(host, r.value.lastHash, payload);
          RecordHolds(host, r.value, recordedAt, snapshot);
          RecordExtends(host, lines, recordedAt, snapshot);
          if !outcome.NotWritten? {
            lines := lines + [Doc(Obj(Member("event_hash", Str(digest), payload)))];
          }
          if outcome.Written? {
            receipt := Some(Receipt(r.value.events + 1, digest));
          }
        }
      }
      if removed {
        locked := false;
      } else {
        receipt := None;
      }
    }
  }
}
