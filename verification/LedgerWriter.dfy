// The single writer of a hash-chain ledger: a cached length and head beside the file.
module LedgerWriter {
  import opened Wrappers
  import opened Text
  import opened JsonText
  import opened Digest
  import opened HostValues
  import opened Ledger
  import opened LedgerHistory

  // How the append of one line can end: the file is not opened; it is opened, and so created if it
  // was absent, but the write, which is all or nothing, fails; or it is written, and an error may
  // still follow (flush or fsync).
  datatype Outcome = NotOpened | NotWritten | Written | WrittenThenRaised

  predicate Writes(outcome: Outcome) {
    outcome.Written? || outcome.WrittenThenRaised?
  }

  datatype Cache = Cache(seqNo: nat, head: Json)

  // The file, absent or present, and, while a ledger object is open on it, the object's cache.
  datatype State = State(present: bool, lines: seq<Line>, cache: Option<Cache>)

  function NewRecord(host: Host, cache: Cache, payload: Json, timestamp: string): Json {
    RecordOf(Str(ComputeHash(host, View(PyStr(host, cache.head), Decimal(cache.seqNo), timestamp, payload))),
             payload, cache.head, Int(cache.seqNo), Str(timestamp))
  }

  // What a line says, field by field.
  predicate Says(line: Line, seqNo: nat, prev: Json, timestamp: string, payload: Json) {
    line.Doc? && HasRecordKeys(line.json) && Lookup(line.json.members, "seq") == Int(seqNo)
    && Lookup(line.json.members, "prev_hash") == prev && Lookup(line.json.members, "timestamp") == Str(timestamp)
    && Lookup(line.json.members, "payload") == payload
  }

  // An appended record says what it was given, and carries the hash of its text.
  lemma NewRecordHolds(host: Host, cache: Cache, payload: Json, timestamp: string)
    ensures var j := NewRecord(host, cache, payload, timestamp);
      && Says(Doc(j), cache.seqNo, cache.head, timestamp, payload)
      && HashField(j) == Str(host.sha(PyStr(host, cache.head) + "|" + Decimal(cache.seqNo) + "|" + timestamp + "|" + Dumps(payload)))
  {
    var v := View(PyStr(host, cache.head), Decimal(cache.seqNo), timestamp, payload);
    PreimagePlaces(v);
    RecordFields(Str(ComputeHash(host, v)), payload, cache.head, Int(cache.seqNo), Str(timestamp));
  }

  lemma HashOfRecord(digest: Json, payload: Json, prev: Json, seqNo: Json, timestamp: Json)
    ensures Lookup(RecordOf(digest, payload, prev, seqNo, timestamp).members, "hash") == digest
  {}

  datatype Op = Append(payload: Json, timestamp: string, outcome: Outcome) | Reopen

  // Opening a ledger object creates no file.
  function OpenState(host: Host, present: bool, lines: seq<Line>): State {
    State(present, lines, if Chain(host, lines) then Some(Cache(Count(lines), Head(lines))) else None)
  }

  // A ledger object on a path where there is no file yet.
  function Fresh(host: Host): State {
    OpenState(host, false, [])
  }

  function Step(host: Host, s: State, op: Op): State {
    match op
    case Reopen => OpenState(host, s.present, s.lines)
    case Append(payload, timestamp, outcome) =>
      if s.cache.None? || outcome.NotOpened? then s
      else if outcome.NotWritten? then s.(present := true)
      else
        var j := NewRecord(host, s.cache.value, payload, timestamp);
        State(true, s.lines + [Doc(j)],
              if outcome.Written? then Some(Cache(s.cache.value.seqNo + 1, Lookup(j.members, "hash"))) else s.cache)
  }

  // The state after the first k operations are those of the run's prefix.
  function Run(host: Host, s: State, ops: seq<Op>): State {
    if ops == [] then s else Step(host, Run(host, s, ops[..|ops| - 1]), ops[|ops| - 1])
  }

  // The object's cache is what a full scan of the file gives.
  predicate Agrees(host: Host, s: State) {
    s.cache == Some(Cache(Count(s.lines), Head(s.lines)))
  }

  // An append raised after its line was written, and the ledger was not reopened since.
  predicate Stale(ops: seq<Op>) {
    ops != []
    && match ops[|ops| - 1]
       case Reopen => false
       case Append(_, _, outcome) => outcome.WrittenThenRaised? || Stale(ops[..|ops| - 1])
  }

  // Some append wrote its line while the cache was stale.
  predicate WroteWhileStale(ops: seq<Op>) {
    ops != []
    && (WroteWhileStale(ops[..|ops| - 1])
        || (Stale(ops[..|ops| - 1]) && ops[|ops| - 1].Append? && Writes(ops[|ops| - 1].outcome)))
  }

  // Appending from a cache that agrees keeps the chain, exactly when the cached head is a string.
  lemma AppendLinks(host: Host, lines: seq<Line>, payload: Json, timestamp: string)
    requires Chain(host, lines)
    ensures var j := NewRecord(host, Cache(Count(lines), Head(lines)), payload, timestamp);
      && HasRecordKeys(j) && HashField(j).Str?
      && (Chain(host, lines + [Doc(j)]) <==> Head(lines).Str?)
      && Count(lines + [Doc(j)]) == Count(lines) + 1 && Head(lines + [Doc(j)]) == HashField(j)
  {
    var cache := Cache(Count(lines), Head(lines));
    var j := NewRecord(host, cache, payload, timestamp);
    RecordFields(Lookup(j.members, "hash"), payload, cache.head, Int(cache.seqNo), Str(timestamp));
    ChainSnoc(host, lines, Doc(j), Str(Genesis()), 0);
  }

  // What one append by an open ledger object does to the file and its cache.
  lemma StepAppends(host: Host, s: State, payload: Json, timestamp: string, outcome: Outcome)
    requires s.cache.Some?
    ensures var t, cache := Step(host, s, Op.Append(payload, timestamp, outcome)), s.cache.value;
      && t.cache.Some?
      && (Writes(outcome) ==>
            && |t.lines| == |s.lines| + 1 && t.lines[..|s.lines|] == s.lines
            && Says(t.lines[|s.lines|], cache.seqNo, cache.head, timestamp, payload))
      && (Agrees(host, s) && Chain(host, s.lines) && cache.head.Str? && !outcome.WrittenThenRaised? ==>
            Agrees(host, t) && Chain(host, t.lines) && t.cache.value.head.Str?)
  {
    NewRecordHolds(host, s.cache.value, payload, timestamp);
    if Agrees(host, s) && Chain(host, s.lines) {
      AppendLinks(host, s.lines, payload, timestamp);
    }
  }

  // A record that repeats an old sequence number never links.
  lemma StaleAppendBreaks(host: Host, lines: seq<Line>, cache: Cache, payload: Json, timestamp: string)
    requires cache.seqNo < Count(lines)
    ensures !Chain(host, lines + [Doc(NewRecord(host, cache, payload, timestamp))])
  {
    var j := NewRecord(host, cache, payload, timestamp);
    RecordFields(Lookup(j.members, "hash"), payload, cache.head, Int(cache.seqNo), Str(timestamp));
    ChainSnoc(host, lines, Doc(j), Str(Genesis()), 0);
  }

  // Where a run from a verified file stands.
  ghost predicate RunInvariant(host: Host, s: State, ops: seq<Op>) {
    if WroteWhileStale(ops) then !Chain(host, s.lines)
    else
      && Chain(host, s.lines) && Head(s.lines).Str? && s.cache.Some?
      && (if Stale(ops) then s.cache.value.seqNo < Count(s.lines) else Agrees(host, s))
  }

  lemma SnocOps(ops: seq<Op>, op: Op)
    ensures Stale(ops + [op]) <==> op.Append? && (op.outcome.WrittenThenRaised? || Stale(ops))
    ensures WroteWhileStale(ops + [op]) <==>
      WroteWhileStale(ops) || (Stale(ops) && op.Append? && Writes(op.outcome))
  {
    var all := ops + [op];
    assert all[..|all| - 1] == ops && all[|all| - 1] == op;
  }

  lemma AppendInvariant(host: Host, s: State, ops: seq<Op>, op: Op)
    requires RunInvariant(host, s, ops) && op.Append? && s.cache.Some? && Writes(op.outcome)
    ensures RunInvariant(host, Step(host, s, op), ops + [op])
  {
    var cache := s.cache.value;
    var j := NewRecord(host, cache, op.payload, op.timestamp);
    SnocOps(ops, op);
    if WroteWhileStale(ops) {
      ChainConcat(host, s.lines, [Doc(j)], Str(Genesis()), 0);
    } else if Stale(ops) {
      StaleAppendBreaks(host, s.lines, cache, op.payload, op.timestamp);
    } else {
      AppendLinks(host, s.lines, op.payload, op.timestamp);
    }
  }

  lemma StepInvariant(host: Host, s: State, ops: seq<Op>, op: Op)
    requires RunInvariant(host, s, ops)
    ensures RunInvariant(host, Step(host, s, op), ops + [op])
  {
    if op.Append? && s.cache.Some? && Writes(op.outcome) {
      AppendInvariant(host, s, ops, op);
    } else {
      SnocOps(ops, op);
    }
  }

  lemma {:induction false} RunKeepsInvariant(host: Host, present: bool, lines: seq<Line>, ops: seq<Op>)
    requires Chain(host, lines) && Head(lines).Str?
    ensures RunInvariant(host, Run(host, OpenState(host, present, lines), ops), ops)
  {
    if ops != [] {
      var front, last := ops[..|ops| - 1], ops[|ops| - 1];
      RunKeepsInvariant(host, present, lines, front);
      StepInvariant(host, Run(host, OpenState(host, present, lines), front), front, last);
      assert ops == front + [last];
    }
  }

  // For every run of appends and reopenings from a verified file (an empty one, say): the file
  // verifies exactly when no append wrote while the cache was stale, and until then the cache
  // equals a full scan exactly when it is not stale.
  lemma CacheAgreesWithFile(host: Host, present: bool, lines: seq<Line>, ops: seq<Op>)
    requires Chain(host, lines) && Head(lines).Str?
    ensures var s := Run(host, OpenState(host, present, lines), ops);
      && (Chain(host, s.lines) <==> !WroteWhileStale(ops))
      && (!WroteWhileStale(ops) ==> (Agrees(host, s) <==> !Stale(ops)))
  {
    RunKeepsInvariant(host, present, lines, ops);
  }

  // Every prefix of a verified file verifies.
  lemma PrefixesVerify(host: Host, lines: seq<Line>, k: nat)
    requires k <= |lines| && Chain(host, lines)
    ensures Chain(host, lines[..k])
  {
    assert lines == lines[..k] + lines[k..];
    ChainConcat(host, lines[..k], lines[k..], Str(Genesis()), 0);
  }

  // No operation changes or removes a line already in the file.
  lemma {:induction false} RunOnlyAppends(host: Host, s: State, ops: seq<Op>)
    ensures s.lines <= Run(host, s, ops).lines
  {
    if ops != [] {
      RunOnlyAppends(host, s, ops[..|ops| - 1]);
    }
  }

  // The operation opened the file for appending.
  predicate Opens(op: Op) {
    op.Append? && !op.outcome.NotOpened?
  }

  // On a path where there was no file, the file exists exactly when some append opened it.
  lemma {:induction false} FileIsCreatedByAppends(host: Host, ops: seq<Op>)
    ensures var s := Run(host, Fresh(host), ops);
      && (s.present <==> exists k :: 0 <= k < |ops| && Opens(ops[k]))
      && (!s.present ==> s == Fresh(host))
  {
    if ops != [] {
      var front := ops[..|ops| - 1];
      FileIsCreatedByAppends(host, front);
      assert forall k :: 0 <= k < |front| ==> ops[k] == front[k];
    }
  }

  // ---- What runs write ----

  lemma {:induction false} WrittenHeadIsText(host: Host, lines: seq<Line>)
    requires Chain(host, lines) && forall j :: j in Documents(lines) ==> AsWritten(j)
    ensures Head(lines).Str?
  {
    if lines != [] {
      var front, last := lines[..|lines| - 1], lines[|lines| - 1];
      SplitLast(host, lines);
      assert forall j :: j in Documents(front) ==> j in Documents(lines);
      WrittenHeadIsText(host, front);
      if last.Doc? {
        assert last.json in Documents(lines);
      }
    }
  }

  lemma NewRecordAsWritten(host: Host, cache: Cache, payload: Json, timestamp: string)
    requires cache.head.Str?
    ensures AsWritten(NewRecord(host, cache, payload, timestamp))
  {
    var j := NewRecord(host, cache, payload, timestamp);
    RecordFields(Lookup(j.members, "hash"), payload, cache.head, Int(cache.seqNo), Str(timestamp));
  }

  // Every record a run writes on a new path has the shape HeadDeterminesWrittenRecords asks for.
  lemma {:induction false} RunsWriteAsWritten(host: Host, ops: seq<Op>)
    ensures var s := Run(host, Fresh(host), ops);
      && (forall j :: j in Documents(s.lines) ==> AsWritten(j))
      && (s.cache.Some? ==> s.cache.value.head.Str?)
  {
    if ops != [] {
      var s, op := Run(host, Fresh(host), ops[..|ops| - 1]), ops[|ops| - 1];
      RunsWriteAsWritten(host, ops[..|ops| - 1]);
      if op.Reopen? {
        if Chain(host, s.lines) {
          WrittenHeadIsText(host, s.lines);
        }
      } else if s.cache.Some? && Writes(op.outcome) {
        AppendAsWritten(host, s, op);
      }
    }
  }

  lemma AppendAsWritten(host: Host, s: State, op: Op)
    requires op.Append? && Writes(op.outcome) && s.cache.Some? && s.cache.value.head.Str?
    requires forall j :: j in Documents(s.lines) ==> AsWritten(j)
    ensures var t := Step(host, s, op);
      t.cache.Some? && t.cache.value.head.Str? && forall j :: j in Documents(t.lines) ==> AsWritten(j)
  {
    var j := NewRecord(host, s.cache.value, op.payload, op.timestamp);
    NewRecordAsWritten(host, s.cache.value, op.payload, op.timestamp);
    ViewsConcat(host, s.lines, [Doc(j)]);
    assert [Doc(j)][1..] == [] && Documents([Doc(j)]) == [j];
  }

  // Two ledgers written from new paths whose files verify and end with the same hash hold the same
  // records.
  lemma EqualHeadsEqualRecords(host: Host, ops: seq<Op>, others: seq<Op>, inputs: set<string>)
    requires !WroteWhileStale(ops) && !WroteWhileStale(others)
    requires HexDigest(host.sha) && CollisionFreeOn(host.sha, inputs) && AvoidsGenesis(host.sha, inputs)
    requires HashedTexts(host, Run(host, Fresh(host), ops).lines) <= inputs
    requires HashedTexts(host, Run(host, Fresh(host), others).lines) <= inputs
    requires Head(Run(host, Fresh(host), ops).lines) == Head(Run(host, Fresh(host), others).lines)
    ensures Documents(Run(host, Fresh(host), ops).lines) == Documents(Run(host, Fresh(host), others).lines)
  {
    CacheAgreesWithFile(host, false, [], ops);
    CacheAgreesWithFile(host, false, [], others);
    RunsWriteAsWritten(host, ops);
    RunsWriteAsWritten(host, others);
    HeadDeterminesWrittenRecords(host, Run(host, Fresh(host), ops).lines, Run(host, Fresh(host), others).lines, inputs);
  }

  // A verified file that cannot be extended: when a first record's digest reads as a number, the
  // record may carry that number as its hash, and whatever is appended next breaks the chain.
  lemma IntegerHeadStops(host: Host, payload: Json, timestamp: string, n: nat, next: Json, later: string)
    requires ComputeHash(host, View(Genesis(), "0", timestamp, payload)) == Decimal(n)
    ensures var lines := [Doc(RecordOf(Int(n), payload, Str(Genesis()), Int(0), Str(timestamp)))];
      && Chain(host, lines) && Head(lines) == Int(n) && Agrees(host, OpenState(host, true, lines))
      && !Chain(host, Step(host, OpenState(host, true, lines), Append(next, later, Written)).lines)
  {
    var j := RecordOf(Int(n), payload, Str(Genesis()), Int(0), Str(timestamp));
    assert Decimal(0) == "0";
    RecordFields(Int(n), payload, Str(Genesis()), Int(0), Str(timestamp));
    OneRecordChain(host, j);
    AppendLinks(host, [Doc(j)], next, later);
  }

  // ---- The ledger object ----

  class LedgerFile {
    var present: bool
    var lines: seq<Line>

    constructor (present: bool, lines: seq<Line>)
      ensures this.present == present && this.lines == lines
    {
      this.present, this.lines := present, lines;
    }
  }

  class HashChainLedger {
    const host: Host
    const file: LedgerFile
    var seqNo: nat
    var head: Json

    function Contents(): State
      reads this, file
    {
      State(file.present, file.lines, Some(Cache(seqNo, head)))
    }

    constructor (host: Host, file: LedgerFile, seqNo: nat, head: Json)
      ensures this.host == host && this.file == file && this.seqNo == seqNo && this.head == head
    {
      this.host, this.file, this.seqNo, this.head := host, file, seqNo, head;
    }

    // Opening verifies the file; null stands for the ValueError an invalid file raises.
    static method Open(host: Host, file: LedgerFile) returns (ledger: HashChainLedger?)
      requires HexDigest(host.sha)
      ensures ledger != null <==> Chain(host, file.lines)
      ensures ledger != null ==> fresh(ledger) && ledger.host == host && ledger.file == file
      ensures ledger != null ==> Agrees(host, ledger.Contents())
      ensures ledger != null ==> ledger.Contents() == OpenState(host, file.present, file.lines)
    {
      var report := VerifyChain(host, file.lines);
      if !report.chainValid {
        return null;
      }
      var head := ReadHead(host, file.lines);
      ledger := new HashChainLedger(host, file, report.recordsChecked, head);
    }

    // Scanning a verified file for its last hash.
    static method ReadHead(host: Host, lines: seq<Line>) returns (head: Json)
      requires Chain(host, lines)
      ensures head == Head(lines)
    {
      head := Str(Genesis());
      for i := 0 to |lines|
        invariant head == Head(lines[..i])
      {
        assert lines[..i + 1] == lines[..i] + [lines[i]];
        PrefixesVerify(host, lines, i + 1);
        ChainSnoc(host, lines[..i], lines[i], Str(Genesis()), 0);
        if !lines[i].BlankLine? {
          head := HashField(lines[i].json);
        }
      }
      assert lines[..|lines|] == lines;
    }

    // The new record, unless an error was raised.
    method Append(payload: Json, timestamp: string, outcome: Outcome) returns (record: Option<Json>)
      modifies this, file
      ensures Contents() == Step(host, old(Contents()), Op.Append(payload, timestamp, outcome))
      ensures record == if outcome.Written? then Some(NewRecord(host, old(Cache(seqNo, head)), payload, timestamp))
                        else None
      ensures Writes(outcome) ==>
        && |file.lines| == |old(file.lines)| + 1 && file.lines[..|old(file.lines)|] == old(file.lines)
        && Says(file.lines[|old(file.lines)|], old(seqNo), old(head), timestamp, payload)
      ensures old(Agrees(host, Contents()) && Chain(host, file.lines) && head.Str?) && !outcome.WrittenThenRaised?
        ==> Agrees(host, Contents()) && Chain(host, file.lines) && head.Str?
    {
      var digest := ComputeHash(host, View(PyStr(host, head), Decimal(seqNo), timestamp, payload));
      var j := RecordOf(Str(digest), payload, head, Int(seqNo), Str(timestamp));
      StepAppends(host, Contents(), payload, timestamp, outcome);
      HashOfRecord(Str(digest), payload, head, Int(seqNo), Str(timestamp));
      if outcome.NotOpened? {
        return None;
      }
      file.present := true;
      if outcome.NotWritten? {
        return None;
      }
      file.lines := file.lines + [Doc(j)];
      if outcome.WrittenThenRaised? {
        return None;
      }
      seqNo := seqNo + 1;
      head := Str(digest);
      record := Some(j);
    }
  }
}
