// Summaries of a stewardship ledger (controller/stewardship_report.py).
module StewardshipReport {
  import opened Wrappers
  import opened JsonText
  import opened HostValues
  import opened Digest
  import opened Ledger
  import opened LedgerHistory
  import LedgerWriter
  import opened Enforcement

  const VETO: string := DecisionText(Rejected)

  // What the report reads from one record.
  datatype Entry = Entry(decision: string, executed: bool)

  function EntryOf(host: Host, payload: Members): Entry {
    Entry(if HasKey(payload, "decision") then PyStr(host, Lookup(payload, "decision")) else "UNKNOWN_DECISION",
          HasKey(payload, "executed") && Lookup(payload, "executed") == Bool(true))
  }

  function PayloadOf(line: Line): Json {
    if line.Doc? && HasRecordKeys(line.json) then Lookup(line.json.members, "payload") else Null
  }

  // Each record's payload is a dict, which the report needs.
  predicate Readable(lines: seq<Line>) {
    forall i :: 0 <= i < |lines| && lines[i].Doc? && HasRecordKeys(lines[i].json) ==> PayloadOf(lines[i]).Obj?
  }

  function Entries(host: Host, lines: seq<Line>): seq<Entry> {
    if lines == [] then []
    else
      var last := lines[|lines| - 1];
      Entries(host, lines[..|lines| - 1])
      + if PayloadOf(last).Obj? then [EntryOf(host, PayloadOf(last).members)] else []
  }

  function CountOf(entries: seq<Entry>, decision: string): nat {
    if entries == [] then 0
    else CountOf(entries[..|entries| - 1], decision) + if entries[|entries| - 1].decision == decision then 1 else 0
  }

  function ExecutedCount(entries: seq<Entry>): nat {
    if entries == [] then 0
    else ExecutedCount(entries[..|entries| - 1]) + if entries[|entries| - 1].executed then 1 else 0
  }

  function Tally(counts: map<string, nat>, decision: string): nat {
    if decision in counts then counts[decision] else 0
  }

  // What the summary says about the entries it read.
  ghost predicate Tallied(entries: seq<Entry>, t: Totals) {
    && t.total == |entries|
    && (forall d :: Tally(t.counts, d) == CountOf(entries, d))
    && (forall d :: d in t.counts <==> CountOf(entries, d) > 0)
    && t.vetoes == CountOf(entries, VETO) && t.executed == ExecutedCount(entries)
  }

  datatype Totals = Totals(total: nat, counts: map<string, nat>, vetoes: nat, executed: nat)

  // The totals after the entries read so far.
  function TotalsOf(entries: seq<Entry>): Totals {
    if entries == [] then Totals(0, map[], 0, 0)
    else AddEntry(TotalsOf(entries[..|entries| - 1]), entries[|entries| - 1])
  }

  function AddEntry(t: Totals, e: Entry): Totals {
    Totals(t.total + 1, t.counts[e.decision := Tally(t.counts, e.decision) + 1],
           t.vetoes + (if e.decision == VETO then 1 else 0), t.executed + if e.executed then 1 else 0)
  }

  lemma {:induction false} TotalsAreCounts(entries: seq<Entry>)
    ensures Tallied(entries, TotalsOf(entries))
  {
    if entries != [] {
      TotalsAreCounts(entries[..|entries| - 1]);
    }
  }

  datatype Summary = Summary(chain: Report, totals: Totals)

  // One more line of a verified file, as the report reads it.
  lemma ReadNextLine(host: Host, lines: seq<Line>, i: nat)
    requires Chain(host, lines) && i < |lines|
    ensures lines[i].BlankLine? ==>
      Entries(host, lines[..i + 1]) == Entries(host, lines[..i]) && Count(lines[..i + 1]) == Count(lines[..i])
    ensures !lines[i].BlankLine? ==>
      lines[i].Doc? && HasRecordKeys(lines[i].json) && Count(lines[..i + 1]) == Count(lines[..i]) + 1
    ensures !lines[i].BlankLine? && PayloadOf(lines[i]).Obj? ==>
      Entries(host, lines[..i + 1]) == Entries(host, lines[..i]) + [EntryOf(host, PayloadOf(lines[i]).members)]
  {
    var upTo := lines[..i + 1];
    assert upTo[..|upTo| - 1] == lines[..i] && upTo[|upTo| - 1] == lines[i];
    LedgerWriter.PrefixesVerify(host, lines, i + 1);
    SplitLast(host, upTo);
  }

  lemma ReadableNext(lines: seq<Line>, i: nat)
    requires i < |lines| && Readable(lines[..i])
    requires lines[i].BlankLine? || PayloadOf(lines[i]).Obj?
    ensures Readable(lines[..i + 1])
  {
    var upTo := lines[..i + 1];
    forall k | 0 <= k < |upTo| && upTo[k].Doc? && HasRecordKeys(upTo[k].json) ensures PayloadOf(upTo[k]).Obj? {
      if k < i {
        assert lines[..i][k] == upTo[k];
      }
    }
  }

  // The totals t stand for the first i lines.
  ghost predicate ReadUpTo(host: Host, lines: seq<Line>, i: nat, t: Totals) {
    i <= |lines| && Readable(lines[..i]) && t == TotalsOf(Entries(host, lines[..i])) && t.total == Count(lines[..i])
  }

  lemma ReadUpToNext(host: Host, lines: seq<Line>, i: nat, t: Totals)
    requires Chain(host, lines) && i < |lines| && ReadUpTo(host, lines, i, t)
    ensures lines[i].BlankLine? ==> ReadUpTo(host, lines, i + 1, t)
    ensures !lines[i].BlankLine? && PayloadOf(lines[i]).Obj? ==>
      ReadUpTo(host, lines, i + 1, AddEntry(t, EntryOf(host, PayloadOf(lines[i]).members)))
    ensures !lines[i].BlankLine? && !PayloadOf(lines[i]).Obj? ==> !Readable(lines)
  {
    ReadNextLine(host, lines, i);
    if lines[i].BlankLine? {
      ReadableNext(lines, i);
    } else if PayloadOf(lines[i]).Obj? {
      ReadableNext(lines, i);
      var entries, e := Entries(host, lines[..i]), EntryOf(host, PayloadOf(lines[i]).members);
      var longer := entries + [e];
      assert longer[..|longer| - 1] == entries && longer[|longer| - 1] == e;
    } else {
      UnreadableLine(lines, i);
    }
  }

  lemma UnreadableLine(lines: seq<Line>, i: nat)
    requires i < |lines| && lines[i].Doc? && HasRecordKeys(lines[i].json) && !PayloadOf(lines[i]).Obj?
    ensures !Readable(lines)
  {}

  // FileMissing: the second open finds no file, which verification does not mind.
  datatype ReportError = FileMissing | PayloadNotADict

  // An absent file is lines == [] with present false.
  method Summarize(host: Host, present: bool, lines: seq<Line>) returns (r: Result<Summary, ReportError>)
    requires HexDigest(host.sha) && (!present ==> lines == [])
    ensures r.Failure? <==> !present || (Chain(host, lines) && !Readable(lines))
    ensures r.Failure? ==> r.error == if present then PayloadNotADict else FileMissing
    ensures r.Success? ==> (r.value.chain.chainValid <==> Chain(host, lines))
    ensures r.Success? && !Chain(host, lines) ==> r.value.totals == Totals(r.value.chain.recordsChecked, map[], 0, 0)
    ensures r.Success? && Chain(host, lines) ==>
      Tallied(Entries(host, lines), r.value.totals) && r.value.totals.total == Count(lines)
  {
    var chain := VerifyChain(host, lines);
    if !chain.chainValid {
      return Success(Summary(chain, Totals(chain.recordsChecked, map[], 0, 0)));
    }
    if !present {
      return Failure(FileMissing);
    }
    var totals := ReadTotals(host, lines);
    if totals.None? {
      return Failure(PayloadNotADict);
    }
    TotalsAreCounts(Entries(host, lines));
    r := Success(Summary(chain, totals.value));
  }

  // The second pass over the file.
  method ReadTotals(host: Host, lines: seq<Line>) returns (r: Option<Totals>)
    requires Chain(host, lines)
    ensures r.Some? <==> Readable(lines)
    ensures r.Some? ==> r.value == TotalsOf(Entries(host, lines)) && r.value.total == Count(lines)
  {
    var t := Totals(0, map[], 0, 0);
    var i := 0;
    while i < |lines|
      invariant 0 <= i <= |lines|
      invariant ReadUpTo(host, lines, i, t)
    {
      ReadUpToNext(host, lines, i, t);
      if !lines[i].BlankLine? {
        var payload := PayloadOf(lines[i]);
        if !payload.Obj? {
          return None;
        }
        t := CountEntry(t, EntryOf(host, payload.members));
      }
      i := i + 1;
    }
    assert lines[..i] == lines;
    r := Some(t);
  }

  // The updates for one entry.
  method CountEntry(t: Totals, e: Entry) returns (t': Totals)
    ensures t' == AddEntry(t, e)
  {
    var counts := t.counts[e.decision := Tally(t.counts, e.decision) + 1];
    var total, vetoes, executed := t.total + 1, t.vetoes, t.executed;
    if e.decision == VETO {
      vetoes := vetoes + 1;
    }
    if e.executed {
      executed := executed + 1;
    }
    t' := Totals(total, counts, vetoes, executed);
  }

  // What one record adds to a report: its decision's text, "UNKNOWN_DECISION" without one, a veto only
  // for "REJECTED_HUMAN_IMPACT", and an execution only for the JSON value true.
  lemma EntryIsCounted(host: Host, entries: seq<Entry>, payload: Members)
    ensures var longer := entries + [EntryOf(host, payload)];
            var text := if HasKey(payload, "decision") then PyStr(host, Lookup(payload, "decision")) else "UNKNOWN_DECISION";
      && TotalsOf(longer).total == TotalsOf(entries).total + 1
      && CountOf(longer, text) == CountOf(entries, text) + 1
      && (forall other :: other != text ==> CountOf(longer, other) == CountOf(entries, other))
      && TotalsOf(longer).vetoes == TotalsOf(entries).vetoes + (if text == "REJECTED_HUMAN_IMPACT" then 1 else 0)
      && TotalsOf(longer).executed == TotalsOf(entries).executed
           + (if HasKey(payload, "executed") && Lookup(payload, "executed") == Bool(true) then 1 else 0)
  {
    var longer := entries + [EntryOf(host, payload)];
    assert longer[..|longer| - 1] == entries && longer[|longer| - 1] == EntryOf(host, payload);
  }

  // ---- A gate's own ledger ----

  function EntryFor(d: Decision): Entry {
    Entry(DecisionText(d), false)
  }

  function EntriesFor(ds: seq<Decision>): seq<Entry> {
    seq(|ds|, i requires 0 <= i < |ds| => EntryFor(ds[i]))
  }

  lemma PayloadEntry(host: Host, scoreText: real -> FloatText, target: string, p: Proposal, d: Decision)
    requires ValidProposal(host, p)
    ensures var payload := EntryPayload(host, scoreText, target, p, d);
            payload.Obj? && EntryOf(host, payload.members) == EntryFor(d)
  {
    var ms := EntryPayload(host, scoreText, target, p, d).members;
    assert HasKey(ms.rest, "executed") && Lookup(ms.rest, "executed") == Bool(false);
  }

  lemma EntriesSnoc(host: Host, lines: seq<Line>, j: Json)
    requires Readable(lines) && HasRecordKeys(j) && Lookup(j.members, "payload").Obj?
    ensures Readable(lines + [Doc(j)])
    ensures Entries(host, lines + [Doc(j)]) == Entries(host, lines) + [EntryOf(host, Lookup(j.members, "payload").members)]
  {
    var longer := lines + [Doc(j)];
    assert longer[..|longer| - 1] == lines && longer[|lines|] == Doc(j);
    assert longer[..|lines|] == lines;
    ReadableNext(longer, |lines|);
    assert longer[..|lines| + 1] == longer;
  }

  lemma GateWrites(host: Host, scoreText: real -> FloatText, g: GateState, e: Evaluation)
    requires ValidProposal(host, e.p) && LedgerWriter.Writes(e.outcome)
    requires g.ledger.cache.Some? && Readable(g.ledger.lines)
    ensures var h := GateStep(host, scoreText, g, e);
      && h.ledger.cache.Some? && Readable(h.ledger.lines)
      && Entries(host, h.ledger.lines)
           == Entries(host, g.ledger.lines) + [EntryFor(Decide(g.active, InputsOf(host, e.p)))]
  {
    var d := Decide(g.active, InputsOf(host, e.p));
    var payload := EntryPayload(host, scoreText, e.target, e.p, d);
    var cache := g.ledger.cache.value;
    var j := LedgerWriter.NewRecord(host, cache, payload, e.timestamp);
    RecordFields(Lookup(j.members, "hash"), payload, cache.head, Int(cache.seqNo), Str(e.timestamp));
    PayloadEntry(host, scoreText, e.target, e.p, d);
    EntriesSnoc(host, g.ledger.lines, j);
  }

  lemma EntriesForSnoc(ds: seq<Decision>, d: Decision)
    ensures EntriesFor(ds + [d]) == EntriesFor(ds) + [EntryFor(d)]
  {}

  // The lines a gate wrote on a fresh ledger are readable and list its recorded decisions in order.
  lemma {:induction false} GateEntries(host: Host, scoreText: real -> FloatText, es: seq<Evaluation>)
    ensures var g := GateRun(host, scoreText, es);
      && g.ledger.cache.Some? && Readable(g.ledger.lines)
      && Entries(host, g.ledger.lines) == EntriesFor(Recorded(host, scoreText, es))
  {
    if es != [] {
      var front, e := es[..|es| - 1], es[|es| - 1];
      var g := GateRun(host, scoreText, front);
      GateEntries(host, scoreText, front);
      if ValidProposal(host, e.p) && LedgerWriter.Writes(e.outcome) {
        GateWrites(host, scoreText, g, e);
        EntriesForSnoc(Recorded(host, scoreText, front), Decide(g.active, InputsOf(host, e.p)));
      }
    }
  }

  function DecisionCount(ds: seq<Decision>, d: Decision): nat {
    if ds == [] then 0 else DecisionCount(ds[..|ds| - 1], d) + if ds[|ds| - 1] == d then 1 else 0
  }

  lemma DecisionTextInjective(d: Decision, e: Decision)
    ensures DecisionText(d) == DecisionText(e) <==> d == e
  {
    assert |DecisionText(Approved)| == 17 && |DecisionText(Idle)| == 4 && |DecisionText(Rejected)| == 21;
  }

  lemma {:induction false} CountIsDecisionCount(ds: seq<Decision>, d: Decision)
    ensures CountOf(EntriesFor(ds), DecisionText(d)) == DecisionCount(ds, d)
  {
    if ds != [] {
      var es := EntriesFor(ds);
      CountIsDecisionCount(ds[..|ds| - 1], d);
      DecisionTextInjective(ds[|ds| - 1], d);
      assert es[..|es| - 1] == EntriesFor(ds[..|ds| - 1]);
    }
  }

  // Only decisions are counted, and none was executed.
  lemma {:induction false} NothingElseIsCounted(ds: seq<Decision>, text: string)
    ensures ExecutedCount(EntriesFor(ds)) == 0
    ensures CountOf(EntriesFor(ds), text) > 0 ==> exists d :: text == DecisionText(d)
    ensures DecisionCount(ds, Approved) + DecisionCount(ds, Idle) + DecisionCount(ds, Rejected) == |ds|
  {
    if ds != [] {
      var es := EntriesFor(ds);
      NothingElseIsCounted(ds[..|ds| - 1], text);
      assert es[..|es| - 1] == EntriesFor(ds[..|ds| - 1]);
      assert es[|es| - 1].decision == DecisionText(ds[|ds| - 1]);
    }
  }

  // What a report on the decisions ds says: exactly they are counted, the three counts sum to the
  // total, and nothing was executed.
  ghost predicate Reports(ds: seq<Decision>, t: Totals) {
    && (forall d :: Tally(t.counts, DecisionText(d)) == DecisionCount(ds, d))
    && t.total == |ds| == DecisionCount(ds, Approved) + DecisionCount(ds, Idle) + DecisionCount(ds, Rejected)
    && (forall text :: text in t.counts ==> exists d :: text == DecisionText(d))
    && t.executed == 0 && t.vetoes == DecisionCount(ds, Rejected)
  }

  lemma TalliedReports(ds: seq<Decision>, t: Totals)
    requires Tallied(EntriesFor(ds), t)
    ensures Reports(ds, t)
  {
    forall d ensures CountOf(EntriesFor(ds), DecisionText(d)) == DecisionCount(ds, d) {
      CountIsDecisionCount(ds, d);
    }
    forall text ensures CountOf(EntriesFor(ds), text) > 0 ==> exists d :: text == DecisionText(d) {
      NothingElseIsCounted(ds, text);
    }
    NothingElseIsCounted(ds, "");
  }

  // What a gate leaves for the report.
  lemma GateLedger(host: Host, scoreText: real -> FloatText, es: seq<Evaluation>, present: bool, lines: seq<Line>)
    requires !LedgerWriter.WroteWhileStale(OpsOf(host, scoreText, es))
    requires var s := GateRun(host, scoreText, es).ledger; present == s.present && lines == s.lines
    ensures Chain(host, lines) && Readable(lines) && Entries(host, lines) == EntriesFor(Recorded(host, scoreText, es))
    ensures (present <==> LedgerOpened(host, es)) && (!present ==> lines == [])
  {
    GateRunIsLedgerRun(host, scoreText, es);
    LedgerWriter.CacheAgreesWithFile(host, false, [], OpsOf(host, scoreText, es));
    GateEntries(host, scoreText, es);
    GateCreatesFile(host, scoreText, es);
  }

  // The report on a gate that started where there was no file: one is given exactly when some valid
  // evaluation's append opened the file, and it reports exactly the recorded decisions.
  method SummarizeGate(host: Host, scoreText: real -> FloatText, ghost es: seq<Evaluation>, present: bool, lines: seq<Line>)
    returns (r: Result<Summary, ReportError>)
    requires HexDigest(host.sha) && !LedgerWriter.WroteWhileStale(OpsOf(host, scoreText, es))
    requires var s := GateRun(host, scoreText, es).ledger; present == s.present && lines == s.lines
    ensures r.Success? <==> LedgerOpened(host, es)
    ensures r.Failure? ==> r.error == FileMissing
    ensures r.Success? ==> r.value.chain.chainValid && Reports(Recorded(host, scoreText, es), r.value.totals)
  {
    GateLedger(host, scoreText, es, present, lines);
    r := Summarize(host, present, lines);
    if r.Success? {
      TalliedReports(Recorded(host, scoreText, es), r.value.totals);
    }
  }

  // The empty run, only invalid proposals, and appends that all failed to open the file: no report.
  lemma NothingToReport(host: Host, scoreText: real -> FloatText, es: seq<Evaluation>)
    requires forall k :: 0 <= k < |es| ==> !ValidProposal(host, es[k].p) || es[k].outcome.NotOpened?
    ensures !GateRun(host, scoreText, es).ledger.present && Recorded(host, scoreText, es) == []
  {
    GateCreatesFile(host, scoreText, es);
    assert !LedgerOpened(host, es);
    NothingRecorded(host, scoreText, es);
  }

  lemma {:induction false} NothingRecorded(host: Host, scoreText: real -> FloatText, es: seq<Evaluation>)
    requires forall k :: 0 <= k < |es| ==> !OpensLedger(host, es[k])
    ensures Recorded(host, scoreText, es) == []
  {
    if es != [] {
      var front := es[..|es| - 1];
      assert forall k :: 0 <= k < |front| ==> front[k] == es[k];
      NothingRecorded(host, scoreText, front);
      assert !OpensLedger(host, es[|es| - 1]);
    }
  }
}
