// The measurement ledger (controller/measurement_core.py): every member of a record is hashed, and
// the whole file is verified again before each append.
module Measurement {
  import opened Wrappers
  import opened Text
  import opened JsonText
  import opened Digest
  import opened HostValues

  function EventHash(host: Host, previous: string, payload: Members): string {
    host.sha(previous + "\n" + Dumps(Obj(payload)))
  }

  // Record number n + 1, given the hash of record n.
  predicate Extends(host: Host, j: Json, previous: string, n: nat) {
    && j.Obj?
    && var payload := Without(j.members, "event_hash");
       && HasKey(payload, "sequence") && EqualsInt(host, Lookup(payload, "sequence"), n + 1)
       && HasKey(payload, "previous_hash") && Lookup(payload, "previous_hash") == Str(previous)
       && HasKey(j.members, "event_hash")
       && Lookup(j.members, "event_hash") == Str(EventHash(host, previous, payload))
  }

  function LastHash(lines: seq<Line>): string {
    if lines == [] then Genesis()
    else
      var last := lines[|lines| - 1];
      if last.Doc? && last.json.Obj? && HasKey(last.json.members, "event_hash")
         && Lookup(last.json.members, "event_hash").Str? then Lookup(last.json.members, "event_hash").s
      else Genesis()
  }

  // Each line is a record that extends the lines before it.
  predicate ChainValid(host: Host, lines: seq<Line>) {
    lines == []
    || var front, last := lines[..|lines| - 1], lines[|lines| - 1];
       ChainValid(host, front) && last.Doc? && Extends(host, last.json, LastHash(front), |front|)
  }

  datatype Problem = BlankRecord | Unreadable | NotAnObject | SequenceMismatch | PreviousMismatch | HashMismatch

  datatype Verified = Verified(events: nat, lastHash: string)

  // Succeeds exactly on a valid chain, with its length and last hash.
  method VerifyLedger(host: Host, lines: seq<Line>) returns (r: Result<Verified, Problem>)
    ensures r.Success? <==> ChainValid(host, lines)
    ensures r.Success? ==> r.value == Verified(|lines|, LastHash(lines))
  {
    var previous, events := Genesis(), 0;
    while events < |lines|
      invariant 0 <= events <= |lines|
      invariant ChainValid(host, lines[..events]) && previous == LastHash(lines[..events])
    {
      ghost var upTo := lines[..events + 1];
      assert upTo[..|upTo| - 1] == lines[..events];
      var problem := CheckRecord(host, lines[events], previous, events);
      if problem.Some? {
        PrefixValid(host, lines, events + 1);
        return Failure(problem.value);
      }
      previous := Lookup(lines[events].json.members, "event_hash").s;
      events := events + 1;
    }
    assert lines[..events] == lines;
    r := Success(Verified(events, previous));
  }

  method CheckRecord(host: Host, line: Line, previous: string, n: nat) returns (problem: Option<Problem>)
    ensures problem.None? <==> line.Doc? && Extends(host, line.json, previous, n)
  {
    if line.BlankLine? { return Some(BlankRecord); }
    if line.Garbage? { return Some(Unreadable); }
    if !line.json.Obj? { return Some(NotAnObject); }
    var payload := Without(line.json.members, "event_hash");
    if !HasKey(payload, "sequence") || !EqualsInt(host, Lookup(payload, "sequence"), n + 1) {
      return Some(SequenceMismatch);
    }
    if !HasKey(payload, "previous_hash") || Lookup(payload, "previous_hash") != Str(previous) {
      return Some(PreviousMismatch);
    }
    if !HasKey(line.json.members, "event_hash")
       || Lookup(line.json.members, "event_hash") != Str(EventHash(host, previous, payload)) {
      return Some(HashMismatch);
    }
    problem := None;
  }

  lemma {:induction false} PrefixValid(host: Host, lines: seq<Line>, k: nat)
    requires k <= |lines|
    ensures ChainValid(host, lines) ==> ChainValid(host, lines[..k])
    decreases |lines| - k
  {
    if k < |lines| {
      PrefixValid(host, lines, k + 1);
      assert lines[..k + 1][..k] == lines[..k];
    } else {
      assert lines[..k] == lines;
    }
  }

  // In a valid file record i, counted from one, is numbered i, names the hash of the record before
  // it, and carries the hash of that hash, a line feed, and its other members in canonical form.
  lemma {:induction false} ChainMeaning(host: Host, lines: seq<Line>, i: nat)
    requires ChainValid(host, lines) && i < |lines|
    ensures lines[i].Doc? && lines[i].json.Obj?
    ensures var rest := Without(lines[i].json.members, "event_hash");
      && HasKey(rest, "sequence") && EqualsInt(host, Lookup(rest, "sequence"), i + 1)
      && HasKey(rest, "previous_hash") && Lookup(rest, "previous_hash") == Str(LastHash(lines[..i]))
      && LastHash(lines[..i + 1]) == host.sha(LastHash(lines[..i]) + "\n" + Dumps(Obj(rest)))
    decreases |lines|
  {
    if i == |lines| - 1 {
      assert lines[..i + 1] == lines;
    } else {
      var front := lines[..|lines| - 1];
      assert front[..i] == lines[..i] && front[..i + 1] == lines[..i + 1];
      ChainMeaning(host, front, i);
    }
  }

  // ---- Head determines history ----

  // The texts hashed while the file is verified.
  function HashedTexts(lines: seq<Line>): set<string> {
    if lines == [] then {}
    else
      var front, last := lines[..|lines| - 1], lines[|lines| - 1];
      HashedTexts(front)
      + if last.Doc? && last.json.Obj? then {HashedText(LastHash(front), last.json.members)} else {}
  }

  function HashedText(previous: string, ms: Members): string {
    previous + "\n" + Dumps(Obj(Without(ms, "event_hash")))
  }

  // Equal as dicts: the same event hash and, apart from it, the same members.
  predicate SameRecord(a: Line, b: Line) {
    && a.Doc? && b.Doc? && a.json.Obj? && b.json.Obj?
    && Without(a.json.members, "event_hash") == Without(b.json.members, "event_hash")
    && HasKey(a.json.members, "event_hash") && HasKey(b.json.members, "event_hash")
    && Lookup(a.json.members, "event_hash") == Lookup(b.json.members, "event_hash")
  }

  lemma HashedTextUnique(p: string, q: string, a: Members, b: Members)
    requires '\n' !in p && '\n' !in q && HashedText(p, a) == HashedText(q, b)
    ensures p == q && Without(a, "event_hash") == Without(b, "event_hash")
  {
    var x, y := Dumps(Obj(Without(a, "event_hash"))), Dumps(Obj(Without(b, "event_hash")));
    Associative(p, "\n", x);
    Associative(q, "\n", y);
    SplitAtSeparator(p, q, x, y, '\n');
    DumpsInjective(Obj(Without(a, "event_hash")), Obj(Without(b, "event_hash")));
  }

  lemma LastHashIsHex(host: Host, lines: seq<Line>)
    requires HexDigest(host.sha) && ChainValid(host, lines)
    ensures IsHex(LastHash(lines))
  {}

  // What a valid file's last line says: its hash is that of the text it hashes, which is the head.
  lemma LastLine(host: Host, a: seq<Line>)
    requires HexDigest(host.sha) && ChainValid(host, a) && a != []
    ensures var front, last := a[..|a| - 1], a[|a| - 1];
      && ChainValid(host, front) && last.Doc? && last.json.Obj? && HasKey(last.json.members, "event_hash")
      && LastHash(a) == host.sha(HashedText(LastHash(front), last.json.members))
      && Lookup(last.json.members, "event_hash") == Str(LastHash(a))
      && HashedTexts(a) == HashedTexts(front) + {HashedText(LastHash(front), last.json.members)}
      && '\n' !in LastHash(front)
  {
    LastHashIsHex(host, a[..|a| - 1]);
    HexIsPlain(LastHash(a[..|a| - 1]));
  }

  // Records are compared line by line.
  ghost predicate SameRecords(a: seq<Line>, b: seq<Line>) {
    |a| == |b| && forall i :: 0 <= i < |a| ==> SameRecord(a[i], b[i])
  }

  lemma SameRecordsSnoc(a: seq<Line>, b: seq<Line>)
    requires a != [] && b != []
    requires SameRecords(a[..|a| - 1], b[..|b| - 1]) && SameRecord(a[|a| - 1], b[|b| - 1])
    ensures SameRecords(a, b)
  {
    forall i | 0 <= i < |a| ensures SameRecord(a[i], b[i]) {
      if i < |a| - 1 {
        assert SameRecord(a[..|a| - 1][i], b[..|b| - 1][i]);
      }
    }
  }

  // Valid files with the same last hash hold the same records.
  lemma {:induction false} HeadDeterminesRecords(host: Host, a: seq<Line>, b: seq<Line>, inputs: set<string>)
    requires HexDigest(host.sha) && ChainValid(host, a) && ChainValid(host, b)
    requires HashedTexts(a) <= inputs && HashedTexts(b) <= inputs
    requires CollisionFreeOn(host.sha, inputs) && AvoidsGenesis(host.sha, inputs)
    requires LastHash(a) == LastHash(b)
    ensures SameRecords(a, b)
    decreases |a|
  {
    if a != [] {
      LastLine(host, a);
    }
    if b != [] {
      LastLine(host, b);
    }
    if a != [] && b != [] {
      var p, q := a[..|a| - 1], b[..|b| - 1];
      HashedTextUnique(LastHash(p), LastHash(q), a[|a| - 1].json.members, b[|b| - 1].json.members);
      HeadDeterminesRecords(host, p, q, inputs);
      SameRecordsSnoc(a, b);
    }
  }
}
