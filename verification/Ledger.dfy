// The append-only hash-chain ledger (controller/ledger.py): record hashing, verification, and the
// writer that caches the chain's length and head.
module Ledger {
  import opened Text
  import opened JsonText
  import opened Digest
  import opened HostValues

  // ---- Record hashing ----

  // Everything of a record that its hash covers.
  datatype View = View(prev: string, seqText: string, timestamp: string, payload: Json)

  function Preimage(v: View): string {
    v.prev + "|" + (v.seqText + "|" + (v.timestamp + "|" + Dumps(v.payload)))
  }

  function ComputeHash(host: Host, v: View): string {
    host.sha(Preimage(v))
  }

  lemma BarBeforeCanonical(t: string, u: string, j: Json, k: Json)
    requires t + "|" + Dumps(j) == u + "|" + Dumps(k)
    ensures t == u && j == k
  {
    BarNotLater(t, u, j, k);
    BarNotLater(u, t, k, j);
    var x, y := "|" + Dumps(j), "|" + Dumps(k);
    Associative(t, "|", Dumps(j));
    Associative(u, "|", Dumps(k));
    assert (t + x)[..|t|] == t && (u + y)[..|u|] == u;
    CancelPrefix(t, x, y);
    CancelPrefix("|", Dumps(j), Dumps(k));
    DumpsInjective(j, k);
  }

  lemma BarNotLater(t: string, u: string, j: Json, k: Json)
    requires t + "|" + Dumps(j) == u + "|" + Dumps(k)
    ensures |u| <= |t|
  {
    if |t| < |u| {
      var whole := t + "|" + Dumps(j);
      var front := u[|t| + 1..];
      Associative(u, "|", Dumps(k));
      assert u == u[..|t| + 1] + front;
      Associative(u[..|t| + 1], front, "|" + Dumps(k));
      assert whole[|t| + 1..] == Dumps(j);
      assert whole[|t| + 1..] == front + ("|" + Dumps(k));
      NoCanonicalSuffixAfterBar(j, k, front);
      assert false;
    }
  }

  // The hashed text decodes uniquely, although timestamps and payload strings may contain bars.
  lemma PreimageUnique(v: View, w: View)
    requires '|' !in v.prev && '|' !in w.prev && '|' !in v.seqText && '|' !in w.seqText
    requires Preimage(v) == Preimage(w)
    ensures v == w
  {
    var x := v.timestamp + "|" + Dumps(v.payload);
    var y := w.timestamp + "|" + Dumps(w.payload);
    SplitAtSeparator(v.prev, w.prev, v.seqText + "|" + x, w.seqText + "|" + y, '|');
    SplitAtSeparator(v.seqText, w.seqText, x, y, '|');
    BarBeforeCanonical(v.timestamp, w.timestamp, v.payload, w.payload);
  }

  // The parts in their places: the predecessor's hash and a bar in front, then the number and a bar, and
  // a bar and the canonical payload at the end.
  lemma PreimagePlaces(v: View)
    ensures v.prev + "|" <= Preimage(v)
    ensures v.prev + "|" + v.seqText + "|" <= Preimage(v)
    ensures v.prev + "|" + v.seqText + "|" + v.timestamp + "|" + Dumps(v.payload) == Preimage(v)
  {
    var body := Dumps(v.payload);
    Associative(v.timestamp, "|", body);
    Associative(v.prev + "|" + v.seqText + "|", v.timestamp, "|" + body);
    assert v.prev + "|" + v.seqText + "|" + v.timestamp + "|" + body == Preimage(v);
    assert Preimage(v)[..|v.prev| + 1] == v.prev + "|";
    assert Preimage(v)[..|v.prev| + 1 + |v.seqText| + 1] == v.prev + "|" + v.seqText + "|";
  }

  // ---- Files and chains ----

  predicate HasRecordKeys(j: Json) {
    j.Obj?
    && HasKey(j.members, "seq") && HasKey(j.members, "prev_hash") && HasKey(j.members, "timestamp")
    && HasKey(j.members, "payload") && HasKey(j.members, "hash")
  }

  function HashField(j: Json): Json
    requires HasRecordKeys(j)
  {
    Lookup(j.members, "hash")
  }

  function ViewOf(host: Host, j: Json): View
    requires HasRecordKeys(j)
  {
    View(PyStr(host, Lookup(j.members, "prev_hash")), PyStr(host, Lookup(j.members, "seq")),
         PyStr(host, Lookup(j.members, "timestamp")), Lookup(j.members, "payload"))
  }

  // The record append builds, members in key order.
  function RecordOf(digest: Json, payload: Json, prev: Json, seqNo: Json, timestamp: Json): Json {
    Obj(Member("hash", digest, Member("payload", payload, Member("prev_hash", prev,
        Member("seq", seqNo, Member("timestamp", timestamp, NoMembers))))))
  }

  lemma RecordFields(digest: Json, payload: Json, prev: Json, seqNo: Json, timestamp: Json)
    ensures var j := RecordOf(digest, payload, prev, seqNo, timestamp);
      && HasRecordKeys(j) && HashField(j) == digest && Lookup(j.members, "payload") == payload
      && Lookup(j.members, "prev_hash") == prev && Lookup(j.members, "seq") == seqNo
      && Lookup(j.members, "timestamp") == timestamp
  {
    var m5 := Member("timestamp", timestamp, NoMembers);
    var m4 := Member("seq", seqNo, m5);
    var m3 := Member("prev_hash", prev, m4);
    var m2 := Member("payload", payload, m3);
    SkipMember("seq", seqNo, m5, "timestamp");
    SkipMember("prev_hash", prev, m4, "timestamp");
    SkipMember("prev_hash", prev, m4, "seq");
    SkipMember("payload", payload, m3, "timestamp");
    SkipMember("payload", payload, m3, "seq");
    SkipMember("payload", payload, m3, "prev_hash");
    SkipMember("hash", digest, m2, "timestamp");
    SkipMember("hash", digest, m2, "seq");
    SkipMember("hash", digest, m2, "prev_hash");
    SkipMember("hash", digest, m2, "payload");
  }

  lemma RecordInOrder(digest: Json, payload: Json, prev: Json, seqNo: Json, timestamp: Json)
    ensures KeysAscend(RecordOf(digest, payload, prev, seqNo, timestamp).members)
  {
    var m5 := Member("timestamp", timestamp, NoMembers);
    var m4 := Member("seq", seqNo, m5);
    var m3 := Member("prev_hash", prev, m4);
    var m2 := Member("payload", payload, m3);
    Ascends("seq", seqNo, m5, 0);
    Ascends("prev_hash", prev, m4, 0);
    Ascends("payload", payload, m3, 1);
    Ascends("hash", digest, m2, 0);
  }

  // Record number n links to a predecessor whose hash field is prev, and carries its own hash.
  predicate Links(host: Host, j: Json, prev: Json, n: nat) {
    && HasRecordKeys(j)
    && EqualsInt(host, Lookup(j.members, "seq"), n)
    && prev.Str? && ViewOf(host, j).prev == prev.s
    && PyStr(host, HashField(j)) == ComputeHash(host, ViewOf(host, j))
  }

  // Every record links to its predecessor, starting after n records that end with hash prev.
  predicate ChainFrom(host: Host, lines: seq<Line>, prev: Json, n: nat) {
    lines == []
    || (if lines[0].BlankLine? then ChainFrom(host, lines[1..], prev, n)
        else lines[0].Doc? && Links(host, lines[0].json, prev, n)
             && ChainFrom(host, lines[1..], HashField(lines[0].json), n + 1))
  }

  predicate Chain(host: Host, lines: seq<Line>) {
    ChainFrom(host, lines, Str(Genesis()), 0)
  }

  function Count(lines: seq<Line>): nat {
    if lines == [] then 0 else (if lines[0].BlankLine? then 0 else 1) + Count(lines[1..])
  }

  // The hash field of the last record, prev when there is none.
  function HeadFrom(lines: seq<Line>, prev: Json): Json {
    if lines == [] then prev
    else HeadFrom(lines[1..],
                  if lines[0].Doc? && HasRecordKeys(lines[0].json) then HashField(lines[0].json) else prev)
  }

  function Head(lines: seq<Line>): Json {
    HeadFrom(lines, Str(Genesis()))
  }

  lemma {:induction false} ChainConcat(host: Host, a: seq<Line>, b: seq<Line>, prev: Json, n: nat)
    ensures Count(a + b) == Count(a) + Count(b)
    ensures HeadFrom(a + b, prev) == HeadFrom(b, HeadFrom(a, prev))
    ensures ChainFrom(host, a + b, prev, n)
       <==> ChainFrom(host, a, prev, n) && ChainFrom(host, b, HeadFrom(a, prev), n + Count(a))
    decreases |a|
  {
    if a == [] {
      assert a + b == b;
    } else {
      assert (a + b)[0] == a[0] && (a + b)[1..] == a[1..] + b;
      var j := a[0];
      var next := if j.Doc? && HasRecordKeys(j.json) then HashField(j.json) else prev;
      ChainConcat(host, a[1..], b, next, n + if j.BlankLine? then 0 else 1);
    }
  }

  lemma ChainSnoc(host: Host, a: seq<Line>, line: Line, prev: Json, n: nat)
    ensures Count(a + [line]) == Count(a) + if line.BlankLine? then 0 else 1
    ensures ChainFrom(host, a + [line], prev, n)
       <==> ChainFrom(host, a, prev, n)
            && (line.BlankLine? || (line.Doc? && Links(host, line.json, HeadFrom(a, prev), n + Count(a))))
    ensures line.Doc? && HasRecordKeys(line.json) ==> HeadFrom(a + [line], prev) == HashField(line.json)
    ensures line.BlankLine? ==> HeadFrom(a + [line], prev) == HeadFrom(a, prev)
  {
    ChainConcat(host, a, [line], prev, n);
    assert [line][1..] == [];
  }

  // A chain's head, as text, is always a digest or the starting point.
  lemma {:induction false} HeadIsHex(host: Host, lines: seq<Line>)
    requires HexDigest(host.sha) && Chain(host, lines)
    ensures IsHex(PyStr(host, Head(lines)))
  {
    if lines == [] {
    } else {
      var front, last := lines[..|lines| - 1], lines[|lines| - 1];
      assert lines == front + [last];
      ChainSnoc(host, front, last, Str(Genesis()), 0);
      HeadIsHex(host, front);
    }
  }

  // ---- Verification ----

  datatype ErrorKind = SeqMismatch | ChainBroken | HashMismatch | Malformed

  datatype Error = Error(line: nat, kind: ErrorKind)

  datatype Report = Report(recordsChecked: nat, chainValid: bool, errors: seq<Error>)

  // hmac.compare_digest accepts two ASCII strings only.
  predicate Comparable(a: string, b: Json) {
    b.Str? && IsAscii(a) && IsAscii(b.s)
  }

  // One record of the verification loop: the errors it adds, and whether it ends the loop.
  method CheckRecord(host: Host, line: Line, lineNo: nat, prev: Json, expected: nat)
    returns (errors: seq<Error>, stop: bool)
    requires !line.BlankLine?
    requires HexDigest(host.sha)
    ensures prev.Str? && IsAscii(prev.s) ==> (errors == [] <==> line.Doc? && Links(host, line.json, prev, expected))
    ensures !prev.Str? ==> errors != []
    ensures forall e :: e in errors ==> e.line == lineNo
    ensures stop ==> errors != []
    ensures stop <==> Error(lineNo, Malformed) in errors
    ensures stop ==> errors[|errors| - 1] == Error(lineNo, Malformed)
    ensures Error(lineNo, SeqMismatch) in errors <==>
      line.Doc? && line.json.Obj? && HasKey(line.json.members, "seq")
      && !EqualsInt(host, Lookup(line.json.members, "seq"), expected)
    ensures Error(lineNo, ChainBroken) in errors <==>
      line.Doc? && line.json.Obj? && HasKey(line.json.members, "seq") && HasKey(line.json.members, "prev_hash")
      && Comparable(PyStr(host, Lookup(line.json.members, "prev_hash")), prev)
      && PyStr(host, Lookup(line.json.members, "prev_hash")) != prev.s
    ensures Error(lineNo, HashMismatch) in errors <==>
      line.Doc? && HasRecordKeys(line.json) && Comparable(PyStr(host, Lookup(line.json.members, "prev_hash")), prev)
      && IsAscii(PyStr(host, HashField(line.json))) && PyStr(host, HashField(line.json)) != ComputeHash(host, ViewOf(host, line.json))
    ensures !stop ==> line.Doc? && HasRecordKeys(line.json)
  {
    errors := [];
    if !line.Doc? || !line.json.Obj? || !HasKey(line.json.members, "seq") {
      return [Error(lineNo, Malformed)], true;
    }
    var ms := line.json.members;
    if !EqualsInt(host, Lookup(ms, "seq"), expected) {
      errors := errors + [Error(lineNo, SeqMismatch)];
    }
    if !HasKey(ms, "prev_hash") || !Comparable(PyStr(host, Lookup(ms, "prev_hash")), prev) {
      return errors + [Error(lineNo, Malformed)], true;
    }
    if PyStr(host, Lookup(ms, "prev_hash")) != prev.s {
      errors := errors + [Error(lineNo, ChainBroken)];
    }
    if !HasKey(ms, "timestamp") || !HasKey(ms, "payload") || !HasKey(ms, "hash") {
      return errors + [Error(lineNo, Malformed)], true;
    }
    var computed := ComputeHash(host, ViewOf(host, line.json));
    HexIsPlain(computed);
    if !Comparable(PyStr(host, HashField(line.json)), Str(computed)) {
      return errors + [Error(lineNo, Malformed)], true;
    }
    if PyStr(host, HashField(line.json)) != computed {
      errors := errors + [Error(lineNo, HashMismatch)];
    }
    stop := false;
  }

  // Line k is the first at which the file stops being a chain.
  predicate FirstBreak(host: Host, lines: seq<Line>, k: nat) {
    1 <= k <= |lines| && Chain(host, lines[..k - 1]) && !Chain(host, lines[..k])
  }

  // The first k lines are a chain of n records that ends with hash prev.
  predicate ChainUpTo(host: Host, lines: seq<Line>, k: nat, prev: Json, n: nat) {
    k <= |lines| && Chain(host, lines[..k]) && Head(lines[..k]) == prev && Count(lines[..k]) == n
  }

  lemma ChainUpToNext(host: Host, lines: seq<Line>, k: nat, prev: Json, n: nat)
    requires ChainUpTo(host, lines, k, prev, n) && k < |lines|
    ensures lines[k].BlankLine? ==> ChainUpTo(host, lines, k + 1, prev, n)
    ensures lines[k].Doc? && Links(host, lines[k].json, prev, n) ==>
      ChainUpTo(host, lines, k + 1, HashField(lines[k].json), n + 1)
    ensures !lines[k].BlankLine? && !(lines[k].Doc? && Links(host, lines[k].json, prev, n)) ==>
      FirstBreak(host, lines, k + 1)
  {
    assert lines[..k + 1] == lines[..k] + [lines[k]];
    ChainSnoc(host, lines[..k], lines[k], Str(Genesis()), 0);
  }

  lemma BrokenPrefix(host: Host, lines: seq<Line>, k: nat)
    requires FirstBreak(host, lines, k)
    ensures !Chain(host, lines)
  {
    assert lines == lines[..k] + lines[k..];
    ChainConcat(host, lines[..k], lines[k..], Str(Genesis()), 0);
  }

  lemma PrevIsAscii(host: Host, lines: seq<Line>, k: nat, prev: Json, n: nat)
    requires HexDigest(host.sha) && ChainUpTo(host, lines, k, prev, n)
    ensures prev.Str? ==> IsAscii(prev.s)
  {
    HeadIsHex(host, lines[..k]);
    HexIsPlain(PyStr(host, prev));
  }

  lemma CountNext(lines: seq<Line>, i: nat)
    requires i < |lines|
    ensures Count(lines[..i + 1]) == Count(lines[..i]) + if lines[i].BlankLine? then 0 else 1
  {
    assert lines[..i + 1] == lines[..i] + [lines[i]];
    CountSnoc(lines[..i], lines[i]);
  }

  lemma {:induction false} CountSnoc(a: seq<Line>, line: Line)
    ensures Count(a + [line]) == Count(a) + if line.BlankLine? then 0 else 1
  {
    if a == [] {
      assert [] + [line] == [line];
    } else {
      assert (a + [line])[1..] == a[1..] + [line];
      CountSnoc(a[1..], line);
    }
  }

  // The report counts the records of the first k lines: all lines, unless line k is malformed.
  predicate ScannedTo(lines: seq<Line>, report: Report, k: nat) {
    && k <= |lines| && report.recordsChecked == Count(lines[..k])
    && (k < |lines| ==> report.errors != [] && report.errors[|report.errors| - 1] == Error(k, Malformed))
  }

  // Valid exactly when every record links to its predecessor; the first error names the first line
  // at which the file stops being a chain.
  method VerifyChain(host: Host, lines: seq<Line>) returns (report: Report)
    requires HexDigest(host.sha)
    ensures report.chainValid <==> Chain(host, lines)
    ensures report.chainValid ==> report.recordsChecked == Count(lines) && report.errors == []
    ensures !report.chainValid ==> report.errors != [] && FirstBreak(host, lines, report.errors[0].line)
    ensures exists k :: 0 <= k <= |lines| && ScannedTo(lines, report, k)
  {
    var checked: nat, errors: seq<Error> := 0, [];
    var prev := Str(Genesis());
    var i, stop := 0, false;
    while i < |lines| && !stop
      invariant 0 <= i <= |lines|
      invariant errors == [] ==> !stop && ChainUpTo(host, lines, i, prev, checked)
      invariant errors != [] ==> FirstBreak(host, lines, errors[0].line)
      invariant checked == Count(lines[..i])
      invariant stop ==> errors != [] && errors[|errors| - 1] == Error(i, Malformed)
    {
      var line := lines[i];
      CountNext(lines, i);
      if errors == [] {
        PrevIsAscii(host, lines, i, prev, checked);
        ChainUpToNext(host, lines, i, prev, checked);
      }
      i := i + 1;
      if !line.BlankLine? {
        checked := checked + 1;
        var found;
        found, stop := CheckRecord(host, line, i, prev, checked - 1);
        errors := errors + found;
        if !stop {
          prev := HashField(line.json);
        }
      }
    }
    if errors == [] {
      assert lines[..i] == lines;
    } else {
      BrokenPrefix(host, lines, errors[0].line);
    }
    report := Report(checked, errors == [], errors);
    assert ScannedTo(lines, report, i);
  }
}
