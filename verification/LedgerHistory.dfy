// What the last hash of a verified ledger file says about the records before it.
module LedgerHistory {
  import opened Text
  import opened JsonText
  import opened Digest
  import opened HostValues
  import opened Ledger

  // The hashed part of every record, in file order.
  function Views(host: Host, lines: seq<Line>): seq<View> {
    if lines == [] then []
    else (if lines[0].Doc? && HasRecordKeys(lines[0].json) then [ViewOf(host, lines[0].json)] else [])
         + Views(host, lines[1..])
  }

  function Documents(lines: seq<Line>): seq<Json> {
    if lines == [] then []
    else (if lines[0].Doc? then [lines[0].json] else []) + Documents(lines[1..])
  }

  // The texts hashed while the file is verified.
  function HashedTexts(host: Host, lines: seq<Line>): set<string> {
    set v | v in Views(host, lines) :: Preimage(v)
  }

  lemma {:induction false} ViewsConcat(host: Host, a: seq<Line>, b: seq<Line>)
    ensures Views(host, a + b) == Views(host, a) + Views(host, b)
    ensures Documents(a + b) == Documents(a) + Documents(b)
  {
    if a == [] {
      assert a + b == b;
    } else {
      assert (a + b)[0] == a[0] && (a + b)[1..] == a[1..] + b;
      ViewsConcat(host, a[1..], b);
      var v := if a[0].Doc? && HasRecordKeys(a[0].json) then [ViewOf(host, a[0].json)] else [];
      var d := if a[0].Doc? then [a[0].json] else [];
      assert Views(host, a + b) == v + (Views(host, a[1..]) + Views(host, b));
      assert Documents(a + b) == d + (Documents(a[1..]) + Documents(b));
    }
  }

  // The last line of a non-empty file set apart.
  lemma SplitLast(host: Host, lines: seq<Line>)
    requires lines != []
    ensures var front, last := lines[..|lines| - 1], lines[|lines| - 1];
      && Views(host, lines) == Views(host, front)
           + (if last.Doc? && HasRecordKeys(last.json) then [ViewOf(host, last.json)] else [])
      && Documents(lines) == Documents(front) + (if last.Doc? then [last.json] else [])
      && (Chain(host, lines) ==>
            && Chain(host, front)
            && (last.BlankLine? ==> Head(lines) == Head(front) && Count(lines) == Count(front))
            && (!last.BlankLine? ==>
                  && last.Doc? && Links(host, last.json, Head(front), Count(front))
                  && Head(lines) == HashField(last.json) && Count(lines) == Count(front) + 1))
  {
    var front, last := lines[..|lines| - 1], lines[|lines| - 1];
    assert lines == front + [last];
    ViewsConcat(host, front, [last]);
    assert [last][1..] == [];
    ChainSnoc(host, front, last, Str(Genesis()), 0);
  }

  lemma LinkIsPlain(host: Host, j: Json, prev: Json, n: nat)
    requires Links(host, j, prev, n) && IsHex(PyStr(host, prev))
    ensures '|' !in ViewOf(host, j).prev && '|' !in ViewOf(host, j).seqText
  {
    HexIsPlain(prev.s);
  }

  // Two verified last records with the same hash hash the same text.
  lemma LastViewsAgree(host: Host, a: seq<Line>, b: seq<Line>, inputs: set<string>)
    requires HexDigest(host.sha) && CollisionFreeOn(host.sha, inputs)
    requires Chain(host, a) && Chain(host, b)
    requires HashedTexts(host, a) <= inputs && HashedTexts(host, b) <= inputs
    requires a != [] && b != [] && !a[|a| - 1].BlankLine? && !b[|b| - 1].BlankLine?
    requires PyStr(host, Head(a)) == PyStr(host, Head(b))
    ensures var p, q := a[..|a| - 1], b[..|b| - 1];
      && PyStr(host, Head(p)) == PyStr(host, Head(q))
      && a[|a| - 1].Doc? && HasRecordKeys(a[|a| - 1].json) && b[|b| - 1].Doc? && HasRecordKeys(b[|b| - 1].json)
      && ViewOf(host, a[|a| - 1].json) == ViewOf(host, b[|b| - 1].json)
  {
    SplitLast(host, a);
    SplitLast(host, b);
    var p, q := a[..|a| - 1], b[..|b| - 1];
    var v, w := ViewOf(host, a[|a| - 1].json), ViewOf(host, b[|b| - 1].json);
    assert v in Views(host, a) && w in Views(host, b);
    assert Preimage(v) in HashedTexts(host, a) && Preimage(w) in HashedTexts(host, b);
    HeadIsHex(host, p);
    HeadIsHex(host, q);
    LinkIsPlain(host, a[|a| - 1].json, Head(p), Count(p));
    LinkIsPlain(host, b[|b| - 1].json, Head(q), Count(q));
    PreimageUnique(v, w);
  }

  lemma SkipBlank(host: Host, a: seq<Line>)
    requires a != [] && a[|a| - 1].BlankLine? && Chain(host, a)
    ensures var front := a[..|a| - 1];
      && Chain(host, front) && Views(host, a) == Views(host, front) && HashedTexts(host, a) == HashedTexts(host, front)
      && Head(a) == Head(front) && Count(a) == Count(front)
  {
    SplitLast(host, a);
  }

  lemma SkipRecord(host: Host, a: seq<Line>)
    requires a != [] && !a[|a| - 1].BlankLine? && Chain(host, a)
    ensures var front, last := a[..|a| - 1], a[|a| - 1];
      && last.Doc? && HasRecordKeys(last.json) && Chain(host, front) && Count(a) == Count(front) + 1
      && Views(host, a) == Views(host, front) + [ViewOf(host, last.json)] && HashedTexts(host, front) <= HashedTexts(host, a)
  {
    SplitLast(host, a);
  }

  // Head determines history: verified files with the same last hash hash the same records in the
  // same order, so an edit, deletion, insertion or reordering that keeps the head is rejected.
  lemma {:induction false} HeadDeterminesHistory(host: Host, a: seq<Line>, b: seq<Line>, inputs: set<string>)
    requires HexDigest(host.sha) && Chain(host, a) && Chain(host, b)
    requires HashedTexts(host, a) <= inputs && HashedTexts(host, b) <= inputs
    requires CollisionFreeOn(host.sha, inputs) && AvoidsGenesis(host.sha, inputs)
    requires PyStr(host, Head(a)) == PyStr(host, Head(b))
    ensures Views(host, a) == Views(host, b) && Count(a) == Count(b)
    decreases |a| + |b|
  {
    if a != [] && a[|a| - 1].BlankLine? {
      SkipBlank(host, a);
      HeadDeterminesHistory(host, a[..|a| - 1], b, inputs);
    } else if b != [] && b[|b| - 1].BlankLine? {
      SkipBlank(host, b);
      HeadDeterminesHistory(host, a, b[..|b| - 1], inputs);
    } else if a != [] && b != [] {
      SkipRecord(host, a);
      SkipRecord(host, b);
      LastViewsAgree(host, a, b, inputs);
      HeadDeterminesHistory(host, a[..|a| - 1], b[..|b| - 1], inputs);
    } else if a != [] {
      LastHashIsNotGenesis(host, a);
    } else if b != [] {
      LastHashIsNotGenesis(host, b);
    }
  }

  lemma LastHashIsNotGenesis(host: Host, a: seq<Line>)
    requires Chain(host, a) && AvoidsGenesis(host.sha, HashedTexts(host, a))
    requires a != [] && !a[|a| - 1].BlankLine?
    ensures PyStr(host, Head(a)) != Genesis()
  {
    SplitLast(host, a);
    var v := ViewOf(host, a[|a| - 1].json);
    assert v in Views(host, a);
    assert Preimage(v) in HashedTexts(host, a);
  }

  // The converse: the hashed records determine the head.
  lemma {:induction false} HistoryDeterminesHead(host: Host, a: seq<Line>, b: seq<Line>)
    requires Chain(host, a) && Chain(host, b) && Views(host, a) == Views(host, b)
    ensures PyStr(host, Head(a)) == PyStr(host, Head(b))
    decreases |a| + |b|
  {
    if a != [] {
      SplitLast(host, a);
      if a[|a| - 1].BlankLine? {
        HistoryDeterminesHead(host, a[..|a| - 1], b);
      }
    }
    if b != [] {
      SplitLast(host, b);
      if b[|b| - 1].BlankLine? {
        HistoryDeterminesHead(host, a, b[..|b| - 1]);
      }
    }
    if a != [] && b != [] && !a[|a| - 1].BlankLine? && !b[|b| - 1].BlankLine? {
      var v, w := Views(host, a), Views(host, b);
      assert v[|v| - 1] == w[|w| - 1];
    }
  }

  // A record with the members and types append writes, and no others.
  predicate AsWritten(j: Json) {
    HasRecordKeys(j)
    && var ms := j.members;
       && Lookup(ms, "hash").Str? && Lookup(ms, "prev_hash").Str?
       && Lookup(ms, "seq").Int? && Lookup(ms, "timestamp").Str?
       && j == RecordOf(Lookup(ms, "hash"), Lookup(ms, "payload"), Lookup(ms, "prev_hash"),
                        Lookup(ms, "seq"), Lookup(ms, "timestamp"))
  }

  lemma WrittenRecordsFromViews(host: Host, j: Json, k: Json)
    requires AsWritten(j) && AsWritten(k) && ViewOf(host, j) == ViewOf(host, k)
    requires PyStr(host, HashField(j)) == PyStr(host, HashField(k))
    ensures j == k
  {
    DecimalInjective(Lookup(j.members, "seq").n, Lookup(k.members, "seq").n);
  }

  // For files of records as append writes them, the head determines the records themselves.
  lemma HeadDeterminesWrittenRecords(host: Host, a: seq<Line>, b: seq<Line>, inputs: set<string>)
    requires HexDigest(host.sha) && Chain(host, a) && Chain(host, b)
    requires HashedTexts(host, a) <= inputs && HashedTexts(host, b) <= inputs
    requires CollisionFreeOn(host.sha, inputs) && AvoidsGenesis(host.sha, inputs)
    requires PyStr(host, Head(a)) == PyStr(host, Head(b))
    requires forall j :: j in Documents(a) + Documents(b) ==> AsWritten(j)
    ensures Documents(a) == Documents(b)
  {
    HeadDeterminesHistory(host, a, b, inputs);
    WrittenDocumentsFromViews(host, a, b);
  }

  lemma {:induction false} WrittenDocumentsFromViews(host: Host, a: seq<Line>, b: seq<Line>)
    requires Chain(host, a) && Chain(host, b) && Views(host, a) == Views(host, b)
    requires forall j :: j in Documents(a) + Documents(b) ==> AsWritten(j)
    ensures Documents(a) == Documents(b)
    decreases |a| + |b|
  {
    if a != [] {
      SplitLast(host, a);
    }
    if b != [] {
      SplitLast(host, b);
    }
    if a != [] && a[|a| - 1].BlankLine? {
      WrittenDocumentsFromViews(host, a[..|a| - 1], b);
    } else if b != [] && b[|b| - 1].BlankLine? {
      WrittenDocumentsFromViews(host, a, b[..|b| - 1]);
    } else if a != [] && b != [] {
      var j, k := a[|a| - 1].json, b[|b| - 1].json;
      var v, w := Views(host, a), Views(host, b);
      assert v[|v| - 1] == w[|w| - 1] && v[..|v| - 1] == w[..|w| - 1];
      assert j in Documents(a) && k in Documents(b);
      assert Views(host, a[..|a| - 1]) == v[..|v| - 1] && Views(host, b[..|b| - 1]) == w[..|w| - 1];
      WrittenRecordsFromViews(host, j, k);
      WrittenDocumentsFromViews(host, a[..|a| - 1], b[..|b| - 1]);
    }
  }

  // Without that shape the records are not determined: the timestamp 1 and the timestamp "1" print
  // alike, and members other than the five are not hashed at all.
  lemma UnhashedDifferences(host: Host, payload: Json, extra: Json)
    ensures var d := Str(ComputeHash(host, View(Genesis(), "0", "1", payload)));
            var j := RecordOf(d, payload, Str(Genesis()), Int(0), Str("1"));
            var typed := RecordOf(d, payload, Str(Genesis()), Int(0), Int(1));
            var extended := Obj(Member("extra", extra, j.members));
            && Chain(host, [Doc(j)]) && Chain(host, [Doc(typed)]) && Chain(host, [Doc(extended)])
            && Head([Doc(j)]) == Head([Doc(typed)]) == Head([Doc(extended)])
            && j != typed && j != extended && typed != extended
  {
    var d := Str(ComputeHash(host, View(Genesis(), "0", "1", payload)));
    var j := RecordOf(d, payload, Str(Genesis()), Int(0), Str("1"));
    var extended := Obj(Member("extra", extra, j.members));
    assert Decimal(0) == "0" && Decimal(1) == "1";
    RecordFields(d, payload, Str(Genesis()), Int(0), Str("1"));
    RecordFields(d, payload, Str(Genesis()), Int(0), Int(1));
    assert HasRecordKeys(extended) && ViewOf(host, extended) == ViewOf(host, j);
    OneRecordChain(host, j);
    OneRecordChain(host, RecordOf(d, payload, Str(Genesis()), Int(0), Int(1)));
    OneRecordChain(host, extended);
  }

  lemma OneRecordChain(host: Host, j: Json)
    requires Links(host, j, Str(Genesis()), 0)
    ensures Chain(host, [Doc(j)]) && Head([Doc(j)]) == HashField(j)
  {
    ChainSnoc(host, [], Doc(j), Str(Genesis()), 0);
    assert [] + [Doc(j)] == [Doc(j)];
  }
}
