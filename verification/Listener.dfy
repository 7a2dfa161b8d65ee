// The interop listener (controller/v91_listener.py): inbox files are checked and recorded in the
// ledger, the human review queue or quarantine, and removed only afterwards. The machine's steps are
// the listener's reads and writes, so it can crash, and its database fail, between any two of them.
module Listener {
  import opened Wrappers
  import opened Text
  import opened JsonText
  import opened Digest

  // ---- The decision ----

  datatype Clock = Naive | Aware(at: real)

  // What json.loads makes of a file. Unreadable: it raises something other than JSONDecodeError, or
  // the value has no UTF-8 text.
  datatype Reading = Malformed | Unreadable | Parsed(event: Json)

  // What is left open about the host: the hash, JSON parsing, lossy decoding, the HMAC under the
  // shared key, date parsing, and the configured threshold.
  datatype Site = Site(sha: Hash, read: string -> Reading, decode: string -> string, mac: string -> string,
                       parseTime: string -> Option<Clock>, threshold: real)

  datatype Reason =
    | JsonParseError
    | EventNotObject | NoEnvelope | UnsupportedVersion | EmptySignature | NoTimestamp | PayloadNotObject
    | NaiveTimestamp | InvalidTimestamp | SignatureMismatch | TooOld | InFuture
    | MissingFields | BadEventType | BadSource | BadData

  datatype Check = Fine | Refused(reason: Reason) | Raises

  const MAX_AGE := 300.0
  const MAX_LEAD := 60.0

  // The text the signature covers.
  function SignedText(version: string, timestamp: string, payload: Json): string {
    Dumps(Obj(Member("payload", payload, Member("protocol", Str("SafeSignal"),
          Member("ts", Str(timestamp), Member("version", Str(version), NoMembers))))))
  }

  function SafeSignalCheck(site: Site, event: Json, now: real): Check {
    if !event.Obj? then Refused(EventNotObject)
    else
      var signal := Field(event.members, "safesignal");
      if !signal.Obj? then Refused(NoEnvelope)
      else if Field(signal.members, "version") != Str("1") then Refused(UnsupportedVersion)
      else SignalFieldsCheck(site, Field(signal.members, "sig"), Field(signal.members, "ts"),
                             Field(event.members, "payload"), now)
  }

  function SignalFieldsCheck(site: Site, sig: Json, timestamp: Json, payload: Json, now: real): Check {
    if !sig.Str? || sig.s == "" then Refused(EmptySignature)
    else if !timestamp.Str? || Blank(timestamp.s) then Refused(NoTimestamp)
    else if !payload.Obj? then Refused(PayloadNotObject)
    else
      var time := site.parseTime(timestamp.s);
      if time.None? then Refused(InvalidTimestamp)
      else if time.value.Naive? then Refused(NaiveTimestamp)
      else if !IsAscii(sig.s) then Raises  // compare_digest refuses non-ASCII text
      else if sig.s != site.mac(SignedText("1", timestamp.s, payload)) then Refused(SignatureMismatch)
      else if now - time.value.at > MAX_AGE then Refused(TooOld)
      else if now - time.value.at < -MAX_LEAD then Refused(InFuture)
      else Fine
  }

  function ValidatePayload(payload: Json): Check {
    if !payload.Obj? then Refused(PayloadNotObject)
    else
      var ms := payload.members;
      var kind, source := Field(ms, "event_type"), Field(ms, "source");
      if !HasKey(ms, "event_type") || !HasKey(ms, "source") || !HasKey(ms, "data") then Refused(MissingFields)
      else if !kind.Str? || Blank(kind.s) then Refused(BadEventType)
      else if !source.Str? || Blank(source.s) then Refused(BadSource)
      else if !Field(ms, "data").Obj? then Refused(BadData)
      else Fine
  }

  function Lower(s: string): string {
    if s == "" then ""
    else [if 'A' <= s[0] <= 'Z' then s[0] + ' ' else s[0]] + Lower(s[1..])
  }

  // The same text but for the case of ASCII letters; the second is in lower case.
  predicate SameButCase(a: string, b: string) {
    |a| == |b| && forall i :: 0 <= i < |a| ==> SameLetter(a[i], b[i])
  }

  predicate SameLetter(a: char, b: char) {
    if 'A' <= a <= 'Z' then b as int == a as int + 32 else b == a
  }

  lemma SameButCaseStep(a: string, b: string)
    requires a != "" && b != ""
    ensures SameButCase(a, b) <==> SameLetter(a[0], b[0]) && SameButCase(a[1..], b[1..])
  {
    if SameLetter(a[0], b[0]) && SameButCase(a[1..], b[1..]) {
      forall i | 0 <= i < |a| ensures SameLetter(a[i], b[i]) {
        if i > 0 {
          assert SameLetter(a[1..][i - 1], b[1..][i - 1]);
        }
      }
    }
    if SameButCase(a, b) {
      forall i | 0 <= i < |a| - 1 ensures SameLetter(a[1..][i], b[1..][i]) {
        assert SameLetter(a[i + 1], b[i + 1]);
      }
    }
  }

  lemma {:induction false} LowerMeaning(a: string, b: string)
    ensures Lower(a) == b <==> SameButCase(a, b)
  {
    if a != "" && b != "" {
      LowerMeaning(a[1..], b[1..]);
      SameButCaseStep(a, b);
      assert b == [b[0]] + b[1..];
      assert Lower(a)[0] == b[0] <==> SameLetter(a[0], b[0]);
      assert Lower(a)[1..] == Lower(a[1..]);
    }
  }

  function RiskyTypes(): set<string> {
    {"delete", "override", "force_merge", "escalate", "admin_action"}
  }

  // Characters of json.dumps with its default separators and ASCII escapes.
  function PlainLength(j: Json): nat {
    match j
    case Null => 4
    case Bool(b) => if b then 4 else 5
    case Int(n) => |Decimal(n)|
    case Float(text) => |text|
    case Str(s) => 2 + EscapedLength(s)
    case Arr(items) => if items.NoItems? then 2 else ItemsLength(items)
    case Obj(members) => if members.NoMembers? then 2 else MembersLength(members)
  }

  function ItemsLength(items: Items): nat {
    match items
    case NoItems => 0
    case Item(head, tail) => 2 + PlainLength(head) + ItemsLength(tail)
  }

  function MembersLength(members: Members): nat {
    match members
    case NoMembers => 0
    case Member(key, value, rest) => 2 + (2 + EscapedLength(key)) + 2 + PlainLength(value) + MembersLength(rest)
  }

  function EscapedLength(s: string): nat {
    if s == "" then 0
    else
      var c := s[0];
      (if c in "\"\\\n\r\t\U{8}\U{C}" then 2
       else if c < ' ' || '~' < c <= '\U{FFFF}' then 6
       else if c > '\U{FFFF}' then 12
       else 1) + EscapedLength(s[1..])
  }

  lemma {:induction false} EscapedIsLonger(s: string)
    ensures EscapedLength(s) >= |Escape(s)|
  {
    if s != "" {
      EscapedIsLonger(s[1..]);
    }
  }

  // That text is never shorter than the canonical one, so a payload whose data takes more than 4096
  // canonical characters always has the size penalty.
  lemma {:induction false} PlainIsLonger(j: Json)
    ensures PlainLength(j) >= |Dumps(j)|
    decreases j, 1
  {
    match j
    case Str(s) => EscapedIsLonger(s);
    case Arr(items) => PlainItemsAreLonger(items);
    case Obj(members) => PlainMembersAreLonger(members);
    case _ =>
  }

  lemma {:induction false} PlainItemsAreLonger(items: Items)
    ensures |DumpsItems(items, ",")| <= ItemsLength(items) + 1
    ensures items.Item? ==> |DumpsItems(items, "")| < ItemsLength(items)
    decreases items
  {
    if items.Item? {
      PlainIsLonger(items.head);
      PlainItemsAreLonger(items.tail);
    }
  }

  lemma {:induction false} PlainMembersAreLonger(members: Members)
    ensures |DumpsMembers(members, ",")| <= MembersLength(members) + 1
    ensures members.Member? ==> |DumpsMembers(members, "")| < MembersLength(members)
    decreases members
  {
    if members.Member? {
      EscapedIsLonger(members.key);
      PlainIsLonger(members.value);
      PlainMembersAreLonger(members.rest);
    }
  }

  // ---- The text whose length is counted ----

  function Hex4(n: nat): string
    requires n < 0x10000
  {
    [HexDigit(n / 4096), HexDigit(n / 256 % 16), HexDigit(n / 16 % 16), HexDigit(n % 16)]
  }

  // One character with ASCII escapes; a character above 0xFFFF becomes a surrogate pair.
  function PlainChar(c: char): string {
    if c == '"' || c == '\\' || c == '\n' || c == '\r' || c == '\t' || c == '\U{8}' || c == '\U{C}' then EscapeChar(c)
    else if ' ' <= c <= '~' then [c]
    else if c <= '\U{FFFF}' then "\\u" + Hex4(c as int)
    else
      var v := c as int - 0x10000;
      "\\u" + Hex4(0xD800 + v / 1024) + "\\u" + Hex4(0xDC00 + v % 1024)
  }

  function PlainEscape(s: string): string {
    if s == "" then "" else PlainChar(s[0]) + PlainEscape(s[1..])
  }

  // json.dumps with its default separators.
  function PlainDumps(j: Json): string {
    match j
    case Str(s) => "\"" + PlainEscape(s) + "\""
    case Arr(items) => "[" + PlainItems(items, "") + "]"
    case Obj(members) => "{" + PlainMembers(members, "") + "}"
    case _ => Dumps(j)
  }

  function PlainItems(items: Items, separator: string): string {
    match items
    case NoItems => ""
    case Item(head, tail) => separator + PlainDumps(head) + PlainItems(tail, ", ")
  }

  function PlainMembers(members: Members, separator: string): string {
    match members
    case NoMembers => ""
    case Member(key, value, rest) =>
      separator + ("\"" + PlainEscape(key) + "\"") + ": " + PlainDumps(value) + PlainMembers(rest, ", ")
  }

  lemma {:induction false} EscapedLengthIsExact(s: string)
    ensures EscapedLength(s) == |PlainEscape(s)|
  {
    if s != "" {
      EscapedLengthIsExact(s[1..]);
    }
  }

  // PlainLength counts exactly the characters of that text.
  lemma {:induction false} PlainLengthIsExact(j: Json)
    ensures PlainLength(j) == |PlainDumps(j)|
    decreases j, 1
  {
    match j
    case Str(s) => EscapedLengthIsExact(s);
    case Arr(items) => ItemsLengthIsExact(items);
    case Obj(members) => MembersLengthIsExact(members);
    case _ =>
  }

  lemma {:induction false} ItemsLengthIsExact(items: Items)
    ensures |PlainItems(items, ", ")| == ItemsLength(items)
    ensures items.Item? ==> |PlainItems(items, "")| == ItemsLength(items) - 2
    decreases items
  {
    if items.Item? {
      PlainLengthIsExact(items.head);
      ItemsLengthIsExact(items.tail);
    }
  }

  lemma {:induction false} MembersLengthIsExact(members: Members)
    ensures |PlainMembers(members, ", ")| == MembersLength(members)
    ensures members.Member? ==> |PlainMembers(members, "")| == MembersLength(members) - 2
    decreases members
  {
    if members.Member? {
      EscapedLengthIsExact(members.key);
      PlainLengthIsExact(members.value);
      MembersLengthIsExact(members.rest);
    }
  }

  // How far a payload is to be trusted, from 0 to 1.
  method ComputeConfidence(payload: Json) returns (score: real)
    requires ValidatePayload(payload).Fine?
    ensures score == Confidence(payload)
  {
    var ms := payload.members;
    score := 1.0;
    if Lower(Field(ms, "event_type").s) in RiskyTypes() {
      score := score - 0.4;
    }
    if PlainLength(Field(ms, "data")) > 4096 {
      score := score - 0.2;
    }
    if Field(ms, "source") == Str("unknown") {
      score := score - 0.3;
    }
    score := if score > 1.0 then 1.0 else if score < 0.0 then 0.0 else score;
  }

  function Confidence(payload: Json): (score: real)
    requires ValidatePayload(payload).Fine?
    ensures 0.1 <= score <= 1.0
  {
    var ms := payload.members;
    1.0 - (if Lower(Field(ms, "event_type").s) in RiskyTypes() then 0.4 else 0.0)
        - (if PlainLength(Field(ms, "data")) > 4096 then 0.2 else 0.0)
        - (if Field(ms, "source") == Str("unknown") then 0.3 else 0.0)
  }

  // ---- Verdicts ----

  datatype LedgerRow = LedgerRow(eventType: string, source: string, payload: Json, rawHash: string)
  datatype HitlRow = HitlRow(eventType: string, source: string, payload: Json, confidence: real)
  datatype QuarantineRow = QuarantineRow(reason: Reason, rawText: string, rawHash: string)

  // Which table a file's row goes to.
  datatype Verdict = Accept(ledgerRow: LedgerRow) | Queue(hitlRow: HitlRow) | Reject(quarantineRow: QuarantineRow)

  function Rejection(site: Site, raw: string, reason: Reason): Verdict {
    Reject(QuarantineRow(reason, site.decode(raw), site.sha(raw)))
  }

  // The verdict on a file that is not recorded yet; None when parsing or a check raises.
  function Decide(site: Site, raw: string, now: real): Option<Verdict> {
    match site.read(raw)
    case Unreadable => None
    case Malformed => Some(Rejection(site, raw, JsonParseError))
    case Parsed(event) =>
      var signal := SafeSignalCheck(site, event, now);
      if signal.Raises? then None
      else if signal.Refused? then Some(Rejection(site, raw, signal.reason))
      else
        var payload := Field(event.members, "payload");
        var schema := ValidatePayload(payload);
        if schema.Refused? then Some(Rejection(site, raw, schema.reason)) else Some(Route(site, raw, payload))
  }

  function Route(site: Site, raw: string, payload: Json): Verdict
    requires ValidatePayload(payload).Fine?
  {
    var confidence := Confidence(payload);
    var kind, source := Field(payload.members, "event_type").s, Field(payload.members, "source").s;
    if confidence < site.threshold then Queue(HitlRow(kind, source, payload, confidence))
    else Accept(LedgerRow(kind, source, payload, site.sha(raw)))
  }

  // The text whose hash is the event id: the file itself if it is malformed, else the canonical event.
  function Preimage(site: Site, raw: string): string
    requires !site.read(raw).Unreadable?
  {
    var reading := site.read(raw);
    if reading.Malformed? then raw else Dumps(reading.event)
  }

  function IdOf(site: Site, raw: string): string
    requires !site.read(raw).Unreadable?
  {
    site.sha(Preimage(site, raw))
  }

  // ---- The inbox and the database ----

  // An inbox file: which arrival it is, and its bytes.
  datatype InboxFile = InboxFile(no: nat, raw: string)

  datatype Action = LedgerAccepted | HitlQueued | Quarantined

  datatype Audit = Audit(id: string, action: Action)

  // The tables, by their UNIQUE column event_id, and the append-only audit log.
  datatype Database = Database(ledger: map<string, LedgerRow>, hitl: map<string, HitlRow>,
                               quarantine: map<string, QuarantineRow>, audit: seq<Audit>)

  predicate Recorded(db: Database, id: string) {
    exists i :: 0 <= i < |db.audit| && db.audit[i].id == id
  }

  // One transaction: the row and its audit row; None when a UNIQUE constraint refuses it.
  function Insert(db: Database, id: string, verdict: Verdict): Option<Database> {
    match verdict
    case Accept(row) =>
      if id in db.ledger then None
      else Some(db.(ledger := db.ledger[id := row], audit := db.audit + [Audit(id, LedgerAccepted)]))
    case Queue(row) =>
      if id in db.hitl then None
      else Some(db.(hitl := db.hitl[id := row], audit := db.audit + [Audit(id, HitlQueued)]))
    case Reject(row) =>
      if id in db.quarantine then None
      else Some(db.(quarantine := db.quarantine[id := row], audit := db.audit + [Audit(id, Quarantined)]))
  }

  // ---- The machine ----

  // Where the listener stands in process_file.
  datatype Point =
    | Waiting
    | Looking(name: string, doc: InboxFile, id: string)   // read and parsed, about to look the id up
    | Deciding(name: string, doc: InboxFile, id: string)  // the id was not recorded
    | Recording(name: string, doc: InboxFile, id: string, verdict: Verdict, now: real)
    | Removing(name: string, doc: InboxFile, id: string)  // the id is recorded

  // What a row was recorded from.
  datatype Origin = Origin(raw: string, now: real)

  // arrived, removed and origin are history: every file that arrived, the arrivals that left the
  // inbox, and what each row was recorded from.
  datatype State = State(inbox: map<string, InboxFile>, db: Database, at: Point,
                         arrived: seq<string>, removed: set<nat>, origin: map<string, Origin>)

  // How a transaction can end. The last: it is durable, but an error is raised.
  datatype Commit = Committed | NotCommitted | CommittedThenRaised

  datatype Event =
    | Arrive(name: string, raw: string)
    | Read(name: string, ok: bool)
    | Look(ok: bool)
    | Judge(now: real)
    | Record(commit: Commit)
    | Unlink(ok: bool)
    | Crash

  function Start(): State {
    State(map[], Database(map[], map[], map[], []), Waiting, [], {}, map[])
  }

  // One step; a step the listener is not ready for changes nothing.
  function Step(site: Site, s: State, e: Event): State {
    match e
    case Arrive(name, raw) =>
      if name in s.inbox then s  // producers use fresh names
      else s.(inbox := s.inbox[name := InboxFile(|s.arrived|, raw)], arrived := s.arrived + [raw])
    case Read(name, ok) =>
      if s.at.Waiting? && IsJsonName(name) && name in s.inbox && ok && !site.read(s.inbox[name].raw).Unreadable?
      then s.(at := Looking(name, s.inbox[name], IdOf(site, s.inbox[name].raw)))
      else s
    case Look(ok) =>
      if !s.at.Looking? then s
      else if !ok then s.(at := Waiting)
      else if Recorded(s.db, s.at.id) then s.(at := Removing(s.at.name, s.at.doc, s.at.id))
      else s.(at := Deciding(s.at.name, s.at.doc, s.at.id))
    case Judge(now) =>
      if !s.at.Deciding? then s
      else
        var verdict := Decide(site, s.at.doc.raw, now);
        s.(at := if verdict.None? then Waiting else Recording(s.at.name, s.at.doc, s.at.id, verdict.value, now))
    case Record(commit) => if s.at.Recording? then RecordStep(s, commit) else s
    case Unlink(ok) =>
      if !s.at.Removing? then s
      else if !ok then s.(at := Waiting)
      else s.(inbox := s.inbox - {s.at.name}, removed := s.removed + {s.at.doc.no}, at := Waiting)
    case Crash => s.(at := Waiting)
  }

  function RecordStep(s: State, commit: Commit): State
    requires s.at.Recording?
  {
    var db := Insert(s.db, s.at.id, s.at.verdict);
    if db.None? || commit.NotCommitted? then s.(at := Waiting)
    else s.(db := db.value, origin := s.origin[s.at.id := Origin(s.at.doc.raw, s.at.now)],
            at := if commit.Committed? then Removing(s.at.name, s.at.doc, s.at.id) else Waiting)
  }

  function Run(site: Site, s: State, events: seq<Event>): State {
    if events == [] then s else Step(site, Run(site, s, events[..|events| - 1]), events[|events| - 1])
  }
}
