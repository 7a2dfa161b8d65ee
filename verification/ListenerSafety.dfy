// What every run of the listener keeps: exactly one verdict per event, and no file lost.
module ListenerSafety {
  import opened Wrappers
  import opened Text
  import opened JsonText
  import opened Digest
  import opened Listener

  // ---- The database ----

  function TablesWith(db: Database, id: string): nat {
    (if id in db.ledger then 1 else 0) + (if id in db.hitl then 1 else 0) + (if id in db.quarantine then 1 else 0)
  }

  function AuditRows(audit: seq<Audit>, id: string): nat {
    if audit == [] then 0
    else AuditRows(audit[..|audit| - 1], id) + if audit[|audit| - 1].id == id then 1 else 0
  }

  lemma AuditSnoc(audit: seq<Audit>, row: Audit, id: string)
    ensures AuditRows(audit + [row], id) == AuditRows(audit, id) + if row.id == id then 1 else 0
  {
    var longer := audit + [row];
    assert longer[..|longer| - 1] == audit && longer[|longer| - 1] == row;
  }

  lemma {:induction false} RecordedCounts(db: Database, audit: seq<Audit>, id: string)
    requires audit <= db.audit
    ensures AuditRows(audit, id) > 0 <==> exists i :: 0 <= i < |audit| && db.audit[i].id == id
  {
    if audit != [] {
      RecordedCounts(db, audit[..|audit| - 1], id);
      assert audit[|audit| - 1] == db.audit[|audit| - 1];
    }
  }

  // An id has one audit row and one table row, or neither.
  ghost predicate OnceEach(db: Database) {
    forall id :: TablesWith(db, id) == AuditRows(db.audit, id) <= 1
  }

  predicate NamesItsTable(db: Database, row: Audit) {
    match row.action
    case LedgerAccepted => row.id in db.ledger
    case HitlQueued => row.id in db.hitl
    case Quarantined => row.id in db.quarantine
  }

  ghost predicate ActionsFit(db: Database) {
    forall row :: row in db.audit ==> NamesItsTable(db, row)
  }

  lemma InsertCounts(db: Database, id: string, verdict: Verdict, other: string)
    requires TablesWith(db, id) == 0
    ensures var after := Insert(db, id, verdict);
      && after.Some? && after.value.audit == db.audit + [after.value.audit[|db.audit|]]
      && after.value.audit[|db.audit|].id == id && NamesItsTable(after.value, after.value.audit[|db.audit|])
      && TablesWith(after.value, other) == TablesWith(db, other) + (if other == id then 1 else 0)
      && AuditRows(after.value.audit, other) == AuditRows(db.audit, other) + (if other == id then 1 else 0)
  {
    var after := Insert(db, id, verdict).value;
    AuditSnoc(db.audit, after.audit[|db.audit|], other);
  }

  lemma InsertOnce(db: Database, id: string, verdict: Verdict)
    requires OnceEach(db) && ActionsFit(db) && !Recorded(db, id)
    ensures var after := Insert(db, id, verdict);
      after.Some? && OnceEach(after.value) && ActionsFit(after.value) && Recorded(after.value, id)
  {
    RecordedCounts(db, db.audit, id);
    assert TablesWith(db, id) == AuditRows(db.audit, id);
    InsertCounts(db, id, verdict, id);
    var after := Insert(db, id, verdict).value;
    forall other ensures TablesWith(after, other) == AuditRows(after.audit, other) <= 1 {
      InsertCounts(db, id, verdict, other);
      assert TablesWith(db, other) == AuditRows(db.audit, other) <= 1;
    }
    forall row | row in after.audit ensures NamesItsTable(after, row) {
      if row in db.audit {
        assert NamesItsTable(db, row);
      }
    }
  }

  // Rows are only added.
  ghost predicate Grows(db: Database, after: Database) {
    && db.audit <= after.audit
    && (forall id :: id in db.ledger ==> id in after.ledger && after.ledger[id] == db.ledger[id])
    && (forall id :: id in db.hitl ==> id in after.hitl && after.hitl[id] == db.hitl[id])
    && (forall id :: id in db.quarantine ==> id in after.quarantine && after.quarantine[id] == db.quarantine[id])
  }

  lemma RecordedStays(db: Database, after: Database, id: string)
    requires Grows(db, after) && Recorded(db, id)
    ensures Recorded(after, id)
  {
    var i :| 0 <= i < |db.audit| && db.audit[i].id == id;
    assert after.audit[i] == db.audit[i];
  }

  // ---- The invariant of every run ----

  // The row an id has is the verdict.
  predicate HasVerdict(db: Database, id: string, verdict: Verdict) {
    match verdict
    case Accept(row) => id in db.ledger && db.ledger[id] == row
    case Queue(row) => id in db.hitl && db.hitl[id] == row
    case Reject(row) => id in db.quarantine && db.quarantine[id] == row
  }

  // The id and the row are what the origin's file and decision time dictate.
  ghost predicate Traced(site: Site, db: Database, id: string, origin: Origin) {
    && !site.read(origin.raw).Unreadable? && id == IdOf(site, origin.raw)
    && Decide(site, origin.raw, origin.now).Some?
    && HasVerdict(db, id, Decide(site, origin.raw, origin.now).value)
  }

  ghost predicate RowsTraced(site: Site, db: Database, origin: map<string, Origin>, arrived: seq<string>) {
    && (forall id :: Recorded(db, id) ==> id in origin && Traced(site, db, id, origin[id]))
    && (forall id :: id in origin ==> origin[id].raw in arrived)
  }

  // What the listener knows at its current point.
  ghost predicate PointOk(site: Site, inbox: map<string, InboxFile>, db: Database, at: Point) {
    !at.Waiting? ==>
      && at.name in inbox && inbox[at.name] == at.doc
      && !site.read(at.doc.raw).Unreadable? && at.id == IdOf(site, at.doc.raw)
      && (at.Deciding? || at.Recording? ==> !Recorded(db, at.id))
      && (at.Recording? ==> Decide(site, at.doc.raw, at.now) == Some(at.verdict))
      && (at.Removing? ==> Recorded(db, at.id))
  }

  ghost predicate InInbox(inbox: map<string, InboxFile>, no: nat) {
    exists name :: name in inbox && inbox[name].no == no
  }

  // Each arrival is in the inbox under one name, unchanged, or was removed.
  ghost predicate Conserved(inbox: map<string, InboxFile>, arrived: seq<string>, removed: set<nat>) {
    && (forall name :: name in inbox ==>
          inbox[name].no < |arrived| && inbox[name].no !in removed && inbox[name].raw == arrived[inbox[name].no])
    && (forall m, n :: m in inbox && n in inbox && inbox[m].no == inbox[n].no ==> m == n)
    && (forall no :: 0 <= no < |arrived| && no !in removed ==> InInbox(inbox, no))
  }

  // What was removed is recorded.
  ghost predicate RemovedRecorded(site: Site, arrived: seq<string>, removed: set<nat>, db: Database) {
    forall no :: no in removed ==>
      no < |arrived| && !site.read(arrived[no]).Unreadable? && Recorded(db, IdOf(site, arrived[no]))
  }

  ghost predicate Safe(site: Site, s: State) {
    && OnceEach(s.db) && ActionsFit(s.db) && RowsTraced(site, s.db, s.origin, s.arrived)
    && PointOk(site, s.inbox, s.db, s.at)
    && Conserved(s.inbox, s.arrived, s.removed) && RemovedRecorded(site, s.arrived, s.removed, s.db)
  }

  lemma ArriveConserves(inbox: map<string, InboxFile>, arrived: seq<string>, removed: set<nat>, name: string, raw: string)
    requires Conserved(inbox, arrived, removed) && name !in inbox && (forall no :: no in removed ==> no < |arrived|)
    ensures Conserved(inbox[name := InboxFile(|arrived|, raw)], arrived + [raw], removed)
  {
    var after := inbox[name := InboxFile(|arrived|, raw)];
    forall no | 0 <= no < |arrived| + 1 && no !in removed ensures InInbox(after, no) {
      if no < |arrived| {
        assert InInbox(inbox, no);
        var n :| n in inbox && inbox[n].no == no;
        assert after[n].no == no;
      } else {
        assert after[name].no == no;
      }
    }
  }

  lemma ArriveSafe(site: Site, s: State, name: string, raw: string)
    requires Safe(site, s)
    ensures Safe(site, Step(site, s, Arrive(name, raw)))
  {
    if name !in s.inbox {
      ArriveConserves(s.inbox, s.arrived, s.removed, name, raw);
    }
  }

  lemma RecordKeepsRows(site: Site, s: State, id: string, raw: string, now: real, after: Database)
    requires OnceEach(s.db) && ActionsFit(s.db) && RowsTraced(site, s.db, s.origin, s.arrived) && !Recorded(s.db, id)
    requires raw in s.arrived && !site.read(raw).Unreadable? && id == IdOf(site, raw) && Decide(site, raw, now).Some?
    requires Some(after) == Insert(s.db, id, Decide(site, raw, now).value)
    ensures RowsTraced(site, after, s.origin[id := Origin(raw, now)], s.arrived) && Grows(s.db, after)
  {
    InsertOnce(s.db, id, Decide(site, raw, now).value);
    assert after.audit[..|s.db.audit|] == s.db.audit;
    var origin := s.origin[id := Origin(raw, now)];
    forall other | Recorded(after, other) ensures other in origin && Traced(site, after, other, origin[other]) {
      if other != id {
        assert Recorded(s.db, other);
      }
    }
  }

  lemma RemovedStayRecorded(site: Site, arrived: seq<string>, removed: set<nat>, db: Database, after: Database)
    requires RemovedRecorded(site, arrived, removed, db) && Grows(db, after)
    ensures RemovedRecorded(site, arrived, removed, after)
  {
    forall id | Recorded(db, id) ensures Recorded(after, id) {
      RecordedStays(db, after, id);
    }
  }

  lemma RecordSafe(site: Site, s: State, commit: Commit)
    requires Safe(site, s) && s.at.Recording?
    ensures Safe(site, RecordStep(s, commit)) && Grows(s.db, RecordStep(s, commit).db)
  {
    InsertOnce(s.db, s.at.id, s.at.verdict);
    var after := Insert(s.db, s.at.id, s.at.verdict).value;
    assert s.at.doc.raw in s.arrived;
    RecordKeepsRows(site, s, s.at.id, s.at.doc.raw, s.at.now, after);
    RemovedStayRecorded(site, s.arrived, s.removed, s.db, after);
  }

  lemma UnlinkConserves(inbox: map<string, InboxFile>, arrived: seq<string>, removed: set<nat>, name: string, no: nat)
    requires Conserved(inbox, arrived, removed) && name in inbox && inbox[name].no == no
    ensures Conserved(inbox - {name}, arrived, removed + {no})
  {
    forall other | 0 <= other < |arrived| && other !in removed + {no} ensures InInbox(inbox - {name}, other) {
      assert InInbox(inbox, other);
      var n :| n in inbox && inbox[n].no == other;
      assert n in inbox - {name};
    }
  }

  lemma UnlinkRemoves(site: Site, arrived: seq<string>, removed: set<nat>, db: Database, no: nat)
    requires RemovedRecorded(site, arrived, removed, db)
    requires no < |arrived| && !site.read(arrived[no]).Unreadable? && Recorded(db, IdOf(site, arrived[no]))
    ensures RemovedRecorded(site, arrived, removed + {no}, db)
  {}

  lemma UnlinkSafe(site: Site, s: State)
    requires Safe(site, s) && s.at.Removing?
    ensures Safe(site, s.(inbox := s.inbox - {s.at.name}, removed := s.removed + {s.at.doc.no}, at := Waiting))
  {
    UnlinkConserves(s.inbox, s.arrived, s.removed, s.at.name, s.at.doc.no);
    UnlinkRemoves(site, s.arrived, s.removed, s.db, s.at.doc.no);
  }

  // The steps that only move the listener on.
  lemma MoveSafe(site: Site, s: State, e: Event)
    requires Safe(site, s) && (e.Read? || e.Look? || e.Judge? || e.Crash?)
    ensures Step(site, s, e) == s.(at := Step(site, s, e).at) && PointOk(site, s.inbox, s.db, Step(site, s, e).at)
  {}

  lemma StepSafe(site: Site, s: State, e: Event)
    requires Safe(site, s)
    ensures Safe(site, Step(site, s, e)) && Grows(s.db, Step(site, s, e).db)
  {
    if e.Arrive? {
      ArriveSafe(site, s, e.name, e.raw);
    } else if e.Unlink? {
      if s.at.Removing? { UnlinkSafe(site, s); }
    } else if e.Record? {
      if s.at.Recording? { RecordSafe(site, s, e.commit); }
    } else {
      MoveSafe(site, s, e);
    }
  }

  lemma {:induction false} RunsAreSafe(site: Site, events: seq<Event>)
    ensures Safe(site, Run(site, Start(), events))
  {
    if events != [] {
      RunsAreSafe(site, events[..|events| - 1]);
      StepSafe(site, Run(site, Start(), events[..|events| - 1]), events[|events| - 1]);
    }
  }

  // ---- Exactly once ----

  // In every run an event id has a row in exactly one table if and only if it has exactly one audit
  // row; otherwise it has none of either.
  lemma ExactlyOnce(site: Site, events: seq<Event>, id: string)
    ensures var db := Run(site, Start(), events).db;
      (TablesWith(db, id) == 1 && AuditRows(db.audit, id) == 1) || (TablesWith(db, id) == 0 && AuditRows(db.audit, id) == 0)
  {
    RunsAreSafe(site, events);
  }

  lemma VerdictStays(db: Database, after: Database, id: string, verdict: Verdict)
    requires Grows(db, after) && HasVerdict(db, id, verdict)
    ensures HasVerdict(after, id, verdict)
  {}

  // Nothing later changes a row, removes it, or gives the id a row in another table.
  lemma {:induction false} FirstVerdictStands(site: Site, events: seq<Event>, more: seq<Event>, id: string, verdict: Verdict)
    requires HasVerdict(Run(site, Start(), events).db, id, verdict)
    ensures HasVerdict(Run(site, Start(), events + more).db, id, verdict)
    ensures forall other :: HasVerdict(Run(site, Start(), events + more).db, id, other) ==> other == verdict
  {
    if more == [] {
      assert events + more == events;
    } else {
      var before, s := more[..|more| - 1], Run(site, Start(), events + more[..|more| - 1]);
      assert (events + more)[..|events + more| - 1] == events + before;
      FirstVerdictStands(site, events, before, id, verdict);
      RunsAreSafe(site, events + before);
      StepSafe(site, s, more[|more| - 1]);
      VerdictStays(s.db, Run(site, Start(), events + more).db, id, verdict);
    }
    ExactlyOnce(site, events + more, id);
  }

  // ---- No loss ----

  // The inputs of the hash that a run can compare: the preimages of what arrived.
  ghost function Preimages(site: Site, arrived: seq<string>): set<string> {
    set raw | raw in arrived && !site.read(raw).Unreadable? :: Preimage(site, raw)
  }

  // The canonical text of a parsed event is not malformed JSON.
  ghost predicate CanonicalParses(site: Site, arrived: seq<string>) {
    forall raw :: raw in arrived && site.read(raw).Parsed? ==> !site.read(Dumps(site.read(raw).event)).Malformed?
  }

  predicate SameContent(site: Site, raw: string, other: string) {
    site.read(raw) == site.read(other) && (site.read(raw).Malformed? ==> raw == other)
  }

  // Malformed files and parsed events never share an id: equal ids mean equal content.
  lemma IdsNeverClash(site: Site, arrived: seq<string>, raw: string, other: string)
    requires CollisionFreeOn(site.sha, Preimages(site, arrived)) && CanonicalParses(site, arrived)
    requires raw in arrived && other in arrived
    requires !site.read(raw).Unreadable? && !site.read(other).Unreadable?
    ensures IdOf(site, raw) == IdOf(site, other) <==> SameContent(site, raw, other)
  {
    assert Preimage(site, raw) in Preimages(site, arrived) && Preimage(site, other) in Preimages(site, arrived);
    if IdOf(site, raw) == IdOf(site, other) {
      assert Preimage(site, raw) == Preimage(site, other);
      if site.read(raw).Parsed? && site.read(other).Parsed? {
        DumpsInjective(site.read(raw).event, site.read(other).event);
      }
    }
  }

  // In every run each arrival is still in the inbox with its content, or its content is recorded: the
  // id has a row that Decide gave, at some time, for a file of the same content.
  lemma NothingIsLost(site: Site, events: seq<Event>, no: nat)
    requires var s := Run(site, Start(), events);
      no < |s.arrived| && CollisionFreeOn(site.sha, Preimages(site, s.arrived)) && CanonicalParses(site, s.arrived)
    ensures var s := Run(site, Start(), events);
      var raw := s.arrived[no];
      (exists name :: name in s.inbox && s.inbox[name] == InboxFile(no, raw))
      || (&& !site.read(raw).Unreadable? && IdOf(site, raw) in s.origin
          && var origin := s.origin[IdOf(site, raw)];
             && SameContent(site, raw, origin.raw) && Decide(site, origin.raw, origin.now).Some?
             && HasVerdict(s.db, IdOf(site, raw), Decide(site, origin.raw, origin.now).value))
  {
    RunsAreSafe(site, events);
    var s := Run(site, Start(), events);
    var raw := s.arrived[no];
    if no in s.removed {
      var origin := s.origin[IdOf(site, raw)];
      assert Traced(site, s.db, IdOf(site, raw), origin);
      IdsNeverClash(site, s.arrived, raw, origin.raw);
    } else {
      assert InInbox(s.inbox, no);
    }
  }

  // ---- What is accepted ----

  // A fresh, correctly signed event with a valid payload.
  ghost predicate Signed(site: Site, event: Json, sig: string, timestamp: string, payload: Json) {
    && event.Obj? && Field(event.members, "safesignal").Obj? && Field(event.members, "payload") == payload
    && payload.Obj? && !Blank(timestamp) && sig != "" && IsAscii(sig)
    && (var signal := Field(event.members, "safesignal").members;
        && Field(signal, "version") == Str("1") && Field(signal, "sig") == Str(sig)
        && Field(signal, "ts") == Str(timestamp))
    && sig == site.mac(SignedText("1", timestamp, payload))
  }

  predicate Fresh(site: Site, timestamp: string, now: real) {
    var time := site.parseTime(timestamp);
    time.Some? && time.value.Aware? && time.value.at - 60.0 <= now <= time.value.at + 300.0
  }

  predicate ValidEvent(payload: Json) {
    && payload.Obj?
    && (var kind := Field(payload.members, "event_type"); kind.Str? && !Blank(kind.s))
    && (var source := Field(payload.members, "source"); source.Str? && !Blank(source.s))
    && Field(payload.members, "data").Obj?
  }

  // The reasons for refusing an envelope, the first check that fails deciding.
  lemma EnvelopeReasons(site: Site, event: Json, now: real)
    ensures !event.Obj? <==> SafeSignalCheck(site, event, now) == Refused(EventNotObject)
    ensures event.Obj? ==>
      var signal := Field(event.members, "safesignal");
      && (!signal.Obj? <==> SafeSignalCheck(site, event, now) == Refused(NoEnvelope))
      && (signal.Obj? ==>
            var ms := signal.members;
            && (Field(ms, "version") != Str("1") <==> SafeSignalCheck(site, event, now) == Refused(UnsupportedVersion))
            && (Field(ms, "version") == Str("1") ==>
                  SafeSignalCheck(site, event, now)
                  == SignalFieldsCheck(site, Field(ms, "sig"), Field(ms, "ts"), Field(event.members, "payload"), now)))
  {}

  lemma SignalReasons(site: Site, sig: Json, ts: Json, payload: Json, now: real)
    ensures var r, named, timed := SignalFieldsCheck(site, sig, ts, payload, now),
              sig.Str? && |sig.s| > 0, ts.Str? && |Strip(ts.s)| > 0;
      && (r == Refused(EmptySignature) <==> !named)
      && (r == Refused(NoTimestamp) <==> named && !timed)
      && (r == Refused(PayloadNotObject) <==> named && timed && !payload.Obj?)
      && (named && timed && payload.Obj? ==>
            && (r == Refused(InvalidTimestamp) <==> site.parseTime(ts.s).None?)
            && (r == Refused(NaiveTimestamp) <==> site.parseTime(ts.s) == Some(Naive))
            && (r == Refused(SignatureMismatch) <==>
                  site.parseTime(ts.s).Some? && site.parseTime(ts.s).value.Aware? && IsAscii(sig.s)
                  && sig.s != site.mac(SignedText("1", ts.s, payload))))
  {
    if ts.Str? {
      var _, _ := StripMeaning(ts.s);
    }
  }

  // The reasons for refusing a payload, the first check that fails deciding.
  lemma SchemaReasons(payload: Json)
    requires payload.Obj?
    ensures var r, ms := ValidatePayload(payload), payload.members;
            var complete := HasKey(ms, "event_type") && HasKey(ms, "source") && HasKey(ms, "data");
            var typed := Field(ms, "event_type").Str? && Strip(Field(ms, "event_type").s) != "";
            var sourced := Field(ms, "source").Str? && Strip(Field(ms, "source").s) != "";
      && (r == Refused(MissingFields) <==> !complete)
      && (r == Refused(BadEventType) <==> complete && !typed)
      && (r == Refused(BadSource) <==> complete && typed && !sourced)
      && (r == Refused(BadData) <==> complete && typed && sourced && !Field(ms, "data").Obj?)
      && (r.Fine? <==> complete && typed && sourced && Field(ms, "data").Obj?)
  {
    if Field(payload.members, "event_type").Str? {
      var _, _ := StripMeaning(Field(payload.members, "event_type").s);
    }
    if Field(payload.members, "source").Str? {
      var _, _ := StripMeaning(Field(payload.members, "source").s);
    }
  }

  // The reason a quarantined file's row gives: malformed JSON, else the envelope's, else the payload's.
  lemma VerdictReasons(site: Site, raw: string, now: real)
    requires Decide(site, raw, now).Some?
    ensures var verdict, reading := Decide(site, raw, now).value, site.read(raw);
      && !reading.Unreadable?
      && (reading.Malformed? ==> verdict.Reject? && verdict.quarantineRow.reason == JsonParseError)
      && (reading.Parsed? ==>
            var signal := SafeSignalCheck(site, reading.event, now);
            && !signal.Raises?
            && (signal.Refused? ==> verdict.Reject? && verdict.quarantineRow.reason == signal.reason)
            && (signal.Fine? ==>
                  var schema := ValidatePayload(Field(reading.event.members, "payload"));
                  && (schema.Refused? <==> verdict.Reject?)
                  && (schema.Refused? ==> verdict.quarantineRow.reason == schema.reason)))
  {}

  // A signed event is refused as too old exactly more than 300 seconds after its timestamp, and as too
  // early exactly more than 60 seconds before it.
  lemma LatenessMeaning(site: Site, raw: string, now: real, sig: string, timestamp: string, payload: Json)
    requires site.read(raw).Parsed? && Signed(site, site.read(raw).event, sig, timestamp, payload)
    requires site.parseTime(timestamp).Some? && site.parseTime(timestamp).value.Aware?
    ensures var at, verdict := site.parseTime(timestamp).value.at, Decide(site, raw, now);
      && verdict.Some?
      && (now > at + 300.0 <==> verdict.value == Rejection(site, raw, TooOld))
      && (now < at - 60.0 <==> verdict.value == Rejection(site, raw, InFuture))
  {
    if ValidatePayload(payload).Fine? {
      assert Route(site, raw, payload).Queue? || Route(site, raw, payload).Accept?;
    }
  }

  // A file is put in the ledger or before a human exactly when it is such an event; which of the two,
  // the threshold decides.
  lemma AcceptanceMeaning(site: Site, raw: string, now: real)
    ensures var verdict := Decide(site, raw, now);
      (verdict.Some? && !verdict.value.Reject?) <==>
        (site.read(raw).Parsed?
         && exists sig, timestamp, payload ::
              Signed(site, site.read(raw).event, sig, timestamp, payload) && Fresh(site, timestamp, now) && ValidEvent(payload))
  {
    var reading, verdict := site.read(raw), Decide(site, raw, now);
    if verdict.Some? && !verdict.value.Reject? {
      var signal := Field(reading.event.members, "safesignal").members;
      var payload := Field(reading.event.members, "payload");
      var sig, timestamp := Field(signal, "sig").s, Field(signal, "ts").s;
      assert Signed(site, reading.event, sig, timestamp, payload) && Fresh(site, timestamp, now) && ValidEvent(payload);
    }
  }

  // One of the five risky types, in any case.
  predicate IsRisky(kind: string) {
    SameButCase(kind, "delete") || SameButCase(kind, "override") || SameButCase(kind, "force_merge")
    || SameButCase(kind, "escalate") || SameButCase(kind, "admin_action")
  }

  lemma RiskyMeaning(kind: string)
    ensures Lower(kind) in RiskyTypes() <==> IsRisky(kind)
  {
    LowerMeaning(kind, "delete");
    LowerMeaning(kind, "override");
    LowerMeaning(kind, "force_merge");
    LowerMeaning(kind, "escalate");
    LowerMeaning(kind, "admin_action");
  }

  // The score of a valid event: 1.0 less 0.4 for a risky type, 0.2 for data of more than 4096 characters
  // and 0.3 for an unknown source. It waits for a human, with that score in its row, exactly when the
  // score is below the threshold; otherwise the ledger has its type, source, payload and file hash.
  lemma RoutingMeaning(site: Site, raw: string, payload: Json)
    requires ValidEvent(payload)
    ensures ValidatePayload(payload).Fine?
    ensures var kind, source := Field(payload.members, "event_type").s, Field(payload.members, "source").s;
            var score := 1.0 - (if IsRisky(kind) then 0.4 else 0.0)
                             - (if |PlainDumps(Field(payload.members, "data"))| > 4096 then 0.2 else 0.0)
                             - (if source == "unknown" then 0.3 else 0.0);
      Route(site, raw, payload) ==
        if score < site.threshold then Queue(HitlRow(kind, source, payload, score))
        else Accept(LedgerRow(kind, source, payload, site.sha(raw)))
  {
    RiskyMeaning(Field(payload.members, "event_type").s);
    PlainLengthIsExact(Field(payload.members, "data"));
  }

  // With the default threshold of 0.75 an accepted event waits for a human exactly when its type is
  // risky or its source is "unknown"; its size alone never matters.
  lemma DefaultRouting(site: Site, raw: string, payload: Json)
    requires site.threshold == 0.75 && ValidEvent(payload)
    ensures ValidatePayload(payload).Fine?
    ensures Route(site, raw, payload).Queue? <==>
      IsRisky(Field(payload.members, "event_type").s) || Field(payload.members, "source").s == "unknown"
  {
    RoutingMeaning(site, raw, payload);
  }

  // For instance "DELETE", which is "delete" but for its case.
  lemma DeletesWait(site: Site, raw: string, payload: Json)
    requires site.threshold == 0.75 && ValidEvent(payload) && Field(payload.members, "event_type") == Str("DELETE")
    ensures ValidatePayload(payload).Fine? && Route(site, raw, payload).Queue?
  {
    assert SameButCase("DELETE", "delete");
    DefaultRouting(site, raw, payload);
  }

  // The text a signature covers is that of exactly one JSON value: the object of the payload, the
  // protocol's name, the timestamp and the version.
  lemma SignedTextMeaning(version: string, timestamp: string, payload: Json, j: Json)
    requires Dumps(j) == SignedText(version, timestamp, payload)
    ensures j == Obj(Member("payload", payload, Member("protocol", Str("SafeSignal"),
                 Member("ts", Str(timestamp), Member("version", Str(version), NoMembers)))))
    ensures KeysAscend(j.members)
  {
    var m4 := Member("version", Str(version), NoMembers);
    var m3 := Member("ts", Str(timestamp), m4);
    Ascends("ts", Str(timestamp), m4, 0);
    Ascends("protocol", Str("SafeSignal"), m3, 0);
    Ascends("payload", payload, Member("protocol", Str("SafeSignal"), m3), 1);
    DumpsInjective(j, Obj(Member("payload", payload, Member("protocol", Str("SafeSignal"),
                   Member("ts", Str(timestamp), Member("version", Str(version), NoMembers))))));
  }

  // A signature fixes the timestamp and the payload: a captured one cannot be given a fresh timestamp.
  lemma SignatureBinds(site: Site, one: Json, other: Json, sig: string, t: string, u: string, p: Json, q: Json)
    requires Signed(site, one, sig, t, p) && Signed(site, other, sig, u, q)
    requires CollisionFreeOn(site.mac, {SignedText("1", t, p), SignedText("1", u, q)})
    ensures t == u && p == q
  {
    DumpsInjective(
      Obj(Member("payload", p, Member("protocol", Str("SafeSignal"), Member("ts", Str(t), Member("version", Str("1"), NoMembers))))),
      Obj(Member("payload", q, Member("protocol", Str("SafeSignal"), Member("ts", Str(u), Member("version", Str("1"), NoMembers))))));
  }

  // The accepted row came from a correctly signed event that was fresh when it was judged, and keeps
  // its payload.
  ghost predicate WasSigned(site: Site, db: Database, id: string, origin: Origin) {
    site.read(origin.raw).Parsed?
    && exists sig, timestamp, payload ::
         && Signed(site, site.read(origin.raw).event, sig, timestamp, payload)
         && Fresh(site, timestamp, origin.now) && ValidEvent(payload)
         && (var kind, source := Field(payload.members, "event_type").s, Field(payload.members, "source").s;
             && (id in db.ledger ==> db.ledger[id] == LedgerRow(kind, source, payload, site.sha(origin.raw)))
             && (id in db.hitl ==> db.hitl[id] == HitlRow(kind, source, payload, db.hitl[id].confidence)))
  }

  lemma TracedWasSigned(site: Site, db: Database, id: string, origin: Origin)
    requires OnceEach(db) && Traced(site, db, id, origin) && (id in db.ledger || id in db.hitl)
    ensures WasSigned(site, db, id, origin)
  {
    assert TablesWith(db, id) <= 1;
    AcceptanceMeaning(site, origin.raw, origin.now);
  }

  // In every run a quarantine row keeps the text and the hash of the arrived file it is about.
  lemma QuarantineKeepsText(site: Site, events: seq<Event>, id: string)
    requires id in Run(site, Start(), events).db.quarantine
    ensures var s := Run(site, Start(), events);
      && id in s.origin && s.origin[id].raw in s.arrived
      && s.db.quarantine[id].rawText == site.decode(s.origin[id].raw)
      && s.db.quarantine[id].rawHash == site.sha(s.origin[id].raw)
  {
    RunsAreSafe(site, events);
    var s := Run(site, Start(), events);
    RecordedCounts(s.db, s.db.audit, id);
    assert TablesWith(s.db, id) == AuditRows(s.db.audit, id) <= 1;
    assert Traced(site, s.db, id, s.origin[id]);
  }

  // In every run a ledger row or review row is the verdict on an arrived file that was correctly
  // signed, and fresh when it was judged.
  lemma AcceptedWereSigned(site: Site, events: seq<Event>, id: string)
    requires var db := Run(site, Start(), events).db; id in db.ledger || id in db.hitl
    ensures var s := Run(site, Start(), events);
      id in s.origin && s.origin[id].raw in s.arrived && WasSigned(site, s.db, id, s.origin[id])
  {
    RunsAreSafe(site, events);
    var s := Run(site, Start(), events);
    RecordedCounts(s.db, s.db.audit, id);
    assert TablesWith(s.db, id) == AuditRows(s.db.audit, id);
    TracedWasSigned(site, s.db, id, s.origin[id]);
  }
}
