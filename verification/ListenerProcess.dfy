// The listener's own control flow: process_file and watch_inbox as methods on the inbox and the
// database, each proved to be a run of the machine.
module ListenerProcess {
  import opened Wrappers
  import opened Text
  import opened JsonText
  import opened Digest
  import opened Listener
  import opened ListenerSafety

  // How the I/O of one process_file goes, and the time at which it judges.
  datatype Env = Env(read: bool, look: bool, now: real, commit: Commit, unlink: bool)

  predicate FailureFree(env: Env) {
    env.read && env.look && env.commit.Committed? && env.unlink
  }

  // One uninterrupted process_file.
  function FileSteps(site: Site, s: State, name: string, env: Env): State {
    Step(site, Step(site, Step(site, Step(site, Step(site, s, Read(name, env.read)), Look(env.look)),
         Judge(env.now)), Record(env.commit)), Unlink(env.unlink))
  }

  function FileEvents(name: string, env: Env): seq<Event> {
    [Read(name, env.read), Look(env.look), Judge(env.now), Record(env.commit), Unlink(env.unlink)]
  }

  lemma FileStepsAreARun(site: Site, s: State, name: string, env: Env)
    ensures FileSteps(site, s, name, env) == Run(site, s, FileEvents(name, env))
  {
    var events := FileEvents(name, env);
    RunSnoc(site, s, [], events[0]);
    RunSnoc(site, s, events[..1], events[1]);
    RunSnoc(site, s, events[..2], events[2]);
    RunSnoc(site, s, events[..3], events[3]);
    RunSnoc(site, s, events[..4], events[4]);
    assert [] + [events[0]] == events[..1] && events[..1] + [events[1]] == events[..2]
        && events[..2] + [events[2]] == events[..3] && events[..3] + [events[3]] == events[..4]
        && events[..4] + [events[4]] == events;
  }

  lemma RunSnoc(site: Site, s: State, events: seq<Event>, e: Event)
    ensures Run(site, s, events + [e]) == Step(site, Run(site, s, events), e)
  {
    var longer := events + [e];
    assert longer[..|longer| - 1] == events && longer[|longer| - 1] == e;
  }

  // Parsing or a check raises on this file, whenever it is judged.
  predicate Raising(site: Site, raw: string) {
    Decide(site, raw, 0.0).None?
  }

  lemma RaisingAlways(site: Site, raw: string, now: real)
    ensures Decide(site, raw, now).None? <==> Raising(site, raw)
  {}

  // Which files those are: the ones json.loads raises on, and events with a version 1 envelope, a
  // payload and a timestamp with a zone whose signature is not ASCII.
  lemma RaisingMeaning(site: Site, raw: string)
    ensures Raising(site, raw) <==>
      site.read(raw).Unreadable? || (site.read(raw).Parsed? && Unsignable(site, site.read(raw).event))
  {}

  predicate Unsignable(site: Site, event: Json) {
    && event.Obj? && Field(event.members, "payload").Obj? && Field(event.members, "safesignal").Obj?
    && var signal := Field(event.members, "safesignal").members;
       && Field(signal, "version") == Str("1") && Field(signal, "sig").Str? && !IsAscii(Field(signal, "sig").s)
       && Field(signal, "ts").Str? && !Blank(Field(signal, "ts").s)
       && site.parseTime(Field(signal, "ts").s).Some? && site.parseTime(Field(signal, "ts").s).value.Aware?
  }

  // A listener that is not waiting for a step ignores it.
  lemma WaitingIgnores(site: Site, s: State, look: bool, now: real, commit: Commit, unlink: bool)
    requires s.at.Waiting?
    ensures Step(site, s, Look(look)) == s && Step(site, s, Judge(now)) == s
    ensures Step(site, s, Record(commit)) == s && Step(site, s, Unlink(unlink)) == s
  {}

  lemma RemovingIgnores(site: Site, s: State, now: real, commit: Commit)
    requires s.at.Removing?
    ensures Step(site, s, Judge(now)) == s && Step(site, s, Record(commit)) == s
  {}

  // ---- What one pass does to a file ----

  lemma FileStepsAreSafe(site: Site, s: State, name: string, env: Env)
    requires Safe(site, s)
    ensures Safe(site, FileSteps(site, s, name, env))
  {
    var s1 := Step(site, s, Read(name, env.read));
    var s2 := Step(site, s1, Look(env.look));
    var s3 := Step(site, s2, Judge(env.now));
    StepSafe(site, s, Read(name, env.read));
    StepSafe(site, s1, Look(env.look));
    StepSafe(site, s2, Judge(env.now));
    StepSafe(site, s3, Record(env.commit));
    StepSafe(site, Step(site, s3, Record(env.commit)), Unlink(env.unlink));
  }

  // Only this file may leave the inbox.
  predicate AtMostRemoves(s: State, t: State, name: string) {
    t.at.Waiting? && t.arrived == s.arrived && (t.inbox == s.inbox || t.inbox == s.inbox - {name})
  }

  lemma RecordThenUnlink(site: Site, s: State, commit: Commit, unlink: bool)
    requires s.at.Recording? && s.at.name in s.inbox
    ensures AtMostRemoves(s, Step(site, RecordStep(s, commit), Unlink(unlink)), s.at.name)
  {}

  lemma FileStepsRemove(site: Site, s: State, name: string, env: Env)
    requires s.at.Waiting? && name in s.inbox
    ensures AtMostRemoves(s, FileSteps(site, s, name, env), name)
  {
    WaitingIgnores(site, s, env.look, env.now, env.commit, env.unlink);
    var t := Step(site, Step(site, Step(site, s, Read(name, env.read)), Look(env.look)), Judge(env.now));
    if t.at.Recording? {
      RecordThenUnlink(site, t, env.commit, env.unlink);
    }
  }

  // Without failures the file is removed unless parsing or a check raises.
  lemma FileIsDrained(site: Site, s: State, name: string, env: Env)
    requires Safe(site, s) && s.at.Waiting? && name in s.inbox && IsJsonName(name)
    requires FailureFree(env) && !Raising(site, s.inbox[name].raw)
    ensures name !in FileSteps(site, s, name, env).inbox
  {
    var file := s.inbox[name];
    var id := IdOf(site, file.raw);
    RaisingAlways(site, file.raw, env.now);
    if Recorded(s.db, id) {
      RemovingIgnores(site, s.(at := Removing(name, file, id)), env.now, env.commit);
    } else {
      InsertOnce(s.db, id, Decide(site, file.raw, env.now).value);
    }
  }

  // A file on which parsing or a check raises is never recorded, nor is any of its content.
  lemma RaisingIsUnrecorded(site: Site, s: State, raw: string)
    requires Safe(site, s) && raw in s.arrived && Raising(site, raw) && !site.read(raw).Unreadable?
    requires Faithful(site, s.arrived)
    ensures !Recorded(s.db, IdOf(site, raw))
  {
    var id := IdOf(site, raw);
    if Recorded(s.db, id) {
      var origin := s.origin[id];
      assert Traced(site, s.db, id, origin);
      IdsNeverClash(site, s.arrived, raw, origin.raw);
      RaisingAlways(site, origin.raw, origin.now);
    }
  }

  lemma RaisingStays(site: Site, s: State, name: string, env: Env)
    requires Safe(site, s) && s.at.Waiting? && name in s.inbox && Raising(site, s.inbox[name].raw)
    requires Faithful(site, s.arrived)
    ensures FileSteps(site, s, name, env).inbox == s.inbox
  {
    var raw := s.inbox[name].raw;
    WaitingIgnores(site, s, env.look, env.now, env.commit, env.unlink);
    RaisingAlways(site, raw, env.now);
    if !site.read(raw).Unreadable? {
      assert raw in s.arrived;
      RaisingIsUnrecorded(site, s, raw);
    }
  }

  // A pass over the listed files, one process_file each.
  function PassSteps(site: Site, s: State, listing: seq<string>, env: nat -> Env): State {
    if listing == [] then s
    else
      var n := |listing| - 1;
      FileSteps(site, PassSteps(site, s, listing[..n], env), listing[n], env(n))
  }

  // The machine's events in a pass.
  function PassEvents(listing: seq<string>, env: nat -> Env): seq<Event> {
    if listing == [] then []
    else
      var n := |listing| - 1;
      PassEvents(listing[..n], env) + FileEvents(listing[n], env(n))
  }

  lemma {:induction false} RunConcat(site: Site, s: State, a: seq<Event>, b: seq<Event>)
    ensures Run(site, s, a + b) == Run(site, Run(site, s, a), b)
  {
    if b == [] {
      assert a + b == a;
    } else {
      assert (a + b)[..|a + b| - 1] == a + b[..|b| - 1];
      RunConcat(site, s, a, b[..|b| - 1]);
    }
  }

  // A pass is a run, so what holds of every run holds of it.
  lemma {:induction false} PassIsARun(site: Site, s: State, listing: seq<string>, env: nat -> Env)
    ensures PassSteps(site, s, listing, env) == Run(site, s, PassEvents(listing, env))
  {
    if listing != [] {
      var n := |listing| - 1;
      PassIsARun(site, s, listing[..n], env);
      FileStepsAreARun(site, PassSteps(site, s, listing[..n], env), listing[n], env(n));
      RunConcat(site, s, PassEvents(listing[..n], env), FileEvents(listing[n], env(n)));
    }
  }

  type Inbox = map<string, InboxFile>

  // No hash collision and no JSON surprise among the files that arrived.
  ghost predicate Faithful(site: Site, arrived: seq<string>) {
    CollisionFreeOn(site.sha, Preimages(site, arrived)) && CanonicalParses(site, arrived)
  }

  predicate Lists(listing: seq<string>, inbox: Inbox) {
    && (forall name :: name in listing ==> name in inbox && IsJsonName(name))
    && (forall name :: name in inbox && IsJsonName(name) ==> name in listing)
    && (forall i, j :: 0 <= i < j < |listing| ==> listing[i] != listing[j])
  }

  // After the first k files: the rest of the inbox is untouched, and which of the k are left.
  ghost predicate Left(site: Site, before: Inbox, inbox: Inbox, listing: seq<string>, k: nat, env: nat -> Env, faithful: bool)
    requires k <= |listing| && Lists(listing, before)
  {
    && (forall name :: name in inbox ==> name in before && inbox[name] == before[name])
    && (forall name :: name in before && name !in listing[..k] ==> name in inbox)
    && (forall i :: 0 <= i < k && FailureFree(env(i)) && !Raising(site, before[listing[i]].raw) ==> listing[i] !in inbox)
    && (faithful ==> forall i :: 0 <= i < k && Raising(site, before[listing[i]].raw) ==> listing[i] in inbox)
  }

  lemma LeftNext(site: Site, before: Inbox, inbox: Inbox, after: Inbox, listing: seq<string>, k: nat, env: nat -> Env, faithful: bool)
    requires Lists(listing, before) && k < |listing| && Left(site, before, inbox, listing, k, env, faithful)
    requires after == inbox || after == inbox - {listing[k]}
    requires FailureFree(env(k)) && !Raising(site, before[listing[k]].raw) ==> listing[k] !in after
    requires faithful && Raising(site, before[listing[k]].raw) ==> after == inbox
    ensures Left(site, before, after, listing, k + 1, env, faithful)
  {
    assert listing[..k + 1] == listing[..k] + [listing[k]];
    assert listing[k] !in listing[..k];
  }

  // A pass that began in state s0 has processed the first k files.
  ghost predicate Midway(site: Site, s0: State, s: State, listing: seq<string>, k: nat, env: nat -> Env)
    requires k <= |listing| && Lists(listing, s0.inbox)
  {
    && s == PassSteps(site, s0, listing[..k], env) && s.at.Waiting? && Safe(site, s) && s.arrived == s0.arrived
    && Left(site, s0.inbox, s.inbox, listing, k, env, Faithful(site, s0.arrived))
  }

  lemma NextFile(site: Site, s0: State, s: State, listing: seq<string>, k: nat, env: nat -> Env)
    requires Lists(listing, s0.inbox) && k < |listing| && Midway(site, s0, s, listing, k, env)
    ensures listing[k] in s.inbox
    ensures Midway(site, s0, FileSteps(site, s, listing[k], env(k)), listing, k + 1, env)
  {
    var name, before := listing[k], s0.inbox;
    assert name !in listing[..k];
    assert listing[..k + 1][..k] == listing[..k];
    FileStepsAreSafe(site, s, name, env(k));
    FileStepsRemove(site, s, name, env(k));
    if FailureFree(env(k)) && !Raising(site, before[name].raw) {
      FileIsDrained(site, s, name, env(k));
    }
    if Faithful(site, s.arrived) && Raising(site, before[name].raw) {
      RaisingStays(site, s, name, env(k));
    }
    LeftNext(site, before, s.inbox, FileSteps(site, s, name, env(k)).inbox, listing, k, env, Faithful(site, s.arrived));
  }

  // A finished pass: without failures only files on which parsing or a check raises are left, and, if
  // faithful, all of them are.
  ghost predicate Drained(site: Site, before: Inbox, inbox: Inbox, failureFree: bool, faithful: bool) {
    && (forall name :: name in inbox ==> name in before && inbox[name] == before[name])
    && (forall name :: name in before && !IsJsonName(name) ==> name in inbox)
    && (failureFree ==> forall name :: name in inbox && IsJsonName(name) ==> Raising(site, inbox[name].raw))
    && (faithful ==> forall name :: name in before && Raising(site, before[name].raw) ==> name in inbox)
  }

  lemma AllListed(site: Site, before: Inbox, inbox: Inbox, listing: seq<string>, env: nat -> Env, faithful: bool)
    requires Lists(listing, before) && Left(site, before, inbox, listing, |listing|, env, faithful)
    ensures Drained(site, before, inbox, forall i :: 0 <= i < |listing| ==> FailureFree(env(i)), faithful)
  {
    assert listing[..|listing|] == listing;
    forall name | name in before && IsJsonName(name) ensures exists i :: 0 <= i < |listing| && listing[i] == name {
      assert name in listing;
    }
  }

  class InteropListener {
    var inbox: map<string, InboxFile>
    var db: Database
    var arrived: seq<string>
    ghost var removed: set<nat>
    ghost var origin: map<string, Origin>

    constructor ()
      ensures Abs() == Start()
    {
      inbox, db, arrived, removed, origin := map[], Database(map[], map[], map[], []), [], {}, map[];
    }

    // The machine's state between two files.
    ghost function Abs(): State
      reads this
    {
      State(inbox, db, Waiting, arrived, removed, origin)
    }

    // Whether the event is durably recorded; None when the database cannot tell.
    method AlreadyRecorded(id: string, ok: bool) returns (r: Option<bool>)
      ensures r == if ok then Some(Recorded(db, id)) else None
    {
      r := if ok then Some(Recorded(db, id)) else None;
    }

    // A producer adds a file under a fresh name.
    method Deliver(site: Site, name: string, raw: string)
      modifies this
      ensures Abs() == Step(site, old(Abs()), Arrive(name, raw))
    {
      if name !in inbox {
        inbox := inbox[name := InboxFile(|arrived|, raw)];
        arrived := arrived + [raw];
      }
    }

    method RemoveFile(name: string, ok: bool)
      requires name in inbox
      modifies this`inbox, this`removed
      ensures inbox == if ok then old(inbox) - {name} else old(inbox)
      ensures removed == if ok then old(removed) + {old(inbox)[name].no} else old(removed)
    {
      if ok {
        removed := removed + {inbox[name].no};
        inbox := inbox - {name};
      }
    }

    // One transaction; false when an error is raised, whether or not the rows are durable.
    method Store(id: string, verdict: Verdict, ghost source: Origin, commit: Commit) returns (ok: bool)
      modifies this`db, this`origin
      ensures var after := Insert(old(db), id, verdict);
        if after.None? || commit.NotCommitted? then db == old(db) && origin == old(origin) && !ok
        else db == after.value && origin == old(origin)[id := source] && ok == commit.Committed?
    {
      var after := Insert(db, id, verdict);
      if after.None? || commit.NotCommitted? {
        return false;
      }
      db, origin := after.value, origin[id := source];
      ok := commit.Committed?;
    }

    // Process one inbox file; keep it if durable recording fails.
    method ProcessFile(site: Site, name: string, env: Env)
      requires name in inbox && IsJsonName(name)
      modifies this
      ensures Abs() == FileSteps(site, old(Abs()), name, env)
      ensures Abs() == Run(site, old(Abs()), FileEvents(name, env))
    {
      ghost var s := Abs();
      FileStepsAreARun(site, s, name, env);
      WaitingIgnores(site, s, env.look, env.now, env.commit, env.unlink);
      if !env.read {
        return;
      }
      var file := inbox[name];
      if site.read(file.raw).Unreadable? {
        return;
      }
      var id := IdOf(site, file.raw);
      var recorded := AlreadyRecorded(id, env.look);
      if recorded.None? {
        return;
      }
      if recorded.value {
        RemovingIgnores(site, s.(at := Removing(name, file, id)), env.now, env.commit);
        RemoveFile(name, env.unlink);
        return;
      }
      var verdict := Decide(site, file.raw, env.now);
      if verdict.None? {
        return;
      }
      var stored := Store(id, verdict.value, Origin(file.raw, env.now), env.commit);
      ghost var recording := s.(at := Recording(name, file, id, verdict.value, env.now));
      assert FileSteps(site, s, name, env) == Step(site, RecordStep(recording, env.commit), Unlink(env.unlink));
      if stored {
        RemoveFile(name, env.unlink);
      } else {
        WaitingIgnores(site, RecordStep(recording, env.commit), env.look, env.now, env.commit, env.unlink);
      }
    }

    // Poll the inbox: process every listed file; an error in one does not stop the others.
    method WatchInbox(site: Site, listing: seq<string>, env: nat -> Env)
      requires Lists(listing, inbox) && Safe(site, Abs())
      modifies this
      ensures Abs() == Run(site, old(Abs()), PassEvents(listing, env)) && Safe(site, Abs())
      ensures Drained(site, old(inbox), inbox, forall i :: 0 <= i < |listing| ==> FailureFree(env(i)),
                      Faithful(site, old(arrived)))
    {
      for k := 0 to |listing|
        invariant Midway(site, old(Abs()), Abs(), listing, k, env)
      {
        NextFile(site, old(Abs()), Abs(), listing, k, env);
        ProcessFile(site, listing[k], env(k));
      }
      assert listing[..|listing|] == listing;
      PassIsARun(site, old(Abs()), listing, env);
      AllListed(site, old(inbox), inbox, listing, env, Faithful(site, old(arrived)));
    }
  }
}
