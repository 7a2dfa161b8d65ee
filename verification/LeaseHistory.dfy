// What a plain log of successful lease operations dictates, independently of any manager's maps.
module LeaseHistory {
  import opened Wrappers
  import opened Text

  datatype Lease = Lease(lockId: string, holderId: string, token: int, expiresAt: real) {
    predicate IsExpired(now: real) {
      now >= expiresAt
    }
  }

  // A successful acquire, renew or release, or an action that validate_action admitted.
  datatype Event =
    | Granted(lock: string, holder: string, token: int, at: real, expires: real)
    | Renewed(lock: string, at: real, expires: real)
    | Released(lock: string, at: real)
    | Admitted(lock: string, holder: string, token: int, at: real)

  type Log = seq<Event>

  // How many leases were granted on the lock.
  function Issued(log: Log, lock: string): nat {
    if log == [] then 0
    else
      var last := log[|log| - 1];
      Issued(log[..|log| - 1], lock) + if last.Granted? && last.lock == lock then 1 else 0
  }

  // The lease granted last and not released, with its latest expiry.
  function Current(log: Log, lock: string): Option<Lease> {
    if log == [] then None
    else
      var before, last := Current(log[..|log| - 1], lock), log[|log| - 1];
      if last.lock != lock then before
      else match last
        case Granted(_, holder, token, _, expires) => Some(Lease(lock, holder, token, expires))
        case Renewed(_, _, expires) => if before.Some? then Some(before.value.(expiresAt := expires)) else None
        case Released(_, _) => None
        case Admitted(_, _, _, _) => before
  }

  function Free(log: Log, lock: string, now: real): bool {
    var lease := Current(log, lock);
    lease.None? || lease.value.IsExpired(now)
  }

  predicate Valid(log: Log, lock: string, holder: string, token: int, now: real) {
    var lease := Current(log, lock);
    lease.Some? && lease.value.holderId == holder && lease.value.token == token && !lease.value.IsExpired(now)
  }

  predicate Fenced(log: Log, lock: string, token: int) {
    token < Issued(log, lock)
  }

  // The event may follow the log.
  predicate Allowed(log: Log, e: Event) {
    && (log != [] ==> log[|log| - 1].at <= e.at)
    && match e
       case Granted(lock, holder, token, at, expires) =>
         !Blank(lock) && !Blank(holder) && Free(log, lock, at) && token == Issued(log, lock) + 1 && expires > at
       case Renewed(lock, at, expires) =>
         !Free(log, lock, at) && expires > at
       case Released(lock, at) =>
         Current(log, lock).Some?
       case Admitted(lock, holder, token, at) =>
         Valid(log, lock, holder, token, at)
  }

  // The logs of all call sequences under a clock that never goes back.
  predicate Legal(log: Log) {
    log == [] || (Legal(log[..|log| - 1]) && Allowed(log[..|log| - 1], log[|log| - 1]))
  }

  lemma Snoc(log: Log, e: Event)
    ensures (log + [e])[..|log + [e]| - 1] == log && (log + [e])[|log + [e]| - 1] == e
  {}

  lemma {:induction false} PrefixLegal(log: Log, k: nat)
    requires Legal(log) && k <= |log|
    ensures Legal(log[..k])
    decreases |log| - k
  {
    if k < |log| {
      PrefixLegal(log, k + 1);
      assert log[..k + 1][..k] == log[..k];
    } else {
      assert log[..k] == log;
    }
  }

  // Event k of a legal log was allowed after the k events before it.
  lemma EventAllowed(log: Log, k: nat)
    requires Legal(log) && k < |log|
    ensures Legal(log[..k]) && Allowed(log[..k], log[k])
  {
    PrefixLegal(log, k + 1);
    assert log[..k + 1][..k] == log[..k];
  }

  lemma {:induction false} TimesAreOrdered(log: Log, i: nat, j: nat)
    requires Legal(log) && i <= j < |log|
    ensures log[i].at <= log[j].at
  {
    if i < j {
      EventAllowed(log, j);
      assert log[..j][|log[..j]| - 1] == log[j - 1];
      TimesAreOrdered(log, i, j - 1);
    }
  }

  // The stored lease always carries the last issued token.
  lemma {:induction false} CurrentCarriesLastToken(log: Log, lock: string)
    requires Legal(log)
    ensures Current(log, lock).Some? ==>
      Current(log, lock).value.token == Issued(log, lock) && Current(log, lock).value.lockId == lock
    ensures Issued(log, lock) == 0 ==> Current(log, lock).None?
  {
    if log != [] {
      CurrentCarriesLastToken(log[..|log| - 1], lock);
    }
  }

  lemma {:induction false} IssuedGrows(log: Log, k: nat, lock: string)
    requires k <= |log|
    ensures Issued(log[..k], lock) <= Issued(log, lock)
    decreases |log| - k
  {
    if k < |log| {
      IssuedGrows(log, k + 1, lock);
      assert log[..k + 1][..k] == log[..k];
    } else {
      assert log[..k] == log;
    }
  }

  // Each grant's token is one more than the number of earlier grants on its lock: 1, 2, 3, ...
  lemma GrantIsNumbered(log: Log, i: nat)
    requires Legal(log) && i < |log| && log[i].Granted?
    ensures log[i].token == Issued(log[..i], log[i].lock) + 1 == Issued(log[..i + 1], log[i].lock)
  {
    EventAllowed(log, i);
    var upTo := log[..i + 1];
    assert upTo[..|upTo| - 1] == log[..i];
  }

  // Later grants on a lock have higher tokens.
  lemma GrantsAreNumbered(log: Log, i: nat, j: nat)
    requires Legal(log) && i < j < |log|
    requires log[i].Granted? && log[j].Granted? && log[i].lock == log[j].lock
    ensures log[i].token == Issued(log[..i], log[i].lock) + 1
    ensures log[i].token < log[j].token
  {
    GrantIsNumbered(log, i);
    GrantIsNumbered(log, j);
    assert log[..j][..i + 1] == log[..i + 1];
    IssuedGrows(log[..j], i + 1, log[i].lock);
  }

  // A renewal may shorten a lease: its holder loses some later time exactly when the new expiry is
  // before the old one, and gains some exactly when it is after.
  lemma RenewalShortens(log: Log, e: Event)
    requires Legal(log + [e]) && e.Renewed?
    ensures Current(log, e.lock).Some?
    ensures var lease := Current(log, e.lock).value;
      && ((exists t :: t >= e.at && Valid(log, e.lock, lease.holderId, lease.token, t)
             && !Valid(log + [e], e.lock, lease.holderId, lease.token, t)) <==> e.expires < lease.expiresAt)
      && ((exists t :: t >= e.at && !Valid(log, e.lock, lease.holderId, lease.token, t)
             && Valid(log + [e], e.lock, lease.holderId, lease.token, t)) <==> e.expires > lease.expiresAt)
  {
    Snoc(log, e);
    var lease := Current(log, e.lock).value;
    if e.expires < lease.expiresAt {
      assert Valid(log, e.lock, lease.holderId, lease.token, e.expires);
    }
    if e.expires > lease.expiresAt {
      assert Valid(log + [e], e.lock, lease.holderId, lease.token, lease.expiresAt);
    }
  }

  // ---- Fencing ----

  // A fenced token is valid for nobody.
  lemma FencedIsNeverValid(log: Log, lock: string, holder: string, token: int, now: real)
    requires Legal(log) && Fenced(log, lock, token)
    ensures !Valid(log, lock, holder, token, now)
  {
    CurrentCarriesLastToken(log, lock);
  }

  // Granted to someone, and not valid for this holder at this time.
  predicate Spent(log: Log, lock: string, holder: string, token: int, now: real) {
    token <= Issued(log, lock) && !Valid(log, lock, holder, token, now)
  }

  // One more event cannot revive a holder and token already granted and no longer valid.
  lemma StaysSpent(log: Log, e: Event, lock: string, holder: string, token: int, now: real, later: real)
    requires Legal(log + [e]) && now <= e.at <= later && Spent(log, lock, holder, token, now)
    ensures Spent(log + [e], lock, holder, token, later)
  {
    Snoc(log, e);
    CurrentCarriesLastToken(log, lock);
  }

  // Once validate_action is false for a granted holder and token, it stays false after every later
  // sequence of calls, at every later time.
  lemma {:induction false} InvalidForever(log: Log, more: Log, lock: string, holder: string, token: int, now: real, later: real)
    requires Legal(log + more) && Spent(log, lock, holder, token, now) && now <= later
    requires more != [] ==> now <= more[0].at && more[|more| - 1].at <= later
    ensures Spent(log + more, lock, holder, token, later)
    decreases |more|
  {
    if more == [] {
      assert log + more == log;
    } else {
      var e, rest := more[0], more[1..];
      MoveOne(log, more);
      StaysSpent(log, e, lock, holder, token, now, e.at);
      InvalidForever(log + [e], rest, lock, holder, token, e.at, later);
    }
  }

  // Moving the first later event to the log.
  lemma MoveOne(log: Log, more: Log)
    requires Legal(log + more) && more != []
    ensures Legal(log + [more[0]]) && log + [more[0]] + more[1..] == log + more
    ensures more[0].at <= more[|more| - 1].at
    ensures more[1..] != [] ==> more[0].at <= more[1..][0].at && more[1..][|more[1..]| - 1] == more[|more| - 1]
  {
    var whole := log + more;
    assert whole[..|log| + 1] == log + [more[0]];
    PrefixLegal(whole, |log| + 1);
    TimesAreOrdered(whole, |log|, |whole| - 1);
    if |more| > 1 {
      TimesAreOrdered(whole, |log|, |log| + 1);
    }
  }

  ghost predicate CanBecomeValid(log: Log, lock: string, holder: string, token: int) {
    exists more: Log, now: real :: Legal(log + more) && Valid(log + more, lock, holder, token, now)
  }

  // A new grant is always possible once the current lease has run out.
  lemma GrantNext(log: Log, lock: string, holder: string) returns (grant: Event)
    requires Legal(log) && !Blank(lock) && !Blank(holder)
    ensures Legal(log + [grant]) && Issued(log + [grant], lock) == Issued(log, lock) + 1
    ensures Valid(log + [grant], lock, holder, Issued(log, lock) + 1, grant.at)
  {
    var lease := Current(log, lock);
    var last := if log == [] then 0.0 else log[|log| - 1].at;
    var at := if lease.Some? && lease.value.expiresAt > last then lease.value.expiresAt else last;
    grant := Granted(lock, holder, Issued(log, lock) + 1, at, at + 1.0);
    Snoc(log, grant);
  }

  // The condition is exact: a token not yet issued can always still become valid.
  lemma {:induction false} UnissuedTokenCanBecomeValid(log: Log, lock: string, holder: string, token: int)
    requires Legal(log) && !Blank(lock) && !Blank(holder)
    requires token > Issued(log, lock)
    ensures CanBecomeValid(log, lock, holder, token)
    decreases token - Issued(log, lock)
  {
    var grant := GrantNext(log, lock, holder);
    if token > Issued(log, lock) + 1 {
      UnissuedTokenCanBecomeValid(log + [grant], lock, holder, token);
      ExtendFirst(log, grant, lock, holder, token);
    }
  }

  lemma ExtendFirst(log: Log, e: Event, lock: string, holder: string, token: int)
    requires CanBecomeValid(log + [e], lock, holder, token)
    ensures CanBecomeValid(log, lock, holder, token)
  {
    var more: Log, now: real :| Legal(log + [e] + more) && Valid(log + [e] + more, lock, holder, token, now);
    assert log + [e] + more == log + ([e] + more);
  }

  // After a release the released token is fenced exactly when the lock was granted again
  // (tests/test_lease_lock.py:93-94 expects it at once; the comparison is strict).
  lemma ReleasedTokenIsFenced(log: Log, release: Event, more: Log)
    requires Legal(log + [release] + more) && release.Released?
    requires Current(log, release.lock).Some?
    ensures Fenced(log + [release] + more, release.lock, Current(log, release.lock).value.token)
       <==> exists k :: 0 <= k < |more| && more[k].Granted? && more[k].lock == release.lock
  {
    var whole, start := log + [release] + more, log + [release];
    Snoc(log, release);
    PrefixLegal(whole, |start|);
    assert whole[..|start|] == start && start[..|log|] == log;
    CurrentCarriesLastToken(log, release.lock);
    IssuedCountsGrants(start, more, release.lock);
  }

  lemma {:induction false} IssuedCountsGrants(log: Log, more: Log, lock: string)
    ensures Issued(log + more, lock) >= Issued(log, lock)
    ensures Issued(log + more, lock) > Issued(log, lock)
       <==> exists k :: 0 <= k < |more| && more[k].Granted? && more[k].lock == lock
  {
    if more == [] {
      assert log + more == log;
    } else {
      var front, last := more[..|more| - 1], more[|more| - 1];
      assert log + more == (log + front) + [last];
      Snoc(log + front, last);
      IssuedCountsGrants(log, front, lock);
      assert forall k :: 0 <= k < |front| ==> more[k] == front[k];
      assert more[|front|] == last;
    }
  }

  // ---- Admitted actions ----

  // Between two admitted actions with one token the lock was not granted again, so the holder is
  // the same.
  lemma {:induction false} SameTokenSameHolder(log: Log, k: nat, lock: string)
    requires Legal(log) && k <= |log|
    requires Current(log[..k], lock).Some? && Current(log, lock).Some?
    requires Issued(log[..k], lock) == Issued(log, lock)
    ensures Current(log[..k], lock).value.holderId == Current(log, lock).value.holderId
    decreases |log| - k
  {
    if k == |log| {
      assert log[..k] == log;
    } else {
      var front := log[..|log| - 1];
      assert front[..k] == log[..k];
      IssuedGrows(front, k, lock);
      EventAllowed(log, |log| - 1);
      SameTokenSameHolder(front, k, lock);
    }
  }

  // Over any run, the actions admitted on a lock carry non-decreasing tokens, and those with one
  // token come from one holder; so each token's actions are contiguous.
  lemma AdmittedTokensNeverDecrease(log: Log, i: nat, j: nat)
    requires Legal(log) && i < j < |log|
    requires log[i].Admitted? && log[j].Admitted? && log[i].lock == log[j].lock
    ensures log[i].token <= log[j].token
    ensures log[i].token == log[j].token ==> log[i].holder == log[j].holder
  {
    var lock := log[i].lock;
    EventAllowed(log, i);
    EventAllowed(log, j);
    CurrentCarriesLastToken(log[..i], lock);
    CurrentCarriesLastToken(log[..j], lock);
    assert log[..j][..i] == log[..i];
    IssuedGrows(log[..j], i, lock);
    if log[i].token == log[j].token {
      SameTokenSameHolder(log[..j], i, lock);
    }
  }

  // ---- Lease intervals ----

  // Grant i as it stands after k events: when it ends, and whether it is still the current lease.
  datatype Span = Span(end: real, open: bool)

  function SpanAfter(log: Log, i: nat, k: nat): Span
    requires i < k <= |log| && log[i].Granted?
  {
    if k == i + 1 then Span(log[i].expires, true)
    else
      var before, e := SpanAfter(log, i, k - 1), log[k - 1];
      if !before.open || e.lock != log[i].lock then before
      else match e
        case Granted(_, _, _, _, _) => before.(open := false)
        case Renewed(_, _, expires) => before.(end := expires)
        case Released(_, at) => Span(if at < before.end then at else before.end, false)
        case Admitted(_, _, _, _) => before
  }

  lemma {:induction false} SpanFollowsLease(log: Log, i: nat, k: nat)
    requires Legal(log) && i < k <= |log| && log[i].Granted?
    ensures var s, lock := SpanAfter(log, i, k), log[i].lock;
      && (s.open ==> Current(log[..k], lock) == Some(Lease(lock, log[i].holder, log[i].token, s.end)))
      && (!s.open ==> s.end <= log[k - 1].at && k > i + 1)
      && Issued(log[..k], lock) >= log[i].token
      && (Issued(log[..k], lock) == log[i].token && !s.open ==> Current(log[..k], lock).None?)
    decreases k
  {
    var upTo := log[..k];
    assert upTo[..|upTo| - 1] == log[..k - 1] && upTo[|upTo| - 1] == log[k - 1];
    EventAllowed(log, k - 1);
    if k > i + 1 {
      SpanFollowsLease(log, i, k - 1);
      TimesAreOrdered(log, k - 2, k - 1);
    }
  }

  // The intervals [grant, min(release, last expiry)) of successive grants on a lock never overlap.
  lemma IntervalsNeverOverlap(log: Log, i: nat, j: nat)
    requires Legal(log) && i < j < |log|
    requires log[i].Granted? && log[j].Granted? && log[i].lock == log[j].lock
    ensures SpanAfter(log, i, j).end <= log[j].at
    ensures SpanAfter(log, i, |log|).end == SpanAfter(log, i, j).end
  {
    SpanFollowsLease(log, i, j);
    EventAllowed(log, j);
    TimesAreOrdered(log, j - 1, j);
    ClosedSpansStay(log, i, j + 1);
  }

  lemma {:induction false} ClosedSpansStay(log: Log, i: nat, k: nat)
    requires i < k <= |log| && log[i].Granted? && !SpanAfter(log, i, k).open
    ensures SpanAfter(log, i, |log|) == SpanAfter(log, i, k)
    decreases |log| - k
  {
    if k < |log| {
      ClosedSpansStay(log, i, k + 1);
    }
  }

  // Every admitted action falls inside the interval of the grant that issued its token.
  lemma AdmittedInsideItsInterval(log: Log, i: nat, k: nat)
    requires Legal(log) && i < k < |log| && log[i].Granted? && log[k].Admitted?
    requires log[i].lock == log[k].lock && log[i].token == log[k].token
    ensures log[i].holder == log[k].holder
    ensures log[i].at <= log[k].at < SpanAfter(log, i, k).end && SpanAfter(log, i, k).open
  {
    EventAllowed(log, k);
    CurrentCarriesLastToken(log[..k], log[k].lock);
    SpanFollowsLease(log, i, k);
    TimesAreOrdered(log, i, k);
  }
}
