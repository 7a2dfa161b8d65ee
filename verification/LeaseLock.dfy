// The lease manager (controller/lease_lock.py): per-lock leases and fencing tokens in two maps,
// proved to hold exactly what the log of its successful operations dictates.
module LeaseLock {
  import opened Wrappers
  import opened Text
  import opened LeaseHistory

  datatype LeaseError = BadId | BadDuration | NoLease | NotHolder | AlreadyExpired

  // On one lock, the maps hold what the log dictates.
  ghost predicate AgreesOn(leases: map<string, Lease>, lastToken: map<string, int>, log: Log, lock: string) {
    && (Current(log, lock) == if lock in leases then Some(leases[lock]) else None)
    && Issued(log, lock) == (if lock in lastToken then lastToken[lock] else 0)
  }

  ghost predicate MapsAgree(leases: map<string, Lease>, lastToken: map<string, int>, log: Log) {
    forall lock :: AgreesOn(leases, lastToken, log, lock)
  }

  lemma GrantAgrees(leases: map<string, Lease>, lastToken: map<string, int>, log: Log, e: Event)
    requires MapsAgree(leases, lastToken, log) && e.Granted? && e.token == Issued(log, e.lock) + 1
    ensures MapsAgree(leases[e.lock := Lease(e.lock, e.holder, e.token, e.expires)], lastToken[e.lock := e.token], log + [e])
  {
    Snoc(log, e);
    var after, tokens := leases[e.lock := Lease(e.lock, e.holder, e.token, e.expires)], lastToken[e.lock := e.token];
    forall lock ensures AgreesOn(after, tokens, log + [e], lock) {
      assert AgreesOn(leases, lastToken, log, lock);
    }
  }

  lemma RenewalAgrees(leases: map<string, Lease>, lastToken: map<string, int>, log: Log, e: Event)
    requires MapsAgree(leases, lastToken, log) && e.Renewed? && e.lock in leases
    ensures MapsAgree(leases[e.lock := leases[e.lock].(expiresAt := e.expires)], lastToken, log + [e])
  {
    Snoc(log, e);
    var after := leases[e.lock := leases[e.lock].(expiresAt := e.expires)];
    forall lock ensures AgreesOn(after, lastToken, log + [e], lock) {
      assert AgreesOn(leases, lastToken, log, lock);
    }
  }

  lemma ReleaseAgrees(leases: map<string, Lease>, lastToken: map<string, int>, log: Log, e: Event)
    requires MapsAgree(leases, lastToken, log) && e.Released?
    ensures MapsAgree(leases - {e.lock}, lastToken, log + [e])
  {
    Snoc(log, e);
    forall lock ensures AgreesOn(leases - {e.lock}, lastToken, log + [e], lock) {
      assert AgreesOn(leases, lastToken, log, lock);
    }
  }

  lemma AdmissionAgrees(leases: map<string, Lease>, lastToken: map<string, int>, log: Log, e: Event)
    requires MapsAgree(leases, lastToken, log) && e.Admitted?
    ensures MapsAgree(leases, lastToken, log + [e])
  {
    Snoc(log, e);
    forall lock ensures AgreesOn(leases, lastToken, log + [e], lock) {
      assert AgreesOn(leases, lastToken, log, lock);
    }
  }

  class LeaseLockManager {
    var leases: map<string, Lease>
    var lastToken: map<string, int>
    ghost var log: Log

    ghost predicate Consistent()
      reads this
    {
      Legal(log) && MapsAgree(leases, lastToken, log)
    }

    // The clock never goes back.
    ghost predicate NotBefore(now: real)
      reads this
    {
      log != [] ==> log[|log| - 1].at <= now
    }

    constructor ()
      ensures Consistent() && log == []
    {
      leases, lastToken, log := map[], map[], [];
    }

    // Success(None) when the lock is actively held.
    method Acquire(lockId: string, holderId: string, duration: real, now: real)
      returns (r: Result<Option<Lease>, LeaseError>)
      requires Consistent() && NotBefore(now)
      modifies this
      ensures Consistent()
      ensures r.Failure? <==> Blank(lockId) || Blank(holderId) || duration <= 0.0
      ensures r.Failure? || r.value.None? ==> log == old(log) && leases == old(leases) && lastToken == old(lastToken)
      ensures r.Success? ==> (r.value.Some? <==> Free(old(log), lockId, now))
      ensures r.Success? && r.value.Some? ==>
        var token := Issued(old(log), lockId) + 1;
        && r.value.value == Lease(lockId, holderId, token, now + duration)
        && log == old(log) + [Granted(lockId, holderId, token, now, now + duration)]
        && leases == old(leases)[lockId := r.value.value] && lastToken == old(lastToken)[lockId := token]
    {
      if Blank(lockId) || Blank(holderId) {
        return Failure(BadId);
      }
      if duration <= 0.0 {
        return Failure(BadDuration);
      }
      assert AgreesOn(leases, lastToken, log, lockId);
      if lockId in leases && !leases[lockId].IsExpired(now) {
        return Success(None);
      }
      var token := (if lockId in lastToken then lastToken[lockId] else 0) + 1;
      ghost var e := Granted(lockId, holderId, token, now, now + duration);
      GrantAgrees(leases, lastToken, log, e);
      Snoc(log, e);
      lastToken := lastToken[lockId := token];
      var lease := Lease(lockId, holderId, token, now + duration);
      leases := leases[lockId := lease];
      log := log + [e];
      r := Success(Some(lease));
    }

    method CurrentLease(lockId: string) returns (lease: Option<Lease>)
      requires Consistent()
      ensures lease == Current(log, lockId)
    {
      assert AgreesOn(leases, lastToken, log, lockId);
      lease := if lockId in leases then Some(leases[lockId]) else None;
    }

    // Only a live lease, its holder and its token; the new expiry may be earlier than the old one.
    method Renew(lockId: string, holderId: string, token: int, duration: real, now: real)
      returns (r: Result<Lease, LeaseError>)
      requires Consistent() && NotBefore(now)
      modifies this
      ensures Consistent()
      ensures r.Success? <==>
        !Blank(lockId) && !Blank(holderId) && duration > 0.0 && Valid(old(log), lockId, holderId, token, now)
      ensures r.Failure? ==> log == old(log) && leases == old(leases) && lastToken == old(lastToken)
      ensures r.Success? ==>
        && r.value == Lease(lockId, holderId, token, now + duration)
        && log == old(log) + [Renewed(lockId, now, now + duration)]
        && Issued(log, lockId) == Issued(old(log), lockId)
        && leases == old(leases)[lockId := r.value] && lastToken == old(lastToken)
    {
      if Blank(lockId) || Blank(holderId) {
        return Failure(BadId);
      }
      if duration <= 0.0 {
        return Failure(BadDuration);
      }
      assert AgreesOn(leases, lastToken, log, lockId);
      if lockId !in leases || leases[lockId].holderId != holderId || leases[lockId].token != token {
        return Failure(NotHolder);
      }
      if leases[lockId].IsExpired(now) {
        return Failure(AlreadyExpired);
      }
      ghost var e := Renewed(lockId, now, now + duration);
      CurrentCarriesLastToken(log, lockId);
      RenewalAgrees(leases, lastToken, log, e);
      Snoc(log, e);
      var renewed := Lease(lockId, holderId, token, now + duration);
      leases := leases[lockId := renewed];
      log := log + [e];
      r := Success(renewed);
    }

    // Release does not look at the clock: an expired lease can still be released by its holder.
    method Release(lockId: string, holderId: string, token: int, ghost now: real)
      returns (r: Result<(), LeaseError>)
      requires Consistent() && NotBefore(now)
      modifies this
      ensures Consistent()
      ensures r.Success? <==>
        && !Blank(lockId) && !Blank(holderId) && Current(old(log), lockId).Some?
        && Current(old(log), lockId).value.holderId == holderId && Current(old(log), lockId).value.token == token
      ensures r.Failure? ==> log == old(log) && leases == old(leases) && lastToken == old(lastToken)
      ensures r.Success? ==>
        log == old(log) + [Released(lockId, now)] && leases == old(leases) - {lockId} && lastToken == old(lastToken)
    {
      if Blank(lockId) || Blank(holderId) {
        return Failure(BadId);
      }
      assert AgreesOn(leases, lastToken, log, lockId);
      if lockId !in leases {
        return Failure(NoLease);
      }
      if leases[lockId].holderId != holderId || leases[lockId].token != token {
        return Failure(NotHolder);
      }
      ghost var e := Released(lockId, now);
      ReleaseAgrees(leases, lastToken, log, e);
      Snoc(log, e);
      leases := leases - {lockId};
      log := log + [e];
      r := Success(());
    }

    // The guard before an action; an admitted action is recorded in the log.
    method ValidateAction(lockId: string, holderId: string, token: int, now: real) returns (admitted: bool)
      requires Consistent() && NotBefore(now)
      modifies `log
      ensures Consistent()
      ensures admitted <==> Valid(old(log), lockId, holderId, token, now)
      ensures log == if admitted then old(log) + [Admitted(lockId, holderId, token, now)] else old(log)
    {
      assert AgreesOn(leases, lastToken, log, lockId);
      if lockId !in leases {
        return false;
      }
      if leases[lockId].holderId != holderId || leases[lockId].token != token {
        return false;
      }
      admitted := !leases[lockId].IsExpired(now);
      if admitted {
        ghost var e := Admitted(lockId, holderId, token, now);
        AdmissionAgrees(leases, lastToken, log, e);
        Snoc(log, e);
        log := log + [e];
      }
    }

    method IsFenced(lockId: string, token: int) returns (fenced: bool)
      requires Consistent()
      ensures fenced <==> Fenced(log, lockId, token)
    {
      assert AgreesOn(leases, lastToken, log, lockId);
      fenced := token < if lockId in lastToken then lastToken[lockId] else 0;
    }
  }
}
