/** The expiring lease on one stay query: acquire, renew and finish are conditional
    updates that recognise the holder by its token.

    The store works on the caller's session, so a conflict rolls back everything the
    caller has not committed. */
module Lease {
  import opened Sql
  import opened Database

  datatype Token = Token(fingerprint: string, token: nat, expiresAt: int)

  const FINAL_STATUSES: set<string> := {"done", "partial", "skipped", "failed"}

  // ---------- the conditional statements ----------

  function InsertedRow(now: int, ttl: int, token: nat): LeaseRow {
    LeaseRow("running", Some(token), Some(now + ttl), 1, None, None)
  }

  predicate TakeOverMatches(row: LeaseRow, now: int) {
    row.status != "running" || Due(row.expiresAt, now)
  }

  function TakenOver(row: LeaseRow, now: int, ttl: int, token: nat): LeaseRow {
    LeaseRow("running", Some(token), Some(now + ttl), row.attempts + 1, None, None)
  }

  /** Renewal tests the token and the expiry, not the status. */
  predicate RenewMatches(row: LeaseRow, token: nat, now: int) {
    row.token == Some(token) && After(row.expiresAt, now)
  }

  function Renewed(row: LeaseRow, now: int, ttl: int): LeaseRow {
    row.(expiresAt := Some(now + ttl))
  }

  predicate FinishMatches(row: LeaseRow, token: nat, now: int) {
    RenewMatches(row, token, now) && row.status == "running"
  }

  function Finished(row: LeaseRow, status: string, now: int, error: Option<string>): LeaseRow {
    row.(status := status, expiresAt := None, finishedAt := Some(now), lastError := error)
  }

  /** What `finish` answers; None stands for the ValueError of an unknown status. */
  function FinishResult(leases: Leases, lease: Token, status: string, now: int): Option<bool> {
    if status !in FINAL_STATUSES then None
    else Some(lease.fingerprint in leases && FinishMatches(leases[lease.fingerprint], lease.token, now))
  }

  // ---------- the store ----------

  class LeaseStore {
    const db: Session

    constructor (db: Session)
      ensures this.db == db
    {
      this.db := db;
    }

    /** Acquiring commits the caller's transaction when the fingerprint is new. When it
        is not, here or in what other sessions committed, the unique key rolls that
        transaction back first, and only then is the row taken over. */
    method Acquire(fingerprint: string, now: int, ttlSeconds: int, token: nat) returns (lease: Option<Token>)
      modifies db
      ensures
        var ttl := AtLeastOne(ttlSeconds);
        var before, kept := old(db.working), old(db.committed);
        if fingerprint !in before.leases && fingerprint !in kept.leases then
          && db.committed == db.working == before.(leases := before.leases[fingerprint := InsertedRow(now, ttl, token)])
          && lease == Some(Token(fingerprint, token, now + ttl))
        else if fingerprint in kept.leases && TakeOverMatches(kept.leases[fingerprint], now) then
          && db.committed == db.working
             == kept.(leases := kept.leases[fingerprint := TakenOver(kept.leases[fingerprint], now, ttl, token)])
          && lease == Some(Token(fingerprint, token, now + ttl))
        else
          db.committed == db.working == kept && lease == None
      // An existing lease is taken over exactly if it is not running or has expired.
      ensures fingerprint in old(db.committed.leases) ==>
        var row := old(db.committed.leases)[fingerprint];
        (lease.Some? <==> row.status != "running" || (row.expiresAt.Some? && row.expiresAt.value <= now))
      // The new row runs under the new token, without an end or an error.
      ensures lease.Some? ==>
        && lease.value.fingerprint == fingerprint && lease.value.token == token
        && lease.value.expiresAt == now + (if ttlSeconds >= 1 then ttlSeconds else 1)
        && fingerprint in db.committed.leases
        && db.committed.leases[fingerprint]
           == LeaseRow("running", Some(token), Some(lease.value.expiresAt),
                       if fingerprint in old(db.committed.leases) then old(db.committed.leases)[fingerprint].attempts + 1 else 1,
                       None, None)
    {
      var ttl := AtLeastOne(ttlSeconds);
      if fingerprint !in db.working.leases && fingerprint !in db.committed.leases {
        db.working := db.working.(leases := db.working.leases[fingerprint := InsertedRow(now, ttl, token)]);
        db.Commit();
        return Some(Token(fingerprint, token, now + ttl));
      }
      db.Rollback();
      if fingerprint in db.working.leases && TakeOverMatches(db.working.leases[fingerprint], now) {
        var row := db.working.leases[fingerprint];
        db.working := db.working.(leases := db.working.leases[fingerprint := TakenOver(row, now, ttl, token)]);
        db.Commit();
        lease := Some(Token(fingerprint, token, now + ttl));
      } else {
        db.Rollback();
        lease := None;
      }
    }

    method Renew(lease: Token, now: int, ttlSeconds: int) returns (renewed: bool)
      modifies db
      ensures
        var before := old(db.working);
        && renewed == (lease.fingerprint in before.leases && RenewMatches(before.leases[lease.fingerprint], lease.token, now))
        && db.committed == db.working
           == (if renewed
               then before.(leases := before.leases[lease.fingerprint :=
                      Renewed(before.leases[lease.fingerprint], now, AtLeastOne(ttlSeconds))])
               else old(db.committed))
      // The token and the expiry decide, and only the expiry changes.
      ensures renewed <==>
        && lease.fingerprint in old(db.working.leases)
        && var row := old(db.working.leases)[lease.fingerprint];
           row.token == Some(lease.token) && row.expiresAt.Some? && row.expiresAt.value > now
      ensures renewed ==>
        var row, after := old(db.working.leases)[lease.fingerprint], db.committed.leases[lease.fingerprint];
        && after == row.(expiresAt := after.expiresAt)
        && after.expiresAt == Some(now + if ttlSeconds >= 1 then ttlSeconds else 1)
    {
      renewed := lease.fingerprint in db.working.leases
        && RenewMatches(db.working.leases[lease.fingerprint], lease.token, now);
      if renewed {
        var row := Renewed(db.working.leases[lease.fingerprint], now, AtLeastOne(ttlSeconds));
        db.working := db.working.(leases := db.working.leases[lease.fingerprint := row]);
        db.Commit();
      } else {
        db.Rollback();
      }
    }

    method Finish(lease: Token, status: string, now: int, error: Option<string>, commit: bool)
      returns (finished: Option<bool>)
      modifies db
      ensures finished == FinishResult(old(db.working.leases), lease, status, now)
      ensures
        var before := old(db.working);
        var matches := lease.fingerprint in before.leases && FinishMatches(before.leases[lease.fingerprint], lease.token, now);
        if status !in FINAL_STATUSES then
          finished == None && db.working == before && db.committed == old(db.committed)
        else if matches then
          && finished == Some(true)
          && db.working == before.(leases := before.leases[lease.fingerprint :=
                             Finished(before.leases[lease.fingerprint], status, now, error)])
          && db.committed == (if commit then db.working else old(db.committed))
        else
          && finished == Some(false)
          && db.committed == old(db.committed)
          && db.working == (if commit then old(db.committed) else before)
      // A final status, the current token, time left and a running lease are what it takes.
      ensures finished == None <==> status !in {"done", "partial", "skipped", "failed"}
      ensures finished == Some(true) <==>
        && status in {"done", "partial", "skipped", "failed"} && lease.fingerprint in old(db.working.leases)
        && var row := old(db.working.leases)[lease.fingerprint];
           && row.token == Some(lease.token) && row.status == "running"
           && row.expiresAt.Some? && row.expiresAt.value > now
      // The row keeps its token and attempts, and ends with the given status and error.
      ensures finished == Some(true) ==>
        && lease.fingerprint in db.working.leases
        && var row, after := old(db.working.leases)[lease.fingerprint], db.working.leases[lease.fingerprint];
           after == LeaseRow(status, row.token, None, row.attempts, Some(now), error)
    {
      if status !in FINAL_STATUSES {
        return None;
      }
      var matches := lease.fingerprint in db.working.leases
        && FinishMatches(db.working.leases[lease.fingerprint], lease.token, now);
      if matches {
        var row := Finished(db.working.leases[lease.fingerprint], status, now, error);
        db.working := db.working.(leases := db.working.leases[lease.fingerprint := row]);
        if commit {
          db.Commit();
        }
      } else if commit {
        db.Rollback();
      }
      finished := Some(matches);
    }

    /** The caller learns what a finish at that time would answer, whatever its status. */
    method OwnsActiveLease(lease: Token, now: int) returns (owns: bool)
      ensures forall status :: status in FINAL_STATUSES ==> FinishResult(db.working.leases, lease, status, now) == Some(owns)
      ensures owns <==>
        && lease.fingerprint in db.working.leases
        && var row := db.working.leases[lease.fingerprint];
           && row.token == Some(lease.token) && row.status == "running"
           && row.expiresAt.Some? && row.expiresAt.value > now
    {
      owns := lease.fingerprint in db.working.leases
        && FinishMatches(db.working.leases[lease.fingerprint], lease.token, now);
    }
  }
}
