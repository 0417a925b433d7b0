/** The cross-process circuit breaker of one provider operation.

    Every call opens a private session, reads the row, writes it with a conditional
    update and commits or rolls back. */
module Circuit {
  import opened Sql

  type Key = (string, string)

  datatype Status = Closed | Open | HalfOpen

  datatype Row = Row(
    status: Status,
    threshold: int,
    cooldown: int,
    failures: int,
    version: int,
    openedAt: Option<int>,
    nextProbeAt: Option<int>,
    probeToken: Option<nat>,
    probeExpiresAt: Option<int>,
    lastError: Option<string>)

  datatype Permit = Permit(probeToken: Option<nat>, version: int)

  datatype Admission = Skipped | Allowed(permit: Permit)

  const FAILURE_OUTCOMES: set<string> :=
    {"timeout", "rate_limited", "network_error", "provider_5xx", "unavailable", "failed"}

  predicate IsSuccess(outcome: string) {
    outcome == "success" || outcome == "empty"
  }

  /** An outcome outside both lists is recorded as "failed". */
  function Normalize(outcome: string): string {
    if outcome !in FAILURE_OUTCOMES && !IsSuccess(outcome) then "failed" else outcome
  }

  function NewRow(threshold: int, cooldown: int): Row {
    Row(Closed, threshold, cooldown, 0, 0, None, None, None, None, None)
  }

  // ---------- the conditional statements, as functions of the stored row ----------

  /** What `admit` decides from the row it read. */
  datatype Decision = AdmitClosed | TryClaim | Deny

  function Decide(row: Row, now: int): Decision {
    match row.status
    case Closed => AdmitClosed
    case Open => if row.nextProbeAt.None? || Due(row.nextProbeAt, now) then TryClaim else Deny
    case HalfOpen => if Due(row.probeExpiresAt, now) then TryClaim else Deny
  }

  predicate ClaimMatches(row: Row, expectedStatus: Status, expectedVersion: int, now: int) {
    && row.status == expectedStatus
    && row.version == expectedVersion
    && (if expectedStatus == Open
        then row.nextProbeAt.None? || Due(row.nextProbeAt, now)
        else Due(row.probeExpiresAt, now))
  }

  function Claimed(row: Row, now: int, ttl: int, token: nat): Row {
    row.(status := HalfOpen, probeToken := Some(token), probeExpiresAt := Some(now + ttl),
         version := row.version + 1)
  }

  /** The WHERE clause of the update that records a success. */
  predicate SuccessMatches(row: Row, permit: Permit, now: int) {
    && row.version == permit.version
    && (if permit.probeToken.Some?
        then row.status == HalfOpen && row.probeToken == permit.probeToken && After(row.probeExpiresAt, now)
        else row.status == Closed)
  }

  /** The WHERE clause of the update that records a failure. A failure of a closed
      permit tests the status only, so it counts whatever its version. */
  predicate FailureMatches(row: Row, permit: Permit, now: int) {
    if permit.probeToken.Some? then
      && row.status == HalfOpen
      && row.probeToken == permit.probeToken
      && After(row.probeExpiresAt, now)
      && row.version == permit.version
    else
      row.status == Closed
  }

  function Succeeded(row: Row): Row {
    Row(Closed, row.threshold, row.cooldown, 0, row.version + 1, None, None, None, None, None)
  }

  function Failed(row: Row, permit: Permit, outcome: string, now: int, cooldown: int): Row {
    if permit.probeToken.Some? then
      row.(status := Open, openedAt := Some(now), nextProbeAt := Some(now + cooldown),
           probeToken := None, probeExpiresAt := None, failures := row.failures + 1,
           lastError := Some(outcome), version := row.version + 1)
    else
      var reached := row.failures + 1 >= row.threshold;
      row.(failures := row.failures + 1,
           status := if reached then Open else Closed,
           openedAt := if reached then Some(now) else None,
           nextProbeAt := if reached then Some(now + cooldown) else None,
           lastError := Some(outcome), version := row.version + 1)
  }

  /** The row after `record`, or None when no row matched. */
  function Recorded(row: Row, permit: Permit, raw: string, now: int, cooldownParam: Option<int>): Option<Row> {
    var outcome := Normalize(raw);
    var cooldown := AtLeastOne(OrElse(cooldownParam, row.cooldown));
    if IsSuccess(outcome) then
      if SuccessMatches(row, permit, now) then Some(Succeeded(row)) else None
    else
      if FailureMatches(row, permit, now) then Some(Failed(row, permit, outcome, now, cooldown)) else None
  }

  /** The row an admission looks at: the stored one, or the one it or a rival inserts. */
  function SeenRow(rows: map<Key, Row>, key: Key, threshold: int, cooldown: int, rival: Option<Row>): Row {
    if key in rows then rows[key] else if rival.Some? then rival.value else NewRow(threshold, cooldown)
  }

  /** The value a parameter stands for: itself, or the configured one when none or zero is
      given, and at least one. */
  predicate Chosen(param: Option<int>, configured: int, value: int) {
    && value >= 1
    && (param.Some? && param.value >= 1 ==> value == param.value)
    && (param.Some? && param.value < 0 ==> value == 1)
    && ((param == None || param == Some(0)) ==> value == if configured >= 1 then configured else 1)
  }

  /** The committed rows once the row an admission looks at is there. */
  function Ensured(rows: map<Key, Row>, durable: bool, key: Key, row: Row, rival: Option<Row>): map<Key, Row> {
    if durable || (key !in rows && rival.Some?) then rows[key := row] else rows
  }

  function AfterAdmit(rows: map<Key, Row>, durable: bool, key: Key, row: Row, rival: Option<Row>, now: int, ttl: int, token: nat)
    : map<Key, Row>
  {
    if Decide(row, now) == TryClaim then rows[key := Claimed(row, now, ttl, token)] else Ensured(rows, durable, key, row, rival)
  }

  function AdmissionOf(row: Row, now: int, token: nat): Admission {
    match Decide(row, now)
    case AdmitClosed => Allowed(Permit(None, row.version))
    case TryClaim => Allowed(Permit(Some(token), row.version + 1))
    case Deny => Skipped
  }

  // ---------- an admission by the columns of the row ----------

  /** An absent row is created closed, and admitted; it is kept if savepoints are durable. */
  predicate CreatesRow(rows: map<Key, Row>, rows': map<Key, Row>, durable: bool, key: Key, failureThreshold: Option<int>,
                       cooldownSeconds: Option<int>, env: (int, int, int), admission: Admission) {
    && admission == Allowed(Permit(None, 0))
    && (!durable ==> rows' == rows)
    && (durable ==>
          && key in rows' && rows' == rows[key := rows'[key]]
          && var row := rows'[key];
             && row == Row(Closed, row.threshold, row.cooldown, 0, 0, None, None, None, None, None)
             && Chosen(failureThreshold, env.0, row.threshold) && Chosen(cooldownSeconds, env.1, row.cooldown))
  }

  /** A closed row admits and stays. An open row whose cooldown has passed and a half-open row
      whose probe has expired are claimed. Everything else is refused. */
  predicate FollowsRow(rows: map<Key, Row>, rows': map<Key, Row>, key: Key, row: Row, now: int, probeTtlSeconds: Option<int>,
                       env: (int, int, int), token: nat, admission: Admission) {
    var claims := || (row.status == Open && (row.nextProbeAt.None? || row.nextProbeAt.value <= now))
                  || (row.status == HalfOpen && row.probeExpiresAt.Some? && row.probeExpiresAt.value <= now);
    && key in rows' && rows' == rows[key := rows'[key]]
    && (row.status == Closed ==> admission == Allowed(Permit(None, row.version)))
    && (claims ==> admission == Allowed(Permit(Some(token), row.version + 1)))
    && (row.status != Closed && !claims ==> admission == Skipped)
    && (!claims ==> rows'[key] == row)
    && (claims ==>
          var expiry := rows'[key].probeExpiresAt;
          && rows'[key] == row.(status := HalfOpen, version := row.version + 1, probeToken := Some(token), probeExpiresAt := expiry)
          && expiry.Some? && Chosen(probeTtlSeconds, env.2, expiry.value - now))
  }

  lemma CreationColumns(rows: map<Key, Row>, durable: bool, key: Key, failureThreshold: Option<int>, cooldownSeconds: Option<int>,
                        probeTtlSeconds: Option<int>, env: (int, int, int), now: int, token: nat)
    requires key !in rows
    ensures
      var row := NewRow(AtLeastOne(OrElse(failureThreshold, env.0)), AtLeastOne(OrElse(cooldownSeconds, env.1)));
      CreatesRow(rows, AfterAdmit(rows, durable, key, row, None, now, AtLeastOne(OrElse(probeTtlSeconds, env.2)), token),
                 durable, key, failureThreshold, cooldownSeconds, env, AdmissionOf(row, now, token))
  {
  }

  lemma RowColumns(rows: map<Key, Row>, durable: bool, key: Key, row: Row, rival: Option<Row>, probeTtlSeconds: Option<int>,
                   env: (int, int, int), now: int, token: nat)
    requires if key in rows then row == rows[key] else rival == Some(row)
    ensures
      FollowsRow(rows, AfterAdmit(rows, durable, key, row, rival, now, AtLeastOne(OrElse(probeTtlSeconds, env.2)), token),
                 key, row, now, probeTtlSeconds, env, token, AdmissionOf(row, now, token))
  {
    assert key in rows ==> rows == rows[key := row];
  }

  // ---------- the store ----------

  /** One database as the private sessions of the store see it. `durableSavepoints`
      says whether the driver makes a released savepoint permanent even when the
      surrounding transaction is rolled back afterwards. */
  class CircuitStore {
    var committed: map<Key, Row>
    var working: map<Key, Row>
    const durableSavepoints: bool

    constructor (durableSavepoints: bool)
      ensures committed == working == map[] && this.durableSavepoints == durableSavepoints
    {
      committed, working := map[], map[];
      this.durableSavepoints := durableSavepoints;
    }

    method BeginSession()
      modifies this`working
      ensures working == committed
    {
      working := committed;
    }

    method Commit()
      modifies this`committed
      ensures committed == working
    {
      committed := working;
    }

    method Rollback()
      modifies this`working
      ensures working == committed
    {
      working := committed;
    }

    /** Insert the row inside a savepoint when the key has none. `rival` is the row another
        session commits between the select and the insert; the unique key then refuses the
        insert, and the rival's row is read. */
    method EnsureRow(key: Key, threshold: int, cooldown: int, rival: Option<Row>) returns (row: Row)
      requires working == committed
      modifies this`working, this`committed
      ensures row == SeenRow(old(committed), key, threshold, cooldown, rival)
      ensures key !in old(committed) && rival.None? ==> row == Row(Closed, threshold, cooldown, 0, 0, None, None, None, None, None)
      ensures key in old(committed) ==> row == old(committed)[key]
      ensures working == old(committed)[key := row]
      ensures committed == if durableSavepoints || (key !in old(committed) && rival.Some?) then working else old(committed)
    {
      if key !in working {
        if rival.Some? {
          committed := committed[key := rival.value];
          working := committed;
        } else {
          working := working[key := NewRow(threshold, cooldown)];
          if durableSavepoints {
            committed := working;
          }
        }
      }
      row := working[key];
      assert key in old(committed) ==> old(committed)[key := row] == old(committed);
    }

    method ClaimProbe(key: Key, now: int, ttl: int, expectedStatus: Status, expectedVersion: int, token: nat)
      returns (admission: Admission)
      requires key in working
      modifies this`working, this`committed
      ensures var row := old(working)[key];
              if ClaimMatches(row, expectedStatus, expectedVersion, now) then
                && committed == working == old(working)[key := Claimed(row, now, ttl, token)]
                && admission == Allowed(Permit(Some(token), expectedVersion + 1))
              else
                committed == working == old(committed) && admission == Skipped
      ensures var row := old(working)[key];
              admission.Allowed? <==>
                && row.status == expectedStatus && row.version == expectedVersion
                && (if expectedStatus == Open then row.nextProbeAt.None? || row.nextProbeAt.value <= now
                    else row.probeExpiresAt.Some? && row.probeExpiresAt.value <= now)
    {
      var row := working[key];
      if ClaimMatches(row, expectedStatus, expectedVersion, now) {
        working := working[key := Claimed(row, now, ttl, token)];
        Commit();
        admission := Allowed(Permit(Some(token), expectedVersion + 1));
      } else {
        Rollback();
        admission := Skipped;
      }
    }

    /** What follows the look at the row. */
    method AdmitRow(key: Key, row: Row, now: int, ttl: int, token: nat) returns (admission: Admission)
      requires working == committed[key := row]
      modifies this`working, this`committed
      ensures admission == AdmissionOf(row, now, token)
      ensures committed == if Decide(row, now) == TryClaim then old(committed)[key := Claimed(row, now, ttl, token)] else old(committed)
    {
      if row.status == Closed {
        Rollback();
        return Allowed(Permit(None, row.version));
      }
      if row.status == Open && (row.nextProbeAt.None? || Due(row.nextProbeAt, now)) {
        admission := ClaimProbe(key, now, ttl, Open, row.version, token);
        return;
      }
      if row.status == HalfOpen && Due(row.probeExpiresAt, now) {
        admission := ClaimProbe(key, now, ttl, HalfOpen, row.version, token);
        return;
      }
      Rollback();
      admission := Skipped;
    }

    method Admit(key: Key, now: int, failureThreshold: Option<int>, cooldownSeconds: Option<int>,
                 probeTtlSeconds: Option<int>, env: (int, int, int), token: nat, rival: Option<Row>)
      returns (admission: Admission)
      modifies this`working, this`committed
      ensures
        var row := SeenRow(old(committed), key, AtLeastOne(OrElse(failureThreshold, env.0)),
                            AtLeastOne(OrElse(cooldownSeconds, env.1)), rival);
        var ttl := AtLeastOne(OrElse(probeTtlSeconds, env.2));
        && committed == AfterAdmit(old(committed), durableSavepoints, key, row, rival, now, ttl, token)
        && admission == AdmissionOf(row, now, token)
      ensures key !in old(committed) && rival.None? ==>
                CreatesRow(old(committed), committed, durableSavepoints, key, failureThreshold, cooldownSeconds, env, admission)
      ensures key in old(committed) || rival.Some? ==>
                var row := if key in old(committed) then old(committed)[key] else rival.value;
                FollowsRow(old(committed), committed, key, row, now, probeTtlSeconds, env, token, admission)
      // Without parameters the configured values are used.
      ensures key !in old(committed) && rival.None? && durableSavepoints && failureThreshold.None? && cooldownSeconds.None?
              && env.0 >= 1 && env.1 >= 1 ==>
                committed[key].threshold == env.0 && committed[key].cooldown == env.1
      ensures key in old(committed) && admission.Allowed? && admission.permit.probeToken.Some? && probeTtlSeconds.None? && env.2 >= 1 ==>
                committed[key].probeExpiresAt == Some(now + env.2)
    {
      var threshold := AtLeastOne(OrElse(failureThreshold, env.0));
      var cooldown := AtLeastOne(OrElse(cooldownSeconds, env.1));
      var ttl := AtLeastOne(OrElse(probeTtlSeconds, env.2));
      BeginSession();
      ghost var before := committed;
      var row := EnsureRow(key, threshold, cooldown, rival);
      admission := AdmitRow(key, row, now, ttl, token);
      if key !in before && rival.None? {
        CreationColumns(before, durableSavepoints, key, failureThreshold, cooldownSeconds, probeTtlSeconds, env, now, token);
      } else {
        RowColumns(before, durableSavepoints, key, row, rival, probeTtlSeconds, env, now, token);
      }
    }

    method Record(key: Key, permit: Permit, outcome: string, now: int, cooldownSeconds: Option<int>)
      returns (accepted: bool)
      modifies this`working, this`committed
      ensures
        accepted == (key in old(committed)
                     && Recorded(old(committed)[key], permit, outcome, now, cooldownSeconds).Some?)
      ensures
        committed == if accepted
                     then old(committed)[key := Recorded(old(committed)[key], permit, outcome, now, cooldownSeconds).value]
                     else old(committed)
      // Which outcomes are accepted, by the columns of the stored row.
      ensures accepted <==>
        && key in old(committed)
        && var row := old(committed)[key];
           if permit.probeToken.Some? then
             && row.status == HalfOpen && row.probeToken == permit.probeToken && row.version == permit.version
             && row.probeExpiresAt.Some? && row.probeExpiresAt.value > now
           else row.status == Closed && (outcome == "success" || outcome == "empty" ==> row.version == permit.version)
      // A success closes the circuit and forgets the failures.
      ensures accepted && (outcome == "success" || outcome == "empty") ==>
        var row := old(committed)[key];
        committed == old(committed)[key := Row(Closed, row.threshold, row.cooldown, 0, row.version + 1, None, None, None, None, None)]
      // A failure is counted. A probe's opens the circuit, another one's does at the threshold.
      ensures accepted && outcome != "success" && outcome != "empty" ==>
        var row, after := old(committed)[key], committed[key];
        && committed == old(committed)[key := after]
        && after.threshold == row.threshold && after.cooldown == row.cooldown
        && after.failures == row.failures + 1 && after.version == row.version + 1
        && after.lastError == Some(if outcome in {"timeout", "rate_limited", "network_error", "provider_5xx", "unavailable"}
                                   then outcome else "failed")
        && after.status == (if permit.probeToken.Some? || row.failures + 1 >= row.threshold then Open else Closed)
        && after.openedAt == (if after.status == Open then Some(now) else None)
        && (after.status == Closed ==> after.nextProbeAt == None)
        && (permit.probeToken.Some? ==> after.probeToken == None && after.probeExpiresAt == None)
        && (permit.probeToken.None? ==> after.probeToken == row.probeToken && after.probeExpiresAt == row.probeExpiresAt)
      // The cooldown is the given one, or the row's when none or zero is given.
      ensures accepted && outcome != "success" && outcome != "empty" && committed[key].status == Open ==>
        var row, until := old(committed)[key], committed[key].nextProbeAt;
        && ((cooldownSeconds == None || cooldownSeconds == Some(0)) && row.cooldown >= 1 ==> until == Some(now + row.cooldown))
        && (cooldownSeconds.Some? && cooldownSeconds.value >= 1 ==> until == Some(now + cooldownSeconds.value))
        && until.Some? && until.value > now
    {
      var code := Normalize(outcome);
      BeginSession();
      if key !in working {
        Rollback();
        return false;
      }
      var row := working[key];
      var cooldown := AtLeastOne(OrElse(cooldownSeconds, row.cooldown));
      if IsSuccess(code) {
        accepted := SuccessMatches(row, permit, now);
        if accepted {
          working := working[key := Succeeded(row)];
        }
      } else {
        accepted := FailureMatches(row, permit, now);
        if accepted {
          working := working[key := Failed(row, permit, code, now, cooldown)];
        }
      }
      if accepted {
        Commit();
      } else {
        Rollback();
      }
    }
  }
}
