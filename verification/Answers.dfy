/** What a request leaves in the circuit breaker and in its lease, by the columns of the rows:
    the admission of the call, and the answer of the provider. */
module Answers {
  import opened Sql
  import opened Database
  import opened Circuit
  import opened Lease
  import opened Admission

  type Breakers = map<Circuit.Key, Circuit.Row>

  // ---------- the circuit ----------

  /** The breaker rows once the answer to a call is recorded under its permit. A good answer
      closes the circuit and forgets the failures, if nothing else was accepted since the
      permit was issued. A bad one is counted while the circuit is closed, and opens it at the
      threshold or if it is a probe's. A probe counts only until it expires. */
  predicate Answered(rows: Breakers, rows': Breakers, key: Circuit.Key, permit: Permit, good: bool, now: int) {
    if key !in rows then rows' == rows
    else
      && key in rows' && rows' == rows[key := rows'[key]]
      && var row, after := rows[key], rows'[key];
         var until := now + if row.cooldown >= 1 then row.cooldown else 1;
         var counts :=
           if permit.probeToken.Some? then
             && row.status == HalfOpen && row.probeToken == permit.probeToken && row.version == permit.version
             && row.probeExpiresAt.Some? && row.probeExpiresAt.value > now
           else row.status == Closed && (good ==> row.version == permit.version);
         if !counts then after == row
         else if good then after == Row(Closed, row.threshold, row.cooldown, 0, row.version + 1, None, None, None, None, None)
         else if permit.probeToken.Some? then
           after == Row(Open, row.threshold, row.cooldown, row.failures + 1, row.version + 1,
                        Some(now), Some(until), None, None, Some("failed"))
         else if row.failures + 1 >= row.threshold then
           after == Row(Open, row.threshold, row.cooldown, row.failures + 1, row.version + 1,
                        Some(now), Some(until), row.probeToken, row.probeExpiresAt, Some("failed"))
         else
           after == Row(Closed, row.threshold, row.cooldown, row.failures + 1, row.version + 1,
                        None, None, row.probeToken, row.probeExpiresAt, Some("failed"))
  }

  function CodeOf(good: bool, empty: bool): string {
    if !good then "failed" else if empty then "empty" else "success"
  }

  lemma RecordedIsAnswered(rows: Breakers, rows': Breakers, key: Circuit.Key, permit: Permit, good: bool, empty: bool, now: int)
    requires rows' == if key in rows && Recorded(rows[key], permit, CodeOf(good, empty), now, None).Some?
                      then rows[key := Recorded(rows[key], permit, CodeOf(good, empty), now, None).value] else rows
    ensures Answered(rows, rows', key, permit, good, now)
  {
    assert Normalize(CodeOf(good, empty)) == CodeOf(good, empty) && (IsSuccess(CodeOf(good, empty)) <==> good);
    assert key in rows ==> rows == rows[key := rows[key]];
  }

  /** The breaker rows after an admission. */
  function CircuitAfter(rows: Breakers, durable: bool, r: Request, t: Times): Breakers {
    AfterAdmit(rows, durable, (r.provider, r.operation), BreakerRow(rows, r), r.rival, t.admit,
               AtLeastOne(OrElse(None, BREAKER_ENV.2)), r.probeToken)
  }

  function AdmissionFor(rows: Breakers, r: Request, t: Times): Circuit.Admission {
    AdmissionOf(BreakerRow(rows, r), t.admit, r.probeToken)
  }

  /** The circuit refuses a request: it is open or being probed, and not due. */
  predicate Refused(rows: Breakers, r: Request, now: int) {
    var key := (r.provider, r.operation);
    && (key in rows || r.rival.Some?)
    && var row := if key in rows then rows[key] else r.rival.value;
       || (row.status == Open && row.nextProbeAt.Some? && row.nextProbeAt.value > now)
       || (row.status == HalfOpen && !(row.probeExpiresAt.Some? && row.probeExpiresAt.value <= now))
  }

  lemma RefusedIff(rows: Breakers, r: Request, t: Times)
    ensures Refused(rows, r, t.admit) <==> !CircuitAllows(rows, r, t)
  {
  }

  /** One more unit does not fit into the day's budget. */
  predicate DayIsFull(l: Ledger, r: Request, now: int) {
    var key := BudgetKey(r.provider, r.operation, Day(now / 86400));
    var taken := if key in l.budgets then l.budgets[key].used + l.budgets[key].reserved else 0;
    r.hardLimit < 1 || taken + 1 > r.hardLimit
  }

  lemma DayIsFullIff(l: Ledger, r: Request, t: Times)
    ensures DayIsFull(l, r, t.reserve) <==> !BudgetAllows(l, r, t)
  {
  }

  datatype Course = NoCall | GoodCall | BadCall

  /** What one request does to its breaker row, from the first look to the answer. A circuit
      is created closed, with three failures to open it and a cooldown of 300 seconds; a probe
      has 30 seconds. */
  predicate CircuitFollows(rows: Breakers, rows': Breakers, durable: bool, r: Request, t: Times, course: Course) {
    var key := (r.provider, r.operation);
    if key !in rows && r.rival.None? then
      rows' == if !durable then rows else rows[key :=
        match course
        case NoCall => Row(Closed, 3, 300, 0, 0, None, None, None, None, None)
        case GoodCall => Row(Closed, 3, 300, 0, 1, None, None, None, None, None)
        case BadCall => Row(Closed, 3, 300, 1, 1, None, None, None, None, Some("failed"))]
    else
      var row := if key in rows then rows[key] else r.rival.value;
      var until := t.record + if row.cooldown >= 1 then row.cooldown else 1;
      rows' == rows[key :=
        if row.status == Closed then
          match course
          case NoCall => row
          case GoodCall => Row(Closed, row.threshold, row.cooldown, 0, row.version + 1, None, None, None, None, None)
          case BadCall =>
            if row.failures + 1 >= row.threshold then
              Row(Open, row.threshold, row.cooldown, row.failures + 1, row.version + 1,
                  Some(t.record), Some(until), row.probeToken, row.probeExpiresAt, Some("failed"))
            else
              Row(Closed, row.threshold, row.cooldown, row.failures + 1, row.version + 1,
                  None, None, row.probeToken, row.probeExpiresAt, Some("failed"))
        else if Refused(rows, r, t.admit) then row
        else if course == NoCall || t.record >= t.admit + 30 then
          row.(status := HalfOpen, version := row.version + 1, probeToken := Some(r.probeToken), probeExpiresAt := Some(t.admit + 30))
        else if course == GoodCall then
          Row(Closed, row.threshold, row.cooldown, 0, row.version + 2, None, None, None, None, None)
        else
          Row(Open, row.threshold, row.cooldown, row.failures + 1, row.version + 2,
              Some(t.record), Some(until), None, None, Some("failed"))]
  }

  lemma AdmittedCircuit(rows: Breakers, durable: bool, r: Request, t: Times)
    ensures CircuitFollows(rows, CircuitAfter(rows, durable, r, t), durable, r, t, NoCall)
  {
    var key := (r.provider, r.operation);
    assert key in rows ==> rows == rows[key := rows[key]];
  }

  lemma CalledCircuit(rows: Breakers, rows': Breakers, durable: bool, r: Request, t: Times, good: bool)
    requires AdmissionFor(rows, r, t).Allowed?
    requires Answered(CircuitAfter(rows, durable, r, t), rows', (r.provider, r.operation), AdmissionFor(rows, r, t).permit, good, t.record)
    ensures CircuitFollows(rows, rows', durable, r, t, if good then GoodCall else BadCall)
  {
    var key, mid := (r.provider, r.operation), CircuitAfter(rows, durable, r, t);
    assert key in mid && key in rows' ==> mid[key := rows'[key]] == rows[key := rows'[key]];
  }

  // ---------- the lease ----------

  /** The token still holds its lease. */
  predicate Holds(leases: Leases, lease: Token, now: int) {
    && lease.fingerprint in leases
    && var row := leases[lease.fingerprint];
       row.token == Some(lease.token) && row.status == "running" && row.expiresAt.Some? && row.expiresAt.value > now
  }

  /** The tables with the lease closed. */
  function Ended(tables: Tables, lease: Token, status: string, error: Option<string>, now: int): Tables
    requires lease.fingerprint in tables.leases
  {
    var row := tables.leases[lease.fingerprint];
    tables.(leases := tables.leases[lease.fingerprint := LeaseRow(status, row.token, None, row.attempts, Some(now), error)])
  }
}
