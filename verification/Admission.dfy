/** What the admission of one external request does to the circuit breaker, the budget
    ledger and the lease table: circuit admission, reservation, lease and consumption. The
    circuit commits on its own; budget and lease share the caller's session. */
module Admission {
  import opened Sql
  import opened Database
  import opened Circuit
  import opened Lease
  import opened Budget
  import C = Calls

  /** Clock readings of one request, in the order the code takes them. */
  datatype Times = Times(admit: int, reserve: int, acquire: int, consumeFailed: int, record: int, owns: int, finish: int)

  datatype Request = Request(
    provider: string, operation: string, fingerprint: string, hardLimit: nat,
    leaseToken: nat, probeToken: nat, reservationId: nat, rival: Option<Circuit.Row>)

  datatype Admitted =
    | SkippedCircuit
    | BudgetDenied
    | LeaseConflict
    | ConsumeFailed
    | MayCall(lease: Token, permit: Permit, reservation: Handle)

  /** The committed tables and those of the open transaction. */
  datatype Db = Db(committed: Tables, working: Tables)

  const BREAKER_ENV := (3, 300, 30)

  function PolicyOf(r: Request): Policy {
    Policy(r.provider, r.operation, "day", r.hardLimit, 1, "local_config")
  }

  function WindowKey(r: Request, now: int): BudgetKey {
    BudgetKey(r.provider, r.operation, Day(now / 86400))
  }

  /** The breaker row `admit` looks at. */
  function BreakerRow(rows: map<Circuit.Key, Circuit.Row>, r: Request): Circuit.Row {
    SeenRow(rows, (r.provider, r.operation), AtLeastOne(OrElse(None, BREAKER_ENV.0)),
             AtLeastOne(OrElse(None, BREAKER_ENV.1)), r.rival)
  }

  predicate CircuitAllows(rows: map<Circuit.Key, Circuit.Row>, r: Request, t: Times) {
    Decide(BreakerRow(rows, r), t.admit) != Deny
  }

  predicate BudgetAllows(l: Ledger, r: Request, t: Times) {
    Room(EnsuredRow(l, WindowKey(r, t.reserve), PolicyOf(r), false), 1)
  }

  predicate LeaseIsFree(leases: Leases, r: Request, t: Times) {
    r.fingerprint in leases ==> TakeOverMatches(leases[r.fingerprint], t.acquire)
  }

  /** A reservation just made can be consumed. */
  lemma ReservedCanBeConsumed(l: Ledger, key: BudgetKey, p: Policy, id: nat)
    requires Conserved(l) && ValidPolicy(p) && FreshId(l, id)
    requires Room(EnsuredRow(l, key, p, false), p.unitsPerRequest)
    ensures var l' := ReserveLedger(l, key, p, false, id);
            && Conserved(l')
            && TransitionMatches(l', Handle(true, p.unitsPerRequest, Some(id)))
            && Conserved(Transitioned(l', Handle(true, p.unitsPerRequest, Some(id)), Used))
            && C.Lookup(l', id) == Some(Reservation(id, key, p.unitsPerRequest, Reserved))
            && C.Lookup(Transitioned(l', Handle(true, p.unitsPerRequest, Some(id)), Used), id)
               == Some(Reservation(id, key, p.unitsPerRequest, Used))
  {
    var l', h := ReserveLedger(l, key, p, false, id), Handle(true, p.unitsPerRequest, Some(id));
    ReserveConserves(l, key, p, false, id);
    C.ReserveLookup(l, key, p, false, id, id);
    assert Balanced(l', key);
    UnitsNonNegative(l'.reservations, key, Reserved);
    TransitionConserves(l', h, Used);
    C.TransitionLookup(l', h, Used, id);
  }

  /** A reservation that was rolled back cannot be moved. */
  lemma AbsentCannotMove(l: Ledger, h: Handle)
    requires h.id.Some? ==> FreshId(l, h.id.value)
    ensures !TransitionMatches(l, h)
  {
  }

  /** A reservation that counts against the limit whatever the session does next. */
  predicate Backed(d: Db, id: nat) {
    C.Live(d.committed.ledger, id) && C.Live(d.working.ledger, id)
  }

  predicate Unused(d: Db, id: nat) {
    FreshId(d.committed.ledger, id) && FreshId(d.working.ledger, id)
  }

  ghost predicate BooksBalance(d: Db) {
    Conserved(d.committed.ledger) && Conserved(d.working.ledger)
  }

  /** No window has more used and reserved than the limit, nor a higher limit. */
  ghost predicate LedgerWithin(l: Ledger, limit: int) {
    forall key :: key in l.budgets ==> WithinLimit(l, key, limit)
  }

  // ---------- ends of the session's transaction ----------

  /** Two states of the tables that differ only in the contents of lease rows. */
  predicate SameButLeaseRows(t: Tables, t': Tables) {
    t'.ledger == t.ledger && t'.observations == t.observations && t'.leases.Keys == t.leases.Keys
  }

  predicate EndedBy(d: Db, d': Db, commit: bool) {
    var kept := if commit then d.working else d.committed;
    SameButLeaseRows(kept, d'.committed) && SameButLeaseRows(kept, d'.working)
  }

  /** What closing a request may do besides updating lease rows: leave the transaction
      open, commit it or roll it back. */
  predicate Closing(d: Db, d': Db) {
    || (SameButLeaseRows(d.committed, d'.committed) && SameButLeaseRows(d.working, d'.working))
    || EndedBy(d, d', true)
    || EndedBy(d, d', false)
  }

  function Observing(d: Db, id: nat): Db {
    d.(working := d.working.(observations := d.working.observations + {id}))
  }

  // ---------- admission as a function of the session ----------

  function HandleOf(r: Request): Handle {
    Handle(true, 1, Some(r.reservationId))
  }

  function Reserved1(l: Ledger, r: Request, t: Times): Ledger {
    ReserveLedger(l, WindowKey(r, t.reserve), PolicyOf(r), false, r.reservationId)
  }

  function Used1(l: Ledger, r: Request): Ledger {
    if TransitionMatches(l, HandleOf(r)) then Transitioned(l, HandleOf(r), Used) else l
  }

  /** The committed tables once a request that found its query leased before has taken the
      lease over, failed to consume, and closed the lease again. */
  function AfterTakeOver(kept: Tables, r: Request, t: Times): Tables
    requires r.fingerprint in kept.leases
  {
    var row := TakenOver(kept.leases[r.fingerprint], t.acquire, 60, r.leaseToken);
    var closed := if FinishMatches(row, r.leaseToken, t.consumeFailed)
                  then Finished(row, "failed", t.consumeFailed, Some("budget_consume_failed")) else row;
    kept.(leases := kept.leases[r.fingerprint := closed])
  }

  predicate HasLeaseRow(d: Db, r: Request) {
    r.fingerprint in d.working.leases || r.fingerprint in d.committed.leases
  }

  /** Acquiring the lease and consuming the reservation. */
  function AfterLease(d: Db, r: Request, t: Times): Db {
    if !HasLeaseRow(d, r) then
      var leased := d.working.(leases := d.working.leases[r.fingerprint := InsertedRow(t.acquire, 60, r.leaseToken)]);
      Db(leased, leased.(ledger := Used1(leased.ledger, r)))
    else if r.fingerprint in d.committed.leases && LeaseIsFree(d.committed.leases, r, t) then
      var tables := AfterTakeOver(d.committed, r, t);
      Db(tables, tables)
    else Db(d.committed, d.committed)
  }

  function AfterBudget(d: Db, r: Request, t: Times): Db {
    var reserved := d.(working := d.working.(ledger := Reserved1(d.working.ledger, r, t)));
    if !BudgetAllows(d.working.ledger, r, t) then reserved else AfterLease(reserved, r, t)
  }

  function AfterAdmission(rows: map<Circuit.Key, Circuit.Row>, d: Db, r: Request, t: Times): Db {
    if !CircuitAllows(rows, r, t) then d else AfterBudget(d, r, t)
  }

  /** Everything the admission needs, and nothing else, allows the call. */
  predicate Permitted(rows: map<Circuit.Key, Circuit.Row>, d: Db, r: Request, t: Times) {
    CircuitAllows(rows, r, t) && BudgetAllows(d.working.ledger, r, t) && !HasLeaseRow(d, r)
  }

  /** Admission keeps the books; a permitted call has its reservation committed as reserved
      while the open transaction already counts it as used; a refused one leaves none. */
  lemma AdmissionReserves(rows: map<Circuit.Key, Circuit.Row>, d: Db, r: Request, t: Times)
    requires BooksBalance(d) && Unused(d, r.reservationId)
    ensures var d' := AfterAdmission(rows, d, r, t);
            && BooksBalance(d')
            && (if Permitted(rows, d, r, t) then
                  var stored := Reservation(r.reservationId, WindowKey(r, t.reserve), 1, Reserved);
                  && C.Lookup(d'.committed.ledger, r.reservationId) == Some(stored)
                  && C.Lookup(d'.working.ledger, r.reservationId) == Some(stored.(status := Used))
                else FreshId(d'.committed.ledger, r.reservationId))
  {
    var l, key, p := d.working.ledger, WindowKey(r, t.reserve), PolicyOf(r);
    if BudgetAllows(l, r, t) {
      ReservedCanBeConsumed(l, key, p, r.reservationId);
    } else {
      ReserveConserves(l, key, p, false, r.reservationId);
    }
  }

  lemma ReserveKeepsLive(l: Ledger, r: Request, t: Times, id: nat)
    requires FreshId(l, r.reservationId) && C.Live(l, id)
    ensures C.Live(Reserved1(l, r, t), id)
  {
    C.ReserveLookup(l, WindowKey(r, t.reserve), PolicyOf(r), false, r.reservationId, id);
  }

  lemma UseKeepsLive(l: Ledger, r: Request, id: nat)
    requires C.Live(l, id)
    ensures C.Live(Used1(l, r), id)
  {
    if TransitionMatches(l, HandleOf(r)) {
      C.TransitionLookup(l, HandleOf(r), Used, id);
    }
  }

  /** Whatever the admission of one request commits or rolls back, the reservations other
      calls rely on stay. */
  lemma AdmissionKeepsBacked(rows: map<Circuit.Key, Circuit.Row>, d: Db, r: Request, t: Times, id: nat)
    requires Unused(d, r.reservationId) && Backed(d, id)
    ensures Backed(AfterAdmission(rows, d, r, t), id)
  {
    ReserveKeepsLive(d.working.ledger, r, t, id);
    UseKeepsLive(Reserved1(d.working.ledger, r, t), r, id);
  }

  lemma AdmissionKeepsUnused(rows: map<Circuit.Key, Circuit.Row>, d: Db, r: Request, t: Times, id: nat)
    requires Unused(d, r.reservationId) && Unused(d, id) && id != r.reservationId
    ensures Unused(AfterAdmission(rows, d, r, t), id)
  {
    var l := d.working.ledger;
    var reserved := Reserved1(l, r, t);
    LookupFresh(l, id);
    LookupFresh(reserved, id);
    LookupFresh(Used1(reserved, r), id);
    C.ReserveLookup(l, WindowKey(r, t.reserve), PolicyOf(r), false, r.reservationId, id);
    if TransitionMatches(reserved, HandleOf(r)) {
      C.TransitionLookup(reserved, HandleOf(r), Used, id);
    }
  }

  lemma ReserveKeepsWithin(l: Ledger, r: Request, t: Times, limit: int)
    requires Conserved(l) && LedgerWithin(l, limit) && r.hardLimit <= limit
    ensures LedgerWithin(Reserved1(l, r, t), limit)
  {
    var l' := Reserved1(l, r, t);
    forall k | k in l'.budgets ensures WithinLimit(l', k, limit) {
      ReserveWithinLimit(l, WindowKey(r, t.reserve), PolicyOf(r), false, r.reservationId,
                         if k in l.budgets then limit else r.hardLimit, k);
    }
  }

  lemma UseKeepsWithin(l: Ledger, r: Request, limit: int)
    requires LedgerWithin(l, limit)
    ensures LedgerWithin(Used1(l, r), limit)
  {
    var l' := Used1(l, r);
    forall k | k in l'.budgets ensures WithinLimit(l', k, limit) {
      assert WithinLimit(l, k, limit);
    }
  }

  lemma AdmissionKeepsWithin(rows: map<Circuit.Key, Circuit.Row>, d: Db, r: Request, t: Times, limit: int)
    requires BooksBalance(d) && r.hardLimit <= limit
    requires LedgerWithin(d.committed.ledger, limit) && LedgerWithin(d.working.ledger, limit)
    ensures var d' := AfterAdmission(rows, d, r, t);
            LedgerWithin(d'.committed.ledger, limit) && LedgerWithin(d'.working.ledger, limit)
  {
    ReserveKeepsWithin(d.working.ledger, r, t, limit);
    UseKeepsWithin(Reserved1(d.working.ledger, r, t), r, limit);
  }

  /** A stay query that has a lease row keeps it, and so is never called again: the lease
      table is why a query reaches its provider at most once. */
  lemma LeasedQueryIsNeverCalled(rows: map<Circuit.Key, Circuit.Row>, d: Db, r: Request, t: Times, fingerprint: string)
    requires fingerprint in d.committed.leases && fingerprint in d.working.leases
    ensures var d' := AfterAdmission(rows, d, r, t);
            fingerprint in d'.committed.leases && fingerprint in d'.working.leases
    ensures r.fingerprint == fingerprint ==> !Permitted(rows, d, r, t)
  {
  }

  lemma LookupFresh(l: Ledger, id: nat)
    ensures C.Lookup(l, id).None? <==> FreshId(l, id)
  {
  }

  /** The books balance and respect the limit, every call made has a reservation that stays
      counted, and its query has a lease row. */
  ghost predicate Sound(d: Db, calls: set<nat>, queried: set<string>, limit: int) {
    && BooksBalance(d)
    && LedgerWithin(d.committed.ledger, limit) && LedgerWithin(d.working.ledger, limit)
    && (forall id :: id in calls ==> Backed(d, id))
    && queried <= d.committed.leases.Keys == d.working.leases.Keys
    && d.committed.observations <= d.working.observations
  }

  lemma ClosingKeepsSound(d: Db, d': Db, calls: set<nat>, queried: set<string>, limit: int)
    requires Sound(d, calls, queried, limit) && Closing(d, d')
    ensures Sound(d', calls, queried, limit)
    ensures forall id :: Backed(d, id) ==> Backed(d', id)
    ensures forall id :: Unused(d, id) ==> Unused(d', id)
  {
  }

  lemma ObservingKeepsSound(d: Db, id: nat, calls: set<nat>, queried: set<string>, limit: int)
    requires Sound(d, calls, queried, limit)
    ensures Sound(Observing(d, id), calls, queried, limit)
  {
  }

  /** Admission keeps all of it, backs the call it permits, and lets a query be asked once. */
  lemma AdmissionKeepsSound(rows: map<Circuit.Key, Circuit.Row>, d: Db, r: Request, t: Times,
                            calls: set<nat>, queried: set<string>, limit: int)
    requires Sound(d, calls, queried, limit) && Unused(d, r.reservationId) && r.hardLimit <= limit
    ensures var d' := AfterAdmission(rows, d, r, t);
            && Sound(d', calls, queried + (if Permitted(rows, d, r, t) then {r.fingerprint} else {}), limit)
            && (forall id :: Backed(d, id) ==> Backed(d', id))
            && (forall id :: id != r.reservationId && Unused(d, id) ==> Unused(d', id))
            && (Permitted(rows, d, r, t) ==> Backed(d', r.reservationId) && r.fingerprint !in queried)
  {
    var d' := AfterAdmission(rows, d, r, t);
    AdmissionReserves(rows, d, r, t);
    AdmissionKeepsWithin(rows, d, r, t, limit);
    forall id | Backed(d, id) ensures Backed(d', id) {
      AdmissionKeepsBacked(rows, d, r, t, id);
    }
    forall id | Unused(d, id) && id != r.reservationId ensures Unused(d', id) {
      AdmissionKeepsUnused(rows, d, r, t, id);
    }
    LeaseKeysAfter(rows, d, r, t);
  }

  lemma LeaseKeysAfter(rows: map<Circuit.Key, Circuit.Row>, d: Db, r: Request, t: Times)
    requires d.committed.leases.Keys == d.working.leases.Keys
    ensures var d' := AfterAdmission(rows, d, r, t);
            d'.committed.leases.Keys == d'.working.leases.Keys
            == d.committed.leases.Keys + if Permitted(rows, d, r, t) then {r.fingerprint} else {}
  {
  }
}
