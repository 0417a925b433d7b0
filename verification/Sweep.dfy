/** The requests of the offer sweep and of the area search: admission, the provider call, and
    the closing of the lease, which decides what becomes of the price observations. */
module Sweep {
  import opened Sql
  import opened Database
  import opened Circuit
  import opened Lease
  import opened Budget
  import opened Admission
  import opened Answers
  import C = Calls

  /** What the provider adapter does when it is called. */
  datatype Response = Rates | Empty | Error(code: string)

  datatype Outcome = NotCalled(why: Admitted) | Failed | Lost | NoRates | NotStored | Stored

  // ---------- what becomes of the observations ----------

  /** The requests of one sweep or search use distinct new reservation ids. */
  predicate DistinctIds(rs: seq<Request>) {
    forall i, j :: 0 <= i < j < |rs| ==> rs[i].reservationId != rs[j].reservationId
  }

  /** An admission that reaches its lease ends the open transaction: a new lease row
      commits it, an existing one rolls it back. */
  predicate RollsBack(a: Admitted) {
    a.LeaseConflict? || a.ConsumeFailed?
  }

  function ObservedAfter(a: Admitted, committed: set<nat>, working: set<nat>): (set<nat>, set<nat>) {
    if a.MayCall? then (working, working) else if RollsBack(a) then (committed, committed) else (committed, working)
  }

  /** How a called request leaves the session it was admitted in. */
  predicate ClosedAs(d: Db, out: Outcome, id: nat, d': Db) {
    Closing(if out == Stored then Observing(d, id) else d, d')
  }

  function CourseOf(out: Outcome, response: Response): Course {
    if out.NotCalled? then NoCall else if response.Error? then BadCall else GoodCall
  }

  lemma ClosedKeepsSound(d: Db, d': Db, out: Outcome, id: nat, calls: set<nat>, queried: set<string>, limit: int)
    requires Sound(d, calls, queried, limit) && ClosedAs(d, out, id, d')
    ensures Sound(d', calls, queried, limit) && d'.committed.leases.Keys == d.committed.leases.Keys
    ensures forall i :: Unused(d, i) ==> Unused(d', i)
  {
    ObservingKeepsSound(d, id, calls, queried, limit);
    ClosingKeepsSound(if out == Stored then Observing(d, id) else d, d', calls, queried, limit);
  }

  predicate Commits(out: Outcome) {
    !out.NotCalled?
  }

  /** Between this request and every later one that rolls back, another one commits: the
      first later request to reach its lease, if any, gets a new lease row. */
  predicate Survives(outs: seq<Outcome>, i: nat) {
    forall j :: i < j < |outs| && outs[j].NotCalled? && RollsBack(outs[j].why) ==> exists k :: i < k < j && Commits(outs[k])
  }

  // ---------- survival, read off the lease table ----------

  predicate Reaches(out: Outcome) {
    Commits(out) || RollsBack(out.why)
  }

  /** No lease row existed before the sweep, and no earlier request of the sweep got one, for
      the query of this request. */
  predicate NewQuery(rs: seq<Request>, outs: seq<Outcome>, before: set<string>, j: nat)
    requires j < |rs| && j <= |outs|
  {
    rs[j].fingerprint !in before && forall k :: 0 <= k < j && Reaches(outs[k]) ==> rs[k].fingerprint != rs[j].fingerprint
  }

  /** The next request to reach its lease, if any, is for a new query. */
  predicate NextIsNew(rs: seq<Request>, outs: seq<Outcome>, before: set<string>, i: nat)
    requires |outs| == |rs|
  {
    forall j :: i < j < |rs| && Reaches(outs[j]) && (forall k :: i < k < j ==> !Reaches(outs[k])) ==> NewQuery(rs, outs, before, j)
  }

  predicate ReachedBy(rs: seq<Request>, outs: seq<Outcome>, fingerprint: string)
    requires |outs| <= |rs|
  {
    exists k :: 0 <= k < |outs| && Reaches(outs[k]) && rs[k].fingerprint == fingerprint
  }

  /** The lease rows after the first requests, and what each of these requests met. */
  ghost predicate LeasedBy(rs: seq<Request>, outs: seq<Outcome>, before: set<string>, leased: set<string>)
    requires |outs| <= |rs|
  {
    && (forall f :: f in leased <==> f in before || ReachedBy(rs, outs, f))
    && (forall j :: 0 <= j < |outs| && Reaches(outs[j]) ==> (Commits(outs[j]) <==> NewQuery(rs, outs, before, j)))
  }

  lemma LeasedGoesOn(rs: seq<Request>, outs: seq<Outcome>, out: Outcome, before: set<string>, leased: set<string>)
    requires |outs| < |rs| && LeasedBy(rs, outs, before, leased)
    requires Reaches(out) ==> (Commits(out) <==> rs[|outs|].fingerprint !in leased)
    ensures LeasedBy(rs, outs + [out], before, leased + if Commits(out) then {rs[|outs|].fingerprint} else {})
  {
    var longer, n := outs + [out], |outs|;
    forall f ensures ReachedBy(rs, longer, f) <==> ReachedBy(rs, outs, f) || (Reaches(out) && rs[n].fingerprint == f) {
      if ReachedBy(rs, outs, f) {
        var k :| 0 <= k < n && Reaches(outs[k]) && rs[k].fingerprint == f;
        assert Reaches(longer[k]);
      }
      assert longer[n] == out;
    }
    assert NewQuery(rs, longer, before, n) <==> rs[n].fingerprint !in leased;
    forall j | 0 <= j < n && Reaches(longer[j]) ensures Commits(longer[j]) <==> NewQuery(rs, longer, before, j) {
      assert Commits(outs[j]) <==> NewQuery(rs, outs, before, j);
      assert NewQuery(rs, longer, before, j) <==> NewQuery(rs, outs, before, j);
    }
  }

  /** The first request after `i` to reach its lease. */
  lemma {:induction false} FirstReach(outs: seq<Outcome>, i: nat, j: nat) returns (first: nat)
    requires i < j < |outs| && Reaches(outs[j])
    ensures i < first <= j && Reaches(outs[first]) && forall k :: i < k < first ==> !Reaches(outs[k])
    decreases j
  {
    first := j;
    if k :| i < k < j && Reaches(outs[k]) {
      first := FirstReach(outs, i, k);
    }
  }

  /** So what survives is decided by the lease table alone: the next request to reach its
      lease commits the transaction exactly if its query is new, and rolls it back otherwise. */
  lemma SurvivesIffNextIsNew(rs: seq<Request>, outs: seq<Outcome>, before: set<string>, leased: set<string>, i: nat)
    requires |outs| == |rs| && i < |rs| && LeasedBy(rs, outs, before, leased)
    ensures Survives(outs, i) <==> NextIsNew(rs, outs, before, i)
  {
    if NextIsNew(rs, outs, before, i) {
      forall j | i < j < |outs| && outs[j].NotCalled? && RollsBack(outs[j].why) ensures exists k :: i < k < j && Commits(outs[k]) {
        var first := FirstReach(outs, i, j);
        assert NewQuery(rs, outs, before, first);
        assert Commits(outs[first]);
      }
    }
    if Survives(outs, i) {
      forall j | i < j < |rs| && Reaches(outs[j]) && (forall k :: i < k < j ==> !Reaches(outs[k])) ensures NewQuery(rs, outs, before, j) {
        assert Commits(outs[j]);
      }
    }
  }

  predicate CommittedSince(outs: seq<Outcome>, i: nat) {
    exists k :: i < k < |outs| && Commits(outs[k])
  }

  function UpTo(n: nat): (indices: set<nat>)
    ensures forall i :: i in indices <==> 0 <= i < n
  {
    if n == 0 then {} else UpTo(n - 1) + {n - 1}
  }

  predicate NewIds(rs: seq<Request>, ids: set<nat>) {
    forall i :: 0 <= i < |rs| ==> rs[i].reservationId !in ids
  }

  /** Where the observations of the first requests of a sweep are. */
  ghost predicate Observed(rs: seq<Request>, outs: seq<Outcome>, committed: set<nat>, working: set<nat>)
    requires |outs| <= |rs|
  {
    && (forall i :: 0 <= i < |outs| ==>
          && (rs[i].reservationId in working <==> outs[i] == Stored && Survives(outs, i))
          && (rs[i].reservationId in committed <==> outs[i] == Stored && Survives(outs, i) && CommittedSince(outs, i)))
    && (forall i :: |outs| <= i < |rs| ==> rs[i].reservationId !in working && rs[i].reservationId !in committed)
  }

  lemma SurvivalGoesOn(outs: seq<Outcome>, out: Outcome, i: nat)
    requires i < |outs|
    ensures Survives(outs + [out], i)
            <==> Survives(outs, i) && (out.NotCalled? && RollsBack(out.why) ==> CommittedSince(outs, i))
    ensures CommittedSince(outs + [out], i) <==> CommittedSince(outs, i) || Commits(out)
  {
    var longer := outs + [out];
    assert longer[|outs|] == out && forall k :: 0 <= k < |outs| ==> longer[k] == outs[k];
    if Survives(longer, i) {
      forall j | i < j < |outs| && outs[j].NotCalled? && RollsBack(outs[j].why) ensures exists k :: i < k < j && Commits(outs[k]) {
        assert longer[j] == outs[j];
      }
    }
    if CommittedSince(longer, i) && !Commits(out) {
      var k :| i < k < |longer| && Commits(longer[k]);
      assert Commits(outs[k]);
    }
    if CommittedSince(outs, i) {
      var k :| i < k < |outs| && Commits(outs[k]);
      assert Commits(longer[k]);
    }
  }

  /** One more request of a sweep. */
  lemma ObservedGoesOn(rs: seq<Request>, outs: seq<Outcome>, out: Outcome, c: set<nat>, w: set<nat>, c': set<nat>, w': set<nat>)
    requires |outs| < |rs| && DistinctIds(rs) && Observed(rs, outs, c, w)
    requires if out.NotCalled? then (c', w') == ObservedAfter(out.why, c, w) && !out.why.MayCall?
             else c' == w && w' == w + if out == Stored then {rs[|outs|].reservationId} else {}
    ensures Observed(rs, outs + [out], c', w')
  {
    var longer, n := outs + [out], |outs|;
    forall i | 0 <= i < |longer|
      ensures rs[i].reservationId in w' <==> longer[i] == Stored && Survives(longer, i)
      ensures rs[i].reservationId in c' <==> longer[i] == Stored && Survives(longer, i) && CommittedSince(longer, i)
    {
      if i < n {
        SurvivalGoesOn(outs, out, i);
      } else {
        assert Survives(longer, i) && !CommittedSince(longer, i);
      }
    }
  }

  /** The permitted calls among the first requests have their reservations, and the later
      requests are still unused. */
  predicate SearchState(d: Db, rs: seq<Request>, admitted: seq<Admitted>)
    requires |admitted| <= |rs|
  {
    && (forall j :: |admitted| <= j < |rs| ==> Unused(d, rs[j].reservationId))
    && (forall j :: 0 <= j < |admitted| && admitted[j].MayCall? ==> Backed(d, rs[j].reservationId))
  }

  lemma SearchGoesOn(d: Db, d': Db, rs: seq<Request>, admitted: seq<Admitted>, a: Admitted)
    requires |admitted| < |rs| && DistinctIds(rs) && SearchState(d, rs, admitted)
    requires forall id :: Backed(d, id) ==> Backed(d', id)
    requires forall id :: id != rs[|admitted|].reservationId && Unused(d, id) ==> Unused(d', id)
    requires a.MayCall? ==> Backed(d', rs[|admitted|].reservationId)
    ensures SearchState(d', rs, admitted + [a])
  {
  }

  /** The permitted calls of a search ask for queries that no one asked for before it, and
      each for a query of its own. */
  predicate QueriesAreNew(queried: set<string>, rs: seq<Request>, admitted: seq<Admitted>, before: set<string>)
    requires |admitted| <= |rs|
  {
    && before <= queried
    && (forall j :: 0 <= j < |admitted| && admitted[j].MayCall? ==> rs[j].fingerprint in queried && rs[j].fingerprint !in before)
    && (forall j, k :: 0 <= j < k < |admitted| && admitted[j].MayCall? && admitted[k].MayCall? ==>
          rs[j].fingerprint != rs[k].fingerprint)
  }

  lemma QueriesGoOn(queried: set<string>, rs: seq<Request>, admitted: seq<Admitted>, before: set<string>, a: Admitted)
    requires |admitted| < |rs| && QueriesAreNew(queried, rs, admitted, before)
    requires a.MayCall? ==> rs[|admitted|].fingerprint !in queried
    ensures QueriesAreNew(queried + if a.MayCall? then {rs[|admitted|].fingerprint} else {}, rs, admitted + [a], before)
  {
  }

  /** How far the closing of a search has got; `c` and `w` are the committed and the
      working observations. */
  predicate ClosedSoFar(rs: seq<Request>, admitted: seq<Admitted>, outs: map<nat, Outcome>, c: set<nat>, w: set<nat>)
    requires |admitted| == |rs|
  {
    && (forall i :: i in outs ==>
          && i < |rs|
          && (outs[i].NotCalled? <==> !admitted[i].MayCall?)
          && (outs[i] == Stored ==> rs[i].reservationId in c)
          && (rs[i].reservationId in w ==> outs[i] == Stored))
    && (forall i :: 0 <= i < |rs| && i !in outs ==> rs[i].reservationId !in w)
  }

  lemma CloseOneMore(rs: seq<Request>, admitted: seq<Admitted>, outs: map<nat, Outcome>, i: nat, out: Outcome,
                     c: set<nat>, w: set<nat>, c': set<nat>, w': set<nat>)
    requires |admitted| == |rs| && DistinctIds(rs) && ClosedSoFar(rs, admitted, outs, c, w) && i < |rs| && i !in outs
    requires out.NotCalled? <==> !admitted[i].MayCall?
    requires c <= c' && w' <= w + if out == Stored then {rs[i].reservationId} else {}
    requires out == Stored ==> rs[i].reservationId in c'
    ensures ClosedSoFar(rs, admitted, outs[i := out], c', w')
  {
  }

  // ---------- the sessions a sweep or a search goes through ----------

  /** The breaker rows and the session each admission of a search starts from, and the session each
      closing starts from, in the order in which the answers come in. */
  datatype Trace = Trace(rows: seq<map<Circuit.Key, Circuit.Row>>, admitting: seq<Db>, order: seq<nat>, closing: seq<Db>)

  predicate AdmittedStep(rows: map<Circuit.Key, Circuit.Row>, d: Db, r: Request, t: Times, a: Admitted, d': Db) {
    d' == AfterAdmission(rows, d, r, t) && (a.MayCall? <==> Permitted(rows, d, r, t))
  }

  predicate AdmittedAlong(rs: seq<Request>, ts: seq<Times>, admitted: seq<Admitted>, rows: seq<map<Circuit.Key, Circuit.Row>>, dbs: seq<Db>)
    requires |admitted| <= |rs| == |ts|
  {
    && |rows| == |admitted| && |dbs| == |admitted| + 1
    && forall i :: 0 <= i < |admitted| ==> AdmittedStep(rows[i], dbs[i], rs[i], ts[i], admitted[i], dbs[i + 1])
  }

  lemma AlongGoesOn(rs: seq<Request>, ts: seq<Times>, admitted: seq<Admitted>, rows: seq<map<Circuit.Key, Circuit.Row>>, dbs: seq<Db>,
                    a: Admitted, row: map<Circuit.Key, Circuit.Row>, d: Db)
    requires |admitted| < |rs| == |ts| && AdmittedAlong(rs, ts, admitted, rows, dbs)
    requires AdmittedStep(row, dbs[|admitted|], rs[|admitted|], ts[|admitted|], a, d)
    ensures AdmittedAlong(rs, ts, admitted + [a], rows + [row], dbs + [d])
  {
  }

  predicate SweptStep(rows: map<Circuit.Key, Circuit.Row>, d: Db, r: Request, t: Times, out: Outcome, d': Db) {
    var admitted := AfterAdmission(rows, d, r, t);
    && (if out.NotCalled? then d' == admitted else ClosedAs(admitted, out, r.reservationId, d'))
    && (!out.NotCalled? <==> Permitted(rows, d, r, t))
  }

  predicate SweptAlong(rs: seq<Request>, ts: seq<Times>, outs: seq<Outcome>, rows: seq<map<Circuit.Key, Circuit.Row>>, dbs: seq<Db>)
    requires |outs| <= |rs| == |ts|
  {
    && |rows| == |outs| && |dbs| == |outs| + 1
    && forall i :: 0 <= i < |outs| ==> SweptStep(rows[i], dbs[i], rs[i], ts[i], outs[i], dbs[i + 1])
  }

  lemma SweptGoesOn(rs: seq<Request>, ts: seq<Times>, outs: seq<Outcome>, rows: seq<map<Circuit.Key, Circuit.Row>>, dbs: seq<Db>,
                    out: Outcome, row: map<Circuit.Key, Circuit.Row>, d: Db)
    requires |outs| < |rs| == |ts| && SweptAlong(rs, ts, outs, rows, dbs)
    requires SweptStep(row, dbs[|outs|], rs[|outs|], ts[|outs|], out, d)
    ensures SweptAlong(rs, ts, outs + [out], rows + [row], dbs + [d])
  {
  }

  predicate ClosedStep(d: Db, out: Outcome, id: nat, d': Db) {
    if out.NotCalled? then d' == d else ClosedAs(d, out, id, d')
  }

  predicate ClosedAlong(rs: seq<Request>, outs: map<nat, Outcome>, order: seq<nat>, dbs: seq<Db>) {
    && |dbs| == |order| + 1
    && forall k :: 0 <= k < |order| ==>
         && order[k] < |rs| && order[k] in outs
         && ClosedStep(dbs[k], outs[order[k]], rs[order[k]].reservationId, dbs[k + 1])
  }

  lemma ClosedGoesOn(rs: seq<Request>, outs: map<nat, Outcome>, order: seq<nat>, dbs: seq<Db>, i: nat, out: Outcome, d: Db)
    requires ClosedAlong(rs, outs, order, dbs) && i < |rs| && i !in outs
    requires ClosedStep(dbs[|order|], out, rs[i].reservationId, d)
    ensures ClosedAlong(rs, outs[i := out], order + [i], dbs + [d])
  {
  }

  /** The lease a permitted call runs under. */
  predicate LeaseGranted(leases: Leases, r: Request, t: Times) {
    && r.fingerprint in leases
    && leases[r.fingerprint] == LeaseRow("running", Some(r.leaseToken), Some(t.acquire + 60), 1, None, None)
  }

  predicate GrantedTo(a: Admitted, permit: Permit, r: Request, t: Times) {
    a == MayCall(Token(r.fingerprint, r.leaseToken, t.acquire + 60), permit, Handle(true, 1, Some(r.reservationId)))
  }

  /** The lease row of a called request, afterwards. It ends as the answer says while it is
      held, for 60 seconds, and otherwise stays as it was acquired. */
  predicate LeaseLeft(d: Db, r: Request, t: Times, response: Response, out: Outcome) {
    var running := LeaseRow("running", Some(r.leaseToken), Some(t.acquire + 60), 1, None, None);
    && r.fingerprint in d.committed.leases && r.fingerprint in d.working.leases
    && var row, open := d.committed.leases[r.fingerprint], d.working.leases[r.fingerprint];
       match out
       case Failed =>
         && response.Error? && open == row
         && row == if t.finish < t.acquire + 60
                   then LeaseRow("failed", Some(r.leaseToken), None, 1, Some(t.finish), Some(response.code)) else running
       case NoRates =>
         open == row == if t.finish < t.acquire + 60 then LeaseRow("done", Some(r.leaseToken), None, 1, Some(t.finish), None) else running
       case Stored => row == running && open == LeaseRow("done", Some(r.leaseToken), None, 1, Some(t.finish), None)
       case _ => open == row == running
  }

  lemma ClosedLeaseLeft(d: Db, d': Db, a: Admitted, r: Request, t: Times, response: Response, offerActive: bool, out: Outcome)
    requires a.MayCall? && GrantedTo(a, a.permit, r, t) && LeaseGranted(d.working.leases, r, t) && LeaseGranted(d.committed.leases, r, t)
    requires SweepClosed(d, d', a.lease, r.reservationId, t, response, offerActive, out)
    ensures LeaseLeft(d', r, t, response, out)
    ensures out == SweepOutcome(r, t, response, offerActive)
  {
  }

  /** What becomes of a call, by its times: the lease is held for 60 seconds. */
  function SweepOutcome(r: Request, t: Times, response: Response, offerActive: bool): Outcome {
    match response
    case Error(_) => Failed
    case Empty => if t.owns < t.acquire + 60 then NoRates else Lost
    case Rates =>
      if t.owns >= t.acquire + 60 then Lost
      else if offerActive && t.finish < t.acquire + 60 then Stored else NotStored
  }

  /** How the answer to a call of the sweep closes its lease. A failure and an empty answer
      commit the end of a lease still held, and roll back without one. Rates of an active
      offer end it in the open transaction, with the observation; without the lease, or for an
      offer that is not active, the session stays as it is. */
  predicate SweepClosed(d: Db, d': Db, lease: Token, id: nat, t: Times, response: Response, offerActive: bool, out: Outcome) {
    var owned, held := Holds(d.working.leases, lease, t.owns), Holds(d.working.leases, lease, t.finish);
    match response
    case Error(code) =>
      && out == Failed
      && (held ==> d'.committed == d'.working == Ended(d.working, lease, "failed", Some(code), t.finish))
      && (!held ==> d'.committed == d'.working == d.committed)
    case Empty =>
      && out == (if owned then NoRates else Lost)
      && (!owned ==> d' == d)
      && (owned && held ==> d'.committed == d'.working == Ended(d.working, lease, "done", None, t.finish))
      && (owned && !held ==> d'.committed == d'.working == d.committed)
    case Rates =>
      && d'.committed == d.committed
      && out == (if !owned then Lost else if offerActive && held then Stored else NotStored)
      && (out != Stored ==> d'.working == d.working)
      && (out == Stored ==>
            d'.working == Ended(d.working, lease, "done", None, t.finish).(observations := d.working.observations + {id}))
  }

  /** How it does in a search: the end of the lease is always committed, together with the
      observations; without the lease everything is rolled back. */
  predicate AreaClosed(d: Db, d': Db, lease: Token, id: nat, t: Times, response: Response, out: Outcome) {
    var held := Holds(d.working.leases, lease, t.finish);
    && d'.committed == d'.working
    && match response
       case Error(_) =>
         && out == Failed
         && d'.working == if held then Ended(d.working, lease, "failed", Some("provider_fetch_failed"), t.finish) else d.committed
       case Empty =>
         && out == NoRates
         && d'.working == if held then Ended(d.working, lease, "done", None, t.finish) else d.committed
       case Rates =>
         && out == (if held then Stored else Lost)
         && d'.working == if held then Ended(d.working, lease, "done", None, t.finish).(observations := d.working.observations + {id})
                          else d.committed
  }

  class Worker {
    const db: Session
    const circuit: CircuitStore
    const ledger: BudgetLedger
    const leases: LeaseStore
    /** The reservations of the calls made so far, and the queries they asked for. */
    ghost var calls: set<nat>
    ghost var queried: set<string>
    /** The largest hard limit the requests are configured with. */
    ghost const limit: nat

    constructor (db: Session, circuit: CircuitStore, ghost limit: nat)
      ensures Wired() && this.db == db && this.circuit == circuit && this.limit == limit && calls == {} && queried == {}
    {
      this.db, this.circuit, this.limit := db, circuit, limit;
      ledger := new BudgetLedger(db);
      leases := new LeaseStore(db);
      calls, queried := {}, {};
    }

    predicate Wired() {
      ledger.db == db && leases.db == db
    }

    function State(): Db
      reads db
    {
      Db(db.committed, db.working)
    }

    ghost predicate Valid()
      reads this, db
    {
      Wired() && Sound(State(), calls, queried, limit)
    }

    /** The calls whose reservation is charged to a window. */
    ghost function CallsIn(key: BudgetKey): set<nat>
      reads this, db
    {
      set id | id in calls && C.Lookup(db.committed.ledger, id).Some? && C.Lookup(db.committed.ledger, id).value.budget == key
    }

    /** So sweeps and searches, in any number and order, never call more often in a window
        than its limit allows. */
    lemma CallsStayWithinLimit(key: BudgetKey)
      requires Valid()
      ensures |CallsIn(key)| <= limit
    {
      C.LiveWithinLedger(db.committed.ledger, key, CallsIn(key));
      if key in db.committed.ledger.budgets {
        assert WithinLimit(db.committed.ledger, key, limit);
      }
    }

    /** Lease and consumption. A lease row that could be taken over is taken over, but the
        conflict has rolled the reservation back, so its consumption fails. */
    method LeaseAndConsume(r: Request, t: Times, permit: Permit, reservation: Handle) returns (a: Admitted)
      requires Wired() && reservation == HandleOf(r)
      requires TransitionMatches(db.working.ledger, reservation) && FreshId(db.committed.ledger, r.reservationId)
      modifies db
      ensures State() == AfterLease(old(State()), r, t)
      ensures if !HasLeaseRow(old(State()), r)
              then a == MayCall(Token(r.fingerprint, r.leaseToken, t.acquire + 60), permit, reservation)
              else a == if r.fingerprint in old(db.committed.leases) && LeaseIsFree(old(db.committed.leases), r, t)
                        then ConsumeFailed else LeaseConflict
      // A new lease commits the reservation. A conflict undoes it; a lease that is not running
      // or has expired is taken over all the same, and closed as failed while it is held.
      ensures a.MayCall? ==>
        && r.fingerprint !in old(db.working.leases) && r.fingerprint !in old(db.committed.leases)
        && a.lease == Token(r.fingerprint, r.leaseToken, t.acquire + 60)
        && db.committed == old(db.working).(leases := old(db.working.leases)[r.fingerprint :=
                             LeaseRow("running", Some(r.leaseToken), Some(t.acquire + 60), 1, None, None)])
        && db.working.leases == db.committed.leases
      ensures a == LeaseConflict ==> db.committed == db.working == old(db.committed)
      ensures a == ConsumeFailed ==>
        && r.fingerprint in old(db.committed.leases)
        && var row := old(db.committed.leases)[r.fingerprint];
           && (row.status != "running" || (row.expiresAt.Some? && row.expiresAt.value <= t.acquire))
           && db.committed == db.working == old(db.committed).(leases := old(db.committed.leases)[r.fingerprint :=
                if t.consumeFailed < t.acquire + 60
                then LeaseRow("failed", Some(r.leaseToken), None, row.attempts + 1, Some(t.consumeFailed), Some("budget_consume_failed"))
                else LeaseRow("running", Some(r.leaseToken), Some(t.acquire + 60), row.attempts + 1, None, None)])
    {
      ghost var before := State();
      var lease := leases.Acquire(r.fingerprint, t.acquire, 60, r.leaseToken);
      if HasLeaseRow(before, r) {
        AbsentCannotMove(db.working.ledger, reservation);
      }
      if lease.None? {
        var _ := ledger.Release(reservation);
        return LeaseConflict;
      }
      var consumed := ledger.Consume(reservation);
      if !consumed {
        var _ := ledger.Release(reservation);
        var _ := leases.Finish(lease.value, "failed", t.consumeFailed, Some("budget_consume_failed"), true);
        return ConsumeFailed;
      }
      a := MayCall(lease.value, permit, reservation);
    }

    /** The budget, and then the lease. */
    method ReserveAndLease(r: Request, t: Times, permit: Permit) returns (a: Admitted)
      requires Wired() && BooksBalance(State()) && Unused(State(), r.reservationId)
      modifies db
      ensures State() == AfterBudget(old(State()), r, t) && !a.SkippedCircuit?
      ensures (db.committed.observations, db.working.observations)
              == ObservedAfter(a, old(db.committed.observations), old(db.working.observations))
      ensures a.BudgetDenied? <==> !BudgetAllows(old(db.working.ledger), r, t)
      ensures a.MayCall? <==> BudgetAllows(old(db.working.ledger), r, t) && !HasLeaseRow(old(State()), r)
      ensures a.MayCall? ==> GrantedTo(a, permit, r, t) && LeaseGranted(db.working.leases, r, t)
    {
      ghost var before := db.working.ledger;
      var reserved := ledger.Reserve(PolicyOf(r), t.reserve, x => x, false, r.reservationId);
      var reservation := reserved.value;
      if !reservation.allowed {
        return BudgetDenied;
      }
      ReservedCanBeConsumed(before, WindowKey(r, t.reserve), PolicyOf(r), r.reservationId);
      a := LeaseAndConsume(r, t, permit, reservation);
    }

    /** The part both callers share: everything up to the permission to call. It tests the
        circuit, then one unit of the day's budget, then the lease row of the query. */
    method AdmitRequest(r: Request, t: Times) returns (a: Admitted)
      requires Wired() && BooksBalance(State()) && Unused(State(), r.reservationId)
      modifies db, circuit
      ensures (db.committed.observations, db.working.observations)
              == ObservedAfter(a, old(db.committed.observations), old(db.working.observations))
      ensures State() == AfterAdmission(old(circuit.committed), old(State()), r, t)
      ensures circuit.committed == CircuitAfter(old(circuit.committed), circuit.durableSavepoints, r, t)
      ensures a.SkippedCircuit? <==> Refused(old(circuit.committed), r, t.admit)
      ensures a.BudgetDenied? <==> !Refused(old(circuit.committed), r, t.admit) && DayIsFull(old(db.working.ledger), r, t.reserve)
      ensures a.MayCall? <==> Permitted(old(circuit.committed), old(State()), r, t)
      ensures a.MayCall? <==>
        && !Refused(old(circuit.committed), r, t.admit) && !DayIsFull(old(db.working.ledger), r, t.reserve)
        && r.fingerprint !in old(db.working.leases) && r.fingerprint !in old(db.committed.leases)
      ensures a.MayCall? ==>
        && AdmissionFor(old(circuit.committed), r, t) == Allowed(a.permit) && GrantedTo(a, a.permit, r, t)
        && LeaseGranted(db.working.leases, r, t)
    {
      RefusedIff(circuit.committed, r, t);
      DayIsFullIff(db.working.ledger, r, t);
      var admission := circuit.Admit((r.provider, r.operation), t.admit, None, None, None, BREAKER_ENV, r.probeToken, r.rival);
      if admission == Skipped {
        return SkippedCircuit;
      }
      a := ReserveAndLease(r, t, admission.permit);
    }

    predicate HoldsLease(lease: Token, now: int)
      reads db
    {
      Holds(db.working.leases, lease, now)
    }

    /** After the provider answered the sweep. A price observation is stored only while
        the lease is still held, and in the transaction that closes the lease. */
    method CloseSweep(a: Admitted, r: Request, t: Times, response: Response, offerActive: bool) returns (out: Outcome)
      requires Wired() && a.MayCall?
      modifies db, circuit
      ensures !out.NotCalled? && (out == Failed <==> response.Error?)
      ensures Answered(old(circuit.committed), circuit.committed, (r.provider, r.operation), a.permit, !response.Error?, t.record)
      ensures SweepClosed(old(State()), State(), a.lease, r.reservationId, t, response, offerActive, out)
      ensures out == Stored <==> response == Rates && offerActive
                                 && old(HoldsLease(a.lease, t.owns)) && old(HoldsLease(a.lease, t.finish))
      ensures if out == Stored
              then db.committed == old(db.committed) && SameButLeaseRows(Observing(old(State()), r.reservationId).working, db.working)
              else Closing(old(State()), State())
      ensures ClosedAs(old(State()), out, r.reservationId, State())
    {
      var key := (r.provider, r.operation);
      ghost var rows := circuit.committed;
      if response.Error? {
        var _ := circuit.Record(key, a.permit, "failed", t.record, None);
        RecordedIsAnswered(rows, circuit.committed, key, a.permit, false, false, t.record);
        var _ := leases.Finish(a.lease, "failed", t.finish, Some(response.code), true);
        return Failed;
      }
      var _ := circuit.Record(key, a.permit, if response == Rates then "success" else "empty", t.record, None);
      RecordedIsAnswered(rows, circuit.committed, key, a.permit, true, response == Empty, t.record);
      var owns := leases.OwnsActiveLease(a.lease, t.owns);
      if !owns {
        return Lost;
      }
      if response == Empty {
        var _ := leases.Finish(a.lease, "done", t.finish, None, true);
        return NoRates;
      }
      if !offerActive {
        return NotStored;
      }
      var finished := leases.Finish(a.lease, "done", t.finish, None, false);
      if finished != Some(true) {
        return NotStored;
      }
      db.working := db.working.(observations := db.working.observations + {r.reservationId});
      out := Stored;
    }

    /** Admission as the two callers see it; it also remembers the query of a permitted call. */
    method Admit(r: Request, t: Times) returns (a: Admitted)
      requires Valid() && Unused(State(), r.reservationId) && r.hardLimit <= limit
      modifies db, circuit, this`queried
      ensures Valid() && State() == AfterAdmission(old(circuit.committed), old(State()), r, t)
      ensures a.MayCall? <==> Permitted(old(circuit.committed), old(State()), r, t)
      ensures a.MayCall? ==>
                && Backed(State(), r.reservationId)
                && r.fingerprint in db.committed.leases && r.fingerprint in db.working.leases
                && r.fingerprint !in old(queried)
      ensures queried == old(queried) + if a.MayCall? then {r.fingerprint} else {}
      ensures db.committed.leases.Keys == old(db.committed.leases.Keys) + if a.MayCall? then {r.fingerprint} else {}
      ensures a.MayCall? || RollsBack(a) ==> (a.MayCall? <==> r.fingerprint !in old(db.committed.leases.Keys))
      ensures (db.committed.observations, db.working.observations)
              == ObservedAfter(a, old(db.committed.observations), old(db.working.observations))
      ensures forall id :: Backed(old(State()), id) ==> Backed(State(), id)
      ensures forall id :: id != r.reservationId && Unused(old(State()), id) ==> Unused(State(), id)
      ensures circuit.committed == CircuitAfter(old(circuit.committed), circuit.durableSavepoints, r, t)
      ensures a.MayCall? ==>
        && AdmissionFor(old(circuit.committed), r, t) == Allowed(a.permit) && GrantedTo(a, a.permit, r, t)
        && LeaseGranted(db.working.leases, r, t) && LeaseGranted(db.committed.leases, r, t)
    {
      AdmissionKeepsSound(circuit.committed, State(), r, t, calls, queried, limit);
      LeaseKeysAfter(circuit.committed, State(), r, t);
      a := AdmitRequest(r, t);
      queried := queried + if a.MayCall? then {r.fingerprint} else {};
    }

    /** A permitted call and the closing of its request. */
    method CallAndClose(a: Admitted, r: Request, t: Times, response: Response, offerActive: bool) returns (out: Outcome)
      requires Valid() && a.MayCall? && Backed(State(), r.reservationId)
      requires db.committed.observations == db.working.observations
      modifies db, circuit, this`calls
      ensures Valid() && calls == old(calls) + {r.reservationId}
      ensures !out.NotCalled? && ClosedAs(old(State()), out, r.reservationId, State())
      ensures db.committed.observations == old(db.working.observations)
              && db.working.observations == old(db.working.observations) + if out == Stored then {r.reservationId} else {}
      ensures db.committed.leases.Keys == old(db.committed.leases.Keys)
      ensures forall id :: Unused(old(State()), id) ==> Unused(State(), id)
      ensures Answered(old(circuit.committed), circuit.committed, (r.provider, r.operation), a.permit, !response.Error?, t.record)
      ensures SweepClosed(old(State()), State(), a.lease, r.reservationId, t, response, offerActive, out)
    {
      calls := calls + {r.reservationId};
      ghost var d := State();
      out := CloseSweep(a, r, t, response, offerActive);
      ClosedKeepsSound(d, State(), out, r.reservationId, calls, queried, limit);
    }

    /** One offer of the sweep: a call is made exactly when the circuit admits it, the
        window has room and the query has no lease row yet, so only for a query never
        asked before; and its reservation then stays counted whatever becomes of the lease.
        It leaves the breaker row as the answer says, and the lease row too. */
    method SweepOffer(r: Request, t: Times, response: Response, offerActive: bool) returns (out: Outcome)
      requires Valid() && Unused(State(), r.reservationId) && r.hardLimit <= limit
      modifies db, circuit, this`calls, this`queried
      ensures Valid()
      ensures var d := AfterAdmission(old(circuit.committed), old(State()), r, t);
              if out.NotCalled? then State() == d else ClosedAs(d, out, r.reservationId, State())
      ensures !out.NotCalled? <==> Permitted(old(circuit.committed), old(State()), r, t)
      ensures if out.NotCalled? then calls == old(calls) && queried == old(queried)
              else r.fingerprint !in old(queried)
                   && calls == old(calls) + {r.reservationId} && queried == old(queried) + {r.fingerprint}
      ensures if out.NotCalled?
              then !out.why.MayCall? && (db.committed.observations, db.working.observations)
                   == ObservedAfter(out.why, old(db.committed.observations), old(db.working.observations))
              else db.committed.observations == old(db.working.observations)
                   && db.working.observations == old(db.working.observations) + if out == Stored then {r.reservationId} else {}
      ensures db.committed.leases.Keys == old(db.committed.leases.Keys) + if Commits(out) then {r.fingerprint} else {}
      ensures Reaches(out) ==> (Commits(out) <==> r.fingerprint !in old(db.committed.leases.Keys))
      ensures forall id :: id != r.reservationId && Unused(old(State()), id) ==> Unused(State(), id)
      ensures CircuitFollows(old(circuit.committed), circuit.committed, circuit.durableSavepoints, r, t, CourseOf(out, response))
      ensures !out.NotCalled? ==> out == SweepOutcome(r, t, response, offerActive) && LeaseLeft(State(), r, t, response, out)
    {
      ghost var rows := circuit.committed;
      var a := Admit(r, t);
      AdmittedCircuit(rows, circuit.durableSavepoints, r, t);
      if !a.MayCall? {
        return NotCalled(a);
      }
      ghost var d := State();
      out := CallAndClose(a, r, t, response, offerActive);
      CalledCircuit(rows, circuit.committed, circuit.durableSavepoints, r, t, !response.Error?);
      ClosedLeaseLeft(d, State(), a, r, t, response, offerActive, out);
    }

    /** The later requests of a sweep are still unused. */
    predicate Fresh(rs: seq<Request>, from: nat)
      reads db
    {
      forall j :: from <= j < |rs| ==> Unused(State(), rs[j].reservationId)
    }

    /** One iteration of the sweep. */
    method SweepNext(r: Request, t: Times, response: Response, offerActive: bool,
                     ghost rs: seq<Request>, ghost outs: seq<Outcome>, ghost before: set<string>)
      returns (out: Outcome)
      requires Valid() && DistinctIds(rs) && |outs| < |rs| && r == rs[|outs|] && r.hardLimit <= limit
      requires Fresh(rs, |outs|) && Observed(rs, outs, db.committed.observations, db.working.observations)
      requires LeasedBy(rs, outs, before, db.committed.leases.Keys)
      modifies db, circuit, this`calls, this`queried
      ensures Valid() && Fresh(rs, |outs| + 1)
      ensures Observed(rs, outs + [out], db.committed.observations, db.working.observations)
      ensures LeasedBy(rs, outs + [out], before, db.committed.leases.Keys)
      ensures SweptStep(old(circuit.committed), old(State()), r, t, out, State())
    {
      ghost var c, w := db.committed.observations, db.working.observations;
      ghost var leased := db.committed.leases.Keys;
      out := SweepOffer(r, t, response, offerActive);
      ObservedGoesOn(rs, outs, out, c, w, db.committed.observations, db.working.observations);
      LeasedGoesOn(rs, outs, out, before, leased);
    }

    /** A whole sweep and the commit that ends its run. A request that reaches its lease is
        called exactly if its query is new, and an observation that was stored is committed in
        the end exactly if the next request to reach its lease, if any, is for a new query. */
    method SweepOffers(rs: seq<Request>, ts: seq<Times>, responses: seq<Response>, active: seq<bool>)
      returns (outs: seq<Outcome>, ghost rows: seq<map<Circuit.Key, Circuit.Row>>, ghost dbs: seq<Db>)
      requires Valid() && |ts| == |responses| == |active| == |rs| && DistinctIds(rs)
      requires NewIds(rs, db.working.observations) && Fresh(rs, 0)
      requires forall i :: 0 <= i < |rs| ==> rs[i].hardLimit <= limit
      modifies db, circuit, this`calls, this`queried
      ensures Valid() && |outs| == |rs|
      ensures forall i :: 0 <= i < |rs| && Reaches(outs[i]) ==>
                (Commits(outs[i]) <==> NewQuery(rs, outs, old(db.committed.leases.Keys), i))
      ensures forall i :: 0 <= i < |rs| ==>
                (rs[i].reservationId in db.committed.observations
                 <==> outs[i] == Stored && NextIsNew(rs, outs, old(db.committed.leases.Keys), i))
      ensures SweptAlong(rs, ts, outs, rows, dbs) && dbs[0] == old(State())
      ensures db.committed == db.working == dbs[|rs|].working
    {
      outs, rows, dbs := [], [], [State()];
      ghost var before := db.committed.leases.Keys;
      for i := 0 to |rs|
        invariant Valid() && |outs| == i && Fresh(rs, i)
        invariant Observed(rs, outs, db.committed.observations, db.working.observations)
        invariant LeasedBy(rs, outs, before, db.committed.leases.Keys)
        invariant SweptAlong(rs, ts, outs, rows, dbs) && dbs[0] == old(State()) && dbs[i] == State()
      {
        ghost var row := circuit.committed;
        var out := SweepNext(rs[i], ts[i], responses[i], active[i], rs, outs, before);
        SweptGoesOn(rs, ts, outs, rows, dbs, out, row, State());
        outs, rows, dbs := outs + [out], rows + [row], dbs + [State()];
      }
      forall i | 0 <= i < |rs| ensures Survives(outs, i) <==> NextIsNew(rs, outs, before, i) {
        SurvivesIffNextIsNew(rs, outs, before, db.committed.leases.Keys, i);
      }
      db.Commit();
    }

    /** After the provider answered the area search. The closing of the lease commits the
        observations that were added before it; without the lease they are rolled back. */
    method CloseArea(a: Admitted, r: Request, t: Times, response: Response) returns (out: Outcome)
      requires Wired() && a.MayCall?
      modifies db, circuit
      ensures !out.NotCalled?
      ensures out == Stored <==> response == Rates && old(HoldsLease(a.lease, t.finish))
      ensures out == Stored ==> db.committed == db.working && EndedBy(Observing(old(State()), r.reservationId), State(), true)
      ensures out == Lost ==> db.committed == db.working == old(db.committed)
      ensures out != Stored ==> Closing(old(State()), State())
      ensures Answered(old(circuit.committed), circuit.committed, (r.provider, r.operation), a.permit, !response.Error?, t.record)
      ensures AreaClosed(old(State()), State(), a.lease, r.reservationId, t, response, out)
    {
      var key := (r.provider, r.operation);
      ghost var rows := circuit.committed;
      match response {
        case Error(_) =>
          var _ := circuit.Record(key, a.permit, "failed", t.record, None);
          RecordedIsAnswered(rows, circuit.committed, key, a.permit, false, false, t.record);
          var _ := leases.Finish(a.lease, "failed", t.finish, Some("provider_fetch_failed"), true);
          return Failed;
        case Empty =>
          var _ := circuit.Record(key, a.permit, "empty", t.record, None);
          RecordedIsAnswered(rows, circuit.committed, key, a.permit, true, true, t.record);
          var _ := leases.Finish(a.lease, "done", t.finish, None, true);
          return NoRates;
        case Rates =>
          var _ := circuit.Record(key, a.permit, "success", t.record, None);
          RecordedIsAnswered(rows, circuit.committed, key, a.permit, true, false, t.record);
          db.working := db.working.(observations := db.working.observations + {r.reservationId});
          var finished := leases.Finish(a.lease, "done", t.finish, None, true);
          if finished != Some(true) {
            db.Rollback();
            return Lost;
          }
          return Stored;
      }
    }

    /** One iteration of the admission loop. */
    method AdmitNext(rs: seq<Request>, t: Times, admitted: seq<Admitted>, ghost before: set<string>) returns (a: Admitted)
      requires Valid() && DistinctIds(rs) && |admitted| < |rs| && rs[|admitted|].hardLimit <= limit
      requires SearchState(State(), rs, admitted) && QueriesAreNew(queried, rs, admitted, before)
      modifies db, circuit, this`queried
      ensures db.working.observations <= old(db.working.observations)
      ensures Valid() && SearchState(State(), rs, admitted + [a]) && QueriesAreNew(queried, rs, admitted + [a], before)
      ensures AdmittedStep(old(circuit.committed), old(State()), rs[|admitted|], t, a, State())
    {
      var r := rs[|admitted|];
      ghost var d := State();
      a := Admit(r, t);
      SearchGoesOn(d, State(), rs, admitted, a);
      QueriesGoOn(old(queried), rs, admitted, before, a);
    }

    method AdmitAll(rs: seq<Request>, ts: seq<Times>)
      returns (admitted: seq<Admitted>, ghost rows: seq<map<Circuit.Key, Circuit.Row>>, ghost dbs: seq<Db>)
      requires Valid() && |ts| == |rs| && DistinctIds(rs) && SearchState(State(), rs, [])
      requires forall i :: 0 <= i < |rs| ==> rs[i].hardLimit <= limit
      modifies db, circuit, this`queried
      ensures db.working.observations <= old(db.working.observations)
      ensures Valid() && |admitted| == |rs| && SearchState(State(), rs, admitted) && QueriesAreNew(queried, rs, admitted, old(queried))
      ensures AdmittedAlong(rs, ts, admitted, rows, dbs) && dbs[0] == old(State()) && dbs[|rs|] == State()
    {
      admitted, rows, dbs := [], [], [State()];
      for i := 0 to |rs|
        invariant Valid() && |admitted| == i && SearchState(State(), rs, admitted) && QueriesAreNew(queried, rs, admitted, old(queried))
        invariant db.working.observations <= old(db.working.observations)
        invariant AdmittedAlong(rs, ts, admitted, rows, dbs) && dbs[0] == old(State()) && dbs[i] == State()
      {
        ghost var row := circuit.committed;
        var a := AdmitNext(rs, ts[i], admitted, old(queried));
        AlongGoesOn(rs, ts, admitted, rows, dbs, a, row, State());
        admitted, rows, dbs := admitted + [a], rows + [row], dbs + [State()];
      }
    }

    /** One answered call of a search, or a request that was not permitted. */
    method CloseOne(a: Admitted, r: Request, t: Times, response: Response) returns (out: Outcome)
      requires Valid()
      modifies db, circuit
      ensures Valid() && (out.NotCalled? <==> !a.MayCall?)
      ensures if out.NotCalled? then State() == old(State()) else ClosedAs(old(State()), out, r.reservationId, State())
      ensures old(db.committed.observations) <= db.committed.observations
      ensures db.committed.observations <= old(db.working.observations) + if out == Stored then {r.reservationId} else {}
      ensures db.working.observations <= old(db.working.observations) + if out == Stored then {r.reservationId} else {}
      ensures out == Stored ==> r.reservationId in db.committed.observations
      ensures out.NotCalled? ==> circuit.committed == old(circuit.committed)
      ensures !out.NotCalled? ==>
        && Answered(old(circuit.committed), circuit.committed, (r.provider, r.operation), a.permit, !response.Error?, t.record)
        && AreaClosed(old(State()), State(), a.lease, r.reservationId, t, response, out)
    {
      out := NotCalled(a);
      if a.MayCall? {
        ghost var d := State();
        out := CloseArea(a, r, t, response);
        ClosedKeepsSound(d, State(), out, r.reservationId, calls, queried, limit);
      }
    }

    /** The calls are answered, and closed, in any order. */
    method CloseAll(admitted: seq<Admitted>, rs: seq<Request>, ts: seq<Times>, responses: seq<Response>)
      returns (outs: map<nat, Outcome>, ghost order: seq<nat>, ghost dbs: seq<Db>)
      requires Valid() && |ts| == |responses| == |admitted| == |rs| && DistinctIds(rs)
      requires NewIds(rs, db.working.observations)
      modifies db, circuit
      ensures Valid() && outs.Keys == UpTo(|rs|)
      ensures forall i :: 0 <= i < |rs| ==> (outs[i].NotCalled? <==> !admitted[i].MayCall?)
      ensures forall i :: 0 <= i < |rs| ==> (outs[i] == Stored <==> rs[i].reservationId in db.committed.observations)
      ensures ClosedAlong(rs, outs, order, dbs) && dbs[0] == old(State()) && dbs[|order|] == State()
    {
      outs, order, dbs := map[], [], [State()];
      var rest := UpTo(|rs|);
      while rest != {}
        invariant Valid() && outs.Keys !! rest && outs.Keys + rest == UpTo(|rs|)
        invariant ClosedSoFar(rs, admitted, outs, db.committed.observations, db.working.observations)
        invariant ClosedAlong(rs, outs, order, dbs) && dbs[0] == old(State()) && dbs[|order|] == State()
        decreases rest
      {
        var i :| i in rest;
        ghost var c, w := db.committed.observations, db.working.observations;
        var out := CloseOne(admitted[i], rs[i], ts[i], responses[i]);
        CloseOneMore(rs, admitted, outs, i, out, c, w, db.committed.observations, db.working.observations);
        ClosedGoesOn(rs, outs, order, dbs, i, out, State());
        outs, order, dbs := outs[i := out], order + [i], dbs + [State()];
        rest := rest - {i};
      }
    }

    /** All requests of a search are admitted first, then all permitted calls are made,
        then their leases are closed as the answers come in. A later conflict rolls back
        earlier consumptions, but never the reservation of a call nor an observation. */
    method AreaSearch(rs: seq<Request>, ts: seq<Times>, responses: seq<Response>)
      returns (admitted: seq<Admitted>, outs: map<nat, Outcome>, ghost trace: Trace)
      requires Valid() && |ts| == |responses| == |rs| && DistinctIds(rs) && SearchState(State(), rs, [])
      requires NewIds(rs, db.working.observations)
      requires forall i :: 0 <= i < |rs| ==> rs[i].hardLimit <= limit
      modifies db, circuit, this`calls, this`queried
      ensures Valid() && |admitted| == |rs| && outs.Keys == UpTo(|rs|)
      ensures calls == old(calls) + set i | 0 <= i < |rs| && admitted[i].MayCall? :: rs[i].reservationId
      ensures QueriesAreNew(queried, rs, admitted, old(queried))
      ensures forall i :: 0 <= i < |rs| ==> (outs[i].NotCalled? <==> !admitted[i].MayCall?)
      ensures forall i :: 0 <= i < |rs| ==> (outs[i] == Stored <==> rs[i].reservationId in db.committed.observations)
      ensures AdmittedAlong(rs, ts, admitted, trace.rows, trace.admitting) && ClosedAlong(rs, outs, trace.order, trace.closing)
      ensures && trace.admitting[0] == old(State()) && trace.closing[0] == trace.admitting[|rs|]
              && trace.closing[|trace.order|] == State()
    {
      ghost var rows, admitting, order, closing;
      admitted, rows, admitting := AdmitAll(rs, ts);
      calls := calls + set i | 0 <= i < |rs| && admitted[i].MayCall? :: rs[i].reservationId;
      outs, order, closing := CloseAll(admitted, rs, ts, responses);
      trace := Trace(rows, admitting, order, closing);
    }
  }
}
