/** A request of the sweep or the area search, as the call machine of one budget window sees
    it: its own requests take the steps of an admission, and requests of other windows only
    end the session's transaction and add lease rows. */
module CallConformance {
  import opened Sql
  import opened Database
  import opened Budget
  import opened Calls
  import opened Admission
  import S = Sweep
  import Circuit

  // ---------- the part of a ledger that belongs to one window ----------

  function ChargedTo(rs: seq<Reservation>, key: BudgetKey): seq<Reservation> {
    if rs == [] then []
    else
      var rest, last := rs[..|rs| - 1], rs[|rs| - 1];
      ChargedTo(rest, key) + if last.budget == key then [last] else []
  }

  function RowOn(budgets: map<BudgetKey, BudgetRow>, key: BudgetKey): map<BudgetKey, BudgetRow> {
    if key in budgets then map[key := budgets[key]] else map[]
  }

  function On(l: Ledger, key: BudgetKey): Ledger {
    Ledger(RowOn(l.budgets, key), ChargedTo(l.reservations, key))
  }

  lemma ChargedToAppend(rs: seq<Reservation>, r: Reservation, key: BudgetKey)
    ensures ChargedTo(rs + [r], key) == ChargedTo(rs, key) + if r.budget == key then [r] else []
  {
    assert (rs + [r])[..|rs|] == rs;
  }

  lemma {:induction false} ChargedToIds(rs: seq<Reservation>, key: BudgetKey, id: nat)
    requires forall i :: 0 <= i < |rs| ==> rs[i].id != id
    ensures forall i :: 0 <= i < |ChargedTo(rs, key)| ==> ChargedTo(rs, key)[i].id != id
  {
    if rs != [] {
      ChargedToIds(rs[..|rs| - 1], key, id);
    }
  }

  lemma FindLast(rs: seq<Reservation>, r: Reservation)
    requires forall i :: 0 <= i < |rs| ==> rs[i].id != r.id
    ensures Find(rs + [r], r.id) == |rs|
  {
    assert (rs + [r])[|rs|] == r;
  }

  lemma EnsuredOn(l: Ledger, key: BudgetKey, p: Policy)
    ensures EnsuredRow(On(l, key), key, p, false) == EnsuredRow(l, key, p, false)
  {
  }

  /** The reservation of a request, as the ledger stores it. */
  function StoredFor(r: Request, t: Times, status: ReservationStatus): Reservation {
    Reservation(r.reservationId, WindowKey(r, t.reserve), 1, status)
  }

  /** A ledger with one row put and perhaps a reservation added. */
  function Put(l: Ledger, own: BudgetKey, row: BudgetRow, added: Option<Reservation>): Ledger {
    Ledger(l.budgets[own := row], if added.None? then l.reservations else l.reservations + [added.value])
  }

  lemma PutOnOwn(l: Ledger, key: BudgetKey, row: BudgetRow, added: Option<Reservation>)
    requires added.Some? ==> added.value.budget == key
    ensures On(Put(l, key, row, added), key) == Put(On(l, key), key, row, added)
  {
    if added.Some? {
      ChargedToAppend(l.reservations, added.value, key);
    }
    assert RowOn(l.budgets[key := row], key) == RowOn(l.budgets, key)[key := row];
  }

  lemma PutOnOther(l: Ledger, own: BudgetKey, row: BudgetRow, added: Option<Reservation>, key: BudgetKey)
    requires own != key && (added.Some? ==> added.value.budget == own)
    ensures On(Put(l, own, row, added), key) == On(l, key)
  {
    if added.Some? {
      ChargedToAppend(l.reservations, added.value, key);
    }
  }

  function ReservedRow(row: BudgetRow): BudgetRow {
    if Room(row, 1) then row.(reserved := row.reserved + 1) else row
  }

  function ReservedFor(row: BudgetRow, r: Request, t: Times): Option<Reservation> {
    if Room(row, 1) then Some(StoredFor(r, t, Reserved)) else None
  }

  lemma ReservedIsPut(l: Ledger, r: Request, t: Times)
    ensures var own := WindowKey(r, t.reserve); var row := EnsuredRow(l, own, PolicyOf(r), false);
            Reserved1(l, r, t) == Put(l, own, ReservedRow(row), ReservedFor(row, r, t))
  {
  }

  /** Reserving commutes with looking at one window. */
  lemma ReserveOn(l: Ledger, r: Request, t: Times, key: BudgetKey)
    ensures On(Reserved1(l, r, t), key) == if WindowKey(r, t.reserve) == key then Reserved1(On(l, key), r, t) else On(l, key)
    ensures WindowKey(r, t.reserve) == key ==> (BudgetAllows(l, r, t) <==> BudgetAllows(On(l, key), r, t))
  {
    var own := WindowKey(r, t.reserve);
    var row := EnsuredRow(l, own, PolicyOf(r), false);
    ReservedIsPut(l, r, t);
    if own == key {
      EnsuredOn(l, key, PolicyOf(r));
      ReservedIsPut(On(l, key), r, t);
      PutOnOwn(l, key, ReservedRow(row), ReservedFor(row, r, t));
    } else {
      PutOnOther(l, own, ReservedRow(row), ReservedFor(row, r, t), key);
    }
  }

  lemma UseLast(l: Ledger, r: Request, t: Times)
    requires FreshId(l, r.reservationId) && BudgetAllows(l, r, t)
    requires TransitionMatches(Reserved1(l, r, t), HandleOf(r))
    ensures var own := WindowKey(r, t.reserve); var row := EnsuredRow(l, own, PolicyOf(r), false);
            && Transitioned(Reserved1(l, r, t), HandleOf(r), Used) == Put(l, own, row.(used := row.used + 1), Some(StoredFor(r, t, Used)))
            && Used1(Reserved1(l, r, t), r) == Transitioned(Reserved1(l, r, t), HandleOf(r), Used)
  {
    ReservedIsPut(l, r, t);
    FindLast(l.reservations, StoredFor(r, t, Reserved));
  }

  lemma OnReservable(l: Ledger, r: Request, t: Times, key: BudgetKey)
    requires FreshId(l, r.reservationId) && BudgetAllows(l, r, t) && WindowKey(r, t.reserve) == key
    requires TransitionMatches(Reserved1(l, r, t), HandleOf(r))
    ensures FreshId(On(l, key), r.reservationId) && BudgetAllows(On(l, key), r, t)
    ensures TransitionMatches(Reserved1(On(l, key), r, t), HandleOf(r))
  {
    ChargedToIds(l.reservations, key, r.reservationId);
    FindLast(l.reservations, Reservation(r.reservationId, key, 1, Reserved));
    FindLast(On(l, key).reservations, Reservation(r.reservationId, key, 1, Reserved));
  }

  /** So does reserving and consuming. */
  lemma UseOnOwn(l: Ledger, r: Request, t: Times, key: BudgetKey)
    requires FreshId(l, r.reservationId) && BudgetAllows(l, r, t) && WindowKey(r, t.reserve) == key
    requires TransitionMatches(Reserved1(l, r, t), HandleOf(r))
    ensures TransitionMatches(Reserved1(On(l, key), r, t), HandleOf(r))
    ensures On(Used1(Reserved1(l, r, t), r), key) == Transitioned(Reserved1(On(l, key), r, t), HandleOf(r), Used)
  {
    var row := EnsuredRow(l, key, PolicyOf(r), false);
    OnReservable(l, r, t, key);
    EnsuredOn(l, key, PolicyOf(r));
    UseLast(l, r, t);
    UseLast(On(l, key), r, t);
    PutOnOwn(l, key, row.(used := row.used + 1), Some(StoredFor(r, t, Used)));
  }

  lemma UseOnOther(l: Ledger, r: Request, t: Times, key: BudgetKey)
    requires FreshId(l, r.reservationId) && BudgetAllows(l, r, t) && WindowKey(r, t.reserve) != key
    requires TransitionMatches(Reserved1(l, r, t), HandleOf(r))
    ensures On(Used1(Reserved1(l, r, t), r), key) == On(l, key)
  {
    var own := WindowKey(r, t.reserve);
    var row := EnsuredRow(l, own, PolicyOf(r), false);
    UseLast(l, r, t);
    PutOnOther(l, own, row.(used := row.used + 1), Some(StoredFor(r, t, Used)), key);
  }

  // ---------- a session in the call machine ----------

  /** The world shows what this session sees of the window, and no other session's
      transaction is open on it. */
  ghost predicate Shows(key: BudgetKey, w: World, sid: nat, d: Db) {
    && w.committed == On(d.committed.ledger, key) && Visible(w, sid) == On(d.working.ledger, key)
    && Free(w, sid) && sid !in w.phases
    && d.committed.leases.Keys == d.working.leases.Keys
    && forall f :: HasLease(w, f) <==> f in d.committed.leases
  }

  lemma RunOne(key: BudgetKey, w: World, a: Step)
    ensures Run(key, w, [a]) == Apply(key, w, a)
  {
    assert [a][1..] == [] && Run(key, Apply(key, w, a), []) == Apply(key, w, a);
  }

  lemma RunTwo(key: BudgetKey, w: World, a: Step, b: Step)
    ensures Run(key, w, [a, b]) == Apply(key, Apply(key, w, a), b)
  {
    assert [a, b][1..] == [b];
    RunOne(key, Apply(key, w, a), b);
  }

  lemma RunThree(key: BudgetKey, w: World, a: Step, b: Step, c: Step)
    ensures Run(key, w, [a, b, c]) == Apply(key, Apply(key, Apply(key, w, a), b), c)
  {
    assert [a, b, c][1..] == [b, c];
    RunTwo(key, Apply(key, w, a), b, c);
  }

  // ---------- admission ----------

  /** How the lease answers a request that reaches it. */
  function AnswerTo(d: Db, r: Request, t: Times): Answer {
    if !HasLeaseRow(d, r) then Inserted
    else if r.fingerprint in d.committed.leases && LeaseIsFree(d.committed.leases, r, t) then TookOver
    else Refused
  }

  function ReserveOf(r: Request, sid: nat): Step {
    Reserve(sid, r.reservationId, PolicyOf(r), false)
  }

  function AdmissionSteps(rows: map<Circuit.Key, Circuit.Row>, d: Db, r: Request, t: Times, key: BudgetKey, sid: nat): seq<Step> {
    var own, answer := WindowKey(r, t.reserve) == key, AnswerTo(d, r, t);
    var reserve, acquire := ReserveOf(r, sid), Acquire(sid, r.fingerprint, answer);
    if !CircuitAllows(rows, r, t) then []
    else if !BudgetAllows(d.working.ledger, r, t) then (if own then [reserve] else [])
    else if !own then (if answer == Inserted then [End(sid, true), LeaseElsewhere(r.fingerprint)] else [End(sid, false)])
    else if answer == Refused then [reserve, acquire]
    else [reserve, acquire, Consume(sid, true)]
  }

  /** The admission took its steps: the next world shows the next session, and the call is
      ready exactly if it is permitted. */
  ghost predicate Admits(rows: map<Circuit.Key, Circuit.Row>, key: BudgetKey, w: World, w': World, sid: nat, d: Db, r: Request, t: Times) {
    && Shows(key, w', sid, AfterAdmission(rows, d, r, t))
    && w'.calls == w.calls && w'.issued <= w.issued + {r.reservationId}
    && w'.ready == if Permitted(rows, d, r, t) && WindowKey(r, t.reserve) == key
                   then w.ready[r.reservationId := r.fingerprint] else w.ready
  }

  /** What an admission may start from. */
  ghost predicate MayStart(key: BudgetKey, w: World, sid: nat, d: Db, r: Request) {
    && Shows(key, w, sid, d) && BooksBalance(d) && Unused(d, r.reservationId) && r.reservationId !in w.issued
  }

  /** The session holds a reservation: what it sees is `l`, and nothing else has changed. */
  predicate Holding(w: World, w1: World, sid: nat, r: Request, l: Ledger) {
    && Visible(w1, sid) == l && w1.committed == w.committed && Free(w1, sid)
    && w1.phases == w.phases[sid := Held(HandleOf(r))]
    && w1.inserted == w.inserted && w1.elsewhere == w.elsewhere && w1.ready == w.ready && w1.calls == w.calls
    && w1.issued == w.issued + {r.reservationId}
  }

  lemma HoldStep(key: BudgetKey, w: World, sid: nat, d: Db, r: Request, t: Times)
    requires MayStart(key, w, sid, d, r) && WindowKey(r, t.reserve) == key && BudgetAllows(d.working.ledger, r, t)
    ensures Holding(w, Apply(key, w, ReserveOf(r, sid)), sid, r, Reserved1(On(d.working.ledger, key), r, t))
  {
    ReserveOn(d.working.ledger, r, t, key);
  }

  lemma DenyStep(key: BudgetKey, w: World, sid: nat, d: Db, r: Request, t: Times)
    requires MayStart(key, w, sid, d, r) && WindowKey(r, t.reserve) == key && !BudgetAllows(d.working.ledger, r, t)
    ensures var w1 := Apply(key, w, ReserveOf(r, sid));
            && Visible(w1, sid) == On(Reserved1(d.working.ledger, r, t), key) && w1.committed == w.committed && Free(w1, sid)
            && w1.phases == w.phases && w1.inserted == w.inserted && w1.elsewhere == w.elsewhere
            && w1.ready == w.ready && w1.calls == w.calls && w1.issued == w.issued + {r.reservationId}
  {
    ReserveOn(d.working.ledger, r, t, key);
  }

  /** Past its lease: the transaction has ended, and what is left is to consume. */
  predicate Leasing(w: World, w2: World, sid: nat, r: Request, l: Ledger, inserted: map<string, nat>) {
    && w2.committed == l && Visible(w2, sid) == l && Free(w2, sid)
    && w2.phases == w.phases[sid := Leased(HandleOf(r), r.fingerprint)]
    && w2.inserted == inserted && w2.elsewhere == w.elsewhere && w2.ready == w.ready && w2.calls == w.calls
    && w2.issued == w.issued + {r.reservationId}
  }

  lemma InsertStep(key: BudgetKey, w: World, w1: World, sid: nat, r: Request, l: Ledger)
    requires Holding(w, w1, sid, r, l) && !HasLease(w, r.fingerprint)
    ensures Leasing(w, Apply(key, w1, Acquire(sid, r.fingerprint, Inserted)), sid, r, l, w.inserted[r.fingerprint := r.reservationId])
  {
    assert w1.phases[sid := Leased(HandleOf(r), r.fingerprint)] == w.phases[sid := Leased(HandleOf(r), r.fingerprint)];
  }

  lemma TakeOverStep(key: BudgetKey, w: World, w1: World, sid: nat, r: Request, l: Ledger)
    requires Holding(w, w1, sid, r, l) && HasLease(w, r.fingerprint)
    ensures Leasing(w, Apply(key, w1, Acquire(sid, r.fingerprint, TookOver)), sid, r, w.committed, w.inserted)
  {
    assert w1.phases[sid := Leased(HandleOf(r), r.fingerprint)] == w.phases[sid := Leased(HandleOf(r), r.fingerprint)];
  }

  /** The request is over and has left the admission. */
  predicate Over(w: World, w3: World, sid: nat, r: Request, committed: Ledger, visible: Ledger, inserted: map<string, nat>) {
    && w3.committed == committed && Visible(w3, sid) == visible && Free(w3, sid)
    && w3.phases == w.phases && w3.inserted == inserted && w3.elsewhere == w.elsewhere && w3.calls == w.calls
    && w3.issued == w.issued + {r.reservationId}
  }

  lemma UseStep(key: BudgetKey, w: World, w2: World, sid: nat, r: Request, l: Ledger, inserted: map<string, nat>)
    requires Leasing(w, w2, sid, r, l, inserted) && sid !in w.phases && TransitionMatches(l, HandleOf(r))
    ensures var w3 := Apply(key, w2, Consume(sid, true));
            && Over(w, w3, sid, r, l, Transitioned(l, HandleOf(r), Used), inserted)
            && w3.ready == w.ready[r.reservationId := r.fingerprint]
  {
    assert w2.phases - {sid} == w.phases;
  }

  lemma FailToUseStep(key: BudgetKey, w: World, w2: World, sid: nat, r: Request, l: Ledger, inserted: map<string, nat>)
    requires Leasing(w, w2, sid, r, l, inserted) && sid !in w.phases && !TransitionMatches(l, HandleOf(r))
    ensures var w3 := Apply(key, w2, Consume(sid, true));
            Over(w, w3, sid, r, l, l, inserted) && w3.ready == w.ready
  {
    assert w2.phases - {sid} == w.phases;
  }

  lemma RefuseStep(key: BudgetKey, w: World, w1: World, sid: nat, r: Request, l: Ledger)
    requires Holding(w, w1, sid, r, l) && sid !in w.phases && HasLease(w, r.fingerprint)
    requires !TransitionMatches(w.committed, HandleOf(r))
    ensures var w2 := Apply(key, w1, Acquire(sid, r.fingerprint, Refused));
            Over(w, w2, sid, r, w.committed, w.committed, w.inserted) && w2.ready == w.ready
  {
    assert w1.phases - {sid} == w.phases;
  }

  lemma PermittedRun(key: BudgetKey, w: World, sid: nat, d: Db, r: Request, t: Times)
    requires MayStart(key, w, sid, d, r) && WindowKey(r, t.reserve) == key
    requires BudgetAllows(d.working.ledger, r, t) && !HasLease(w, r.fingerprint)
    requires TransitionMatches(Reserved1(On(d.working.ledger, key), r, t), HandleOf(r))
    ensures var reserved := Reserved1(On(d.working.ledger, key), r, t);
            var w3 := Run(key, w, [ReserveOf(r, sid), Acquire(sid, r.fingerprint, Inserted), Consume(sid, true)]);
            && Over(w, w3, sid, r, reserved, Transitioned(reserved, HandleOf(r), Used), w.inserted[r.fingerprint := r.reservationId])
            && w3.ready == w.ready[r.reservationId := r.fingerprint]
  {
    var reserved := Reserved1(On(d.working.ledger, key), r, t);
    var a, b, c := ReserveOf(r, sid), Acquire(sid, r.fingerprint, Inserted), Consume(sid, true);
    RunThree(key, w, a, b, c);
    HoldStep(key, w, sid, d, r, t);
    var w1 := Apply(key, w, a);
    InsertStep(key, w, w1, sid, r, reserved);
    UseStep(key, w, Apply(key, w1, b), sid, r, reserved, w.inserted[r.fingerprint := r.reservationId]);
  }

  lemma LeasedBeforeRun(key: BudgetKey, w: World, sid: nat, d: Db, r: Request, t: Times, answer: Answer)
    requires MayStart(key, w, sid, d, r) && WindowKey(r, t.reserve) == key
    requires BudgetAllows(d.working.ledger, r, t) && HasLease(w, r.fingerprint) && answer != Inserted
    requires !TransitionMatches(w.committed, HandleOf(r))
    ensures var a, b := ReserveOf(r, sid), Acquire(sid, r.fingerprint, answer);
            var w3 := Run(key, w, if answer == Refused then [a, b] else [a, b, Consume(sid, true)]);
            Over(w, w3, sid, r, w.committed, w.committed, w.inserted) && w3.ready == w.ready
  {
    var reserved := Reserved1(On(d.working.ledger, key), r, t);
    var a, b, c := ReserveOf(r, sid), Acquire(sid, r.fingerprint, answer), Consume(sid, true);
    HoldStep(key, w, sid, d, r, t);
    var w1 := Apply(key, w, a);
    if answer == Refused {
      RunTwo(key, w, a, b);
      RefuseStep(key, w, w1, sid, r, reserved);
    } else {
      RunThree(key, w, a, b, c);
      TakeOverStep(key, w, w1, sid, r, reserved);
      FailToUseStep(key, w, Apply(key, w1, b), sid, r, w.committed, w.inserted);
    }
  }

  lemma CannotUse(l: Ledger, key: BudgetKey, r: Request)
    requires FreshId(l, r.reservationId)
    ensures !TransitionMatches(On(l, key), HandleOf(r))
  {
    ChargedToIds(l.reservations, key, r.reservationId);
    AbsentCannotMove(On(l, key), HandleOf(r));
  }

  /** The session after an admission that reached its lease. */
  lemma AfterReachingLease(rows: map<Circuit.Key, Circuit.Row>, d: Db, r: Request, t: Times)
    requires CircuitAllows(rows, r, t) && BudgetAllows(d.working.ledger, r, t) && d.committed.leases.Keys == d.working.leases.Keys
    ensures var d' := AfterAdmission(rows, d, r, t); var reserved := Reserved1(d.working.ledger, r, t);
            && d'.committed.leases.Keys == d'.working.leases.Keys
            && (if HasLeaseRow(d, r)
                then d'.committed.ledger == d'.working.ledger == d.committed.ledger && d'.committed.leases.Keys == d.committed.leases.Keys
                else d'.committed.ledger == reserved && d'.working.ledger == Used1(reserved, r)
                     && d'.committed.leases.Keys == d.committed.leases.Keys + {r.fingerprint})
  {
  }

  lemma PermittedSteps(rows: map<Circuit.Key, Circuit.Row>, key: BudgetKey, w: World, sid: nat, d: Db, r: Request, t: Times)
    requires MayStart(key, w, sid, d, r) && WindowKey(r, t.reserve) == key && Permitted(rows, d, r, t)
    ensures Admits(rows, key, w, Run(key, w, AdmissionSteps(rows, d, r, t, key, sid)), sid, d, r, t)
  {
    var l := d.working.ledger;
    ReservedCanBeConsumed(l, key, PolicyOf(r), r.reservationId);
    ReserveOn(l, r, t, key);
    UseOnOwn(l, r, t, key);
    PermittedRun(key, w, sid, d, r, t);
    AfterReachingLease(rows, d, r, t);
    var w3 := Run(key, w, AdmissionSteps(rows, d, r, t, key, sid));
    assert AnswerTo(d, r, t) == Inserted;
    assert forall f :: HasLease(w3, f) <==> HasLease(w, f) || f == r.fingerprint;
  }

  lemma StepsWhenLeased(rows: map<Circuit.Key, Circuit.Row>, d: Db, r: Request, t: Times, key: BudgetKey, sid: nat)
    requires CircuitAllows(rows, r, t) && BudgetAllows(d.working.ledger, r, t) && HasLeaseRow(d, r)
    ensures AnswerTo(d, r, t) != Inserted && !Permitted(rows, d, r, t)
    ensures var a, b := ReserveOf(r, sid), Acquire(sid, r.fingerprint, AnswerTo(d, r, t));
            AdmissionSteps(rows, d, r, t, key, sid)
            == if WindowKey(r, t.reserve) != key then [End(sid, false)]
               else if AnswerTo(d, r, t) == Refused then [a, b] else [a, b, Consume(sid, true)]
  {
  }

  lemma LeasedBeforeSteps(rows: map<Circuit.Key, Circuit.Row>, key: BudgetKey, w: World, sid: nat, d: Db, r: Request, t: Times)
    requires MayStart(key, w, sid, d, r) && WindowKey(r, t.reserve) == key
    requires CircuitAllows(rows, r, t) && BudgetAllows(d.working.ledger, r, t) && HasLeaseRow(d, r)
    ensures Admits(rows, key, w, Run(key, w, AdmissionSteps(rows, d, r, t, key, sid)), sid, d, r, t)
  {
    CannotUse(d.committed.ledger, key, r);
    StepsWhenLeased(rows, d, r, t, key, sid);
    LeasedBeforeRun(key, w, sid, d, r, t, AnswerTo(d, r, t));
    AfterReachingLease(rows, d, r, t);
    var w3 := Run(key, w, AdmissionSteps(rows, d, r, t, key, sid));
    assert forall f :: HasLease(w3, f) <==> HasLease(w, f);
  }

  lemma EndStep(key: BudgetKey, w: World, sid: nat, commit: bool)
    requires Free(w, sid) && sid !in w.phases
    ensures var w' := Run(key, w, [End(sid, commit)]);
            && w'.committed == Visible(w', sid) == (if commit then Visible(w, sid) else w.committed)
            && w'.dirty.None?
            && w' == w.(committed := w'.committed, dirty := w'.dirty)
  {
    RunOne(key, w, End(sid, commit));
  }

  lemma ElsewhereSteps(key: BudgetKey, w: World, sid: nat, fingerprint: string)
    requires Free(w, sid) && sid !in w.phases && !HasLease(w, fingerprint)
    ensures var w' := Run(key, w, [End(sid, true), LeaseElsewhere(fingerprint)]);
            && w'.committed == Visible(w', sid) == Visible(w, sid) && w'.dirty.None?
            && w' == w.(committed := w'.committed, dirty := w'.dirty, elsewhere := w.elsewhere + {fingerprint})
  {
    EndStep(key, w, sid, true);
    RunOne(key, w, End(sid, true));
    RunTwo(key, w, End(sid, true), LeaseElsewhere(fingerprint));
  }

  lemma OtherLeasedSteps(rows: map<Circuit.Key, Circuit.Row>, key: BudgetKey, w: World, sid: nat, d: Db, r: Request, t: Times)
    requires MayStart(key, w, sid, d, r) && WindowKey(r, t.reserve) != key
    requires CircuitAllows(rows, r, t) && BudgetAllows(d.working.ledger, r, t) && HasLeaseRow(d, r)
    ensures Admits(rows, key, w, Run(key, w, AdmissionSteps(rows, d, r, t, key, sid)), sid, d, r, t)
  {
    AfterReachingLease(rows, d, r, t);
    StepsWhenLeased(rows, d, r, t, key, sid);
    EndStep(key, w, sid, false);
    var w' := Run(key, w, [End(sid, false)]);
    assert forall f :: HasLease(w', f) <==> HasLease(w, f);
  }

  lemma OtherPermittedSteps(rows: map<Circuit.Key, Circuit.Row>, key: BudgetKey, w: World, sid: nat, d: Db, r: Request, t: Times)
    requires MayStart(key, w, sid, d, r) && WindowKey(r, t.reserve) != key && Permitted(rows, d, r, t)
    ensures Admits(rows, key, w, Run(key, w, AdmissionSteps(rows, d, r, t, key, sid)), sid, d, r, t)
  {
    var l := d.working.ledger;
    AfterReachingLease(rows, d, r, t);
    ReserveOn(l, r, t, key);
    ReservedCanBeConsumed(l, WindowKey(r, t.reserve), PolicyOf(r), r.reservationId);
    UseOnOther(l, r, t, key);
    ElsewhereSteps(key, w, sid, r.fingerprint);
    var w' := Run(key, w, [End(sid, true), LeaseElsewhere(r.fingerprint)]);
    assert forall f :: HasLease(w', f) <==> HasLease(w, f) || f == r.fingerprint;
  }

  lemma OwnDeniedSteps(rows: map<Circuit.Key, Circuit.Row>, key: BudgetKey, w: World, sid: nat, d: Db, r: Request, t: Times)
    requires MayStart(key, w, sid, d, r) && WindowKey(r, t.reserve) == key
    requires CircuitAllows(rows, r, t) && !BudgetAllows(d.working.ledger, r, t)
    ensures Admits(rows, key, w, Run(key, w, AdmissionSteps(rows, d, r, t, key, sid)), sid, d, r, t)
  {
    var w' := Apply(key, w, ReserveOf(r, sid));
    RunOne(key, w, ReserveOf(r, sid));
    DenyStep(key, w, sid, d, r, t);
    assert forall f :: HasLease(w', f) <==> HasLease(w, f);
  }

  lemma OtherDeniedSteps(rows: map<Circuit.Key, Circuit.Row>, key: BudgetKey, w: World, sid: nat, d: Db, r: Request, t: Times)
    requires MayStart(key, w, sid, d, r) && WindowKey(r, t.reserve) != key
    requires CircuitAllows(rows, r, t) && !BudgetAllows(d.working.ledger, r, t)
    ensures Admits(rows, key, w, Run(key, w, AdmissionSteps(rows, d, r, t, key, sid)), sid, d, r, t)
  {
    ReserveOn(d.working.ledger, r, t, key);
    assert Run(key, w, []) == w;
  }

  /** The admission of a request takes the steps of the call machine: the world it leads to
      shows the session the admission leaves, and the call becomes ready exactly if it is
      permitted. */
  lemma AdmissionTakesSteps(rows: map<Circuit.Key, Circuit.Row>, key: BudgetKey, w: World, sid: nat, d: Db, r: Request, t: Times)
    requires MayStart(key, w, sid, d, r)
    ensures Admits(rows, key, w, Run(key, w, AdmissionSteps(rows, d, r, t, key, sid)), sid, d, r, t)
  {
    if !CircuitAllows(rows, r, t) {
      assert Run(key, w, []) == w;
    } else if !BudgetAllows(d.working.ledger, r, t) && WindowKey(r, t.reserve) != key {
      OtherDeniedSteps(rows, key, w, sid, d, r, t);
    } else if !BudgetAllows(d.working.ledger, r, t) {
      OwnDeniedSteps(rows, key, w, sid, d, r, t);
    } else if HasLeaseRow(d, r) && WindowKey(r, t.reserve) != key {
      OtherLeasedSteps(rows, key, w, sid, d, r, t);
    } else if HasLeaseRow(d, r) {
      LeasedBeforeSteps(rows, key, w, sid, d, r, t);
    } else if WindowKey(r, t.reserve) != key {
      OtherPermittedSteps(rows, key, w, sid, d, r, t);
    } else {
      PermittedSteps(rows, key, w, sid, d, r, t);
    }
  }

  // ---------- the call and the closing ----------

  predicate SameCalls(w: World, w': World) {
    w'.ready == w.ready && w'.calls == w.calls && w'.issued == w.issued
  }

  function ClosingSteps(d: Db, d': Db, sid: nat): seq<Step> {
    if SameButLeaseRows(d.committed, d'.committed) && SameButLeaseRows(d.working, d'.working) then [] else [End(sid, EndedBy(d, d', true))]
  }

  /** Closing a request leaves the session's transaction open, or ends it. */
  lemma ClosingTakesSteps(key: BudgetKey, w: World, sid: nat, d: Db, d': Db)
    requires Shows(key, w, sid, d) && Closing(d, d')
    ensures var w' := Run(key, w, ClosingSteps(d, d', sid));
            Shows(key, w', sid, d') && SameCalls(w, w')
  {
    EndStep(key, w, sid, true);
    EndStep(key, w, sid, false);
  }

  lemma ClosedTakesSteps(key: BudgetKey, w: World, sid: nat, d: Db, out: S.Outcome, id: nat, d': Db)
    requires Shows(key, w, sid, d) && S.ClosedAs(d, out, id, d')
    ensures exists steps :: var w' := Run(key, w, steps); Shows(key, w', sid, d') && SameCalls(w, w')
  {
    var d1 := if out == S.Stored then Observing(d, id) else d;
    assert Shows(key, w, sid, d1);
    ClosingTakesSteps(key, w, sid, d1, d');
  }

  lemma {:induction false} RunAppend(key: BudgetKey, w: World, a: seq<Step>, b: seq<Step>)
    ensures Run(key, w, a + b) == Run(key, Run(key, w, a), b)
    decreases |a|
  {
    if a == [] {
      assert a + b == b;
    } else {
      assert (a + b)[1..] == a[1..] + b;
      RunAppend(key, Apply(key, w, a[0]), a[1..], b);
    }
  }

  lemma CallStep(key: BudgetKey, w: World, sid: nat, d: Db, id: nat)
    requires Shows(key, w, sid, d) && id in w.ready
    ensures var w' := Run(key, w, [Call(id)]);
            Shows(key, w', sid, d) && w'.ready == w.ready - {id} && w'.calls == w.calls[id := w.ready[id]] && w'.issued == w.issued
  {
    RunOne(key, w, Call(id));
    var w' := Run(key, w, [Call(id)]);
    assert forall f :: HasLease(w', f) <==> HasLease(w, f);
  }

  /** What a whole request does to the calls of the window. */
  ghost predicate Asks(key: BudgetKey, w: World, w': World, r: Request, t: Times, called: bool) {
    && w'.ready == w.ready && w'.issued <= w.issued + {r.reservationId}
    && w'.calls == if called && WindowKey(r, t.reserve) == key then w.calls[r.reservationId := r.fingerprint] else w.calls
  }

  /** The call, if it belongs to the window, and the closing. */
  lemma AnswerTakesSteps(key: BudgetKey, w: World, sid: nat, d: Db, out: S.Outcome, id: nat, d': Db, own: bool)
    requires Shows(key, w, sid, d) && S.ClosedAs(d, out, id, d') && (own ==> id in w.ready)
    ensures exists steps :: var w' := Run(key, w, steps);
              && Shows(key, w', sid, d') && w'.issued == w.issued
              && w'.ready == (if own then w.ready - {id} else w.ready)
              && w'.calls == if own then w.calls[id := w.ready[id]] else w.calls
  {
    var call := if own then [Call(id)] else [];
    var w2 := Run(key, w, call);
    if own {
      CallStep(key, w, sid, d, id);
    }
    ClosedTakesSteps(key, w2, sid, d, out, id, d');
    var closing :| var w' := Run(key, w2, closing); Shows(key, w', sid, d') && SameCalls(w2, w');
    RunAppend(key, w, call, closing);
    assert Run(key, w, call + closing) == Run(key, w2, closing);
  }

  /** What follows the steps of a permitted admission. */
  lemma AnswerFollows(key: BudgetKey, w: World, steps: seq<Step>, sid: nat, d: Db, out: S.Outcome, r: Request, t: Times, d': Db)
    requires var w1 := Run(key, w, steps);
             && Shows(key, w1, sid, d) && w1.calls == w.calls && r.reservationId !in w.ready
             && w1.issued <= w.issued + {r.reservationId}
             && w1.ready == if WindowKey(r, t.reserve) == key then w.ready[r.reservationId := r.fingerprint] else w.ready
    requires S.ClosedAs(d, out, r.reservationId, d')
    ensures exists more :: var w' := Run(key, w, more); Shows(key, w', sid, d') && Asks(key, w, w', r, t, true)
  {
    var w1, own, id := Run(key, w, steps), WindowKey(r, t.reserve) == key, r.reservationId;
    AnswerTakesSteps(key, w1, sid, d, out, id, d', own);
    var more :| var w' := Run(key, w1, more);
      && Shows(key, w', sid, d') && w'.issued == w1.issued
      && w'.ready == (if own then w1.ready - {id} else w1.ready)
      && w'.calls == if own then w1.calls[id := w1.ready[id]] else w1.calls;
    RunAppend(key, w, steps, more);
    assert w.ready[id := r.fingerprint] - {id} == w.ready;
    assert Asks(key, w, Run(key, w, steps + more), r, t, true);
  }

  /** A whole request: admission, call and closing. */
  lemma RequestTakesSteps(rows: map<Circuit.Key, Circuit.Row>, key: BudgetKey, w: World, sid: nat, d: Db, r: Request, t: Times,
                          out: S.Outcome, d': Db)
    requires MayStart(key, w, sid, d, r) && r.reservationId !in w.ready
    requires out.NotCalled? <==> !Permitted(rows, d, r, t)
    requires if out.NotCalled? then d' == AfterAdmission(rows, d, r, t)
             else S.ClosedAs(AfterAdmission(rows, d, r, t), out, r.reservationId, d')
    ensures exists steps :: var w' := Run(key, w, steps); Shows(key, w', sid, d') && Asks(key, w, w', r, t, !out.NotCalled?)
  {
    AdmissionTakesSteps(rows, key, w, sid, d, r, t);
    if out.NotCalled? {
      assert Asks(key, w, Run(key, w, AdmissionSteps(rows, d, r, t, key, sid)), r, t, false);
    } else {
      AnswerFollows(key, w, AdmissionSteps(rows, d, r, t, key, sid), sid, AfterAdmission(rows, d, r, t), out, r, t, d');
    }
  }

  /** So one offer of a sweep is a run of the call machine. */
  method SweepOfferIsARun(worker: S.Worker, key: BudgetKey, w: World, sid: nat, r: Request, t: Times,
                          response: S.Response, offerActive: bool)
    returns (out: S.Outcome)
    requires worker.Valid() && r.hardLimit <= worker.limit
    requires MayStart(key, w, sid, worker.State(), r) && r.reservationId !in w.ready
    modifies worker.db, worker.circuit, worker`calls, worker`queried
    ensures exists steps :: var w' := Run(key, w, steps);
              Shows(key, w', sid, worker.State()) && Asks(key, w, w', r, t, !out.NotCalled?)
  {
    ghost var rows, d := worker.circuit.committed, worker.State();
    out := worker.SweepOffer(r, t, response, offerActive);
    RequestTakesSteps(rows, key, w, sid, d, r, t, out, worker.State());
  }

  /** And so are the admissions and the closings of a search, in between which it calls. */
  method AdmitIsARun(worker: S.Worker, key: BudgetKey, w: World, sid: nat, r: Request, t: Times) returns (a: Admitted)
    requires worker.Valid() && r.hardLimit <= worker.limit && MayStart(key, w, sid, worker.State(), r)
    modifies worker.db, worker.circuit, worker`queried
    ensures exists steps :: var w' := Run(key, w, steps);
              && Shows(key, w', sid, worker.State()) && w'.calls == w.calls
              && w'.ready == if a.MayCall? && WindowKey(r, t.reserve) == key
                             then w.ready[r.reservationId := r.fingerprint] else w.ready
  {
    ghost var rows, d := worker.circuit.committed, worker.State();
    AdmissionTakesSteps(rows, key, w, sid, d, r, t);
    a := worker.Admit(r, t);
  }

  method CloseOneIsARun(worker: S.Worker, key: BudgetKey, w: World, sid: nat, a: Admitted, r: Request, t: Times, response: S.Response)
    returns (out: S.Outcome)
    requires worker.Valid() && Shows(key, w, sid, worker.State())
    modifies worker.db, worker.circuit
    ensures exists steps :: var w' := Run(key, w, steps);
              Shows(key, w', sid, worker.State()) && SameCalls(w, w')
  {
    ghost var d := worker.State();
    out := worker.CloseOne(a, r, t, response);
    if out.NotCalled? {
      assert Run(key, w, []) == w;
    } else {
      ClosedTakesSteps(key, w, sid, d, out, r.reservationId, worker.State());
    }
  }

  // ---------- many requests ----------

  /** The calls of the window among the first requests. */
  function OwnCalls(key: BudgetKey, rs: seq<Request>, ts: seq<Times>, called: seq<bool>): map<nat, string>
    requires |called| <= |rs| == |ts|
  {
    if called == [] then map[]
    else
      var n := |called| - 1;
      var before := OwnCalls(key, rs, ts, called[..n]);
      if called[n] && WindowKey(rs[n], ts[n].reserve) == key then before[rs[n].reservationId := rs[n].fingerprint] else before
  }

  function IdsOf(rs: seq<Request>, n: nat): set<nat>
    requires n <= |rs|
  {
    if n == 0 then {} else IdsOf(rs, n - 1) + {rs[n - 1].reservationId}
  }

  lemma {:induction false} OwnCallsAreRequests(key: BudgetKey, rs: seq<Request>, ts: seq<Times>, called: seq<bool>)
    requires |called| <= |rs| == |ts|
    ensures OwnCalls(key, rs, ts, called).Keys <= IdsOf(rs, |called|)
  {
    if called != [] {
      OwnCallsAreRequests(key, rs, ts, called[..|called| - 1]);
    }
  }

  lemma OwnCallsGoOn(key: BudgetKey, rs: seq<Request>, ts: seq<Times>, called: seq<bool>, more: bool)
    requires |called| < |rs| == |ts|
    ensures var n := |called|; var before := OwnCalls(key, rs, ts, called);
            OwnCalls(key, rs, ts, called + [more])
            == if more && WindowKey(rs[n], ts[n].reserve) == key then before[rs[n].reservationId := rs[n].fingerprint] else before
  {
    assert (called + [more])[..|called|] == called;
  }

  lemma {:induction false} LaterIdsAreOthers(rs: seq<Request>, n: nat, j: nat)
    requires n <= j < |rs| && S.DistinctIds(rs)
    ensures rs[j].reservationId !in IdsOf(rs, n)
  {
    if n > 0 {
      LaterIdsAreOthers(rs, n - 1, j);
    }
  }

  /** The requests of a sweep or a search, before it starts. */
  ghost predicate AllMayStart(key: BudgetKey, w: World, sid: nat, d: Db, rs: seq<Request>) {
    && Shows(key, w, sid, d) && BooksBalance(d) && S.DistinctIds(rs)
    && forall j :: 0 <= j < |rs| ==>
         && Unused(d, rs[j].reservationId)
         && rs[j].reservationId !in w.issued && rs[j].reservationId !in w.ready
  }

  /** The later requests are still unused. */
  ghost predicate UnusedFrom(d: Db, rs: seq<Request>, n: nat) {
    BooksBalance(d) && forall j :: n <= j < |rs| ==> Unused(d, rs[j].reservationId)
  }

  lemma LaterStayUnused(rows: map<Circuit.Key, Circuit.Row>, d: Db, rs: seq<Request>, t: Times, n: nat)
    requires n < |rs| && S.DistinctIds(rs) && UnusedFrom(d, rs, n)
    ensures UnusedFrom(AfterAdmission(rows, d, rs[n], t), rs, n + 1)
  {
    AdmissionReserves(rows, d, rs[n], t);
    forall j | n < j < |rs| ensures Unused(AfterAdmission(rows, d, rs[n], t), rs[j].reservationId) {
      AdmissionKeepsUnused(rows, d, rs[n], t, rs[j].reservationId);
    }
  }

  // ---------- a whole sweep ----------

  /** What some requests of a sweep leave to the window. */
  predicate Asked(key: BudgetKey, w: World, w': World, rs: seq<Request>, ts: seq<Times>, called: seq<bool>)
    requires |called| <= |rs| == |ts|
  {
    && w'.ready == w.ready && w'.issued <= w.issued + IdsOf(rs, |called|)
    && w'.calls == w.calls + OwnCalls(key, rs, ts, called)
  }

  lemma AskOneMore(key: BudgetKey, w: World, w1: World, w2: World, rs: seq<Request>, ts: seq<Times>, called: seq<bool>, more: bool)
    requires |called| < |rs| == |ts| && Asked(key, w, w1, rs, ts, called)
    requires Asks(key, w1, w2, rs[|called|], ts[|called|], more)
    ensures Asked(key, w, w2, rs, ts, called + [more])
  {
    OwnCallsGoOn(key, rs, ts, called, more);
  }

  lemma RequestLeavesUnused(rows: map<Circuit.Key, Circuit.Row>, d: Db, rs: seq<Request>, t: Times, n: nat, out: S.Outcome, d': Db)
    requires n < |rs| && S.DistinctIds(rs) && UnusedFrom(d, rs, n)
    requires S.SweptStep(rows, d, rs[n], t, out, d')
    ensures UnusedFrom(d', rs, n + 1)
  {
    LaterStayUnused(rows, d, rs, t, n);
  }

  /** One more request of a sweep. */
  lemma NextRequest(key: BudgetKey, w: World, w1: World, sid: nat, d: Db, d': Db, rs: seq<Request>, ts: seq<Times>, called: seq<bool>,
                    rows: map<Circuit.Key, Circuit.Row>, out: S.Outcome)
    returns (steps: seq<Step>)
    requires |called| < |rs| == |ts| && S.DistinctIds(rs)
    requires rs[|called|].reservationId !in w.issued && rs[|called|].reservationId !in w.ready
    requires Shows(key, w1, sid, d) && UnusedFrom(d, rs, |called|) && Asked(key, w, w1, rs, ts, called)
    requires S.SweptStep(rows, d, rs[|called|], ts[|called|], out, d')
    ensures var w2 := Run(key, w1, steps);
            Shows(key, w2, sid, d') && UnusedFrom(d', rs, |called| + 1) && Asked(key, w, w2, rs, ts, called + [!out.NotCalled?])
  {
    var n := |called|;
    LaterIdsAreOthers(rs, n, n);
    RequestTakesSteps(rows, key, w1, sid, d, rs[n], ts[n], out, d');
    steps :| var w2 := Run(key, w1, steps); Shows(key, w2, sid, d') && Asks(key, w1, w2, rs[n], ts[n], !out.NotCalled?);
    RequestLeavesUnused(rows, d, rs, ts[n], n, out, d');
    AskOneMore(key, w, w1, Run(key, w1, steps), rs, ts, called, !out.NotCalled?);
  }

  function CalledOf(outs: seq<S.Outcome>): (called: seq<bool>)
    ensures |called| == |outs|
  {
    if outs == [] then [] else CalledOf(outs[..|outs| - 1]) + [!outs[|outs| - 1].NotCalled?]
  }

  lemma {:induction false} RequestsTakeSteps(key: BudgetKey, w: World, sid: nat, rs: seq<Request>, ts: seq<Times>, outs: seq<S.Outcome>,
                                             rows: seq<map<Circuit.Key, Circuit.Row>>, dbs: seq<Db>)
    returns (steps: seq<Step>)
    requires |outs| <= |rs| == |ts| && S.SweptAlong(rs, ts, outs, rows, dbs)
    requires AllMayStart(key, w, sid, dbs[0], rs)
    ensures var w', n := Run(key, w, steps), |outs|;
            Shows(key, w', sid, dbs[n]) && UnusedFrom(dbs[n], rs, n) && Asked(key, w, w', rs, ts, CalledOf(outs))
    decreases |outs|
  {
    if outs == [] {
      return [];
    }
    var n := |outs| - 1;
    assert S.SweptAlong(rs, ts, outs[..n], rows[..n], dbs[..n + 1]);
    var before := RequestsTakeSteps(key, w, sid, rs, ts, outs[..n], rows[..n], dbs[..n + 1]);
    var more := NextRequest(key, w, Run(key, w, before), sid, dbs[n], dbs[n + 1], rs, ts, CalledOf(outs[..n]), rows[n], outs[n]);
    RunAppend(key, w, before, more);
    steps := before + more;
  }

  lemma CommitShows(key: BudgetKey, w: World, sid: nat, d: Db) returns (steps: seq<Step>)
    requires Shows(key, w, sid, d)
    ensures var w' := Run(key, w, steps); Shows(key, w', sid, Db(d.working, d.working)) && SameCalls(w, w')
  {
    steps := [End(sid, true)];
    EndStep(key, w, sid, true);
    var w' := Run(key, w, steps);
    assert forall f :: HasLease(w', f) <==> HasLease(w, f);
  }

  lemma SweepTakesSteps(key: BudgetKey, w: World, sid: nat, rs: seq<Request>, ts: seq<Times>, outs: seq<S.Outcome>,
                        rows: seq<map<Circuit.Key, Circuit.Row>>, dbs: seq<Db>)
    returns (steps: seq<Step>)
    requires |outs| <= |rs| == |ts| && S.SweptAlong(rs, ts, outs, rows, dbs)
    requires AllMayStart(key, w, sid, dbs[0], rs)
    ensures var w', last := Run(key, w, steps), dbs[|outs|].working;
            Shows(key, w', sid, Db(last, last)) && Asked(key, w, w', rs, ts, CalledOf(outs))
  {
    var asking := RequestsTakeSteps(key, w, sid, rs, ts, outs, rows, dbs);
    var ending := CommitShows(key, Run(key, w, asking), sid, dbs[|outs|]);
    RunAppend(key, w, asking, ending);
    steps := asking + ending;
  }

  /** So a whole sweep is one run of the call machine, with the commit that ends it. */
  method SweepIsARun(worker: S.Worker, key: BudgetKey, w: World, sid: nat, rs: seq<Request>, ts: seq<Times>,
                     responses: seq<S.Response>, active: seq<bool>)
    returns (outs: seq<S.Outcome>)
    requires worker.Valid() && |ts| == |responses| == |active| == |rs|
    requires S.NewIds(rs, worker.db.working.observations) && forall i :: 0 <= i < |rs| ==> rs[i].hardLimit <= worker.limit
    requires AllMayStart(key, w, sid, worker.State(), rs)
    modifies worker.db, worker.circuit, worker`calls, worker`queried
    ensures |outs| == |rs|
    ensures exists steps :: var w' := Run(key, w, steps);
              Shows(key, w', sid, worker.State()) && Asked(key, w, w', rs, ts, CalledOf(outs))
  {
    ghost var rows, dbs;
    outs, rows, dbs := worker.SweepOffers(rs, ts, responses, active);
    ghost var steps := SweepTakesSteps(key, w, sid, rs, ts, outs, rows, dbs);
  }

  // ---------- a whole search ----------

  /** What some admissions of a search leave to the window. */
  predicate Admitting(key: BudgetKey, w: World, w': World, rs: seq<Request>, ts: seq<Times>, permitted: seq<bool>)
    requires |permitted| <= |rs| == |ts|
  {
    && w'.calls == w.calls && w'.issued <= w.issued + IdsOf(rs, |permitted|)
    && w'.ready == w.ready + OwnCalls(key, rs, ts, permitted)
  }

  lemma AdmitOneMore(key: BudgetKey, w: World, w1: World, w2: World, rs: seq<Request>, ts: seq<Times>, permitted: seq<bool>, more: bool)
    requires |permitted| < |rs| == |ts| && Admitting(key, w, w1, rs, ts, permitted)
    requires w2.calls == w1.calls && w2.issued <= w1.issued + {rs[|permitted|].reservationId}
    requires var r, t := rs[|permitted|], ts[|permitted|];
             w2.ready == if more && WindowKey(r, t.reserve) == key then w1.ready[r.reservationId := r.fingerprint] else w1.ready
    ensures Admitting(key, w, w2, rs, ts, permitted + [more])
  {
    OwnCallsGoOn(key, rs, ts, permitted, more);
  }

  /** One more admission of a search. */
  lemma NextAdmission(key: BudgetKey, w: World, w1: World, sid: nat, d: Db, d': Db, rs: seq<Request>, ts: seq<Times>, permitted: seq<bool>,
                      rows: map<Circuit.Key, Circuit.Row>, a: Admitted)
    returns (steps: seq<Step>)
    requires |permitted| < |rs| == |ts| && S.DistinctIds(rs) && rs[|permitted|].reservationId !in w.issued
    requires Shows(key, w1, sid, d) && UnusedFrom(d, rs, |permitted|) && Admitting(key, w, w1, rs, ts, permitted)
    requires S.AdmittedStep(rows, d, rs[|permitted|], ts[|permitted|], a, d')
    ensures var w2 := Run(key, w1, steps);
            Shows(key, w2, sid, d') && UnusedFrom(d', rs, |permitted| + 1) && Admitting(key, w, w2, rs, ts, permitted + [a.MayCall?])
  {
    var n := |permitted|;
    steps := AdmissionSteps(rows, d, rs[n], ts[n], key, sid);
    LaterIdsAreOthers(rs, n, n);
    AdmissionTakesSteps(rows, key, w1, sid, d, rs[n], ts[n]);
    LaterStayUnused(rows, d, rs, ts[n], n);
    AdmitOneMore(key, w, w1, Run(key, w1, steps), rs, ts, permitted, a.MayCall?);
  }

  function PermittedOf(admitted: seq<Admitted>): (permitted: seq<bool>)
    ensures |permitted| == |admitted|
  {
    if admitted == [] then [] else PermittedOf(admitted[..|admitted| - 1]) + [admitted[|admitted| - 1].MayCall?]
  }

  lemma {:induction false} AdmissionsTakeSteps(key: BudgetKey, w: World, sid: nat, rs: seq<Request>, ts: seq<Times>, admitted: seq<Admitted>,
                                               rows: seq<map<Circuit.Key, Circuit.Row>>, dbs: seq<Db>)
    returns (steps: seq<Step>)
    requires |admitted| <= |rs| == |ts| && S.AdmittedAlong(rs, ts, admitted, rows, dbs)
    requires AllMayStart(key, w, sid, dbs[0], rs)
    ensures var w', n := Run(key, w, steps), |admitted|;
            Shows(key, w', sid, dbs[n]) && UnusedFrom(dbs[n], rs, n) && Admitting(key, w, w', rs, ts, PermittedOf(admitted))
    decreases |admitted|
  {
    if admitted == [] {
      return [];
    }
    var n := |admitted| - 1;
    assert S.AdmittedAlong(rs, ts, admitted[..n], rows[..n], dbs[..n + 1]);
    var before := AdmissionsTakeSteps(key, w, sid, rs, ts, admitted[..n], rows[..n], dbs[..n + 1]);
    var more := NextAdmission(key, w, Run(key, w, before), sid, dbs[n], dbs[n + 1], rs, ts, PermittedOf(admitted[..n]), rows[n], admitted[n]);
    RunAppend(key, w, before, more);
    steps := before + more;
  }

  function CalledFrom(ready: map<nat, string>, ids: set<nat>): map<nat, string>
    requires ids <= ready.Keys
  {
    map id | id in ids :: ready[id]
  }

  lemma CallOneMore(calls: map<nat, string>, ready: map<nat, string>, ids: set<nat>, id: nat)
    requires id in ids && ids <= ready.Keys
    ensures ids - {id} <= (ready - {id}).Keys && ready - {id} - (ids - {id}) == ready - ids
    ensures calls[id := ready[id]] + CalledFrom(ready - {id}, ids - {id}) == calls + CalledFrom(ready, ids)
  {
  }

  /** Calls that are ready are made, in any order. */
  lemma {:induction false} CallsTakeSteps(key: BudgetKey, w: World, sid: nat, d: Db, ids: set<nat>) returns (steps: seq<Step>)
    requires Shows(key, w, sid, d) && ids <= w.ready.Keys
    ensures var w' := Run(key, w, steps);
            Shows(key, w', sid, d) && w'.ready == w.ready - ids && w'.calls == w.calls + CalledFrom(w.ready, ids)
    decreases ids
  {
    if ids == {} {
      assert w.ready - ids == w.ready && w.calls + CalledFrom(w.ready, ids) == w.calls;
      return [];
    }
    var id :| id in ids;
    CallStep(key, w, sid, d, id);
    CallOneMore(w.calls, w.ready, ids, id);
    var w1 := Run(key, w, [Call(id)]);
    var more := CallsTakeSteps(key, w1, sid, d, ids - {id});
    RunAppend(key, w, [Call(id)], more);
    steps := [Call(id)] + more;
  }

  lemma {:induction false} ClosingsTakeSteps(key: BudgetKey, w: World, sid: nat, rs: seq<Request>, outs: map<nat, S.Outcome>,
                                             order: seq<nat>, dbs: seq<Db>)
    returns (steps: seq<Step>)
    requires S.ClosedAlong(rs, outs, order, dbs) && Shows(key, w, sid, dbs[0])
    ensures var w' := Run(key, w, steps);
            Shows(key, w', sid, dbs[|order|]) && SameCalls(w, w')
    decreases |order|
  {
    if order == [] {
      return [];
    }
    var n := |order| - 1;
    assert S.ClosedAlong(rs, outs, order[..n], dbs[..n + 1]);
    var before := ClosingsTakeSteps(key, w, sid, rs, outs, order[..n], dbs[..n + 1]);
    var w1, out, id := Run(key, w, before), outs[order[n]], rs[order[n]].reservationId;
    assert S.ClosedStep(dbs[n], out, id, dbs[n + 1]);
    var more: seq<Step> := [];
    if !out.NotCalled? {
      ClosedTakesSteps(key, w1, sid, dbs[n], out, id, dbs[n + 1]);
      more :| var w' := Run(key, w1, more); Shows(key, w', sid, dbs[n + 1]) && SameCalls(w1, w');
    }
    RunAppend(key, w, before, more);
    steps := before + more;
  }

  /** All calls of a search that are ready are its own, and they are all made. */
  lemma ReadyAreCalled(w: World, w1: World, own: map<nat, string>)
    requires w1.ready == w.ready + own && w.ready.Keys !! own.Keys
    ensures w1.ready - own.Keys == w.ready && own.Keys <= w1.ready.Keys && CalledFrom(w1.ready, own.Keys) == own
  {
  }

  lemma SearchTakesSteps(key: BudgetKey, w: World, sid: nat, rs: seq<Request>, ts: seq<Times>, admitted: seq<Admitted>,
                         outs: map<nat, S.Outcome>, trace: S.Trace)
    returns (steps: seq<Step>)
    requires |admitted| == |rs| == |ts| && S.AdmittedAlong(rs, ts, admitted, trace.rows, trace.admitting)
    requires S.ClosedAlong(rs, outs, trace.order, trace.closing) && trace.closing[0] == trace.admitting[|rs|]
    requires AllMayStart(key, w, sid, trace.admitting[0], rs)
    ensures var w' := Run(key, w, steps);
            && Shows(key, w', sid, trace.closing[|trace.order|]) && w'.ready == w.ready
            && w'.calls == w.calls + OwnCalls(key, rs, ts, PermittedOf(admitted))
  {
    var own := OwnCalls(key, rs, ts, PermittedOf(admitted));
    var admitting := AdmissionsTakeSteps(key, w, sid, rs, ts, admitted, trace.rows, trace.admitting);
    var w1 := Run(key, w, admitting);
    OwnCallsAreRequests(key, rs, ts, PermittedOf(admitted));
    NoIdIsReady(w, rs, |rs|);
    ReadyAreCalled(w, w1, own);
    var calling := CallsTakeSteps(key, w1, sid, trace.admitting[|rs|], own.Keys);
    var w2 := Run(key, w1, calling);
    var closing := ClosingsTakeSteps(key, w2, sid, rs, outs, trace.order, trace.closing);
    RunAppend(key, w, admitting, calling);
    RunAppend(key, w, admitting + calling, closing);
    steps := admitting + calling + closing;
  }

  lemma {:induction false} NoIdIsReady(w: World, rs: seq<Request>, n: nat)
    requires n <= |rs| && forall j :: 0 <= j < |rs| ==> rs[j].reservationId !in w.ready
    ensures w.ready.Keys !! IdsOf(rs, n)
  {
    if n > 0 {
      NoIdIsReady(w, rs, n - 1);
    }
  }

  /** So a whole search is one run of the call machine: all admissions, then the calls they
      permit in the window and no others, then the closings. */
  method AreaSearchIsARun(worker: S.Worker, key: BudgetKey, w: World, sid: nat, rs: seq<Request>, ts: seq<Times>, responses: seq<S.Response>)
    returns (admitted: seq<Admitted>, outs: map<nat, S.Outcome>)
    requires worker.Valid() && |ts| == |responses| == |rs|
    requires S.NewIds(rs, worker.db.working.observations) && forall i :: 0 <= i < |rs| ==> rs[i].hardLimit <= worker.limit
    requires AllMayStart(key, w, sid, worker.State(), rs)
    modifies worker.db, worker.circuit, worker`calls, worker`queried
    ensures |admitted| == |rs| && outs.Keys == S.UpTo(|rs|)
    ensures forall i :: 0 <= i < |rs| ==> (admitted[i].MayCall? <==> !outs[i].NotCalled?)
    ensures exists steps :: var w' := Run(key, w, steps);
              && Shows(key, w', sid, worker.State()) && w'.ready == w.ready
              && w'.calls == w.calls + OwnCalls(key, rs, ts, PermittedOf(admitted))
  {
    ghost var trace;
    admitted, outs, trace := worker.AreaSearch(rs, ts, responses);
    ghost var steps := SearchTakesSteps(key, w, sid, rs, ts, admitted, outs, trace);
  }
}
