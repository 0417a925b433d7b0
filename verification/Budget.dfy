/** The windowed budget ledger: a request is reserved before it is made, and the
    reservation is then used or released. Every statement only flushes; when the change
    becomes permanent is up to the caller's transaction. */
module Budget {
  import opened Sql
  import opened Database

  datatype Policy = Policy(
    provider: string, operation: string, window: string, hardLimit: int, unitsPerRequest: int, source: string)

  /** What `reserve` hands out; a denied request has no units and no id. */
  datatype Handle = Handle(allowed: bool, units: int, id: Option<nat>)

  const DENIED: Handle := Handle(false, 0, None)

  predicate ValidPolicy(p: Policy) {
    p.hardLimit >= 0 && p.unitsPerRequest > 0
  }

  /** The window a time falls in; None for a window name the ledger does not support. */
  function WindowOf(window: string, now: int, monthOf: int -> int): Option<Window> {
    if window == "month" then Some(Month(monthOf(now)))
    else if window != "day" then None
    else Some(Day(now / 86400))
  }

  // ---------- the statements ----------

  /** The budget row a request is charged to. `raced` says that the first select missed
      the row because a rival inserted it in between; its limit is then left alone. */
  function EnsuredRow(l: Ledger, key: BudgetKey, p: Policy, raced: bool): BudgetRow {
    if key !in l.budgets then BudgetRow(p.hardLimit, p.source, 0, 0, 0)
    else if raced then l.budgets[key]
    else l.budgets[key].(hardLimit := p.hardLimit, source := p.source)
  }

  function Ensured(l: Ledger, key: BudgetKey, p: Policy, raced: bool): Ledger {
    l.(budgets := l.budgets[key := EnsuredRow(l, key, p, raced)])
  }

  predicate Room(row: BudgetRow, units: int) {
    row.hardLimit >= units && row.used + row.reserved <= row.hardLimit - units
  }

  function Reserving(l: Ledger, key: BudgetKey, units: int, id: nat): Ledger
    requires key in l.budgets
  {
    var row := l.budgets[key];
    Ledger(l.budgets[key := row.(reserved := row.reserved + units)],
           l.reservations + [Reservation(id, key, units, Reserved)])
  }

  function ReserveLedger(l: Ledger, key: BudgetKey, p: Policy, raced: bool, id: nat): Ledger {
    var l1 := Ensured(l, key, p, raced);
    if Room(l1.budgets[key], p.unitsPerRequest) then Reserving(l1, key, p.unitsPerRequest, id) else l1
  }

  function ReserveHandle(l: Ledger, key: BudgetKey, p: Policy, raced: bool, id: nat): Handle {
    if Room(EnsuredRow(l, key, p, raced), p.unitsPerRequest) then Handle(true, p.unitsPerRequest, Some(id)) else DENIED
  }

  /** The position of the reservation with this id, or the length when there is none. */
  function Find(rs: seq<Reservation>, id: nat): (i: nat)
    ensures i <= |rs|
    ensures i < |rs| ==> rs[i].id == id
    ensures forall j :: 0 <= j < i ==> rs[j].id != id
  {
    if rs == [] then 0 else if rs[0].id == id then 0 else 1 + Find(rs[1..], id)
  }

  predicate TransitionMatches(l: Ledger, h: Handle) {
    && h.allowed && h.units > 0 && h.id.Some?
    && var i := Find(l.reservations, h.id.value);
       && i < |l.reservations| && l.reservations[i].status == Reserved
       && l.reservations[i].budget in l.budgets
       && l.budgets[l.reservations[i].budget].reserved >= h.units
  }

  function Transitioned(l: Ledger, h: Handle, target: ReservationStatus): Ledger
    requires TransitionMatches(l, h)
  {
    var i := Find(l.reservations, h.id.value);
    var key := l.reservations[i].budget;
    var row := l.budgets[key];
    Ledger(
      l.budgets[key := row.(reserved := row.reserved - h.units,
                            used := if target == Used then row.used + h.units else row.used,
                            released := if target == Used then row.released else row.released + h.units)],
      l.reservations[i := l.reservations[i].(status := target)])
  }

  // ---------- the store ----------

  class BudgetLedger {
    const db: Session

    constructor (db: Session)
      ensures this.db == db
    {
      this.db := db;
    }

    method EnsureRow(key: BudgetKey, p: Policy, raced: bool) returns (row: BudgetRow)
      modifies db`working
      ensures row == EnsuredRow(old(db.working.ledger), key, p, raced)
      ensures db.working == old(db.working).(ledger := Ensured(old(db.working.ledger), key, p, raced))
    {
      var l := db.working.ledger;
      if key in l.budgets && !raced {
        row := l.budgets[key];
        if row.hardLimit != p.hardLimit || row.source != p.source {
          row := row.(hardLimit := p.hardLimit, source := p.source);
          db.working := db.working.(ledger := l.(budgets := l.budgets[key := row]));
          return;
        }
      } else {
        if key !in l.budgets {
          l := l.(budgets := l.budgets[key := BudgetRow(p.hardLimit, p.source, 0, 0, 0)]);
          db.working := db.working.(ledger := l);
        }
        row := db.working.ledger.budgets[key];
      }
      assert db.working.ledger.budgets == old(db.working.ledger).budgets[key := row];
    }

    /** None stands for the ValueError of an invalid policy or window. */
    method Reserve(p: Policy, now: int, monthOf: int -> int, raced: bool, id: nat) returns (handle: Option<Handle>)
      modifies db`working
      ensures
        var window := WindowOf(p.window, now, monthOf);
        if !ValidPolicy(p) || window.None? then handle == None && db.working == old(db.working)
        else
          var key := BudgetKey(p.provider, p.operation, window.value);
          && handle == Some(ReserveHandle(old(db.working.ledger), key, p, raced, id))
          && db.working == old(db.working).(ledger := ReserveLedger(old(db.working.ledger), key, p, raced, id))
      ensures handle == None <==> p.hardLimit < 0 || p.unitsPerRequest <= 0 || (p.window != "day" && p.window != "month")
      // Units that fit beside the used and the reserved ones are granted, and no others.
      ensures handle.Some? ==>
        var window := if p.window == "day" then Day(now / 86400) else Month(monthOf(now));
        var key := BudgetKey(p.provider, p.operation, window);
        var l, l' := old(db.working.ledger), db.working.ledger;
        var row := if key in l.budgets then l.budgets[key] else BudgetRow(p.hardLimit, p.source, 0, 0, 0);
        var limit := if key in l.budgets && raced then row.hardLimit else p.hardLimit;
        && (handle.value.allowed <==> p.unitsPerRequest <= limit && row.used + row.reserved + p.unitsPerRequest <= limit)
        && key in l'.budgets && l'.budgets == l.budgets[key := l'.budgets[key]]
        && (if handle.value.allowed then
              && handle.value == Handle(true, p.unitsPerRequest, Some(id))
              && l'.budgets[key].reserved == row.reserved + p.unitsPerRequest
              && l'.reservations == l.reservations + [Reservation(id, key, p.unitsPerRequest, Reserved)]
            else
              && handle.value == Handle(false, 0, None)
              && l'.budgets[key].reserved == row.reserved && l'.reservations == l.reservations)
        && l'.budgets[key].used == row.used && l'.budgets[key].released == row.released
        && l'.budgets[key].hardLimit == limit
        && l'.budgets[key].source == if key in l.budgets && raced then row.source else p.source
    {
      if p.hardLimit < 0 || p.unitsPerRequest <= 0 {
        return None;
      }
      var window := WindowOf(p.window, now, monthOf);
      if window.None? {
        return None;
      }
      var key := BudgetKey(p.provider, p.operation, window.value);
      var row := EnsureRow(key, p, raced);
      if row.hardLimit < p.unitsPerRequest {
        return Some(DENIED);
      }
      if row.used + row.reserved <= row.hardLimit - p.unitsPerRequest {
        db.working := db.working.(ledger := Reserving(db.working.ledger, key, p.unitsPerRequest, id));
        return Some(Handle(true, p.unitsPerRequest, Some(id)));
      }
      handle := Some(DENIED);
    }

    /** Inside a savepoint: when any statement finds no row, nothing has changed. */
    method Transition(h: Handle, target: ReservationStatus) returns (done: bool)
      requires target != Reserved
      modifies db`working
      ensures done == TransitionMatches(old(db.working.ledger), h)
      ensures db.working == if done then old(db.working).(ledger := Transitioned(old(db.working.ledger), h, target))
                            else old(db.working)
      // The handle's reservation has to be reserved still, in a window that has its units reserved.
      ensures done <==>
        && h.allowed && h.units > 0 && h.id.Some?
        && var l := old(db.working.ledger); var i := Find(l.reservations, h.id.value);
           && i < |l.reservations| && l.reservations[i].status == Reserved
           && l.reservations[i].budget in l.budgets && l.budgets[l.reservations[i].budget].reserved >= h.units
      // Its units move from the reserved ones to the used or the released ones.
      ensures done ==>
        var l, l' := old(db.working.ledger), db.working.ledger;
        var i := Find(l.reservations, h.id.value); var r := l.reservations[i];
        && l'.reservations == l.reservations[i := Reservation(r.id, r.budget, r.units, target)]
        && var row := l.budgets[r.budget];
           l'.budgets == l.budgets[r.budget := BudgetRow(
             row.hardLimit, row.source, row.reserved - h.units,
             row.used + (if target == Used then h.units else 0),
             row.released + (if target == Used then 0 else h.units))]
      ensures !done ==> db.working == old(db.working)
    {
      if !h.allowed || h.units <= 0 || h.id.None? {
        return false;
      }
      var savepoint := db.working;
      var l := db.working.ledger;
      var i := Find(l.reservations, h.id.value);
      if i == |l.reservations| || l.reservations[i].status != Reserved {
        return false;
      }
      var key := l.reservations[i].budget;
      l := l.(reservations := l.reservations[i := l.reservations[i].(status := target)]);
      db.working := db.working.(ledger := l);
      if key !in l.budgets || l.budgets[key].reserved < h.units {
        db.working := savepoint;
        return false;
      }
      var row := l.budgets[key].(reserved := l.budgets[key].reserved - h.units);
      if target == Used {
        row := row.(used := row.used + h.units);
      } else {
        row := row.(released := row.released + h.units);
      }
      db.working := db.working.(ledger := l.(budgets := l.budgets[key := row]));
      done := true;
    }

    method Consume(h: Handle) returns (done: bool)
      modifies db`working
      ensures done == TransitionMatches(old(db.working.ledger), h)
      ensures db.working == if done then old(db.working).(ledger := Transitioned(old(db.working.ledger), h, Used))
                            else old(db.working)
    {
      done := Transition(h, Used);
    }

    method Release(h: Handle) returns (done: bool)
      modifies db`working
      ensures done == TransitionMatches(old(db.working.ledger), h)
      ensures db.working == if done then old(db.working).(ledger := Transitioned(old(db.working.ledger), h, Released))
                            else old(db.working)
    {
      done := Transition(h, Released);
    }
  }

  // ---------- conservation ----------

  /** The units of one budget's reservations in one status. */
  function Units(rs: seq<Reservation>, key: BudgetKey, status: ReservationStatus): int {
    if rs == [] then 0
    else (if rs[0].budget == key && rs[0].status == status then rs[0].units else 0) + Units(rs[1..], key, status)
  }

  function Share(r: Reservation, key: BudgetKey, status: ReservationStatus): int {
    if r.budget == key && r.status == status then r.units else 0
  }

  lemma {:induction false} UnitsAppend(rs: seq<Reservation>, r: Reservation, key: BudgetKey, status: ReservationStatus)
    ensures Units(rs + [r], key, status) == Units(rs, key, status) + Share(r, key, status)
  {
    if rs == [] {
      assert (rs + [r])[1..] == [];
    } else {
      assert (rs + [r])[1..] == rs[1..] + [r];
      UnitsAppend(rs[1..], r, key, status);
    }
  }

  lemma {:induction false} UnitsUpdate(rs: seq<Reservation>, i: nat, r: Reservation, key: BudgetKey, status: ReservationStatus)
    requires i < |rs|
    ensures Units(rs[i := r], key, status) == Units(rs, key, status) - Share(rs[i], key, status) + Share(r, key, status)
  {
    if i == 0 {
      assert rs[i := r][1..] == rs[1..];
    } else {
      assert rs[i := r][1..] == rs[1..][i - 1 := r];
      UnitsUpdate(rs[1..], i - 1, r, key, status);
    }
  }

  predicate WellFormed(l: Ledger) {
    && (forall i :: 0 <= i < |l.reservations| ==> l.reservations[i].units > 0 && l.reservations[i].budget in l.budgets)
    && (forall i, j :: 0 <= i < j < |l.reservations| ==> l.reservations[i].id != l.reservations[j].id)
  }

  predicate Balanced(l: Ledger, key: BudgetKey)
    requires key in l.budgets
  {
    && l.budgets[key].reserved == Units(l.reservations, key, Reserved)
    && l.budgets[key].used == Units(l.reservations, key, Used)
    && l.budgets[key].released == Units(l.reservations, key, Released)
  }

  /** The three counters of every budget equal the sums over its reservations. */
  ghost predicate Conserved(l: Ledger) {
    WellFormed(l) && forall key :: key in l.budgets ==> Balanced(l, key)
  }

  lemma {:induction false} UnitsOfAbsentBudget(rs: seq<Reservation>, key: BudgetKey, status: ReservationStatus)
    requires forall i :: 0 <= i < |rs| ==> rs[i].budget != key
    ensures Units(rs, key, status) == 0
  {
    if rs != [] {
      UnitsOfAbsentBudget(rs[1..], key, status);
    }
  }

  lemma {:induction false} UnitsNonNegative(rs: seq<Reservation>, key: BudgetKey, status: ReservationStatus)
    requires forall i :: 0 <= i < |rs| ==> rs[i].units > 0
    ensures Units(rs, key, status) >= 0
    ensures forall i :: 0 <= i < |rs| && rs[i].budget == key && rs[i].status == status ==>
              rs[i].units <= Units(rs, key, status)
  {
    if rs != [] {
      UnitsNonNegative(rs[1..], key, status);
    }
  }

  predicate FreshId(l: Ledger, id: nat) {
    forall i :: 0 <= i < |l.reservations| ==> l.reservations[i].id != id
  }

  lemma EnsureConserves(l: Ledger, key: BudgetKey, p: Policy, raced: bool)
    requires Conserved(l)
    ensures Conserved(Ensured(l, key, p, raced))
  {
    var l' := Ensured(l, key, p, raced);
    forall k | k in l'.budgets ensures Balanced(l', k) {
      if k in l.budgets {
        assert Balanced(l, k);
      } else {
        UnitsOfAbsentBudget(l.reservations, k, Reserved);
        UnitsOfAbsentBudget(l.reservations, k, Used);
        UnitsOfAbsentBudget(l.reservations, k, Released);
      }
    }
  }

  lemma ReservingConserves(l: Ledger, key: BudgetKey, units: int, id: nat)
    requires Conserved(l) && key in l.budgets && units > 0 && FreshId(l, id)
    ensures Conserved(Reserving(l, key, units, id))
  {
    var l', r := Reserving(l, key, units, id), Reservation(id, key, units, Reserved);
    forall k | k in l'.budgets ensures Balanced(l', k) {
      assert Balanced(l, k);
      UnitsAppend(l.reservations, r, k, Reserved);
      UnitsAppend(l.reservations, r, k, Used);
      UnitsAppend(l.reservations, r, k, Released);
    }
  }

  lemma ReserveConserves(l: Ledger, key: BudgetKey, p: Policy, raced: bool, id: nat)
    requires Conserved(l) && ValidPolicy(p) && FreshId(l, id)
    ensures Conserved(ReserveLedger(l, key, p, raced, id))
  {
    EnsureConserves(l, key, p, raced);
    var l1 := Ensured(l, key, p, raced);
    if Room(l1.budgets[key], p.unitsPerRequest) {
      ReservingConserves(l1, key, p.unitsPerRequest, id);
    }
  }

  lemma TransitionConserves(l: Ledger, h: Handle, target: ReservationStatus)
    requires Conserved(l) && TransitionMatches(l, h) && target != Reserved
    requires l.reservations[Find(l.reservations, h.id.value)].units == h.units
    ensures Conserved(Transitioned(l, h, target))
  {
    var l' := Transitioned(l, h, target);
    var i := Find(l.reservations, h.id.value);
    forall k | k in l'.budgets ensures Balanced(l', k) {
      assert Balanced(l, k);
      var r := l.reservations[i].(status := target);
      UnitsUpdate(l.reservations, i, r, k, Reserved);
      UnitsUpdate(l.reservations, i, r, k, Used);
      UnitsUpdate(l.reservations, i, r, k, Released);
    }
  }

  /** An accepted transition takes its units from the handle, not from the stored
      reservation, so it keeps the books exactly when the two agree. */
  lemma TransitionConservesIffUnitsAgree(l: Ledger, h: Handle, target: ReservationStatus)
    requires Conserved(l) && TransitionMatches(l, h) && target != Reserved
    ensures Conserved(Transitioned(l, h, target))
            <==> l.reservations[Find(l.reservations, h.id.value)].units == h.units
  {
    var i := Find(l.reservations, h.id.value);
    if l.reservations[i].units == h.units {
      TransitionConserves(l, h, target);
    } else {
      var key := l.reservations[i].budget;
      var l' := Transitioned(l, h, target);
      assert Balanced(l, key);
      UnitsUpdate(l.reservations, i, l.reservations[i].(status := target), key, Reserved);
      assert !Balanced(l', key);
    }
  }

  /** Where an id is found does not depend on what is appended or updated elsewhere. */
  lemma FindStable(rs: seq<Reservation>, rs': seq<Reservation>, id: nat)
    requires |rs| <= |rs'| && (forall i :: 0 <= i < |rs| ==> rs'[i].id == rs[i].id)
    requires Find(rs, id) < |rs|
    ensures Find(rs', id) == Find(rs, id)
  {
  }

  /** What is used or reserved, and the limit now in force, stay below the largest limit
      the window was ever configured with. */
  predicate WithinLimit(l: Ledger, key: BudgetKey, limit: int)
    requires key in l.budgets
  {
    l.budgets[key].used + l.budgets[key].reserved <= limit && l.budgets[key].hardLimit <= limit
  }

  /** Reserving leaves every other budget alone, and its own within the raised limit. */
  lemma ReserveWithinLimit(l: Ledger, key: BudgetKey, p: Policy, raced: bool, id: nat, limit: int, k: BudgetKey)
    requires Conserved(l) && ValidPolicy(p)
    requires k in ReserveLedger(l, key, p, raced, id).budgets
    requires k in l.budgets ==> WithinLimit(l, k, limit)
    requires k !in l.budgets ==> limit == p.hardLimit
    ensures WithinLimit(ReserveLedger(l, key, p, raced, id), k, if k == key then Max(limit, p.hardLimit) else limit)
  {
    if k !in l.budgets {
      UnitsOfAbsentBudget(l.reservations, k, Reserved);
    }
  }
}
