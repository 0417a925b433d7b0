/** Runs of atomic reserve, consume and release steps on one ledger. */
module BudgetRuns {
  import opened Sql
  import opened Database
  import opened Budget

  datatype World = World(ledger: Ledger, handles: set<Handle>, largest: map<BudgetKey, int>, nextId: nat)

  datatype Step =
    | Reserve(policy: Policy, window: Window, raced: bool)
    | Move(handle: Handle, target: ReservationStatus)

  const INIT: World := World(Ledger(map[], []), {}, map[], 0)

  function Raise(largest: map<BudgetKey, int>, key: BudgetKey, limit: int): map<BudgetKey, int> {
    largest[key := if key in largest then Max(largest[key], limit) else limit]
  }

  function Apply(w: World, s: Step): World {
    match s
    case Reserve(p, window, raced) =>
      if !ValidPolicy(p) then w else
        var key := BudgetKey(p.provider, p.operation, window);
        World(ReserveLedger(w.ledger, key, p, raced, w.nextId),
              w.handles + {ReserveHandle(w.ledger, key, p, raced, w.nextId)},
              Raise(w.largest, key, p.hardLimit), w.nextId + 1)
    case Move(h, target) =>
      if h in w.handles && target != Reserved && TransitionMatches(w.ledger, h)
      then w.(ledger := Transitioned(w.ledger, h, target))
      else w
  }

  function Run(w: World, steps: seq<Step>): World
    decreases |steps|
  {
    if steps == [] then w else Run(Apply(w, steps[0]), steps[1..])
  }

  /** Handed-out reservations are stored with their units. */
  predicate HandleStored(l: Ledger, h: Handle) {
    h.id.Some? ==>
      && Find(l.reservations, h.id.value) < |l.reservations|
      && l.reservations[Find(l.reservations, h.id.value)].units == h.units
  }

  ghost predicate Inv(w: World) {
    && Conserved(w.ledger)
    && (forall i :: 0 <= i < |w.ledger.reservations| ==> w.ledger.reservations[i].id < w.nextId)
    && (forall h :: h in w.handles ==> HandleStored(w.ledger, h))
    && w.ledger.budgets.Keys == w.largest.Keys
    && (forall key :: key in w.ledger.budgets ==> WithinLimit(w.ledger, key, w.largest[key]))
  }

  lemma ReserveKeepsHandles(w: World, key: BudgetKey, p: Policy, raced: bool, h: Handle)
    requires Inv(w)
    requires h in w.handles || h == ReserveHandle(w.ledger, key, p, raced, w.nextId)
    ensures HandleStored(ReserveLedger(w.ledger, key, p, raced, w.nextId), h)
  {
    var l' := ReserveLedger(w.ledger, key, p, raced, w.nextId);
    if h.id.Some? && h in w.handles {
      assert HandleStored(w.ledger, h);
      FindStable(w.ledger.reservations, l'.reservations, h.id.value);
    } else if h.id.Some? {
      assert l'.reservations[|w.ledger.reservations|] == Reservation(h.id.value, key, h.units, Reserved);
    }
  }

  lemma ReserveKeepsInv(w: World, p: Policy, window: Window, raced: bool)
    requires Inv(w) && ValidPolicy(p)
    ensures Inv(Apply(w, Reserve(p, window, raced)))
  {
    var key := BudgetKey(p.provider, p.operation, window);
    var w' := Apply(w, Reserve(p, window, raced));
    ReserveConserves(w.ledger, key, p, raced, w.nextId);
    forall h | h in w'.handles ensures HandleStored(w'.ledger, h) {
      ReserveKeepsHandles(w, key, p, raced, h);
    }
    forall k | k in w'.ledger.budgets ensures WithinLimit(w'.ledger, k, w'.largest[k]) {
      ReserveWithinLimit(w.ledger, key, p, raced, w.nextId, if k in w.largest then w.largest[k] else p.hardLimit, k);
    }
  }

  lemma MoveKeepsInv(w: World, h: Handle, target: ReservationStatus)
    requires Inv(w) && h in w.handles && target != Reserved && TransitionMatches(w.ledger, h)
    ensures Inv(Apply(w, Move(h, target)))
  {
    var w' := Apply(w, Move(h, target));
    TransitionConserves(w.ledger, h, target);
    forall g | g in w'.handles ensures HandleStored(w'.ledger, g) {
      if g.id.Some? {
        FindStable(w.ledger.reservations, w'.ledger.reservations, g.id.value);
      }
    }
    forall k | k in w'.ledger.budgets ensures WithinLimit(w'.ledger, k, w'.largest[k]) {
      assert WithinLimit(w.ledger, k, w.largest[k]);
    }
  }

  lemma {:induction false} RunKeepsInv(w: World, steps: seq<Step>)
    requires Inv(w)
    ensures Inv(Run(w, steps))
    decreases |steps|
  {
    if steps != [] {
      match steps[0] {
        case Reserve(p, window, raced) =>
          if ValidPolicy(p) {
            ReserveKeepsInv(w, p, window, raced);
          }
        case Move(h, target) =>
          if h in w.handles && target != Reserved && TransitionMatches(w.ledger, h) {
            MoveKeepsInv(w, h, target);
          }
      }
      RunKeepsInv(Apply(w, steps[0]), steps[1..]);
    }
  }

  /** Over any interleaving of reserve, consume and release the counters equal the sums
      over the reservations, and used plus reserved units never exceed the largest limit
      configured for the window. */
  lemma BudgetConserved(steps: seq<Step>)
    ensures var w := Run(INIT, steps);
            && Conserved(w.ledger)
            && forall key :: key in w.ledger.budgets ==>
                 && key in w.largest
                 && w.ledger.budgets[key].used + w.ledger.budgets[key].reserved <= w.largest[key]
  {
    RunKeepsInv(INIT, steps);
    var w := Run(INIT, steps);
    assert forall key :: key in w.ledger.budgets ==> WithinLimit(w.ledger, key, w.largest[key]);
  }

  // ---------- what fits is granted ----------

  predicate Charges(s: Step, key: BudgetKey) {
    s.Reserve? && BudgetKey(s.policy.provider, s.policy.operation, s.window) == key
  }

  /** All requests of the window ask for as many units under the same limit, and none is
      given back. */
  predicate Uniform(steps: seq<Step>, key: BudgetKey, limit: int, units: int) {
    forall i :: 0 <= i < |steps| ==>
      && (Charges(steps[i], key) ==> steps[i].policy.hardLimit == limit && steps[i].policy.unitsPerRequest == units)
      && (steps[i].Move? ==> steps[i].target != Released)
  }

  function Attempts(steps: seq<Step>, key: BudgetKey): nat {
    if steps == [] then 0 else Attempts(steps[..|steps| - 1], key) + if Charges(steps[|steps| - 1], key) then 1 else 0
  }

  /** The used and the reserved units of the window. */
  function Taken(w: World, key: BudgetKey): int {
    if key in w.ledger.budgets then w.ledger.budgets[key].used + w.ledger.budgets[key].reserved else 0
  }

  /** The window after some of these requests: none was refused, or no further one fits. */
  ghost predicate Filled(w: World, key: BudgetKey, limit: int, units: int, attempts: nat) {
    && (key in w.ledger.budgets ==> w.ledger.budgets[key].hardLimit == limit)
    && (key in w.ledger.budgets <==> attempts > 0)
    && if attempts * units <= limit then Taken(w, key) == attempts * units else limit - units < Taken(w, key) <= limit
  }

  lemma ReserveFills(w: World, s: Step, key: BudgetKey, limit: int, units: int, attempts: nat)
    requires Filled(w, key, limit, units, attempts) && Charges(s, key) && limit >= 0 && units > 0
    requires s.policy.hardLimit == limit && s.policy.unitsPerRequest == units
    ensures Filled(Apply(w, s), key, limit, units, attempts + 1)
    ensures |Apply(w, s).ledger.reservations| == |w.ledger.reservations| + if (attempts + 1) * units <= limit then 1 else 0
  {
    assert (attempts + 1) * units == attempts * units + units;
    assert attempts * units >= 0;
  }

  lemma OtherStepsKeepTaken(w: World, s: Step, key: BudgetKey)
    requires !Charges(s, key) && (s.Move? ==> s.target != Released)
    ensures Taken(Apply(w, s), key) == Taken(w, key)
    ensures key in Apply(w, s).ledger.budgets <==> key in w.ledger.budgets
    ensures key in w.ledger.budgets ==> Apply(w, s).ledger.budgets[key].hardLimit == w.ledger.budgets[key].hardLimit
  {
  }

  lemma {:induction false} RunAnd(w: World, steps: seq<Step>, s: Step)
    ensures Run(w, steps + [s]) == Apply(Run(w, steps), s)
    decreases |steps|
  {
    if steps == [] {
      assert [s][1..] == [] && Run(w, [s]) == Run(Apply(w, s), []);
    } else {
      assert (steps + [s])[1..] == steps[1..] + [s];
      RunAnd(Apply(w, steps[0]), steps[1..], s);
    }
  }

  lemma {:induction false} RunFills(steps: seq<Step>, key: BudgetKey, limit: int, units: int)
    requires Uniform(steps, key, limit, units) && limit >= 0 && units > 0
    ensures Filled(Run(INIT, steps), key, limit, units, Attempts(steps, key))
    decreases |steps|
  {
    if steps != [] {
      var rest, last := steps[..|steps| - 1], steps[|steps| - 1];
      RunFills(rest, key, limit, units);
      assert steps == rest + [last];
      RunAnd(INIT, rest, last);
      if Charges(last, key) {
        ReserveFills(Run(INIT, rest), last, key, limit, units, Attempts(rest, key));
      } else {
        OtherStepsKeepTaken(Run(INIT, rest), last, key);
      }
    }
  }

  /** With one limit, one size of request and nothing given back, the requests of a window
      are granted, whatever else happens in between, exactly as long as all so far fit: with
      single units, the first as many as the limit says. */
  lemma FirstRequestsSucceed(steps: seq<Step>, key: BudgetKey, limit: int, units: int, i: nat)
    requires Uniform(steps, key, limit, units) && limit >= 0 && units > 0 && i < |steps| && Charges(steps[i], key)
    ensures var before, after := Run(INIT, steps[..i]).ledger.reservations, Run(INIT, steps[..i + 1]).ledger.reservations;
            && |after| == |before| + (if (Attempts(steps[..i], key) + 1) * units <= limit then 1 else 0)
            && (units == 1 ==> (|after| > |before| <==> Attempts(steps[..i], key) < limit))
  {
    assert steps[..i + 1] == steps[..i] + [steps[i]];
    RunFills(steps[..i], key, limit, units);
    RunAnd(INIT, steps[..i], steps[i]);
    ReserveFills(Run(INIT, steps[..i]), steps[i], key, limit, units, Attempts(steps[..i], key));
  }

  /** A reservation leaves `reserved` at most once: its final status stays, and no later
      transition of its handle succeeds. */
  lemma {:induction false} FinalStatusStays(w: World, steps: seq<Step>, i: nat, h: Handle)
    requires i < |w.ledger.reservations| && w.ledger.reservations[i].status != Reserved
    requires Find(w.ledger.reservations, w.ledger.reservations[i].id) == i
    requires h.id == Some(w.ledger.reservations[i].id)
    ensures var w' := Run(w, steps);
            && i < |w'.ledger.reservations| && w'.ledger.reservations[i] == w.ledger.reservations[i]
            && !TransitionMatches(w'.ledger, h)
    decreases |steps|
  {
    if steps != [] {
      var w1 := Apply(w, steps[0]);
      FindStable(w.ledger.reservations, w1.ledger.reservations, h.id.value);
      FinalStatusStays(w1, steps[1..], i, h);
    }
  }
}
