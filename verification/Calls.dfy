/** Calls to an external provider within one budget window, made by any number of
    caller sessions.

    A session's ledger changes stay in its own transaction until it commits, and the
    budget row it changed is locked until then. What the lease store, the circuit breaker
    and the provider answer is left open here: every answer is a possible step. */
module Calls {
  import opened Sql
  import opened Database
  import opened Budget
  import Chunks

  /** How far a session has got with the request it is admitting. */
  datatype Phase = Held(h: Handle) | Leased(h: Handle, fingerprint: string)

  datatype Dirty = Dirty(owner: nat, ledger: Ledger)

  datatype Answer = Inserted | TookOver | Refused

  /** `ready` and `calls` hold, for the reservation of each permitted and each made call, the
      fingerprint of its stay query. `inserted` holds the lease rows that requests of this
      window inserted, with their reservations, and `elsewhere` all others. */
  datatype World = World(
    committed: Ledger,
    dirty: Option<Dirty>,
    phases: map<nat, Phase>,
    ready: map<nat, string>,
    calls: map<nat, string>,
    inserted: map<string, nat>,
    elsewhere: set<string>,
    largest: int,
    issued: set<nat>)

  datatype Step =
    | Reserve(sid: nat, id: nat, policy: Policy, raced: bool)
    | Acquire(sid: nat, fingerprint: string, answer: Answer)
    | Consume(sid: nat, finishCommits: bool)
    | Call(id: nat)
    | End(sid: nat, commit: bool)
    | Abort(sid: nat, release: bool)
    | LeaseElsewhere(fingerprint: string)

  const INIT: World := World(Ledger(map[], []), None, map[], map[], map[], map[], {}, 0, {})

  function Visible(w: World, sid: nat): Ledger {
    if w.dirty.Some? && w.dirty.value.owner == sid then w.dirty.value.ledger else w.committed
  }

  /** Writing waits for the lock on the budget row. */
  predicate Free(w: World, sid: nat) {
    w.dirty.None? || w.dirty.value.owner == sid
  }

  predicate HasLease(w: World, fingerprint: string) {
    fingerprint in w.inserted || fingerprint in w.elsewhere
  }

  function Write(w: World, sid: nat, l: Ledger): World {
    if l == Visible(w, sid) then w else w.(dirty := Some(Dirty(sid, l)))
  }

  function Ended(w: World, sid: nat, commit: bool): World {
    if w.dirty.None? || w.dirty.value.owner != sid then w
    else w.(committed := if commit then w.dirty.value.ledger else w.committed, dirty := None)
  }

  function Moved(w: World, sid: nat, h: Handle, target: ReservationStatus): World {
    var l := Visible(w, sid);
    if TransitionMatches(l, h) then Write(w, sid, Transitioned(l, h, target)) else w
  }

  /** A lease row is inserted exactly when the fingerprint has none. A session ends its
      transaction only outside an admission; inside one the lease does. */
  predicate Enabled(key: BudgetKey, w: World, s: Step) {
    match s
    case Reserve(sid, id, p, _) =>
      && ValidPolicy(p) && p.provider == key.provider && p.operation == key.operation
      && sid !in w.phases && id !in w.issued && Free(w, sid)
    case Acquire(sid, fingerprint, answer) =>
      && sid in w.phases && w.phases[sid].Held? && (answer == Inserted <==> !HasLease(w, fingerprint))
      && (answer == Refused ==> Free(w, sid))
    case Consume(sid, _) => sid in w.phases && w.phases[sid].Leased? && Free(w, sid)
    case Call(id) => id in w.ready
    case End(sid, _) => sid !in w.phases
    case Abort(sid, _) => sid in w.phases && Free(w, sid)
    case LeaseElsewhere(fingerprint) => !HasLease(w, fingerprint)
  }

  function Apply(key: BudgetKey, w: World, s: Step): World {
    if !Enabled(key, w, s) then w else
      match s
      case Reserve(sid, id, p, raced) =>
        var l := Visible(w, sid);
        var h := ReserveHandle(l, key, p, raced, id);
        var w1 := Write(w, sid, ReserveLedger(l, key, p, raced, id));
        w1.(largest := Max(w.largest, p.hardLimit), issued := w.issued + {id},
            phases := if h.allowed then w.phases[sid := Held(h)] else w.phases)
      case Acquire(sid, fingerprint, answer) =>
        var h := w.phases[sid].h;
        (match answer
         // A new fingerprint: the insert commits everything so far.
         case Inserted =>
           Ended(w, sid, true).(phases := w.phases[sid := Leased(h, fingerprint)],
                                inserted := if h.id.Some? then w.inserted[fingerprint := h.id.value] else w.inserted)
         // The unique key rolls everything back before the row is taken over.
         case TookOver => Ended(w, sid, false).(phases := w.phases[sid := Leased(h, fingerprint)])
         case Refused => Moved(Ended(w, sid, false), sid, h, Released).(phases := w.phases - {sid}))
      case Consume(sid, finishCommits) =>
        var h := w.phases[sid].h;
        if TransitionMatches(Visible(w, sid), h) then
          Moved(w, sid, h, Used).(phases := w.phases - {sid}, ready := w.ready[h.id.value := w.phases[sid].fingerprint])
        else
          Ended(Moved(w, sid, h, Released), sid, finishCommits).(phases := w.phases - {sid})
      case Call(id) => w.(ready := w.ready - {id}, calls := w.calls[id := w.ready[id]])
      case End(sid, commit) => Ended(w, sid, commit)
      case Abort(sid, release) =>
        var w1 := w.(phases := w.phases - {sid});
        if release then Moved(w1, sid, w.phases[sid].h, Released) else w1
      case LeaseElsewhere(fingerprint) => w.(elsewhere := w.elsewhere + {fingerprint})
  }

  function Run(key: BudgetKey, w: World, steps: seq<Step>): World
    decreases |steps|
  {
    if steps == [] then w else Run(key, Apply(key, w, steps[0]), steps[1..])
  }

  // ---------- what the ledger statements do to one reservation ----------

  function Lookup(l: Ledger, id: nat): Option<Reservation> {
    var i := Find(l.reservations, id);
    if i < |l.reservations| then Some(l.reservations[i]) else None
  }

  predicate Live(l: Ledger, id: nat) {
    Lookup(l, id).Some? && Lookup(l, id).value.status != Released
  }

  lemma ReserveLookup(l: Ledger, key: BudgetKey, p: Policy, raced: bool, newId: nat, id: nat)
    requires FreshId(l, newId)
    ensures Lookup(ReserveLedger(l, key, p, raced, newId), id)
            == if id == newId && Room(EnsuredRow(l, key, p, raced), p.unitsPerRequest)
               then Some(Reservation(newId, key, p.unitsPerRequest, Reserved)) else Lookup(l, id)
  {
    var l' := ReserveLedger(l, key, p, raced, newId);
    if Find(l.reservations, id) < |l.reservations| {
      FindStable(l.reservations, l'.reservations, id);
    } else if id == newId && |l'.reservations| > |l.reservations| {
      assert l'.reservations[|l.reservations|].id == newId;
    }
  }

  lemma TransitionLookup(l: Ledger, h: Handle, target: ReservationStatus, id: nat)
    requires TransitionMatches(l, h)
    ensures Lookup(l, h.id.value).Some?
    ensures Lookup(Transitioned(l, h, target), id)
            == if id == h.id.value then Some(Lookup(l, id).value.(status := target)) else Lookup(l, id)
  {
    var l' := Transitioned(l, h, target);
    if Find(l.reservations, id) < |l.reservations| {
      FindStable(l.reservations, l'.reservations, id);
    } else {
      assert forall i :: 0 <= i < |l.reservations| ==> l'.reservations[i].id == l.reservations[i].id;
    }
  }

  // ---------- the invariant ----------

  ghost predicate LedgerOk(key: BudgetKey, l: Ledger, largest: int, issued: set<nat>) {
    && Conserved(l)
    && (forall i :: 0 <= i < |l.reservations| ==> l.reservations[i].id in issued && l.reservations[i].budget == key)
    && (key in l.budgets ==> WithinLimit(l, key, largest))
  }

  ghost predicate LedgersOk(key: BudgetKey, w: World) {
    && LedgerOk(key, w.committed, w.largest, w.issued)
    && (w.dirty.Some? ==> LedgerOk(key, w.dirty.value.ledger, w.largest, w.issued))
  }

  /** How one reservation is stored: committed, in the open transaction, and whose that is. */
  datatype Sight = Sight(stored: Option<Reservation>, open: Option<Reservation>, owner: Option<nat>)

  function SightOf(w: World, id: nat): Sight {
    Sight(Lookup(w.committed, id),
          if w.dirty.Some? then Lookup(w.dirty.value.ledger, id) else Lookup(w.committed, id),
          if w.dirty.Some? then Some(w.dirty.value.owner) else None)
  }

  predicate Counts(r: Option<Reservation>) {
    r.Some? && r.value.status != Released
  }

  /** The reservation behind a handle that is still being admitted is untouched wherever
      it is stored. */
  predicate Intact(r: Option<Reservation>, h: Handle) {
    r.Some? ==> r.value.status == Reserved && r.value.units == h.units
  }

  /** Before its lease a request's reservation is in its own transaction only; past its
      lease it is in an open transaction only if it is committed. */
  predicate PhaseSight(sid: nat, phase: Phase, s: Sight) {
    && Intact(s.stored, phase.h) && Intact(s.open, phase.h)
    && (s.stored.Some? ==> phase.Leased?)
    && ((phase.Leased? || s.owner != Some(sid)) && s.open.Some? ==> s.stored.Some?)
  }

  predicate InsertedBy(w: World, id: nat, fingerprint: string) {
    fingerprint in w.inserted && w.inserted[fingerprint] == id
  }

  /** And it is committed only if the request inserted the lease row. */
  predicate PhaseOk(w: World, sid: nat, phase: Phase) {
    && phase.h.id.Some? && phase.h.id.value in w.issued
    && phase.h.id.value !in w.ready && phase.h.id.value !in w.calls
    && PhaseSight(sid, phase, SightOf(w, phase.h.id.value))
    && (phase.Leased? && SightOf(w, phase.h.id.value).stored.Some? ==> InsertedBy(w, phase.h.id.value, phase.fingerprint))
  }

  /** A permitted or made call: its reservation counts whatever the open transaction does,
      and it inserted its lease row. */
  predicate CallOk(w: World, id: nat) {
    && Counts(SightOf(w, id).stored) && Counts(SightOf(w, id).open)
    && (id in w.ready ==> InsertedBy(w, id, w.ready[id]) && id !in w.calls)
    && (id in w.calls ==> InsertedBy(w, id, w.calls[id]))
  }

  ghost predicate AdmissionsOk(w: World) {
    && (forall id :: id in w.ready || id in w.calls ==> CallOk(w, id))
    && (forall sid :: sid in w.phases ==> PhaseOk(w, sid, w.phases[sid]))
    && (forall s, t :: s in w.phases && t in w.phases && s != t ==> w.phases[s].h.id != w.phases[t].h.id)
    && (forall f :: f in w.inserted ==> f !in w.elsewhere)
  }

  ghost predicate Inv(key: BudgetKey, w: World) {
    LedgersOk(key, w) && AdmissionsOk(w)
  }

  // ---------- how the operations change what is stored ----------

  predicate SameSight(w: World, w': World, sid: nat, id: nat) {
    var s, s' := SightOf(w, id), SightOf(w', id);
    s'.stored == s.stored && s'.open == s.open && (s'.owner == s.owner || (s.owner.None? && s'.owner == Some(sid)))
  }

  lemma WriteSight(w: World, sid: nat, l: Ledger, id: nat)
    requires Free(w, sid)
    ensures var s, s' := SightOf(w, id), SightOf(Write(w, sid, l), id);
            && s'.stored == s.stored && s'.open == Lookup(l, id)
            && (s'.owner == s.owner || (s.owner.None? && s'.owner == Some(sid)))
    ensures Lookup(Visible(w, sid), id) == SightOf(w, id).open
  {
  }

  lemma EndSight(w: World, sid: nat, commit: bool, id: nat)
    ensures var s := SightOf(w, id);
            SightOf(Ended(w, sid, commit), id)
            == if s.owner != Some(sid) then s else if commit then Sight(s.open, s.open, None) else Sight(s.stored, s.stored, None)
  {
  }

  /** Whatever changes only one reservation, which nobody relies on, keeps the admissions. */
  lemma OthersKeepAdmissions(w: World, w': World, sid: nat, changed: nat)
    requires AdmissionsOk(w) && sid !in w'.phases && changed !in w.ready && changed !in w.calls
    requires w'.ready == w.ready && w'.calls == w.calls && w.issued <= w'.issued
    requires w'.inserted == w.inserted && w'.elsewhere == w.elsewhere
    requires forall t :: t in w'.phases ==> t in w.phases && w'.phases[t] == w.phases[t] && w.phases[t].h.id != Some(changed)
    requires forall id :: id != changed ==> SameSight(w, w', sid, id)
    ensures AdmissionsOk(w')
  {
    forall t | t in w'.phases ensures PhaseOk(w', t, w'.phases[t]) {
      assert PhaseOk(w, t, w.phases[t]) && SameSight(w, w', sid, w.phases[t].h.id.value);
    }
    forall id | id in w'.ready || id in w'.calls ensures CallOk(w', id) {
      assert CallOk(w, id) && SameSight(w, w', sid, id);
    }
  }

  /** Whatever leaves the ledgers alone and only adds lease rows keeps the admissions. */
  lemma MoreLeasesKeepAdmissions(w: World, w': World)
    requires AdmissionsOk(w)
    requires w' == w.(phases := w'.phases, inserted := w'.inserted, elsewhere := w'.elsewhere)
    requires forall t :: t in w'.phases ==> t in w.phases && w'.phases[t] == w.phases[t]
    requires forall f :: f in w.inserted ==> f in w'.inserted && w'.inserted[f] == w.inserted[f]
    requires forall f :: f in w'.inserted ==> f !in w'.elsewhere
    ensures AdmissionsOk(w')
  {
    assert forall id :: SightOf(w', id) == SightOf(w, id);
    forall t | t in w'.phases ensures PhaseOk(w', t, w'.phases[t]) {
      assert PhaseOk(w, t, w.phases[t]);
    }
    forall id | id in w'.ready || id in w'.calls ensures CallOk(w', id) {
      assert CallOk(w, id);
    }
  }

  function Dropped(w: World, sid: nat): World {
    w.(phases := w.phases - {sid})
  }

  lemma DropKeepsInv(key: BudgetKey, w: World, sid: nat)
    requires Inv(key, w)
    ensures Inv(key, Dropped(w, sid))
  {
    MoreLeasesKeepAdmissions(w, Dropped(w, sid));
  }

  /** A session enters its admission, or goes on in it. */
  lemma EnterKeepsAdmissions(w: World, sid: nat, phase: Phase)
    requires AdmissionsOk(w) && sid !in w.phases && PhaseOk(w, sid, phase)
    requires forall t :: t in w.phases ==> w.phases[t].h.id != phase.h.id
    ensures AdmissionsOk(w.(phases := w.phases[sid := phase]))
  {
    var w' := w.(phases := w.phases[sid := phase]);
    assert forall id :: SightOf(w', id) == SightOf(w, id);
    forall t | t in w'.phases ensures PhaseOk(w', t, w'.phases[t]) {
      assert t != sid ==> PhaseOk(w, t, w.phases[t]);
    }
    forall id | id in w'.ready || id in w'.calls ensures CallOk(w', id) {
      assert CallOk(w, id);
    }
  }

  lemma EndKeepsInv(key: BudgetKey, w: World, sid: nat, commit: bool)
    requires Inv(key, w) && sid !in w.phases
    ensures Inv(key, Ended(w, sid, commit))
  {
    EndKeepsAdmissions(w, sid, commit);
  }

  lemma EndKeepsAdmissions(w: World, sid: nat, commit: bool)
    requires AdmissionsOk(w) && sid !in w.phases
    ensures AdmissionsOk(Ended(w, sid, commit))
  {
    var w' := Ended(w, sid, commit);
    forall t | t in w'.phases ensures PhaseOk(w', t, w'.phases[t]) {
      assert PhaseOk(w, t, w.phases[t]);
      EndSight(w, sid, commit, w.phases[t].h.id.value);
    }
    forall id | id in w'.ready || id in w'.calls ensures CallOk(w', id) {
      assert CallOk(w, id);
      EndSight(w, sid, commit, id);
    }
  }

  lemma MoveSight(w: World, sid: nat, h: Handle, target: ReservationStatus, id: nat)
    requires Free(w, sid)
    ensures h.id != Some(id) ==> SameSight(w, Moved(w, sid, h, target), sid, id)
    ensures h.id == Some(id) && TransitionMatches(Visible(w, sid), h) ==>
              var s, s' := SightOf(w, id), SightOf(Moved(w, sid, h, target), id);
              s'.stored == s.stored && s.open.Some? && s'.open == Some(s.open.value.(status := target))
  {
    var l := Visible(w, sid);
    if TransitionMatches(l, h) {
      TransitionLookup(l, h, target, id);
      WriteSight(w, sid, Transitioned(l, h, target), id);
    }
  }

  lemma TransitionOk(key: BudgetKey, l: Ledger, h: Handle, target: ReservationStatus, largest: int, issued: set<nat>)
    requires LedgerOk(key, l, largest, issued) && TransitionMatches(l, h) && target != Reserved
    requires Intact(Lookup(l, h.id.value), h)
    ensures LedgerOk(key, Transitioned(l, h, target), largest, issued)
  {
    TransitionConserves(l, h, target);
  }

  lemma MoveKeepsLedgers(key: BudgetKey, w: World, sid: nat, h: Handle, target: ReservationStatus)
    requires LedgersOk(key, w) && Free(w, sid) && target != Reserved
    requires h.id.Some? && Intact(SightOf(w, h.id.value).open, h)
    ensures LedgersOk(key, Moved(w, sid, h, target))
  {
    if TransitionMatches(Visible(w, sid), h) {
      TransitionOk(key, Visible(w, sid), h, target, w.largest, w.issued);
      WriteKeepsLedgers(key, w, sid, Transitioned(Visible(w, sid), h, target));
    }
  }

  lemma WriteKeepsLedgers(key: BudgetKey, w: World, sid: nat, l: Ledger)
    requires LedgersOk(key, w) && LedgerOk(key, l, w.largest, w.issued)
    ensures LedgersOk(key, Write(w, sid, l))
  {
  }

  /** Moving a reservation whose request has just left the admission: every other
      request, and every call, keeps its reservation. */
  lemma MoveKeepsInv(key: BudgetKey, w: World, sid: nat, h: Handle, target: ReservationStatus)
    requires Inv(key, w) && Free(w, sid) && target != Reserved && sid !in w.phases
    requires h.id.Some? && Intact(SightOf(w, h.id.value).open, h)
    requires h.id.value !in w.ready && h.id.value !in w.calls
    requires forall t :: t in w.phases ==> w.phases[t].h.id != h.id
    ensures Inv(key, Moved(w, sid, h, target))
  {
    MoveKeepsLedgers(key, w, sid, h, target);
    forall id | id != h.id.value ensures SameSight(w, Moved(w, sid, h, target), sid, id) {
      MoveSight(w, sid, h, target, id);
    }
    OthersKeepAdmissions(w, Moved(w, sid, h, target), sid, h.id.value);
  }

  // ---------- the steps keep it ----------

  lemma ReserveOk(key: BudgetKey, l: Ledger, p: Policy, raced: bool, largest: int, issued: set<nat>, id: nat)
    requires LedgerOk(key, l, largest, issued) && ValidPolicy(p) && largest >= 0 && id !in issued
    ensures LedgerOk(key, ReserveLedger(l, key, p, raced, id), Max(largest, p.hardLimit), issued + {id})
  {
    ReserveConserves(l, key, p, raced, id);
    ReserveWithinLimit(l, key, p, raced, id, if key in l.budgets then largest else p.hardLimit, key);
  }

  lemma LedgerOkWeakens(key: BudgetKey, l: Ledger, largest: int, issued: set<nat>, larger: int, id: nat)
    requires LedgerOk(key, l, largest, issued) && largest <= larger
    ensures LedgerOk(key, l, larger, issued + {id})
  {
  }

  lemma CallsAreIssued(key: BudgetKey, w: World)
    requires Inv(key, w)
    ensures forall id :: id in w.ready || id in w.calls ==> id in w.issued
  {
    forall id | id in w.ready || id in w.calls ensures id in w.issued {
      assert CallOk(w, id);
    }
  }

  /** The world after a reservation, before its session enters the admission. */
  function ReservedIn(key: BudgetKey, w: World, s: Step): World
    requires s.Reserve?
  {
    Write(w, s.sid, ReserveLedger(Visible(w, s.sid), key, s.policy, s.raced, s.id))
    .(largest := Max(w.largest, s.policy.hardLimit), issued := w.issued + {s.id})
  }

  lemma ReserveKeepsLedgers(key: BudgetKey, w: World, s: Step)
    requires LedgersOk(key, w) && w.largest >= 0 && s.Reserve? && Enabled(key, w, s)
    ensures LedgersOk(key, ReservedIn(key, w, s))
  {
    var l, larger := Visible(w, s.sid), Max(w.largest, s.policy.hardLimit);
    ReserveOk(key, l, s.policy, s.raced, w.largest, w.issued, s.id);
    LedgerOkWeakens(key, w.committed, w.largest, w.issued, larger, s.id);
    if w.dirty.Some? {
      LedgerOkWeakens(key, w.dirty.value.ledger, w.largest, w.issued, larger, s.id);
    }
  }

  lemma ReserveSight(key: BudgetKey, w: World, s: Step, id: nat)
    requires LedgersOk(key, w) && s.Reserve? && Enabled(key, w, s)
    ensures id != s.id ==> SameSight(w, ReservedIn(key, w, s), s.sid, id)
    ensures var h := ReserveHandle(Visible(w, s.sid), key, s.policy, s.raced, s.id);
            id == s.id && h.allowed ==>
              SightOf(ReservedIn(key, w, s), id) == Sight(None, Some(Reservation(id, key, h.units, Reserved)), Some(s.sid))
  {
    var l := Visible(w, s.sid);
    ReserveLookup(l, key, s.policy, s.raced, s.id, id);
    WriteSight(w, s.sid, ReserveLedger(l, key, s.policy, s.raced, s.id), id);
  }

  lemma ReserveSights(key: BudgetKey, w: World, s: Step)
    requires LedgersOk(key, w) && s.Reserve? && Enabled(key, w, s)
    ensures forall id :: id != s.id ==> SameSight(w, ReservedIn(key, w, s), s.sid, id)
  {
    forall id | id != s.id ensures SameSight(w, ReservedIn(key, w, s), s.sid, id) {
      ReserveSight(key, w, s, id);
    }
  }

  lemma PhasesAreIssued(w: World)
    requires AdmissionsOk(w)
    ensures forall t :: t in w.phases ==> w.phases[t].h.id.Some? && w.phases[t].h.id.value in w.issued
  {
    forall t | t in w.phases ensures w.phases[t].h.id.Some? && w.phases[t].h.id.value in w.issued {
      assert PhaseOk(w, t, w.phases[t]);
    }
  }

  /** Apart from the ledger, a reservation only uses up its id. */
  lemma ReservedInRest(key: BudgetKey, w: World, s: Step)
    requires s.Reserve?
    ensures var w1 := ReservedIn(key, w, s);
            && w1.phases == w.phases && w1.ready == w.ready && w1.calls == w.calls && w1.inserted == w.inserted
            && w1.elsewhere == w.elsewhere && w1.issued == w.issued + {s.id}
  {
  }

  lemma ReserveKeepsAdmissions(key: BudgetKey, w: World, s: Step)
    requires Inv(key, w) && s.Reserve? && Enabled(key, w, s)
    ensures AdmissionsOk(ReservedIn(key, w, s))
  {
    CallsAreIssued(key, w);
    PhasesAreIssued(w);
    ReserveSights(key, w, s);
    ReservedInRest(key, w, s);
    OthersKeepAdmissions(w, ReservedIn(key, w, s), s.sid, s.id);
  }

  lemma EnterKeepsInv(key: BudgetKey, w: World, s: Step, h: Handle)
    requires Inv(key, w) && s.Reserve? && Enabled(key, w, s)
    requires h == ReserveHandle(Visible(w, s.sid), key, s.policy, s.raced, s.id) && h.allowed
    requires AdmissionsOk(ReservedIn(key, w, s))
    ensures var w1 := ReservedIn(key, w, s); AdmissionsOk(w1.(phases := w1.phases[s.sid := Held(h)]))
  {
    CallsAreIssued(key, w);
    ReserveSight(key, w, s, s.id);
    assert forall t :: t in w.phases ==> PhaseOk(w, t, w.phases[t]);
    EnterKeepsAdmissions(ReservedIn(key, w, s), s.sid, Held(h));
  }

  lemma ReserveIs(key: BudgetKey, w: World, s: Step)
    requires s.Reserve? && Enabled(key, w, s)
    ensures var w1, h := ReservedIn(key, w, s), ReserveHandle(Visible(w, s.sid), key, s.policy, s.raced, s.id);
            Apply(key, w, s) == if h.allowed then w1.(phases := w1.phases[s.sid := Held(h)]) else w1
  {
  }

  lemma ReserveKeepsInv(key: BudgetKey, w: World, s: Step)
    requires Inv(key, w) && w.largest >= 0 && s.Reserve? && Enabled(key, w, s)
    ensures Inv(key, Apply(key, w, s))
  {
    var h := ReserveHandle(Visible(w, s.sid), key, s.policy, s.raced, s.id);
    ReserveKeepsLedgers(key, w, s);
    ReserveKeepsAdmissions(key, w, s);
    ReserveIs(key, w, s);
    if h.allowed {
      EnterKeepsInv(key, w, s, h);
    }
  }

  /** The world of a session that left its admission and ended its transaction. */
  function Left(w: World, sid: nat, commit: bool): World {
    Ended(Dropped(w, sid), sid, commit)
  }

  lemma LeaveKeepsInv(key: BudgetKey, w: World, sid: nat, commit: bool)
    requires Inv(key, w)
    ensures Inv(key, Left(w, sid, commit))
  {
    DropKeepsInv(key, w, sid);
    EndKeepsInv(key, Dropped(w, sid), sid, commit);
  }

  lemma LeaveSight(w: World, sid: nat, commit: bool, id: nat)
    ensures var s := SightOf(w, id);
            SightOf(Left(w, sid, commit), id)
            == if s.owner != Some(sid) then s else if commit then Sight(s.open, s.open, None) else Sight(s.stored, s.stored, None)
  {
    EndSight(Dropped(w, sid), sid, commit, id);
  }

  lemma LeasedPhaseOk(w: World, sid: nat, fingerprint: string, w2: World)
    requires AdmissionsOk(w) && sid in w.phases && w.phases[sid].Held? && w.phases[sid].h.id.Some?
    requires var id := w.phases[sid].h.id.value;
             || w2 == Left(w, sid, false)
             || w2 == Left(w, sid, true).(inserted := w.inserted[fingerprint := id])
    ensures PhaseOk(w2, sid, Leased(w.phases[sid].h, fingerprint))
  {
    assert PhaseOk(w, sid, w.phases[sid]);
    LeaveSight(w, sid, true, w.phases[sid].h.id.value);
    LeaveSight(w, sid, false, w.phases[sid].h.id.value);
  }

  /** The world after a session took its lease, before it goes on. */
  function LeasedIn(w: World, sid: nat, fingerprint: string, inserted: bool): World
    requires sid in w.phases && w.phases[sid].h.id.Some?
  {
    var w1 := Left(w, sid, inserted);
    if inserted then w1.(inserted := w.inserted[fingerprint := w.phases[sid].h.id.value]) else w1
  }

  lemma LeaseKeepsAdmissions(key: BudgetKey, w: World, sid: nat, fingerprint: string, inserted: bool)
    requires Inv(key, w) && sid in w.phases && w.phases[sid].Held? && w.phases[sid].h.id.Some?
    requires inserted ==> !HasLease(w, fingerprint)
    ensures LedgersOk(key, LeasedIn(w, sid, fingerprint, inserted)) && AdmissionsOk(LeasedIn(w, sid, fingerprint, inserted))
  {
    LeaveKeepsInv(key, w, sid, inserted);
    MoreLeasesKeepAdmissions(Left(w, sid, inserted), LeasedIn(w, sid, fingerprint, inserted));
  }

  lemma AcquireIs(key: BudgetKey, w: World, s: Step)
    requires s.Acquire? && s.answer != Refused && Enabled(key, w, s) && w.phases[s.sid].h.id.Some?
    ensures var w2 := LeasedIn(w, s.sid, s.fingerprint, s.answer == Inserted);
            && s.sid !in w2.phases && (forall t :: t in w2.phases ==> t in w.phases && w2.phases[t] == w.phases[t])
            && Apply(key, w, s) == w2.(phases := w2.phases[s.sid := Leased(w.phases[s.sid].h, s.fingerprint)])
  {
    var w2, phase := LeasedIn(w, s.sid, s.fingerprint, s.answer == Inserted), Leased(w.phases[s.sid].h, s.fingerprint);
    assert w2.phases[s.sid := phase] == w.phases[s.sid := phase];
  }

  lemma LeaseKeepsInv(key: BudgetKey, w: World, s: Step)
    requires Inv(key, w) && s.Acquire? && s.answer != Refused && Enabled(key, w, s)
    ensures Inv(key, Apply(key, w, s))
  {
    assert PhaseOk(w, s.sid, w.phases[s.sid]);
    var w2, phase := LeasedIn(w, s.sid, s.fingerprint, s.answer == Inserted), Leased(w.phases[s.sid].h, s.fingerprint);
    LeaseKeepsAdmissions(key, w, s.sid, s.fingerprint, s.answer == Inserted);
    LeasedPhaseOk(w, s.sid, s.fingerprint, w2);
    AcquireIs(key, w, s);
    EnterKeepsAdmissions(w2, s.sid, phase);
  }

  /** A refused session has nothing of its own in the open transaction any more. */
  lemma RefusedKeepsInv(key: BudgetKey, w: World, s: Step)
    requires Inv(key, w) && s.Acquire? && s.answer == Refused && Enabled(key, w, s)
    ensures Inv(key, Apply(key, w, s))
  {
    var h := w.phases[s.sid].h;
    assert PhaseOk(w, s.sid, w.phases[s.sid]);
    LeaveKeepsInv(key, w, s.sid, false);
    LeaveSight(w, s.sid, false, h.id.value);
    var w1 := Left(w, s.sid, false);
    MoveKeepsInv(key, w1, s.sid, h, Released);
    assert Apply(key, w, s) == Moved(w1, s.sid, h, Released);
  }

  lemma ReadyKeepsAdmissions(w: World, id: nat, fingerprint: string)
    requires AdmissionsOk(w) && id in w.issued && id !in w.calls && InsertedBy(w, id, fingerprint)
    requires Counts(SightOf(w, id).stored) && Counts(SightOf(w, id).open)
    requires forall t :: t in w.phases ==> w.phases[t].h.id != Some(id)
    ensures AdmissionsOk(w.(ready := w.ready[id := fingerprint]))
  {
    var w' := w.(ready := w.ready[id := fingerprint]);
    assert forall i :: SightOf(w', i) == SightOf(w, i);
    forall t | t in w'.phases ensures PhaseOk(w', t, w'.phases[t]) {
      assert PhaseOk(w, t, w.phases[t]);
    }
    forall i | i in w'.ready || i in w'.calls ensures CallOk(w', i) {
      assert i != id ==> CallOk(w, i);
    }
  }

  /** A reservation that can be consumed past the lease is committed, so the request is the
      one that inserted the lease row. */
  lemma ConsumeSight(w: World, sid: nat)
    requires AdmissionsOk(w) && sid in w.phases && w.phases[sid].Leased? && Free(w, sid)
    requires TransitionMatches(Visible(w, sid), w.phases[sid].h)
    ensures var h := w.phases[sid].h; var w1 := Moved(Dropped(w, sid), sid, h, Used);
            && h.id.Some? && InsertedBy(w, h.id.value, w.phases[sid].fingerprint)
            && Counts(SightOf(w1, h.id.value).stored) && Counts(SightOf(w1, h.id.value).open)
  {
    var h := w.phases[sid].h;
    assert PhaseOk(w, sid, w.phases[sid]);
    MoveSight(Dropped(w, sid), sid, h, Used, h.id.value);
    assert SightOf(Dropped(w, sid), h.id.value) == SightOf(w, h.id.value);
  }

  lemma UseKeepsInv(key: BudgetKey, w: World, sid: nat, target: ReservationStatus)
    requires Inv(key, w) && sid in w.phases && Free(w, sid) && target != Reserved
    ensures Inv(key, Moved(Dropped(w, sid), sid, w.phases[sid].h, target))
  {
    assert PhaseOk(w, sid, w.phases[sid]);
    DropKeepsInv(key, w, sid);
    assert SightOf(Dropped(w, sid), w.phases[sid].h.id.value) == SightOf(w, w.phases[sid].h.id.value);
    MoveKeepsInv(key, Dropped(w, sid), sid, w.phases[sid].h, target);
  }

  lemma ConsumeIs(key: BudgetKey, w: World, s: Step)
    requires s.Consume? && Enabled(key, w, s) && TransitionMatches(Visible(w, s.sid), w.phases[s.sid].h)
    ensures var h := w.phases[s.sid].h; var w1 := Moved(Dropped(w, s.sid), s.sid, h, Used);
            && w1.phases == w.phases - {s.sid} && w1.issued == w.issued && w1.calls == w.calls && w1.inserted == w.inserted
            && Apply(key, w, s) == w1.(ready := w1.ready[h.id.value := w.phases[s.sid].fingerprint])
  {
  }

  lemma ConsumeKeepsInv(key: BudgetKey, w: World, s: Step)
    requires Inv(key, w) && s.Consume? && Enabled(key, w, s)
    requires TransitionMatches(Visible(w, s.sid), w.phases[s.sid].h)
    ensures Inv(key, Apply(key, w, s))
  {
    var h := w.phases[s.sid].h;
    assert PhaseOk(w, s.sid, w.phases[s.sid]);
    UseKeepsInv(key, w, s.sid, Used);
    ConsumeSight(w, s.sid);
    ConsumeIs(key, w, s);
    ReadyKeepsAdmissions(Moved(Dropped(w, s.sid), s.sid, h, Used), h.id.value, w.phases[s.sid].fingerprint);
  }

  lemma FailedConsumeKeepsInv(key: BudgetKey, w: World, s: Step)
    requires Inv(key, w) && s.Consume? && Enabled(key, w, s)
    requires !TransitionMatches(Visible(w, s.sid), w.phases[s.sid].h)
    ensures Inv(key, Apply(key, w, s))
  {
    LeaveKeepsInv(key, w, s.sid, s.finishCommits);
    assert Apply(key, w, s) == Left(w, s.sid, s.finishCommits);
  }

  lemma AbortKeepsInv(key: BudgetKey, w: World, s: Step)
    requires Inv(key, w) && s.Abort? && Enabled(key, w, s)
    ensures Inv(key, Apply(key, w, s))
  {
    if s.release {
      UseKeepsInv(key, w, s.sid, Released);
    } else {
      DropKeepsInv(key, w, s.sid);
    }
  }

  lemma CallKeepsInv(key: BudgetKey, w: World, s: Step)
    requires Inv(key, w) && s.Call? && Enabled(key, w, s)
    ensures Inv(key, Apply(key, w, s))
  {
    var w' := Apply(key, w, s);
    assert forall i :: SightOf(w', i) == SightOf(w, i);
    forall i | i in w'.ready || i in w'.calls ensures CallOk(w', i) {
      assert CallOk(w, i);
    }
    forall t | t in w'.phases ensures PhaseOk(w', t, w'.phases[t]) {
      assert PhaseOk(w, t, w.phases[t]);
    }
  }

  lemma ElsewhereKeepsInv(key: BudgetKey, w: World, s: Step)
    requires Inv(key, w) && s.LeaseElsewhere? && Enabled(key, w, s)
    ensures Inv(key, Apply(key, w, s))
  {
    MoreLeasesKeepAdmissions(w, Apply(key, w, s));
  }

  lemma StepKeepsInv(key: BudgetKey, w: World, s: Step)
    requires Inv(key, w) && w.largest >= 0
    ensures Inv(key, Apply(key, w, s))
  {
    if Enabled(key, w, s) {
      if s.Reserve? {
        ReserveKeepsInv(key, w, s);
      } else if s.Acquire? && s.answer == Refused {
        RefusedKeepsInv(key, w, s);
      } else if s.Acquire? {
        LeaseKeepsInv(key, w, s);
      } else if s.Consume? && TransitionMatches(Visible(w, s.sid), w.phases[s.sid].h) {
        ConsumeKeepsInv(key, w, s);
      } else if s.Consume? {
        FailedConsumeKeepsInv(key, w, s);
      } else if s.Call? {
        CallKeepsInv(key, w, s);
      } else if s.End? {
        EndKeepsInv(key, w, s.sid, s.commit);
      } else if s.Abort? {
        AbortKeepsInv(key, w, s);
      } else {
        ElsewhereKeepsInv(key, w, s);
      }
    }
  }

  /** The largest limit is raised by reservations only. */
  lemma LargestAfter(key: BudgetKey, w: World, s: Step)
    ensures Apply(key, w, s).largest == if s.Reserve? && Enabled(key, w, s) then Max(w.largest, s.policy.hardLimit) else w.largest
  {
  }

  lemma {:induction false} RunKeepsInv(key: BudgetKey, w: World, steps: seq<Step>)
    requires Inv(key, w) && w.largest >= 0
    ensures Inv(key, Run(key, w, steps)) && Run(key, w, steps).largest >= 0
    decreases |steps|
  {
    if steps != [] {
      StepKeepsInv(key, w, steps[0]);
      LargestAfter(key, w, steps[0]);
      RunKeepsInv(key, Apply(key, w, steps[0]), steps[1..]);
    }
  }

  // ---------- counting calls ----------

  /** The reservations of one budget that count against its limit. */
  function LiveIds(rs: seq<Reservation>, key: BudgetKey): set<nat> {
    if rs == [] then {}
    else LiveIds(rs[1..], key) + (if rs[0].status != Released && rs[0].budget == key then {rs[0].id} else {})
  }

  lemma {:induction false} LiveIdsBounded(rs: seq<Reservation>, key: BudgetKey)
    requires forall i :: 0 <= i < |rs| ==> rs[i].units > 0
    ensures |LiveIds(rs, key)| <= Units(rs, key, Reserved) + Units(rs, key, Used)
    ensures forall i :: 0 <= i < |rs| && rs[i].status != Released && rs[i].budget == key ==> rs[i].id in LiveIds(rs, key)
  {
    if rs != [] {
      LiveIdsBounded(rs[1..], key);
    }
  }

  lemma NoBudgetNoUnits(l: Ledger, key: BudgetKey)
    requires WellFormed(l) && key !in l.budgets
    ensures Units(l.reservations, key, Reserved) == Units(l.reservations, key, Used) == 0
  {
    UnitsOfAbsentBudget(l.reservations, key, Reserved);
    UnitsOfAbsentBudget(l.reservations, key, Used);
  }

  /** Ids with reservations that count are no more than the units counted. */
  lemma LiveWithinLedger(l: Ledger, key: BudgetKey, ids: set<nat>)
    requires Conserved(l)
    requires forall id :: id in ids ==> Live(l, id) && Lookup(l, id).value.budget == key
    ensures |ids| <= if key in l.budgets then l.budgets[key].used + l.budgets[key].reserved else 0
  {
    LiveIdsBounded(l.reservations, key);
    Chunks.SubsetCount(ids, LiveIds(l.reservations, key));
    if key in l.budgets {
      assert Balanced(l, key);
    } else {
      NoBudgetNoUnits(l, key);
    }
  }

  lemma CallsWithinLedger(key: BudgetKey, w: World)
    requires Inv(key, w)
    ensures |w.calls| <= if key in w.committed.budgets then w.committed.budgets[key].used + w.committed.budgets[key].reserved else 0
  {
    forall id | id in w.calls.Keys ensures Live(w.committed, id) {
      assert CallOk(w, id);
    }
    LiveWithinLedger(w.committed, key, w.calls.Keys);
    assert |w.calls| == |w.calls.Keys|;
  }

  /** However any number of sessions reserve, lease, consume, call, commit, roll back and
      fail, every call's reservation is committed as reserved or used when the call is
      made and ever after, also when a rollback undoes its consumption; and the calls
      made in the window never exceed the largest limit it was configured with. */
  lemma CallsNeverExceedLimit(key: BudgetKey, steps: seq<Step>)
    ensures var w := Run(key, INIT, steps);
            && (forall id :: id in w.calls ==> Live(w.committed, id))
            && |w.calls| <= w.largest
  {
    RunKeepsInv(key, INIT, steps);
    var w := Run(key, INIT, steps);
    CallsWithinLedger(key, w);
    forall id | id in w.calls ensures Live(w.committed, id) {
      assert CallOk(w, id);
    }
  }

  lemma {:induction false} LargestIsConfigured(key: BudgetKey, w: World, steps: seq<Step>, limit: int)
    requires w.largest <= limit
    requires forall i :: 0 <= i < |steps| && steps[i].Reserve? ==> steps[i].policy.hardLimit <= limit
    ensures Run(key, w, steps).largest <= limit
    decreases |steps|
  {
    if steps != [] {
      LargestAfter(key, w, steps[0]);
      LargestIsConfigured(key, Apply(key, w, steps[0]), steps[1..], limit);
    }
  }

  /** With one hard limit for the whole window, at most that many calls are made. */
  lemma CallsNeverExceedHardLimit(key: BudgetKey, steps: seq<Step>, hardLimit: nat)
    requires forall i :: 0 <= i < |steps| && steps[i].Reserve? ==> steps[i].policy.hardLimit == hardLimit
    ensures |Run(key, INIT, steps).calls| <= hardLimit
  {
    CallsNeverExceedLimit(key, steps);
    LargestIsConfigured(key, INIT, steps, hardLimit);
  }

  /** Over all sessions each stay query is called at most once: calls with the same
      fingerprint are the same call, a call that was made is never permitted again, and none
      has a fingerprint that another window or an older row already holds. */
  lemma EachQueryIsCalledOnce(key: BudgetKey, steps: seq<Step>)
    ensures var w := Run(key, INIT, steps);
            && (forall i, j :: i in w.calls && j in w.calls && w.calls[i] == w.calls[j] ==> i == j)
            && (forall i, j :: i in w.ready && j in w.calls ==> i != j && w.ready[i] != w.calls[j])
            && (forall i :: i in w.calls ==> w.calls[i] in w.inserted && w.calls[i] !in w.elsewhere)
  {
    RunKeepsInv(key, INIT, steps);
    var w := Run(key, INIT, steps);
    forall i | i in w.ready || i in w.calls ensures CallOk(w, i) {
    }
  }
}
