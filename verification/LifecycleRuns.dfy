/** Any number of sessions on the tracked offers. A transition reads the offer in one step,
    runs its conditional update and its suppression in a later one, in its session's
    transaction, and commits in a third; the expiry pass keeps its transaction open over all
    its offers. A delivery intent is checked, inserted and committed in steps of its own.

    Statements see what is committed when they run. A row that an open transaction changed is
    locked, and so is the key of a delivery that an open transaction inserted. */
module LifecycleRuns {
  import opened Sql
  import opened Lifecycle
  import opened ExpiryPass

  datatype World = World(
    db: Db,
    txns: map<nat, Txn>,
    passes: map<nat, Pass>,
    plans: set<Plan>,
    checked: set<DeliveryKey>)

  datatype Step =
    | CreateOffer(id: Id, user: Id, checkIn: Option<int>, checkOut: Option<int>)
    | CreateRule(id: Id, user: Id, scope: Option<Id>)
    | CreateAlert(id: Id, alert: Alert)
    | ReadForTransition(user: Id, offer: Id, action: Action, expected: nat, today: int)
    | Update(sid: nat, plan: Plan)
    | CheckDelivery(key: DeliveryKey)
    | InsertDelivery(sid: nat, key: DeliveryKey)
    | BeginPass(sid: nat, today: int)
    | LoadForPass(sid: nat, id: Id)
    | ExpireNext(sid: nat, id: Id)
    | Commit(sid: nat)
    | Rollback(sid: nat)

  const INIT: World := World(Db(map[], [], map[], map[], []), map[], map[], {}, {})

  function Open(w: World, sid: nat): Txn {
    if sid in w.txns then w.txns[sid] else NO_CHANGES
  }

  predicate LockedByOther(w: World, sid: nat, offer: Id) {
    exists s :: s in w.txns && s != sid && offer in w.txns[s].rows
  }

  predicate Inserts(t: Txn, k: DeliveryKey) {
    exists i :: 0 <= i < |t.inserted| && t.inserted[i].key == k
  }

  predicate InsertedByOther(w: World, sid: nat, k: DeliveryKey) {
    exists s :: s in w.txns && s != sid && Inserts(w.txns[s], k)
  }

  predicate Enabled(w: World, s: Step) {
    match s
    case CreateOffer(id, _, _, _) => id !in w.db.offers
    case CreateRule(id, user, offer) =>
      id !in w.db.rules && (offer.Some? ==> offer.value in w.db.offers && w.db.offers[offer.value].user == user)
    case CreateAlert(id, alert) => id !in w.db.alerts && (alert.rule.Some? ==> alert.rule.value in w.db.rules)
    case ReadForTransition(_, _, _, _, _) => true
    case Update(sid, p) =>
      && p in w.plans && p.Write? && WriteMatches(Seen(w.db, Open(w, sid)), p)
      && sid !in w.passes && !LockedByOther(w, sid, p.offer)
    case CheckDelivery(key) => DeliveryAllowed(w.db, key)
    case InsertDelivery(sid, key) => key in w.checked && sid !in w.passes && !InsertedByOther(w, sid, key)
    case BeginPass(sid, _) => sid !in w.txns && sid !in w.passes
    case LoadForPass(sid, id) => sid in w.passes && id in w.passes[sid].rest
    case ExpireNext(sid, id) =>
      sid in w.passes && id in w.passes[sid].rest && id in w.passes[sid].cached && !LockedByOther(w, sid, id)
    case Commit(sid) => sid in w.txns && (sid in w.passes ==> w.passes[sid].rest == {})
    case Rollback(sid) => sid in w.txns
  }

  function Apply(w: World, s: Step): World {
    if !Enabled(w, s) then w else
      match s
      case CreateOffer(id, user, checkIn, checkOut) =>
        w.(db := w.db.(offers := w.db.offers[id := Offer(user, checkIn, checkOut, Some(Active), 1, true)]))
      case CreateRule(id, user, offer) => w.(db := w.db.(rules := w.db.rules[id := Rule(user, offer)]))
      case CreateAlert(id, alert) => w.(db := w.db.(alerts := w.db.alerts[id := alert]))
      case ReadForTransition(user, offer, action, expected, today) =>
        w.(plans := w.plans + {PlanOf(RowOf(w.db, offer), user, offer, action, expected, today)})
      case Update(sid, p) => w.(txns := w.txns[sid := Writing(w.db, Open(w, sid), p)])
      case CheckDelivery(key) => w.(checked := w.checked + {key})
      case InsertDelivery(sid, key) =>
        var t := Open(w, sid);
        if HasDelivery(w.db, key) || Inserts(t, key) then w
        else w.(txns := w.txns[sid := t.(inserted := t.inserted + [Delivery(key, Queued)])])
      case BeginPass(sid, today) => w.(txns := w.txns[sid := NO_CHANGES], passes := w.passes[sid := Begun(w.db, today)])
      case LoadForPass(sid, id) => w.(passes := w.passes[sid := Loaded(w.db, w.passes[sid], id)])
      case ExpireNext(sid, id) =>
        var next := Expiring(w.db, Open(w, sid), w.passes[sid], id);
        w.(txns := w.txns[sid := next.0], passes := w.passes[sid := next.1])
      case Commit(sid) => w.(db := Seen(w.db, w.txns[sid]), txns := w.txns - {sid}, passes := w.passes - {sid})
      case Rollback(sid) => w.(txns := w.txns - {sid}, passes := w.passes - {sid})
  }

  function Run(w: World, steps: seq<Step>): World
    decreases |steps|
  {
    if steps == [] then w else Run(Apply(w, steps[0]), steps[1..])
  }

  lemma {:induction false} RunAppend(w: World, a: seq<Step>, b: seq<Step>)
    ensures Run(w, a + b) == Run(Run(w, a), b)
    decreases |a|
  {
    if a == [] {
      assert a + b == b;
    } else {
      assert (a + b)[1..] == a[1..] + b;
      RunAppend(Apply(w, a[0]), a[1..], b);
    }
  }

  // ---------- the event log ----------

  function EventsOf(log: seq<Event>, offer: Id): seq<Event> {
    if log == [] then []
    else
      var rest, last := EventsOf(log[..|log| - 1], offer), log[|log| - 1];
      if last.offer == offer then rest + [last] else rest
  }

  lemma {:induction false} EventsOfAppend(a: seq<Event>, b: seq<Event>, offer: Id)
    ensures EventsOf(a + b, offer) == EventsOf(a, offer) + EventsOf(b, offer)
    decreases |b|
  {
    if b == [] {
      assert a + b == a;
    } else {
      var n := |b| - 1;
      assert (a + b)[..|a + b| - 1] == a + b[..n] && (a + b)[|a + b| - 1] == b[n];
      EventsOfAppend(a, b[..n], offer);
    }
  }

  lemma {:induction false} NoEventsOf(log: seq<Event>, offer: Id)
    requires forall i :: 0 <= i < |log| ==> log[i].offer != offer
    ensures EventsOf(log, offer) == []
  {
    if log != [] {
      NoEventsOf(log[..|log| - 1], offer);
    }
  }

  /** The state an offer is in before its k-th event. */
  function StateBefore(es: seq<Event>, k: nat): State
    requires k <= |es|
  {
    if k == 0 then Active else es[k - 1].to
  }

  /** The events take a new active offer to this row: their versions are consecutive from 2,
      each starts in the state the one before ended in, the last one ends in the row's state,
      the version is one more than their number, and the flag says whether the state is active. */
  predicate Reproduces(es: seq<Event>, o: Offer) {
    && o.version == 1 + |es| && o.state == Some(StateBefore(es, |es|)) && (o.isActive <==> o.state == Some(Active))
    && forall k :: 0 <= k < |es| ==> es[k].version == k + 2 && es[k].from == StateBefore(es, k)
  }

  /** One event takes the stored row to the changed one. */
  predicate MovesBy(o: Offer, o': Offer, e: Event) {
    && o'.user == o.user && o'.checkIn == o.checkIn && o'.checkOut == o.checkOut
    && o'.version == e.version == o.version + 1
    && o.state == Some(e.from) && o'.state == Some(e.to) && (o'.isActive <==> e.to == Active)
    && (Closed(o) ==> Closed(o'))
  }

  lemma ReproducesOneMore(es: seq<Event>, o: Offer, o': Offer, e: Event)
    requires Reproduces(es, o) && MovesBy(o, o', e)
    ensures Reproduces(es + [e], o')
  {
    var longer := es + [e];
    forall k | 0 <= k < |longer| ensures longer[k].version == k + 2 && longer[k].from == StateBefore(longer, k) {
      assert StateBefore(longer, k) == StateBefore(es, k);
    }
  }

  // ---------- the invariant of the offers ----------

  type Rows = map<Id, Offer>

  ghost predicate StoredOk(offers: Rows, log: seq<Event>) {
    && (forall id :: id in offers ==> Reproduces(EventsOf(log, id), offers[id]))
    && (forall i :: 0 <= i < |log| ==> log[i].offer in offers)
  }

  /** A transaction moved each of its offers by one event. */
  predicate MovedOnce(offers: Rows, t: Txn, id: Id)
    requires id in t.rows
  {
    && id in offers && |EventsOf(t.events, id)| == 1
    && MovesBy(offers[id], t.rows[id], EventsOf(t.events, id)[0])
  }

  ghost predicate TxnOk(offers: Rows, t: Txn) {
    && (forall id :: id in t.rows ==> MovedOnce(offers, t, id))
    && (forall i :: 0 <= i < |t.events| ==> t.events[i].offer in t.rows)
  }

  ghost predicate TxnsOk(offers: Rows, txns: map<nat, Txn>) {
    && (forall sid :: sid in txns ==> TxnOk(offers, txns[sid]))
    && (forall s, r, id :: s in txns && r in txns && s != r && id in txns[s].rows ==> id !in txns[r].rows)
  }

  /** A plan is about a version the offer has had, and if it still has it the plan starts
      from the offer's state. No plan leads back from a closed state. */
  predicate PlanOk(offers: Rows, p: Plan) {
    p.Write? ==>
      && p.offer in offers
      && 1 <= p.version <= offers[p.offer].version
      && (offers[p.offer].version == p.version ==> offers[p.offer].state == Some(p.from))
      && (p.active <==> p.to == Active)
      && (p.from == Expired || p.from == Archived ==> p.to == Expired || p.to == Archived)
  }

  ghost predicate PlansOk(offers: Rows, plans: set<Plan>) {
    forall p :: p in plans ==> PlanOk(offers, p)
  }

  predicate CacheVersioned(pass: Pass) {
    forall id :: id in pass.rest && id in pass.cached ==> pass.cached[id].version >= 1
  }

  ghost predicate PassesOk(db: Db, txns: map<nat, Txn>, passes: map<nat, Pass>) {
    forall sid :: sid in passes ==> sid in txns && PassOk(db, txns[sid], passes[sid]) && CacheVersioned(passes[sid])
  }

  ghost predicate OffersInv(w: World) {
    && StoredOk(w.db.offers, w.db.log) && TxnsOk(w.db.offers, w.txns) && PlansOk(w.db.offers, w.plans)
    && PassesOk(w.db, w.txns, w.passes)
  }

  /** Other sessions' commits, seen from the passes: later rows, locked rows unchanged. */
  lemma PassesGoOn(db: Db, txns: map<nat, Txn>, passes: map<nat, Pass>, db': Db)
    requires PassesOk(db, txns, passes) && LaterDb(db, db') && forall sid :: sid in txns ==> KeepsLocked(db, txns[sid], db')
    ensures PassesOk(db', txns, passes)
  {
    forall sid | sid in passes ensures PassOk(db', txns[sid], passes[sid]) {
      RivalsKeepOk(db, txns[sid], passes[sid], db');
    }
  }

  lemma SameOffersPasses(db: Db, txns: map<nat, Txn>, passes: map<nat, Pass>, db': Db)
    requires PassesOk(db, txns, passes) && db'.offers == db.offers
    ensures PassesOk(db', txns, passes)
  {
    PassesGoOn(db, txns, passes, db');
  }

  /** The changes of offers in a transaction. */
  predicate SameMoves(t: Txn, t': Txn) {
    t'.rows == t.rows && t'.events == t.events
  }

  lemma SameMovesOk(offers: Rows, t: Txn, t': Txn)
    requires TxnOk(offers, t) && SameMoves(t, t')
    ensures TxnOk(offers, t')
  {
    assert forall id :: id in t.rows ==> MovedOnce(offers, t, id);
  }

  /** One session's transaction is replaced. */
  lemma TxnReplaced(offers: Rows, txns: map<nat, Txn>, sid: nat, t': Txn)
    requires TxnsOk(offers, txns) && TxnOk(offers, t')
    requires forall s, id :: s in txns && s != sid && id in txns[s].rows ==> id !in t'.rows
    ensures TxnsOk(offers, txns[sid := t'])
  {
  }

  lemma OpenOk(w: World, sid: nat)
    requires TxnsOk(w.db.offers, w.txns)
    ensures TxnOk(w.db.offers, Open(w, sid))
    ensures forall s, id :: s in w.txns && s != sid && id in w.txns[s].rows ==> id !in Open(w, sid).rows
  {
  }

  // ---------- the steps keep it ----------

  lemma NewRowKeepsTxns(offers: Rows, txns: map<nat, Txn>, id: Id, o: Offer)
    requires TxnsOk(offers, txns) && id !in offers
    ensures TxnsOk(offers[id := o], txns)
  {
    forall sid | sid in txns ensures TxnOk(offers[id := o], txns[sid]) {
      assert TxnOk(offers, txns[sid]);
      assert forall i :: i in txns[sid].rows ==> MovedOnce(offers, txns[sid], i);
    }
  }

  lemma NewRowKeepsStored(offers: Rows, log: seq<Event>, id: Id, o: Offer)
    requires StoredOk(offers, log) && id !in offers && o.state == Some(Active) && o.version == 1 && o.isActive
    ensures StoredOk(offers[id := o], log)
  {
    NoEventsOf(log, id);
  }

  lemma NewRowKeepsPlans(offers: Rows, plans: set<Plan>, id: Id, o: Offer)
    requires PlansOk(offers, plans) && id !in offers
    ensures PlansOk(offers[id := o], plans)
  {
    forall p | p in plans ensures PlanOk(offers[id := o], p) {
      assert PlanOk(offers, p);
    }
  }

  lemma CreateOfferKeepsOffers(w: World, s: Step)
    requires OffersInv(w) && s.CreateOffer? && Enabled(w, s)
    ensures OffersInv(Apply(w, s))
  {
    var o := Offer(s.user, s.checkIn, s.checkOut, Some(Active), 1, true);
    var db' := w.db.(offers := w.db.offers[s.id := o]);
    NewRowKeepsStored(w.db.offers, w.db.log, s.id, o);
    NewRowKeepsTxns(w.db.offers, w.txns, s.id, o);
    NewRowKeepsPlans(w.db.offers, w.plans, s.id, o);
    PassesGoOn(w.db, w.txns, w.passes, db');
    assert Apply(w, s) == w.(db := db');
  }

  lemma PlanFromOk(o: Offer, user: Id, offer: Id, action: Action, expected: nat, today: int)
    requires o.state.Some? && o.version >= 1
    ensures var p := PlanFrom(o, user, offer, action, expected, today);
            p.Write? ==>
              && p.offer == offer && p.version == o.version && p.from == o.state.value && (p.active <==> p.to == Active)
              && (p.from == Expired || p.from == Archived ==> p.to == Expired || p.to == Archived)
  {
  }

  lemma ReadPlanOk(offers: Rows, log: seq<Event>, s: Step)
    requires StoredOk(offers, log) && s.ReadForTransition?
    ensures PlanOk(offers, PlanOf(if s.offer in offers then Some(offers[s.offer]) else None, s.user, s.offer, s.action, s.expected, s.today))
  {
    if s.offer in offers {
      assert Reproduces(EventsOf(log, s.offer), offers[s.offer]);
      PlanFromOk(offers[s.offer], s.user, s.offer, s.action, s.expected, s.today);
    }
  }

  lemma PlanAdded(offers: Rows, plans: set<Plan>, p: Plan)
    requires PlansOk(offers, plans) && PlanOk(offers, p)
    ensures PlansOk(offers, plans + {p})
  {
  }

  lemma ReadKeepsOffers(w: World, s: Step)
    requires OffersInv(w) && s.ReadForTransition?
    ensures OffersInv(Apply(w, s))
  {
    var p := PlanOf(RowOf(w.db, s.offer), s.user, s.offer, s.action, s.expected, s.today);
    ReadPlanOk(w.db.offers, w.db.log, s);
    PlanAdded(w.db.offers, w.plans, p);
    assert Apply(w, s) == w.(plans := w.plans + {p});
  }

  /** A session without a pass changes its transaction. */
  lemma PassesElsewhere(db: Db, txns: map<nat, Txn>, passes: map<nat, Pass>, sid: nat, t': Txn)
    requires PassesOk(db, txns, passes) && sid !in passes
    ensures PassesOk(db, txns[sid := t'], passes)
  {
  }

  lemma InsertKeepsOffers(w: World, s: Step)
    requires OffersInv(w) && s.InsertDelivery? && Enabled(w, s)
    ensures OffersInv(Apply(w, s))
  {
    var t := Open(w, s.sid);
    if !HasDelivery(w.db, s.key) && !Inserts(t, s.key) {
      var t' := t.(inserted := t.inserted + [Delivery(s.key, Queued)]);
      OpenOk(w, s.sid);
      SameMovesOk(w.db.offers, t, t');
      TxnReplaced(w.db.offers, w.txns, s.sid, t');
      PassesElsewhere(w.db, w.txns, w.passes, s.sid, t');
    }
  }

  lemma TxnOneMore(offers: Rows, t: Txn, t': Txn, id: Id, o': Offer, e: Event)
    requires TxnOk(offers, t) && id !in t.rows && id in offers && e.offer == id && MovesBy(offers[id], o', e)
    requires t'.rows == t.rows[id := o'] && t'.events == t.events + [e]
    ensures TxnOk(offers, t') && EventsOf(t'.events, id) == [e]
  {
    NoEventsOf(t.events, id);
    assert EventsOf([e], id) == [e] by {
      assert [e][..0] == [];
    }
    forall i | i in t'.rows ensures MovedOnce(offers, t', i) {
      EventsOfAppend(t.events, [e], i);
      if i != id {
        assert MovedOnce(offers, t, i);
        NoEventsOf([e], i);
      }
    }
    EventsOfAppend(t.events, [e], id);
  }

  /** The conditional update finds its offer unchanged by its own transaction. */
  lemma UpdateMoves(db: Db, t: Txn, p: Plan)
    requires TxnOk(db.offers, t) && StoredOk(db.offers, db.log)
    requires p.Write? && PlanOk(db.offers, p) && WriteMatches(Seen(db, t), p)
    ensures p.offer !in t.rows && p.offer in db.offers
    ensures MovesBy(db.offers[p.offer], NewRow(db.offers[p.offer], p), EventOf(p))
  {
    MatchesRow(db, t, p);
    assert p.offer in t.rows ==> MovedOnce(db.offers, t, p.offer);
    assert Reproduces(EventsOf(db.log, p.offer), db.offers[p.offer]);
  }

  lemma UpdateKeepsTxn(db: Db, t: Txn, p: Plan)
    requires TxnOk(db.offers, t) && StoredOk(db.offers, db.log)
    requires p.Write? && PlanOk(db.offers, p) && WriteMatches(Seen(db, t), p)
    ensures TxnOk(db.offers, Writing(db, t, p)) && Writing(db, t, p).rows.Keys == t.rows.Keys + {p.offer}
  {
    WritingChanges(db, t, p);
    UpdateMoves(db, t, p);
    TxnOneMore(db.offers, t, Writing(db, t, p), p.offer, NewRow(db.offers[p.offer], p), EventOf(p));
  }

  lemma LocksKept(w: World, sid: nat, offer: Id, t': Txn)
    requires TxnsOk(w.db.offers, w.txns) && !LockedByOther(w, sid, offer) && t'.rows.Keys <= Open(w, sid).rows.Keys + {offer}
    ensures forall s, id :: s in w.txns && s != sid && id in w.txns[s].rows ==> id !in t'.rows
  {
    OpenOk(w, sid);
  }

  lemma UpdateKeepsOffers(w: World, s: Step)
    requires OffersInv(w) && s.Update? && Enabled(w, s)
    ensures OffersInv(Apply(w, s))
  {
    var t := Open(w, s.sid);
    var t' := Writing(w.db, t, s.plan);
    OpenOk(w, s.sid);
    assert PlanOk(w.db.offers, s.plan);
    UpdateKeepsTxn(w.db, t, s.plan);
    LocksKept(w, s.sid, s.plan.offer, t');
    TxnReplaced(w.db.offers, w.txns, s.sid, t');
    PassesElsewhere(w.db, w.txns, w.passes, s.sid, t');
    assert Apply(w, s) == w.(txns := w.txns[s.sid := t']);
  }

  // ---------- the steps of a pass ----------

  lemma PassReplaced(db: Db, txns: map<nat, Txn>, passes: map<nat, Pass>, sid: nat, t': Txn, pass': Pass)
    requires PassesOk(db, txns, passes) && PassOk(db, t', pass') && CacheVersioned(pass')
    ensures PassesOk(db, txns[sid := t'], passes[sid := pass'])
  {
  }

  lemma BeginKeepsOffers(w: World, s: Step)
    requires OffersInv(w) && s.BeginPass? && Enabled(w, s)
    ensures OffersInv(Apply(w, s))
  {
    BegunOk(w.db, s.today);
    assert CacheVersioned(Begun(w.db, s.today)) by {
      assert forall id :: id in w.db.offers ==> Reproduces(EventsOf(w.db.log, id), w.db.offers[id]);
    }
    TxnReplaced(w.db.offers, w.txns, s.sid, NO_CHANGES);
    PassReplaced(w.db, w.txns, w.passes, s.sid, NO_CHANGES, Begun(w.db, s.today));
  }

  lemma PassAlone(db: Db, txns: map<nat, Txn>, passes: map<nat, Pass>, sid: nat, pass': Pass)
    requires PassesOk(db, txns, passes) && sid in passes && PassOk(db, txns[sid], pass') && CacheVersioned(pass')
    ensures PassesOk(db, txns, passes[sid := pass'])
  {
  }

  lemma LoadKeepsVersions(db: Db, pass: Pass, id: Id)
    requires StoredOk(db.offers, db.log) && CacheVersioned(pass)
    ensures CacheVersioned(Loaded(db, pass, id))
  {
    assert id in db.offers ==> Reproduces(EventsOf(db.log, id), db.offers[id]);
  }

  lemma LoadKeepsOffers(w: World, s: Step)
    requires OffersInv(w) && s.LoadForPass? && Enabled(w, s)
    ensures OffersInv(Apply(w, s))
  {
    var pass' := Loaded(w.db, w.passes[s.sid], s.id);
    LoadKeepsOk(w.db, w.txns[s.sid], w.passes[s.sid], s.id);
    LoadKeepsVersions(w.db, w.passes[s.sid], s.id);
    PassAlone(w.db, w.txns, w.passes, s.sid, pass');
    assert Apply(w, s) == w.(passes := w.passes[s.sid := pass']);
  }

  lemma PassPlanOk(db: Db, t: Txn, pass: Pass, id: Id)
    requires StoredOk(db.offers, db.log) && PassOk(db, t, pass) && CacheVersioned(pass) && id in pass.rest && id in pass.cached
    ensures PlanOk(db.offers, PlanFor(pass, id)) && (PlanFor(pass, id).Write? ==> PlanFor(pass, id).offer == id)
    ensures CacheVersioned(Expiring(db, t, pass, id).1)
  {
    PlanForIs(pass, id);
    ExpiringCases(db, t, pass, id);
    assert Reproduces(EventsOf(db.log, id), db.offers[id]);
  }

  lemma ExpireKeepsTxn(db: Db, t: Txn, pass: Pass, id: Id)
    requires StoredOk(db.offers, db.log) && TxnOk(db.offers, t) && id in pass.cached
    requires PlanOk(db.offers, PlanFor(pass, id)) && (PlanFor(pass, id).Write? ==> PlanFor(pass, id).offer == id)
    ensures var t' := Expiring(db, t, pass, id).0; TxnOk(db.offers, t') && t'.rows.Keys <= t.rows.Keys + {id}
  {
    var p := PlanFor(pass, id);
    if p.Write? && WriteMatches(Seen(db, t), p) {
      UpdateKeepsTxn(db, t, p);
    }
  }

  lemma ExpireKeepsOffers(w: World, s: Step)
    requires OffersInv(w) && s.ExpireNext? && Enabled(w, s)
    ensures OffersInv(Apply(w, s))
  {
    var t, pass := w.txns[s.sid], w.passes[s.sid];
    var next := Expiring(w.db, t, pass, s.id);
    ExpiringKeepsOk(w.db, t, pass, s.id);
    PassPlanOk(w.db, t, pass, s.id);
    ExpireKeepsTxn(w.db, t, pass, s.id);
    LocksKept(w, s.sid, s.id, next.0);
    TxnReplaced(w.db.offers, w.txns, s.sid, next.0);
    PassReplaced(w.db, w.txns, w.passes, s.sid, next.0, next.1);
    assert Apply(w, s) == w.(txns := w.txns[s.sid := next.0], passes := w.passes[s.sid := next.1]);
  }

  // ---------- commit and rollback ----------

  lemma CommittedRow(offers: Rows, log: seq<Event>, t: Txn, id: Id)
    requires StoredOk(offers, log) && TxnOk(offers, t) && (id in offers || id in t.rows)
    ensures Reproduces(EventsOf(log + t.events, id), (offers + t.rows)[id])
    ensures id in offers && Later(offers[id], (offers + t.rows)[id])
  {
    EventsOfAppend(log, t.events, id);
    if id in t.rows {
      assert MovedOnce(offers, t, id);
      ReproducesOneMore(EventsOf(log, id), offers[id], t.rows[id], EventsOf(t.events, id)[0]);
      assert EventsOf(t.events, id) == [EventsOf(t.events, id)[0]];
    } else {
      NoEventsOf(t.events, id);
      assert EventsOf(log, id) + [] == EventsOf(log, id);
    }
  }

  lemma CommittedRows(db: Db, t: Txn)
    requires StoredOk(db.offers, db.log) && TxnOk(db.offers, t)
    ensures StoredOk(db.offers + t.rows, db.log + t.events)
    ensures LaterDb(db, Seen(db, t))
  {
    forall id | id in db.offers + t.rows
      ensures Reproduces(EventsOf(db.log + t.events, id), (db.offers + t.rows)[id])
      ensures id in db.offers && Later(db.offers[id], (db.offers + t.rows)[id])
    {
      CommittedRow(db.offers, db.log, t, id);
    }
  }

  lemma CommitKeepsLocked(db: Db, txns: map<nat, Txn>, sid: nat)
    requires TxnsOk(db.offers, txns) && sid in txns
    ensures forall s :: s in txns - {sid} ==> KeepsLocked(db, txns[s], Seen(db, txns[sid]))
  {
    assert Seen(db, txns[sid]).offers == db.offers + txns[sid].rows;
  }

  lemma TxnsAfterCommit(offers: Rows, txns: map<nat, Txn>, sid: nat)
    requires TxnsOk(offers, txns) && sid in txns
    ensures TxnsOk(offers + txns[sid].rows, txns - {sid})
  {
    var t := txns[sid];
    forall s | s in txns && s != sid ensures TxnOk(offers + t.rows, txns[s]) {
      assert TxnOk(offers, txns[s]);
      assert forall id :: id in txns[s].rows ==> MovedOnce(offers, txns[s], id) && id !in t.rows;
    }
  }

  lemma PlansAfterCommit(offers: Rows, t: Txn, plans: set<Plan>)
    requires PlansOk(offers, plans) && TxnOk(offers, t)
    ensures PlansOk(offers + t.rows, plans)
  {
    forall p | p in plans ensures PlanOk(offers + t.rows, p) {
      assert PlanOk(offers, p);
      assert p.Write? && p.offer in t.rows ==> MovedOnce(offers, t, p.offer);
    }
  }

  lemma PassesWithout(db: Db, txns: map<nat, Txn>, passes: map<nat, Pass>, sid: nat)
    requires PassesOk(db, txns, passes)
    ensures PassesOk(db, txns - {sid}, passes - {sid})
  {
  }

  lemma CommitKeepsOffers(w: World, s: Step)
    requires OffersInv(w) && s.Commit? && Enabled(w, s)
    ensures OffersInv(Apply(w, s))
  {
    var t := w.txns[s.sid];
    var db', txns', passes' := Seen(w.db, t), w.txns - {s.sid}, w.passes - {s.sid};
    CommittedRows(w.db, t);
    TxnsAfterCommit(w.db.offers, w.txns, s.sid);
    PlansAfterCommit(w.db.offers, t, w.plans);
    PassesWithout(w.db, w.txns, w.passes, s.sid);
    CommitKeepsLocked(w.db, w.txns, s.sid);
    PassesGoOn(w.db, txns', passes', db');
    assert Apply(w, s) == w.(db := db', txns := txns', passes := passes');
  }

  lemma RollbackKeepsOffers(w: World, s: Step)
    requires OffersInv(w) && s.Rollback? && Enabled(w, s)
    ensures OffersInv(Apply(w, s))
  {
    PassesWithout(w.db, w.txns, w.passes, s.sid);
    assert TxnsOk(w.db.offers, w.txns - {s.sid});
    assert Apply(w, s) == w.(txns := w.txns - {s.sid}, passes := w.passes - {s.sid});
  }

  lemma RulesKeepOffers(w: World, s: Step)
    requires OffersInv(w) && (s.CreateRule? || s.CreateAlert? || s.CheckDelivery?) && Enabled(w, s)
    ensures OffersInv(Apply(w, s))
  {
    SameOffersPasses(w.db, w.txns, w.passes, Apply(w, s).db);
  }

  lemma StepKeepsOffers(w: World, s: Step)
    requires OffersInv(w)
    ensures OffersInv(Apply(w, s))
  {
    if Enabled(w, s) {
      match s
      case CreateOffer(_, _, _, _) => CreateOfferKeepsOffers(w, s);
      case CreateRule(_, _, _) => RulesKeepOffers(w, s);
      case CreateAlert(_, _) => RulesKeepOffers(w, s);
      case ReadForTransition(_, _, _, _, _) => ReadKeepsOffers(w, s);
      case Update(_, _) => UpdateKeepsOffers(w, s);
      case CheckDelivery(_) => RulesKeepOffers(w, s);
      case InsertDelivery(_, _) => InsertKeepsOffers(w, s);
      case BeginPass(_, _) => BeginKeepsOffers(w, s);
      case LoadForPass(_, _) => LoadKeepsOffers(w, s);
      case ExpireNext(_, _) => ExpireKeepsOffers(w, s);
      case Commit(_) => CommitKeepsOffers(w, s);
      case Rollback(_) => RollbackKeepsOffers(w, s);
    }
  }

  lemma {:induction false} RunKeepsOffers(w: World, steps: seq<Step>)
    requires OffersInv(w)
    ensures OffersInv(Run(w, steps))
    decreases |steps|
  {
    if steps != [] {
      StepKeepsOffers(w, steps[0]);
      RunKeepsOffers(Apply(w, steps[0]), steps[1..]);
    }
  }

  /** In every reachable state the lifecycle events of an offer reproduce it. */
  lemma EventsReproduceOffer(steps: seq<Step>, id: Id)
    requires id in Run(INIT, steps).db.offers
    ensures var db := Run(INIT, steps).db; Reproduces(EventsOf(db.log, id), db.offers[id])
  {
    RunKeepsOffers(INIT, steps);
  }

  // ---------- no way back from expired and archived ----------

  lemma OnlyCommitsChangeRows(w: World, s: Step)
    requires !s.Commit?
    ensures LaterDb(w.db, Apply(w, s).db)
  {
  }

  lemma CommitIs(w: World, sid: nat)
    requires Enabled(w, Commit(sid))
    ensures Apply(w, Commit(sid)).db == Seen(w.db, w.txns[sid])
  {
  }

  lemma PartsOf(w: World, sid: nat)
    requires OffersInv(w)
    ensures StoredOk(w.db.offers, w.db.log)
    ensures sid in w.txns ==> TxnOk(w.db.offers, w.txns[sid])
    ensures sid in w.passes ==> sid in w.txns && PassOk(w.db, w.txns[sid], w.passes[sid])
  {
  }

  lemma CommitIsLater(db: Db, t: Txn)
    requires StoredOk(db.offers, db.log) && TxnOk(db.offers, t)
    ensures LaterDb(db, Seen(db, t))
  {
    CommittedRows(db, t);
  }

  lemma StepIsLater(w: World, s: Step)
    requires OffersInv(w)
    ensures LaterDb(w.db, Apply(w, s).db)
  {
    if s.Commit? && Enabled(w, s) {
      PartsOf(w, s.sid);
      CommitIsLater(w.db, w.txns[s.sid]);
      CommitIs(w, s.sid);
    } else if !s.Commit? {
      OnlyCommitsChangeRows(w, s);
    }
  }

  /** Whatever the sessions do, stored offers only move on: versions grow, and what has
      expired or was archived is never active or paused again. */
  lemma {:induction false} ClosedStaysClosed(w: World, steps: seq<Step>)
    requires OffersInv(w)
    ensures LaterDb(w.db, Run(w, steps).db)
    decreases |steps|
  {
    if steps != [] {
      StepIsLater(w, steps[0]);
      StepKeepsOffers(w, steps[0]);
      ClosedStaysClosed(Apply(w, steps[0]), steps[1..]);
    }
  }

  // ---------- the expiry pass among other sessions ----------

  /** When a pass commits, the offers it listed that are due afterwards are exactly those up to
      and including its last conflict that the other sessions left due. */
  lemma PassCommitLeavesDueIff(w: World, sid: nat)
    requires OffersInv(w) && sid in w.passes && Enabled(w, Commit(sid))
    ensures var pass := w.passes[sid]; var w' := Apply(w, Commit(sid));
            DueOffers(w'.db, pass.today) * pass.listed == DueOffers(w.db, pass.today) * pass.undone
  {
    PartsOf(w, sid);
    PassLeavesDueIff(w.db, w.txns[sid], w.passes[sid]);
    CommitIs(w, sid);
  }
}
