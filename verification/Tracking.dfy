/** The service's functions on tracked offers and delivery intents, as one caller's session
    runs them. */
module Tracking {
  import opened Sql
  import opened Lifecycle
  import opened ExpiryPass

  /** The offers a session has loaded, as they were read. */
  type Cache = map<Id, Offer>

  // ---------- the intents of a run ----------

  predicate HasInApp(db: Db, event: Id) {
    exists i :: 0 <= i < |db.deliveries| && db.deliveries[i].key.event == event && db.deliveries[i].key.channel == "in_app"
  }

  lemma InsertingReachesOneEvent(db: Db, k: DeliveryKey)
    requires k.channel == "in_app"
    ensures forall e :: HasInApp(Inserting(db, k), e) <==> HasInApp(db, e) || e == k.event
  {
    var db' := Inserting(db, k);
    forall e ensures HasInApp(db', e) <==> HasInApp(db, e) || e == k.event {
      if HasInApp(db, e) {
        var i :| 0 <= i < |db.deliveries| && db.deliveries[i].key.event == e && db.deliveries[i].key.channel == "in_app";
        assert db'.deliveries[i].key == db.deliveries[i].key;
      } else if e == k.event {
        assert db'.deliveries[|db.deliveries|].key == k;
      }
    }
  }

  /** The events that had no in-app delivery at the start and have one now. */
  function Reached(start: Db, db: Db): set<Id> {
    set e | e in start.alerts && HasInApp(db, e) && !HasInApp(start, e)
  }

  /** The check of an intent looks at an offer in the cache if it is there. */
  predicate IntentAllowed(db: Db, cached: Cache, k: DeliveryKey) {
    DeliveryAllowed(db.(offers := db.offers + cached), k)
  }

  /** The in-app intent of an alert event of a run. */
  predicate IsIntentOf(db: Db, run: Id, k: DeliveryKey) {
    && k.event in db.alerts && db.alerts[k.event].run == run
    && k.channel == "in_app" && k.template == "hotel-alert-v1" && db.alerts[k.event].user == Some(k.user)
  }

  /** An insert reaches its event, if it is the event's first. */
  lemma ReachedOneMore(start: Db, db: Db, k: DeliveryKey)
    requires db.alerts == start.alerts && k.event in start.alerts && k.channel == "in_app"
    requires HasInApp(db, k.event) <==> HasInApp(start, k.event)
    ensures Reached(start, Inserting(db, k)) == Reached(start, db) + if HasInApp(db, k.event) then {} else {k.event}
    ensures !HasInApp(db, k.event) ==> k.event !in Reached(start, db) && !HasDelivery(db, k)
  {
    InsertingReachesOneEvent(db, k);
  }

  /** The events in `done` have been given the deliveries they may have, and nothing else
      was queued. */
  ghost predicate Intended(start: Db, cached: Cache, db: Db, run: Id, done: set<Id>) {
    && db == start.(deliveries := db.deliveries) && start.deliveries <= db.deliveries
    && forall k :: HasDelivery(db, k) <==>
         HasDelivery(start, k) || (k.event in done && IsIntentOf(start, run, k) && IntentAllowed(start, cached, k))
  }

  ghost predicate Materialized(start: Db, cached: Cache, db: Db, run: Id, done: set<Id>, created: nat) {
    Intended(start, cached, db, run, done) && Reached(start, db) <= done && created == |Reached(start, db)|
  }

  lemma NothingMaterialized(start: Db, cached: Cache, run: Id)
    ensures Materialized(start, cached, start, run, {}, 0)
  {
    assert Reached(start, start) == {};
  }

  function AfterIntent(db: Db, cached: Cache, k: DeliveryKey): Db {
    if IntentAllowed(db, cached, k) then Inserting(db, k) else db
  }

  predicate FirstIntent(db: Db, cached: Cache, k: DeliveryKey) {
    IntentAllowed(db, cached, k) && !HasInApp(db, k.event)
  }

  lemma IntendOneMore(start: Db, cached: Cache, db: Db, run: Id, done: set<Id>, k: DeliveryKey)
    requires Intended(start, cached, db, run, done) && IsIntentOf(start, run, k)
    ensures Intended(start, cached, AfterIntent(db, cached, k), run, done + {k.event})
    ensures IntentAllowed(db, cached, k) == IntentAllowed(start, cached, k)
  {
    assert IntentAllowed(db, cached, k) == IntentAllowed(start, cached, k);
    InsertingAddsOneKey(db, k);
  }

  lemma MaterializeOneMore(start: Db, cached: Cache, db: Db, run: Id, done: set<Id>, created: nat, k: DeliveryKey)
    requires Materialized(start, cached, db, run, done, created) && k.event !in done && IsIntentOf(start, run, k)
    ensures Materialized(start, cached, AfterIntent(db, cached, k), run, done + {k.event}, created + if FirstIntent(db, cached, k) then 1 else 0)
    ensures FirstIntent(db, cached, k) ==> !HasDelivery(db, k)
  {
    IntendOneMore(start, cached, db, run, done, k);
    if HasInApp(start, k.event) {
      var i :| 0 <= i < |start.deliveries| && start.deliveries[i].key.event == k.event && start.deliveries[i].key.channel == "in_app";
      assert db.deliveries[i] == start.deliveries[i];
    }
    assert k.event !in Reached(start, db);
    if IntentAllowed(db, cached, k) {
      ReachedOneMore(start, db, k);
    }
  }

  /** The events the query of a run selects. */
  function EventsToDeliver(db: Db, run: Id): set<Id> {
    set e | e in db.alerts && db.alerts[e].run == run && db.alerts[e].user.Some? && !db.alerts[e].legacy
  }

  lemma AllMaterialized(start: Db, cached: Cache, db: Db, run: Id)
    requires Intended(start, cached, db, run, EventsToDeliver(start, run))
    ensures forall k :: HasDelivery(db, k) <==> HasDelivery(start, k) || (IsIntentOf(start, run, k) && IntentAllowed(start, cached, k))
  {
  }

  // ---------- transitions in a session ----------

  datatype TransitionResult = Error(code: string) | Done(outcome: string)

  /** The committed tables, the session's own changes, and its cache. */
  datatype Session = Session(db: Db, own: Txn, cached: Cache)

  /** An offer as the session knows it: as it was when it was loaded, if it was. */
  function Known(s: Session, offer: Id): Option<Offer> {
    if offer in s.cached then Some(s.cached[offer]) else RowOf(Seen(s.db, s.own), offer)
  }

  function CommitOf(s: Session): Session {
    Session(Seen(s.db, s.own), NO_CHANGES, map[])
  }

  function RollbackOf(s: Session): Session {
    Session(s.db, NO_CHANGES, map[])
  }

  /** The conditional update: a conflict rolls everything back. */
  function Updated(s: Session, p: Plan, commit: bool): Session
    requires p.Write?
  {
    if !WriteMatches(Seen(s.db, s.own), p) then RollbackOf(s)
    else
      var moved := s.(own := Writing(s.db, s.own, p));
      var next := if commit then CommitOf(moved) else moved;
      next.(cached := next.cached[p.offer := Seen(next.db, next.own).offers[p.offer]])
  }

  function Transitioned(s: Session, offer: Id, p: Plan, commit: bool): Session {
    var loaded := if Known(s, offer).Some? then s.(cached := s.cached[offer := Known(s, offer).value]) else s;
    if p.Write? then Updated(loaded, p, commit) else loaded
  }

  function ResultOf(s: Session, p: Plan): TransitionResult {
    match p
    case Refused(error) => Error(error)
    case Existing => Done("existing")
    case Write(_, _, _, _, _, _, _, outcome) => if WriteMatches(Seen(s.db, s.own), p) then Done(outcome) else Error(CONFLICT)
  }

  /** What the session sees after a transition that matched is the transition of what it saw
      before, and that is what is committed if it commits. */
  lemma TransitionIsWritten(s: Session, p: Plan, commit: bool)
    requires p.Write? && WriteMatches(Seen(s.db, s.own), p)
    ensures var s' := Updated(s, p, commit);
            && Seen(s'.db, s'.own) == Written(Seen(s.db, s.own), p)
            && s'.db == if commit then Written(Seen(s.db, s.own), p) else s.db
  {
    SeenWriting(s.db, s.own, p);
    SeenNothing(Seen(s.db, Writing(s.db, s.own, p)));
  }

  // ---------- a transition by the columns of the offer ----------

  predicate HasState(o: Offer, state: State) {
    o.state == Some(state) || (o.state.None? && ((state == Active && o.isActive) || (state == Paused && !o.isActive)))
  }

  /** Why a transition is refused before it writes anything, if it is. */
  function Refusal(row: Option<Offer>, user: Id, action: Action, expected: nat): Option<string> {
    if row.None? then Some("tracked_offer_not_found")
    else
      var o := row.value;
      var over := o.state == Some(Expired) || o.state == Some(Archived);
      if o.user != user then Some("not_allowed")
      else if expected != (if o.version == 0 then 1 else o.version) then Some("tracked_offer_state_conflict")
      else if action == Pause && over then Some("tracked_offer_lifecycle_not_pausable")
      else if action == Resume && over then Some("tracked_offer_lifecycle_not_resumable")
      else if action == Resume && (o.checkIn.None? || o.checkOut.None?) then Some("tracked_offer_resume_context_incomplete")
      else if action.Unknown? then Some("invalid_tracked_offer_lifecycle_action")
      else None
  }

  /** Where the actions lead. A stay that is over is not resumed but expires. */
  predicate LeadsTo(o: Offer, action: Action, today: int, to: State, active: bool) {
    match action
    case Pause => to == Paused && !active
    case Archive => to == Archived && !active
    case Expire => to == Expired && !active
    case Resume =>
      && o.state != Some(Expired) && o.state != Some(Archived) && o.checkIn.Some? && o.checkOut.Some?
      && if o.checkOut.value >= today then to == Active && active else to == Expired && !active
    case Unknown(_) => false
  }

  /** The tables once an offer, seen as `o`, has moved to `o'`: its event is logged, and unless
      it is active now the deliveries queued for it are suppressed. */
  predicate Moved(before: Db, after: Db, offer: Id, o: Offer, o': Offer, action: Action, expected: nat) {
    && offer in before.offers && before.offers[offer].user == o.user && before.offers[offer].version == expected
    && o' == before.offers[offer].(state := o'.state, isActive := o'.isActive, version := expected + 1)
    && o'.state.Some? && after.offers == before.offers[offer := o']
    && (exists from :: HasState(o, from) && after.log == before.log + [Event(offer, from, o'.state.value, action, expected + 1)])
    && after.rules == before.rules && after.alerts == before.alerts
    && |after.deliveries| == |before.deliveries|
    && forall i :: 0 <= i < |before.deliveries| ==>
         && after.deliveries[i].key == before.deliveries[i].key
         && (after.deliveries[i].status == Queued <==>
               before.deliveries[i].status == Queued
               && (o'.state == Some(Active) || !BelongsTo(before, before.deliveries[i].key.event, offer)))
  }

  /** An alert event of a rule on this offer. */
  predicate BelongsTo(db: Db, event: Id, offer: Id) {
    && event in db.alerts && db.alerts[event].rule.Some?
    && db.alerts[event].rule.value in db.rules && db.rules[db.alerts[event].rule.value].offer == Some(offer)
  }

  /** Everything a transition does, read off the offer as it was loaded. */
  predicate Transits(s: Session, s': Session, user: Id, offer: Id, action: Action, expected: nat, today: int, commit: bool,
                     result: TransitionResult)
  {
    var row := if offer in s.cached then Some(s.cached[offer])
               else if offer in s.own.rows then Some(s.own.rows[offer])
               else if offer in s.db.offers then Some(s.db.offers[offer]) else None;
    var refusal := Refusal(row, user, action, expected);
    if refusal.Some? then result == Error(refusal.value) && s'.db == s.db && s'.own == s.own
    else
      match result
      case Done(outcome) =>
        && offer in s'.cached
        && var o, o' := row.value, s'.cached[offer];
           if outcome == "existing" then
             && s'.db == s.db && s'.own == s.own && o' == o
             && exists state :: HasState(o, state) && LeadsTo(o, action, today, state, o.isActive)
           else
             && o'.state.Some? && LeadsTo(o, action, today, o'.state.value, o'.isActive)
             && !(HasState(o, o'.state.value) && o.isActive == o'.isActive)
             && outcome == (if o'.state == Some(Expired) then "expired" else "applied")
             && Moved(Seen(s.db, s.own), Seen(s'.db, s'.own), offer, o, o', action, expected)
             && (if commit then s'.own == NO_CHANGES else s'.db == s.db)
      case Error(code) =>
        && code == "tracked_offer_state_conflict" && s' == Session(s.db, NO_CHANGES, map[])
        && var seen := Seen(s.db, s.own);
           !(offer in seen.offers && seen.offers[offer].user == user && seen.offers[offer].version == expected)
  }

  lemma SuppressingColumns(before: Db, offer: Id)
    ensures var after := Suppressing(before, offer);
            && |after.deliveries| == |before.deliveries|
            && forall i :: 0 <= i < |before.deliveries| ==>
                 && after.deliveries[i].key == before.deliveries[i].key
                 && (after.deliveries[i].status == Queued <==>
                       before.deliveries[i].status == Queued && !BelongsTo(before, before.deliveries[i].key.event, offer))
  {
  }

  lemma WrittenColumns(before: Db, p: Plan, o: Offer)
    requires p.Write? && WriteMatches(before, p) && (p.active <==> p.to == Active) && HasState(o, p.from) && o.user == p.user
    ensures Moved(before, Written(before, p), p.offer, o, Written(before, p).offers[p.offer], p.action, p.version)
  {
    SuppressingColumns(before.(offers := Written(before, p).offers, log := Written(before, p).log), p.offer);
  }

  lemma UpdateColumns(s: Session, p: Plan, o: Offer, commit: bool)
    requires p.Write? && WriteMatches(Seen(s.db, s.own), p)
    requires (p.active <==> p.to == Active) && HasState(o, p.from) && o.user == p.user
    ensures var s' := Updated(s, p, commit);
            && p.offer in s'.cached && s'.cached[p.offer].state == Some(p.to) && s'.cached[p.offer].isActive == p.active
            && Moved(Seen(s.db, s.own), Seen(s'.db, s'.own), p.offer, o, s'.cached[p.offer], p.action, p.version)
            && (if commit then s'.own == NO_CHANGES else s'.db == s.db)
  {
    TransitionIsWritten(s, p, commit);
    WrittenColumns(Seen(s.db, s.own), p, o);
  }

  lemma DecisionColumns(o: Offer, action: Action, today: int)
    ensures HasState(o, StateOf(o))
    ensures match Decide(o, action, today)
            case Reject(error) => Refusal(Some(o), o.user, action, VersionOf(o)) == Some(error)
            case Move(to, active, outcome) =>
              && Refusal(Some(o), o.user, action, VersionOf(o)).None? && LeadsTo(o, action, today, to, active)
              && (active <==> to == Active) && outcome == (if to == Expired then "expired" else "applied")
              && (StateOf(o) == to <==> HasState(o, to))
  {
  }

  lemma PlanColumns(o: Offer, user: Id, offer: Id, action: Action, expected: nat, today: int)
    ensures
      var p, refusal := PlanFrom(o, user, offer, action, expected, today), Refusal(Some(o), user, action, expected);
      match p
      case Refused(error) => refusal == Some(error)
      case Existing => refusal.None? && HasState(o, StateOf(o)) && LeadsTo(o, action, today, StateOf(o), o.isActive)
      case Write(_, _, _, _, _, _, _, _) =>
        && refusal.None? && p.offer == offer && p.user == user == o.user && p.action == action && p.version == expected
        && HasState(o, p.from) && LeadsTo(o, action, today, p.to, p.active)
        && (p.active <==> p.to == Active) && !(HasState(o, p.to) && o.isActive == p.active)
        && p.outcome == if p.to == Expired then "expired" else "applied"
  {
    DecisionColumns(o, action, today);
  }

  lemma TransitionColumns(s: Session, user: Id, offer: Id, action: Action, expected: nat, today: int, commit: bool)
    ensures var p := PlanOf(Known(s, offer), user, offer, action, expected, today);
            Transits(s, Transitioned(s, offer, p, commit), user, offer, action, expected, today, commit, ResultOf(s, p))
  {
    if Known(s, offer).Some? {
      var o := Known(s, offer).value;
      var p := PlanOf(Some(o), user, offer, action, expected, today);
      PlanColumns(o, user, offer, action, expected, today);
      if p.Write? && WriteMatches(Seen(s.db, s.own), p) {
        UpdateColumns(s.(cached := s.cached[offer := o]), p, o, commit);
      }
    }
  }

  /** One iteration of the expiry loop: the session after it and what it found. */
  function ExpiredBy(s: Session, id: Id, today: int): (Session, Option<bool>) {
    if Known(s, id).None? then (s, None)
    else
      var o := Known(s, id).value;
      var p := PlanOf(Some(o), o.user, id, Expire, VersionOf(o), today);
      (Transitioned(s, id, p, false),
       match ResultOf(s, p)
       case Done(outcome) => Some(outcome == "expired")
       case Error(code) => if code == CONFLICT then Some(false) else None)
  }

  /** The same once the others have committed, with the number of expirations so far. */
  function CountedBy(s: Session, rival: Db, id: Id, today: int, count: nat): (Session, Option<nat>) {
    var one := ExpiredBy(s.(db := Masked(s.db, s.own, rival)), id, today);
    (one.0, if one.1.None? then None else Some(if one.1.value then count + 1 else count))
  }

  function SessionAt(s: Stage): Session {
    Session(s.db, s.own, s.pass.cached)
  }

  /** A conflict aside, a transition that expires has no error. */
  lemma ExpiringPlan(s: Stage, id: Id)
    requires id in s.pass.cached
    ensures var o := s.pass.cached[id]; PlanOf(Some(o), o.user, id, Expire, VersionOf(o), s.pass.today) == PlanFor(s.pass, id)
    ensures var result := ResultOf(SessionAt(s), PlanFor(s.pass, id)); result.Error? ==> result == Error(CONFLICT)
  {
    PlanForIs(s.pass, id);
  }

  lemma ExpiringUpdates(s: Stage, id: Id)
    requires id in s.pass.cached && PlanFor(s.pass, id).Write?
    ensures var next := Expired1(s, id); Updated(SessionAt(s), PlanFor(s.pass, id), false) == Session(s.db, next.own, next.pass.cached)
  {
    var p := PlanFor(s.pass, id);
    PlanForIs(s.pass, id);
    if WriteMatches(Seen(s.db, s.own), p) {
      var t' := Writing(s.db, s.own, p);
      WritingChanges(s.db, s.own, p);
      assert Seen(s.db, t').offers == s.db.offers + t'.rows;
    }
  }

  lemma ExpiringReports(s: Stage, id: Id)
    requires id in s.pass.cached
    ensures Expired1(s, id).pass.reported
            == s.pass.reported + (if ResultOf(SessionAt(s), PlanFor(s.pass, id)) == Done("expired") then 1 else 0)
  {
    PlanForIs(s.pass, id);
  }

  /** Expiring one offer of a pass is the transition of the session that runs it. */
  lemma ExpiringIsATransition(s: Stage, id: Id)
    requires id in s.pass.cached
    ensures var p, next := PlanFor(s.pass, id), Expired1(s, id);
            && Transitioned(SessionAt(s), id, p, false) == Session(s.db, next.own, next.pass.cached)
            && next.pass.reported == s.pass.reported + (if ResultOf(SessionAt(s), p) == Done("expired") then 1 else 0)
  {
    ExpiringReports(s, id);
    assert s.pass.cached[id := s.pass.cached[id]] == s.pass.cached;
    if PlanFor(s.pass, id).Write? {
      ExpiringUpdates(s, id);
    }
  }

  /** Loading an offer before its transition makes no difference to the transition. */
  lemma LoadedIsKnown(db: Db, own: Txn, pass: Pass, id: Id)
    requires id in Loaded(db, pass, id).cached && id !in own.rows
    ensures var s, s' := Session(db, own, pass.cached), Session(db, own, Loaded(db, pass, id).cached);
            && Known(s, id) == Known(s', id) == Some(Loaded(db, pass, id).cached[id])
            && forall p :: Transitioned(s, id, p, false) == Transitioned(s', id, p, false) && ResultOf(s, p) == ResultOf(s', p)
  {
  }

  lemma ExpiringIsExpiredBy(s: Stage, id: Id)
    requires id in s.pass.cached
    ensures var next := Expired1(s, id);
            ExpiredBy(SessionAt(s), id, s.pass.today) == (SessionAt(next), Some(next.pass.reported == s.pass.reported + 1))
    ensures Expired1(s, id).pass.reported == s.pass.reported || Expired1(s, id).pass.reported == s.pass.reported + 1
  {
    ExpiringPlan(s, id);
    ExpiringIsATransition(s, id);
  }

  lemma LoadedIsExpiredBy(db: Db, own: Txn, pass: Pass, id: Id)
    requires id in Loaded(db, pass, id).cached && id !in own.rows
    ensures ExpiredBy(Session(db, own, pass.cached), id, pass.today)
            == ExpiredBy(Session(db, own, Loaded(db, pass, id).cached), id, pass.today)
  {
    LoadedIsKnown(db, own, pass, id);
  }

  lemma CountingUp(s: Session, rival: Db, id: Id, today: int, count: nat, next: Session, reported: nat)
    requires ExpiredBy(s.(db := Masked(s.db, s.own, rival)), id, today) == (next, Some(reported == count + 1))
    requires reported == count || reported == count + 1
    ensures CountedBy(s, rival, id, today, count) == (next, Some(reported))
  {
  }

  /** One iteration of the expiry loop is one more stage of the pass. */
  lemma StageIsATransition(s: Stage, rival: Db, id: Id)
    requires id in ReadyFor(s, rival, id).pass.cached && id !in s.own.rows
    ensures var next := Expired1(ReadyFor(s, rival, id), id);
            CountedBy(SessionAt(s), rival, id, s.pass.today, s.pass.reported) == (SessionAt(next), Some(next.pass.reported))
  {
    LoadedIsExpiredBy(Masked(s.db, s.own, rival), s.own, s.pass, id);
    var ready := ReadyFor(s, rival, id);
    ExpiringIsExpiredBy(ready, id);
    CountingUp(SessionAt(s), rival, id, s.pass.today, s.pass.reported, SessionAt(Expired1(ready, id)), Expired1(ready, id).pass.reported);
  }

  lemma DueColumns(db: Db, today: int, order: seq<Id>)
    requires Ids(order) == DueOffers(db, today)
    ensures forall id :: id in order <==>
              && id in db.offers
              && var o := db.offers[id];
                 o.checkOut.Some? && o.checkOut.value < today && (o.state == Some(Active) || o.state == Some(Paused))
  {
    forall id ensures id in order <==> id in DueOffers(db, today) {
      assert id in order <==> id in Ids(order);
    }
  }

  lemma QuietPassColumns(db: Db, today: int, order: seq<Id>)
    requires Distinct(order) && Ids(order) == DueOffers(db, today)
    requires forall id :: id in order && id in db.offers ==> db.offers[id].version > 0
    ensures var s := StageAfter(db, [], today, order); var after := Seen(s.db, s.own).offers;
            && s.pass.reported == |order| && after.Keys == db.offers.Keys
            && forall id :: id in db.offers ==>
                 var o := db.offers[id];
                 after[id] == if id in order then o.(state := Some(Expired), version := o.version + 1, isActive := false) else o
  {
    forall id ensures id in order <==> id in DueOffers(db, today) {
      assert id in order <==> id in Ids(order);
    }
    QuietPassExpiresAll(db, today, order);
  }

  lemma SeenInserting(db: Db, t: Txn, k: DeliveryKey)
    requires !HasDelivery(Seen(db, t), k)
    ensures Seen(db, t.(inserted := t.inserted + [Delivery(k, Queued)])) == Inserting(Seen(db, t), k)
  {
    assert Seen(db, t.(inserted := t.inserted + [Delivery(k, Queued)])).deliveries == Inserting(Seen(db, t), k).deliveries;
  }

  // ---------- the store ----------

  class TrackingStore {
    var committed: Db
    var own: Txn
    var cached: Cache

    constructor ()
      ensures committed == Db(map[], [], map[], map[], []) && own == NO_CHANGES && cached == map[]
    {
      committed, own, cached := Db(map[], [], map[], map[], []), NO_CHANGES, map[];
    }

    function State(): Session
      reads this
    {
      Session(committed, own, cached)
    }

    function Working(): Db
      reads this
    {
      Seen(committed, own)
    }

    method Commit()
      modifies this
      ensures State() == CommitOf(old(State()))
    {
      committed := Working();
      own, cached := NO_CHANGES, map[];
    }

    method Rollback()
      modifies this`own, this`cached
      ensures State() == RollbackOf(old(State()))
    {
      own, cached := NO_CHANGES, map[];
    }

    method SuppressPendingDeliveries(offer: Id)
      modifies this`own
      ensures own == SuppressingIn(committed, old(own), offer)
      ensures Working() == Suppressing(old(Working()), offer)
      ensures |Working().deliveries| == |old(Working()).deliveries|
      ensures forall i :: 0 <= i < |Working().deliveries| ==>
                && Working().deliveries[i].key == old(Working()).deliveries[i].key
                && (Working().deliveries[i].status == Queued <==>
                      old(Working()).deliveries[i].status == Queued
                      && !BelongsTo(old(Working()), old(Working()).deliveries[i].key.event, offer))
    {
      SeenSuppressing(committed, own, offer);
      SuppressingColumns(Working(), offer);
      own := own.(suppressed := own.suppressed + Waiting(committed, offer), inserted := SuppressedAll(committed, offer, own.inserted));
    }

    /** The row, the event and the suppression of an update that matches. */
    method WriteRow(p: Plan)
      requires p.Write? && WriteMatches(Working(), p)
      modifies this`own
      ensures own == Writing(committed, old(own), p)
    {
      var o := Working().offers[p.offer].(state := Some(p.to), version := p.version + 1, isActive := p.active);
      var event := Event(p.offer, p.from, p.to, p.action, p.version + 1);
      own := own.(rows := own.rows[p.offer := o], events := own.events + [event]);
      if p.to != Active {
        SuppressPendingDeliveries(p.offer);
      }
    }

    /** The conditional update and what follows it. */
    method Update(p: Plan, commit: bool) returns (result: TransitionResult)
      requires p.Write?
      modifies this
      ensures State() == Updated(old(State()), p, commit)
      ensures result == ResultOf(old(State()), p)
    {
      if !WriteMatches(Working(), p) {
        Rollback();
        return Error(CONFLICT);
      }
      WriteRow(p);
      if commit {
        Commit();
      }
      cached := cached[p.offer := Working().offers[p.offer]];
      result := Done(p.outcome);
    }

    /** The tests on the loaded offer, and the update if there is something to do. */
    method DecideAndUpdate(user: Id, offer: Id, action: Action, expected: nat, today: int, commit: bool)
      returns (result: TransitionResult)
      modifies this
      ensures var p := PlanOf(Known(old(State()), offer), user, offer, action, expected, today);
              State() == Transitioned(old(State()), offer, p, commit) && result == ResultOf(old(State()), p)
    {
      var row := Known(State(), offer);
      if row.None? {
        return Error("tracked_offer_not_found");
      }
      var o := row.value;
      cached := cached[offer := o];
      if o.user != user {
        return Error("not_allowed");
      }
      if expected != VersionOf(o) {
        return Error(CONFLICT);
      }
      var verdict := Decide(o, action, today);
      if verdict.Reject? {
        return Error(verdict.error);
      }
      if StateOf(o) == verdict.to && o.isActive == verdict.active {
        return Done("existing");
      }
      result := Update(Plan.Write(offer, user, StateOf(o), verdict.to, verdict.active, VersionOf(o), action, verdict.outcome), commit);
    }

    /** The offer is taken from the cache if it is there; the update is tested against the
        stored row. */
    method Transition(user: Id, offer: Id, action: Action, expected: nat, today: int, commit: bool)
      returns (result: TransitionResult)
      modifies this
      ensures var p := PlanOf(Known(old(State()), offer), user, offer, action, expected, today);
              State() == Transitioned(old(State()), offer, p, commit) && result == ResultOf(old(State()), p)
      ensures Transits(old(State()), State(), user, offer, action, expected, today, commit, result)
    {
      TransitionColumns(State(), user, offer, action, expected, today, commit);
      result := DecideAndUpdate(user, offer, action, expected, today, commit);
    }

    /** Other sessions commit; the rows this session has locked keep them waiting. */
    method RivalsCommit(rival: Db)
      modifies this`committed
      ensures committed == Masked(old(committed), own, rival)
    {
      committed := Masked(committed, own, rival);
    }

    /** One iteration of the expiry loop; None stands for an exception that ends it. */
    method ExpireOne(id: Id, today: int) returns (expired: Option<bool>)
      modifies this
      ensures (State(), expired) == ExpiredBy(old(State()), id, today)
    {
      var row := Known(State(), id);
      if row.None? {
        return None;
      }
      var result := Transition(row.value.user, id, Expire, VersionOf(row.value), today, false);
      match result
      case Done(outcome) => return Some(outcome == "expired");
      case Error(code) => return if code == CONFLICT then Some(false) else None;
    }

    method ExpireNext(id: Id, today: int, rival: Db, count: nat) returns (expired: Option<nat>)
      modifies this
      ensures (State(), expired) == CountedBy(old(State()), rival, id, today, count)
    {
      RivalsCommit(rival);
      var one := ExpireOne(id, today);
      expired := if one.None? then None else Some(if one.value then count + 1 else count);
    }

    /** The session at a stage of the pass that has reported so many expirations. */
    predicate AtStage(s: Stage, expired: Option<nat>)
      reads this
    {
      State() == SessionAt(s) && expired == Some(s.pass.reported)
    }

    /** One iteration, as long as the pass goes by its stages. */
    method ExpireListed(id: Id, today: int, rival: Db, count: nat, ghost start: Db, ghost rivals: seq<Db>, ghost order: seq<Id>)
      returns (expired: Option<nat>)
      modifies this
      ensures Successive(start, rivals) && Distinct(order) && Ids(order) <= DueOffers(start, today)
              && id in DueOffers(start, today) && id !in order && rival == RivalAt(start, rivals, |order|)
              && old(AtStage(StageAfter(start, rivals, today, order), Some(count))) ==>
                AtStage(StageAfter(start, rivals, today, order + [id]), expired)
    {
      if Successive(start, rivals) && Distinct(order) && Ids(order) <= DueOffers(start, today)
         && id in DueOffers(start, today) && id !in order {
        AfterOk(start, rivals, today, order);
        OneMoreStage(start, rivals, today, order, id);
        StageIsATransition(StageAfter(start, rivals, today, order), RivalAt(start, rivals, |order|), id);
      }
      expired := ExpireNext(id, today, rival, count);
    }

    /** The query of the pass, which loads what it finds. */
    method ListDue(today: int) returns (due: set<Id>)
      modifies this`cached
      ensures old(own) == NO_CHANGES && old(cached) == map[] ==>
                due == DueOffers(committed, today) && AtStage(Stage(committed, NO_CHANGES, Begun(committed, today)), Some(0))
    {
      due := DueOffers(Working(), today);
      if own == NO_CHANGES {
        SeenNothing(committed);
      }
      cached := (map id | id in due :: Working().offers[id]) + cached;
    }

    /** The query and the loop. */
    method ExpireAll(today: int, rivals: seq<Db>) returns (expired: Option<nat>, ghost order: seq<Id>)
      requires Successive(committed, rivals)
      modifies this
      ensures old(own) == NO_CHANGES && old(cached) == map[] ==>
                && Distinct(order) && Ids(order) == DueOffers(old(committed), today)
                && AtStage(StageAfter(old(committed), rivals, today, order), expired)
    {
      ghost var clean := own == NO_CHANGES && cached == map[];
      var start := committed;
      var due := ListDue(today);
      ghost var all := due;
      order, expired := [], Some(0);
      var done := 0;
      while due != {}
        invariant expired.Some? && done == |order|
        invariant Distinct(order) && Ids(order) !! due && Ids(order) + due == all
        invariant clean ==> all == DueOffers(start, today) && AtStage(StageAfter(start, rivals, today, order), expired)
        decreases due
      {
        var id :| id in due;
        Appended(start, rivals, today, order, id);
        expired := ExpireListed(id, today, RivalAt(start, rivals, done), expired.value, start, rivals, order);
        due := due - {id};
        order, done := order + [id], done + 1;
        if expired.None? {
          return;
        }
      }
    }

    /** The due offers are read once and expired in whatever order the query returns them,
        while other sessions commit: `rivals[i]` is what they had committed before the i-th
        update. What a session promises that begins the pass with nothing open or cached. */
    method ExpireDueOffers(today: int, rivals: seq<Db>) returns (expired: Option<nat>, ghost order: seq<Id>)
      requires Successive(committed, rivals)
      modifies this
      ensures old(own) == NO_CHANGES && old(cached) == map[] ==>
                && Distinct(order) && Ids(order) == DueOffers(old(committed), today)
                && AtStage(StageAfter(old(committed), rivals, today, order), expired)
      // What it lists: the active and paused offers whose stay is over.
      ensures old(own) == NO_CHANGES && old(cached) == map[] ==>
                forall id :: id in order <==>
                  && id in old(committed.offers)
                  && var o := old(committed.offers)[id];
                     o.checkOut.Some? && o.checkOut.value < today && (o.state == Some(Active) || o.state == Some(Paused))
      // Undisturbed, it expires all of them, if they have versions.
      ensures old(own) == NO_CHANGES && old(cached) == map[] && rivals == []
              && (forall id :: id in order && id in old(committed.offers) ==> old(committed.offers)[id].version > 0) ==>
                && expired == Some(|order|)
                && Working().offers.Keys == old(committed.offers).Keys
                && forall id :: id in old(committed.offers) ==>
                     var o := old(committed.offers)[id];
                     Working().offers[id]
                     == if id in order then o.(state := Some(Expired), version := o.version + 1, isActive := false) else o
    {
      ghost var clean, start := own == NO_CHANGES && cached == map[], committed;
      expired, order := ExpireAll(today, rivals);
      if clean {
        DueColumns(start, today, order);
        if rivals == [] && forall id :: id in order && id in start.offers ==> start.offers[id].version > 0 {
          QuietPassColumns(start, today, order);
        }
      }
    }

    /** An offer that was loaded before is checked as it was then. */
    method CreateDelivery(k: DeliveryKey) returns (created: bool)
      modifies this`own
      ensures created == (IntentAllowed(old(Working()), cached, k) && !HasDelivery(old(Working()), k))
      ensures Working() == AfterIntent(old(Working()), cached, k)
      // An in-app intent of an event's own user is new, and not a mere observation's; if the
      // event has a rule it is the user's, and if the rule has an offer it is active.
      ensures created <==>
        var seen := old(Working());
        && k.channel == "in_app" && k.event in seen.alerts
        && (forall i :: 0 <= i < |seen.deliveries| ==> seen.deliveries[i].key != k)
        && var alert := seen.alerts[k.event];
           && alert.user == Some(k.user) && !alert.legacy
           && (alert.rule.Some? ==> alert.rule.value in seen.rules && seen.rules[alert.rule.value].user == k.user)
           && (alert.rule.Some? && seen.rules[alert.rule.value].offer.Some? ==>
                 var offer := seen.rules[alert.rule.value].offer.value;
                 && (offer in cached || offer in seen.offers)
                 && var o := if offer in cached then cached[offer] else seen.offers[offer];
                    o.isActive && HasState(o, Active))
      ensures var seen := old(Working());
              Working() == if created then seen.(deliveries := seen.deliveries + [Delivery(k, Queued)]) else seen
    {
      var seen := Working();
      if k.channel != "in_app" || k.event !in seen.alerts {
        return false;
      }
      var alert := seen.alerts[k.event];
      if alert.user != Some(k.user) || alert.legacy {
        return false;
      }
      if alert.rule.Some? {
        if alert.rule.value !in seen.rules || seen.rules[alert.rule.value].user != k.user {
          return false;
        }
        var offer := seen.rules[alert.rule.value].offer;
        if offer.Some? {
          var row := Known(State(), offer.value);
          if row.None? || !row.value.isActive || StateOf(row.value) != Active {
            return false;
          }
        }
      }
      if HasDelivery(seen, k) {
        return false;
      }
      SeenInserting(committed, own, k);
      own := own.(inserted := own.inserted + [Delivery(k, Queued)]);
      created := true;
    }

    /** One iteration of the delivery loop. */
    method MaterializeOne(e: Id, run: Id, ghost start: Db, ghost done: set<Id>, created: nat) returns (createdNow: nat)
      requires e in EventsToDeliver(start, run) && e !in done && Materialized(start, cached, Working(), run, done, created)
      modifies this`own
      ensures Materialized(start, cached, Working(), run, done + {e}, createdNow)
    {
      var seen := Working();
      var k := DeliveryKey(e, seen.alerts[e].user.value, "in_app", "hotel-alert-v1");
      var existing := HasInApp(seen, e);
      MaterializeOneMore(start, cached, seen, run, done, created, k);
      var made := CreateDelivery(k);
      createdNow := if made && !existing then created + 1 else created;
    }

    /** The run's events that may be delivered get their delivery, once each, and nothing
        else is queued or changed. What is counted are the events that had no in-app
        delivery of any template before. */
    method MaterializeDeliveries(run: Id) returns (created: nat)
      modifies this`own
      ensures var before, after := old(Working()), Working();
              && created == |Reached(before, after)|
              && before.deliveries <= after.deliveries && after == before.(deliveries := after.deliveries)
              && forall k :: HasDelivery(after, k) <==>
                   HasDelivery(before, k) || (IsIntentOf(before, run, k) && IntentAllowed(before, cached, k))
      ensures var before := old(Working());
              forall k :: HasDelivery(Working(), k) && !HasDelivery(before, k) ==>
                && k.channel == "in_app" && k.template == "hotel-alert-v1" && k.event in before.alerts
                && var alert := before.alerts[k.event]; alert.run == run && alert.user == Some(k.user) && !alert.legacy
    {
      var events := EventsToDeliver(Working(), run);
      ghost var start, done: set<Id> := Working(), {};
      created := 0;
      NothingMaterialized(start, cached, run);
      while events != {}
        invariant done + events == EventsToDeliver(start, run) && done !! events
        invariant Materialized(start, cached, Working(), run, done, created)
        decreases events
      {
        var e :| e in events;
        created := MaterializeOne(e, run, start, done, created);
        events := events - {e};
        done := done + {e};
      }
      assert done == EventsToDeliver(start, run);
      AllMaterialized(start, cached, Working(), run);
    }
  }
}
