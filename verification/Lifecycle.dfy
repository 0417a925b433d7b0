/** Tracked offers with their versioned lifecycle and event log, the alert rules and events
    that belong to them, and the delivery intents queued for those events.

    A session's changes are kept apart from the committed tables until it commits them; its
    statements see the committed rows of the moment and its own changes. */
module Lifecycle {
  import opened Sql

  type Id = nat

  datatype State = Active | Paused | Expired | Archived

  datatype Action = Pause | Resume | Expire | Archive | Unknown(name: string)

  /** `state` is None for the empty string of rows older than the lifecycle, and
      `version` 0 for their missing version. */
  datatype Offer = Offer(user: Id, checkIn: Option<int>, checkOut: Option<int>,
                         state: Option<State>, version: nat, isActive: bool)

  datatype Event = Event(offer: Id, from: State, to: State, action: Action, version: nat)

  datatype Rule = Rule(user: Id, offer: Option<Id>)

  datatype Alert = Alert(user: Option<Id>, rule: Option<Id>, run: Id, legacy: bool)

  datatype DeliveryKey = DeliveryKey(event: Id, user: Id, channel: string, template: string)

  datatype DeliveryStatus = Queued | Suppressed

  datatype Delivery = Delivery(key: DeliveryKey, status: DeliveryStatus)

  datatype Db = Db(
    offers: map<Id, Offer>,
    log: seq<Event>,
    rules: map<Id, Rule>,
    alerts: map<Id, Alert>,
    deliveries: seq<Delivery>)

  const CONFLICT := "tracked_offer_state_conflict"

  function StateOf(o: Offer): State {
    if o.state.Some? then o.state.value else if o.isActive then Active else Paused
  }

  function VersionOf(o: Offer): nat {
    if o.version == 0 then 1 else o.version
  }

  predicate Closed(o: Offer) {
    StateOf(o) == Expired || StateOf(o) == Archived
  }

  predicate IsLive(db: Db, offer: Id) {
    offer in db.offers && db.offers[offer].isActive && StateOf(db.offers[offer]) == Active
  }

  // ---------- lifecycle transitions ----------

  datatype Verdict = Reject(error: string) | Move(to: State, active: bool, outcome: string)

  function Decide(o: Offer, action: Action, today: int): Verdict {
    match action
    case Pause =>
      if Closed(o) then Reject("tracked_offer_lifecycle_not_pausable") else Move(Paused, false, "applied")
    case Resume =>
      if Closed(o) then Reject("tracked_offer_lifecycle_not_resumable")
      else if o.checkIn.None? || o.checkOut.None? then Reject("tracked_offer_resume_context_incomplete")
      else if o.checkOut.value < today then Move(Expired, false, "expired")
      else Move(Active, true, "applied")
    case Expire => Move(Expired, false, "expired")
    case Archive => Move(Archived, false, "applied")
    case Unknown(_) => Reject("invalid_tracked_offer_lifecycle_action")
  }

  /** What a transition decides from the offer it read, before its conditional update. */
  datatype Plan =
    | Refused(error: string)
    | Existing
    | Write(offer: Id, user: Id, from: State, to: State, active: bool, version: nat, action: Action, outcome: string)

  function PlanFrom(o: Offer, user: Id, offer: Id, action: Action, expected: nat, today: int): Plan {
    if o.user != user then Refused("not_allowed")
    else if expected != VersionOf(o) then Refused(CONFLICT)
    else
      match Decide(o, action, today)
      case Reject(error) => Refused(error)
      case Move(to, active, outcome) =>
        if StateOf(o) == to && o.isActive == active then Existing
        else Plan.Write(offer, user, StateOf(o), to, active, VersionOf(o), action, outcome)
  }

  function PlanOf(row: Option<Offer>, user: Id, offer: Id, action: Action, expected: nat, today: int): Plan {
    if row.None? then Refused("tracked_offer_not_found") else PlanFrom(row.value, user, offer, action, expected, today)
  }

  function RowOf(db: Db, offer: Id): Option<Offer> {
    if offer in db.offers then Some(db.offers[offer]) else None
  }

  /** The WHERE clause of the conditional update. */
  predicate WriteMatches(db: Db, p: Plan)
    requires p.Write?
  {
    p.offer in db.offers && db.offers[p.offer].user == p.user && db.offers[p.offer].version == p.version
  }

  function NewRow(o: Offer, p: Plan): Offer
    requires p.Write?
  {
    o.(state := Some(p.to), version := p.version + 1, isActive := p.active)
  }

  function EventOf(p: Plan): Event
    requires p.Write?
  {
    Event(p.offer, p.from, p.to, p.action, p.version + 1)
  }

  /** The tracked offer an alert event belongs to, through its rule. */
  function OfferOfEvent(db: Db, event: Id): Option<Id> {
    if event in db.alerts && db.alerts[event].rule.Some? && db.alerts[event].rule.value in db.rules
    then db.rules[db.alerts[event].rule.value].offer else None
  }

  function SuppressedFor(db: Db, offer: Id, d: Delivery): Delivery {
    if d.status == Queued && OfferOfEvent(db, d.key.event) == Some(offer) then d.(status := Suppressed) else d
  }

  function SuppressedAll(db: Db, offer: Id, ds: seq<Delivery>): seq<Delivery> {
    seq(|ds|, i requires 0 <= i < |ds| => SuppressedFor(db, offer, ds[i]))
  }

  function Suppressing(db: Db, offer: Id): Db {
    db.(deliveries := SuppressedAll(db, offer, db.deliveries))
  }

  /** The tables after a transition. */
  function Written(db: Db, p: Plan): Db
    requires p.Write? && WriteMatches(db, p)
  {
    var moved := db.(offers := db.offers[p.offer := NewRow(db.offers[p.offer], p)], log := db.log + [EventOf(p)]);
    if p.to == Active then moved else Suppressing(moved, p.offer)
  }

  predicate IsDue(o: Offer, today: int) {
    o.checkOut.Some? && o.checkOut.value < today && (o.state == Some(Active) || o.state == Some(Paused))
  }

  function DueOffers(db: Db, today: int): set<Id> {
    set id | id in db.offers && IsDue(db.offers[id], today)
  }

  // ---------- the changes of a session ----------

  /** The offers a session changed, which it keeps locked, its lifecycle events, the stored
      deliveries it suppressed, by position, and those it inserted. */
  datatype Txn = Txn(rows: map<Id, Offer>, events: seq<Event>, suppressed: set<nat>, inserted: seq<Delivery>)

  const NO_CHANGES: Txn := Txn(map[], [], {}, [])

  function Marked(ds: seq<Delivery>, positions: set<nat>): seq<Delivery> {
    seq(|ds|, i requires 0 <= i < |ds| => if i in positions then ds[i].(status := Suppressed) else ds[i])
  }

  /** What the session sees, and what the tables become when it commits. */
  function Seen(db: Db, t: Txn): Db {
    db.(offers := db.offers + t.rows, log := db.log + t.events, deliveries := Marked(db.deliveries, t.suppressed) + t.inserted)
  }

  /** The stored deliveries of an offer that wait. */
  function Waiting(db: Db, offer: Id): set<nat> {
    set i | 0 <= i < |db.deliveries| && db.deliveries[i].status == Queued
            && OfferOfEvent(db, db.deliveries[i].key.event) == Some(offer)
  }

  function SuppressingIn(db: Db, t: Txn, offer: Id): Txn {
    t.(suppressed := t.suppressed + Waiting(db, offer), inserted := SuppressedAll(db, offer, t.inserted))
  }

  /** The conditional update with its event and its suppression, in the session. */
  function Writing(db: Db, t: Txn, p: Plan): Txn
    requires p.Write? && WriteMatches(Seen(db, t), p)
  {
    var moved := t.(rows := t.rows[p.offer := NewRow(Seen(db, t).offers[p.offer], p)], events := t.events + [EventOf(p)]);
    if p.to == Active then moved else SuppressingIn(db, moved, p.offer)
  }

  lemma WritingChanges(db: Db, t: Txn, p: Plan)
    requires p.Write? && WriteMatches(Seen(db, t), p)
    ensures p.offer in t.rows || p.offer in db.offers
    ensures var o := if p.offer in t.rows then t.rows[p.offer] else db.offers[p.offer];
            && o.user == p.user && o.version == p.version
            && Writing(db, t, p).rows == t.rows[p.offer := NewRow(o, p)]
    ensures Writing(db, t, p).events == t.events + [EventOf(p)]
    ensures Writing(db, t, p).suppressed == t.suppressed + if p.to == Active then {} else Waiting(db, p.offer)
    ensures |Writing(db, t, p).inserted| == |t.inserted|
  {
  }

  lemma MatchesRow(db: Db, t: Txn, p: Plan)
    requires p.Write?
    ensures WriteMatches(Seen(db, t), p)
            <==> || (p.offer in t.rows && t.rows[p.offer].user == p.user && t.rows[p.offer].version == p.version)
                 || (p.offer !in t.rows && p.offer in db.offers
                     && db.offers[p.offer].user == p.user && db.offers[p.offer].version == p.version)
  {
  }

  lemma SeenNothing(db: Db)
    ensures Seen(db, NO_CHANGES) == db
  {
    assert Marked(db.deliveries, {}) == db.deliveries;
    assert db.offers + map[] == db.offers;
  }

  lemma SeenSuppressing(db: Db, t: Txn, offer: Id)
    ensures Seen(db, SuppressingIn(db, t, offer)) == Suppressing(Seen(db, t), offer)
  {
    var s, s' := Seen(db, t), Seen(db, SuppressingIn(db, t, offer));
    assert |s'.deliveries| == |s.deliveries|;
    forall i | 0 <= i < |s.deliveries| ensures s'.deliveries[i] == Suppressing(s, offer).deliveries[i] {
      assert OfferOfEvent(s, s.deliveries[i].key.event) == OfferOfEvent(db, s.deliveries[i].key.event);
    }
  }

  /** What the session sees after its transition is the transition of what it saw. */
  lemma SeenWriting(db: Db, t: Txn, p: Plan)
    requires p.Write? && WriteMatches(Seen(db, t), p)
    ensures Seen(db, Writing(db, t, p)) == Written(Seen(db, t), p)
  {
    var moved := t.(rows := t.rows[p.offer := NewRow(Seen(db, t).offers[p.offer], p)], events := t.events + [EventOf(p)]);
    assert Seen(db, moved) == Seen(db, t).(offers := Seen(db, t).offers[p.offer := NewRow(Seen(db, t).offers[p.offer], p)],
                                           log := Seen(db, t).log + [EventOf(p)]);
    SeenSuppressing(db, moved, p.offer);
  }

  // ---------- delivery intents ----------

  predicate DeliveryAllowed(db: Db, k: DeliveryKey) {
    && k.channel == "in_app"
    && k.event in db.alerts
    && var alert := db.alerts[k.event];
       && alert.user == Some(k.user)
       && !alert.legacy
       && (alert.rule.Some? ==>
             && alert.rule.value in db.rules && db.rules[alert.rule.value].user == k.user
             && (db.rules[alert.rule.value].offer.Some? ==> IsLive(db, db.rules[alert.rule.value].offer.value)))
  }

  predicate HasDelivery(db: Db, k: DeliveryKey) {
    exists i :: 0 <= i < |db.deliveries| && db.deliveries[i].key == k
  }

  /** The insert under the unique idempotency key. */
  function Inserting(db: Db, k: DeliveryKey): Db {
    if HasDelivery(db, k) then db else db.(deliveries := db.deliveries + [Delivery(k, Queued)])
  }

  lemma InsertingAddsOneKey(db: Db, k: DeliveryKey)
    ensures forall j :: HasDelivery(Inserting(db, k), j) <==> HasDelivery(db, j) || j == k
  {
    var db' := Inserting(db, k);
    forall j ensures HasDelivery(db', j) <==> HasDelivery(db, j) || j == k {
      if HasDelivery(db, j) {
        var i :| 0 <= i < |db.deliveries| && db.deliveries[i].key == j;
        assert db'.deliveries[i].key == j;
      } else if j == k {
        assert db'.deliveries[|db.deliveries|].key == k;
      }
    }
  }
}
