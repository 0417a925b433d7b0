/** What the runs do to the rank of an offer, active and paused below expired below archived,
    and the runs in which the expiry pass meets other sessions. */
module OfferRuns {
  import opened Sql
  import opened Lifecycle
  import opened ExpiryPass
  import opened LifecycleRuns

  function Rank(s: State): nat {
    match s
    case Active => 0
    case Paused => 0
    case Expired => 1
    case Archived => 2
  }

  /** The transition function itself lowers the rank in exactly one case. */
  lemma OnlyExpiringAnArchiveLowersRank(o: Offer, action: Action, today: int)
    requires Decide(o, action, today).Move?
    ensures Rank(Decide(o, action, today).to) < Rank(StateOf(o)) <==> action == Expire && StateOf(o) == Archived
  {
  }

  /** The callers of the service: users pause, resume and archive; only the expiry pass expires. */
  predicate ByCallers(steps: seq<Step>) {
    forall i :: 0 <= i < |steps| && steps[i].ReadForTransition? ==> steps[i].action != Expire
  }

  predicate Climbs(from: State, to: State) {
    Rank(from) <= Rank(to)
  }

  /** Users' plans climb; what does not climb expires an archived offer. */
  ghost predicate PlansClimb(plans: set<Plan>) {
    forall p :: p in plans && p.Write? ==> p.action != Expire && Climbs(p.from, p.to)
  }

  predicate EventClimbs(e: Event) {
    Climbs(e.from, e.to) || (e.action == Expire && e.from == Archived && e.to == Expired)
  }

  ghost predicate TxnClimbs(t: Txn) {
    forall i :: 0 <= i < |t.events| ==> EventClimbs(t.events[i])
  }

  ghost predicate ClimbInv(w: World) {
    PlansClimb(w.plans) && forall sid :: sid in w.txns ==> TxnClimbs(w.txns[sid])
  }

  lemma WritingClimbs(db: Db, t: Txn, p: Plan)
    requires p.Write? && WriteMatches(Seen(db, t), p) && TxnClimbs(t) && EventClimbs(EventOf(p))
    ensures TxnClimbs(Writing(db, t, p))
  {
    WritingChanges(db, t, p);
  }

  lemma ExpiringClimbs(db: Db, t: Txn, pass: Pass, id: Id)
    requires TxnClimbs(t) && id in pass.cached
    ensures TxnClimbs(Expiring(db, t, pass, id).0)
  {
    PlanForIs(pass, id);
    var p := PlanFor(pass, id);
    if p.Write? && WriteMatches(Seen(db, t), p) {
      WritingClimbs(db, t, p);
    }
  }

  lemma StepClimbs(w: World, s: Step)
    requires ClimbInv(w) && (s.ReadForTransition? ==> s.action != Expire)
    ensures ClimbInv(Apply(w, s))
  {
    if Enabled(w, s) {
      if s.Update? {
        WritingClimbs(w.db, Open(w, s.sid), s.plan);
      } else if s.ExpireNext? {
        ExpiringClimbs(w.db, Open(w, s.sid), w.passes[s.sid], s.id);
      }
    }
  }

  /** The stored rank of an offer falls in this step. */
  predicate Falls(w: World, s: Step, id: Id) {
    && id in w.db.offers && id in Apply(w, s).db.offers
    && Rank(StateOf(Apply(w, s).db.offers[id])) < Rank(StateOf(w.db.offers[id]))
  }

  predicate IsArchiveExpiry(e: Event) {
    e.action == Expire && e.from == Archived && e.to == Expired
  }

  predicate ExpiresArchive(t: Txn) {
    exists i :: 0 <= i < |t.events| && IsArchiveExpiry(t.events[i])
  }

  lemma {:induction false} EventsOfAre(log: seq<Event>, offer: Id)
    ensures forall k :: 0 <= k < |EventsOf(log, offer)| ==> EventsOf(log, offer)[k] in log
    ensures forall i :: 0 <= i < |log| && log[i].offer == offer ==> log[i] in EventsOf(log, offer)
  {
    if log != [] {
      var n := |log| - 1;
      EventsOfAre(log[..n], offer);
      assert log == log[..n] + [log[n]];
    }
  }

  lemma {:induction false} EventsOfHaveOffer(log: seq<Event>, offer: Id)
    ensures forall k :: 0 <= k < |EventsOf(log, offer)| ==> EventsOf(log, offer)[k].offer == offer
  {
    if log != [] {
      EventsOfHaveOffer(log[..|log| - 1], offer);
    }
  }

  /** The rank of a moved offer falls exactly if its event expires an archive. */
  lemma MovedRowFallsIff(offers: Rows, t: Txn, id: Id)
    requires TxnOk(offers, t) && TxnClimbs(t) && id in t.rows
    ensures id in offers
    ensures Rank(StateOf(t.rows[id])) < Rank(StateOf(offers[id]))
            <==> exists i :: 0 <= i < |t.events| && t.events[i].offer == id && IsArchiveExpiry(t.events[i])
  {
    assert MovedOnce(offers, t, id);
    EventsOfAre(t.events, id);
    EventsOfHaveOffer(t.events, id);
    var e := EventsOf(t.events, id)[0];
    var k :| 0 <= k < |t.events| && t.events[k] == e;
    assert EventClimbs(t.events[k]);
    forall i | 0 <= i < |t.events| && t.events[i].offer == id ensures t.events[i] == e {
      assert t.events[i] in EventsOf(t.events, id);
    }
  }

  lemma CommitFallsIff(db: Db, t: Txn)
    requires TxnOk(db.offers, t) && TxnClimbs(t)
    ensures (exists id :: id in db.offers && Rank(StateOf(SeenRow(db, t, id))) < Rank(StateOf(db.offers[id]))) <==> ExpiresArchive(t)
  {
    forall id | id in t.rows
      ensures id in db.offers
      ensures Rank(StateOf(t.rows[id])) < Rank(StateOf(db.offers[id])) ==> ExpiresArchive(t)
    {
      MovedRowFallsIff(db.offers, t, id);
    }
    if ExpiresArchive(t) {
      var i :| 0 <= i < |t.events| && IsArchiveExpiry(t.events[i]);
      var id := t.events[i].offer;
      MovedRowFallsIff(db.offers, t, id);
      assert Rank(StateOf(SeenRow(db, t, id))) < Rank(StateOf(db.offers[id]));
    }
  }

  predicate CommitsArchiveExpiry(w: World, s: Step) {
    s.Commit? && Enabled(w, s) && ExpiresArchive(w.txns[s.sid])
  }

  lemma FallsOnlyAtCommits(w: World, s: Step, id: Id)
    requires !s.Commit? || !Enabled(w, s)
    ensures !Falls(w, s, id)
  {
  }

  lemma StepFallsIff(w: World, s: Step)
    requires OffersInv(w) && ClimbInv(w)
    ensures (exists id :: Falls(w, s, id)) <==> CommitsArchiveExpiry(w, s)
  {
    if s.Commit? && Enabled(w, s) {
      var t := w.txns[s.sid];
      PartsOf(w, s.sid);
      CommitFallsIff(w.db, t);
      CommitIs(w, s.sid);
      forall id | id in w.db.offers ensures id in Apply(w, s).db.offers && Apply(w, s).db.offers[id] == SeenRow(w.db, t, id) {
      }
      assert forall id :: Falls(w, s, id) <==> id in w.db.offers && Rank(StateOf(SeenRow(w.db, t, id))) < Rank(StateOf(w.db.offers[id]));
    } else {
      forall id ensures !Falls(w, s, id) {
        FallsOnlyAtCommits(w, s, id);
      }
    }
  }

  predicate RanksKept(w: World, steps: seq<Step>)
    decreases |steps|
  {
    steps == [] || ((forall id :: id in w.db.offers ==> !Falls(w, steps[0], id)) && RanksKept(Apply(w, steps[0]), steps[1..]))
  }

  predicate NoArchiveExpired(w: World, steps: seq<Step>)
    decreases |steps|
  {
    steps == [] || (!CommitsArchiveExpiry(w, steps[0]) && NoArchiveExpired(Apply(w, steps[0]), steps[1..]))
  }

  /** Under the service's callers no offer's rank ever falls exactly if no session commits the
      expiry of an archived offer. */
  lemma {:induction false} RanksKeptIff(w: World, steps: seq<Step>)
    requires OffersInv(w) && ClimbInv(w) && ByCallers(steps)
    ensures RanksKept(w, steps) <==> NoArchiveExpired(w, steps)
    decreases |steps|
  {
    if steps != [] {
      StepFallsIff(w, steps[0]);
      StepClimbs(w, steps[0]);
      StepKeepsOffers(w, steps[0]);
      RanksKeptIff(Apply(w, steps[0]), steps[1..]);
    }
  }

  // ---------- where such an expiry comes from ----------

  /** A pass that has had a conflict reads an offer again and finds it archived. */
  predicate ReloadsArchive(w: World, s: Step) {
    && s.LoadForPass? && Enabled(w, s) && s.id !in w.passes[s.sid].cached
    && s.id in w.db.offers && StateOf(w.db.offers[s.id]) == Archived
  }

  predicate NoneReloaded(w: World, steps: seq<Step>)
    decreases |steps|
  {
    steps == [] || (!ReloadsArchive(w, steps[0]) && NoneReloaded(Apply(w, steps[0]), steps[1..]))
  }

  predicate CacheUnarchived(pass: Pass) {
    forall id :: id in pass.rest && id in pass.cached ==> StateOf(pass.cached[id]) != Archived
  }

  ghost predicate NoArchiveInSight(w: World) {
    && (forall sid :: sid in w.passes ==> CacheUnarchived(w.passes[sid]))
    && (forall sid :: sid in w.txns ==> !ExpiresArchive(w.txns[sid]))
    && (forall p :: p in w.plans && p.Write? ==> p.action != Expire)
  }

  lemma WritingNoArchive(db: Db, t: Txn, p: Plan)
    requires p.Write? && WriteMatches(Seen(db, t), p) && !ExpiresArchive(t) && !IsArchiveExpiry(EventOf(p))
    ensures !ExpiresArchive(Writing(db, t, p))
  {
    WritingChanges(db, t, p);
  }

  lemma ExpiringNoArchive(db: Db, t: Txn, pass: Pass, id: Id)
    requires !ExpiresArchive(t) && id in pass.cached && id in pass.rest && CacheUnarchived(pass)
    ensures !ExpiresArchive(Expiring(db, t, pass, id).0) && CacheUnarchived(Expiring(db, t, pass, id).1)
  {
    PlanForIs(pass, id);
    ExpiringCases(db, t, pass, id);
    var p := PlanFor(pass, id);
    if p.Write? && WriteMatches(Seen(db, t), p) {
      WritingNoArchive(db, t, p);
    }
  }

  lemma StepKeepsArchivesOut(w: World, s: Step)
    requires NoArchiveInSight(w) && !ReloadsArchive(w, s) && (s.ReadForTransition? ==> s.action != Expire)
    ensures NoArchiveInSight(Apply(w, s))
  {
    if Enabled(w, s) {
      if s.Update? {
        WritingNoArchive(w.db, Open(w, s.sid), s.plan);
      } else if s.ExpireNext? {
        ExpiringNoArchive(w.db, Open(w, s.sid), w.passes[s.sid], s.id);
      }
    }
  }

  lemma {:induction false} WithoutReloads(w: World, steps: seq<Step>)
    requires NoArchiveInSight(w) && ByCallers(steps) && NoneReloaded(w, steps)
    ensures NoArchiveExpired(w, steps)
    decreases |steps|
  {
    if steps != [] {
      StepKeepsArchivesOut(w, steps[0]);
      WithoutReloads(Apply(w, steps[0]), steps[1..]);
    }
  }

  lemma {:induction false} KeptOverRuns(w: World, a: seq<Step>, b: seq<Step>, id: Id)
    requires OffersInv(w) && RanksKept(w, a + b) && id in Run(w, a).db.offers
    ensures id in Run(w, a + b).db.offers
    ensures Rank(StateOf(Run(w, a).db.offers[id])) <= Rank(StateOf(Run(w, a + b).db.offers[id]))
    decreases |a| + |b|
  {
    if a != [] {
      assert (a + b)[1..] == a[1..] + b && (a + b)[0] == a[0];
      StepKeepsOffers(w, a[0]);
      KeptOverRuns(Apply(w, a[0]), a[1..], b, id);
    } else if b != [] {
      assert a + b == b && [] + b[1..] == b[1..];
      StepKeepsOffers(w, b[0]);
      StepIsLater(w, b[0]);
      KeptOverRuns(Apply(w, b[0]), [], b[1..], id);
      assert !Falls(w, b[0], id);
    } else {
      assert a + b == [];
    }
  }

  /** So from the empty tables the rank of an offer never falls between two moments of a run
      of the service's callers, unless a pass that had a conflict reads an archived offer again. */
  lemma RankNeverDecreases(a: seq<Step>, b: seq<Step>, id: Id)
    requires ByCallers(a + b) && NoneReloaded(INIT, a + b) && id in Run(INIT, a).db.offers
    ensures id in Run(INIT, a + b).db.offers
    ensures Rank(StateOf(Run(INIT, a).db.offers[id])) <= Rank(StateOf(Run(INIT, a + b).db.offers[id]))
  {
    WithoutReloads(INIT, a + b);
    RanksKeptIff(INIT, a + b);
    KeptOverRuns(INIT, a, b, id);
  }

  // ---------- runs in which it happens ----------

  /** A run of the service's callers leads from the empty tables to this world. */
  ghost predicate Reachable(w: World) {
    exists steps :: ByCallers(steps) && Run(INIT, steps) == w
  }

  lemma InitIsReachable()
    ensures Reachable(INIT)
  {
    assert ByCallers([]) && Run(INIT, []) == INIT;
  }

  lemma StepReaches(w: World, s: Step)
    requires Reachable(w) && (s.ReadForTransition? ==> s.action != Expire)
    ensures Reachable(Apply(w, s))
  {
    var steps :| ByCallers(steps) && Run(INIT, steps) == w;
    RunAppend(INIT, steps, [s]);
    assert [s][1..] == [] && Run(w, [s]) == Run(Apply(w, s), []);
    assert ByCallers(steps + [s]);
  }

  lemma ReachableIsOk(w: World)
    requires Reachable(w)
    ensures OffersInv(w)
  {
    var steps :| ByCallers(steps) && Run(INIT, steps) == w;
    RunKeepsOffers(INIT, steps);
  }

  lemma ReadPlan(w: World, offer: Id, action: Action, today: int, p: Plan) returns (w': World)
    requires Reachable(w) && action != Expire && offer in w.db.offers
    requires p == PlanFrom(w.db.offers[offer], w.db.offers[offer].user, offer, action, VersionOf(w.db.offers[offer]), today)
    ensures Reachable(w') && w' == w.(plans := w.plans + {p})
  {
    var o := w.db.offers[offer];
    var read := ReadForTransition(o.user, offer, action, VersionOf(o), today);
    StepReaches(w, read);
    w' := Apply(w, read);
  }

  lemma UpdateAlone(w: World, sid: nat, p: Plan) returns (w': World)
    requires Reachable(w) && p in w.plans && p.Write? && sid !in w.txns && sid !in w.passes && !LockedByOther(w, sid, p.offer)
    requires p.offer in w.db.offers && w.db.offers[p.offer].user == p.user && w.db.offers[p.offer].version == p.version
    ensures Reachable(w') && WriteMatches(Seen(w.db, NO_CHANGES), p)
    ensures w' == w.(txns := w.txns[sid := Writing(w.db, NO_CHANGES, p)])
  {
    MatchesRow(w.db, NO_CHANGES, p);
    StepReaches(w, Update(sid, p));
    w' := Apply(w, Update(sid, p));
  }

  lemma CommitAlone(w: World, sid: nat, t: Txn) returns (w': World)
    requires Reachable(w) && sid in w.txns && w.txns[sid] == t && sid !in w.passes
    ensures Reachable(w') && w'.db == Seen(w.db, t) && w'.txns == w.txns - {sid} && w'.passes == w.passes && w'.checked == w.checked
  {
    StepReaches(w, Commit(sid));
    w' := Apply(w, Commit(sid));
    assert w.passes - {sid} == w.passes;
  }

  lemma ReadAndUpdate(w: World, sid: nat, offer: Id, action: Action, today: int, p: Plan) returns (w': World)
    requires Reachable(w) && action != Expire && sid !in w.txns && sid !in w.passes && !LockedByOther(w, sid, offer)
    requires offer in w.db.offers && w.db.offers[offer].version > 0
    requires p == PlanFrom(w.db.offers[offer], w.db.offers[offer].user, offer, action, VersionOf(w.db.offers[offer]), today) && p.Write?
    ensures Reachable(w') && WriteMatches(Seen(w.db, NO_CHANGES), p) && p.offer == offer
    ensures w'.db == w.db && w'.passes == w.passes && w'.checked == w.checked
    ensures w'.txns == w.txns[sid := Writing(w.db, NO_CHANGES, p)]
  {
    var w1 := ReadPlan(w, offer, action, today, p);
    w' := UpdateAlone(w1, sid, p);
  }

  /** The read, the update and the commit of a user's transition. */
  lemma Transitioned(w: World, sid: nat, offer: Id, action: Action, today: int, p: Plan) returns (w': World)
    requires Reachable(w) && action != Expire && sid !in w.txns && sid !in w.passes && !LockedByOther(w, sid, offer)
    requires offer in w.db.offers && w.db.offers[offer].version > 0
    requires p == PlanFrom(w.db.offers[offer], w.db.offers[offer].user, offer, action, VersionOf(w.db.offers[offer]), today) && p.Write?
    ensures Reachable(w') && w'.txns == w.txns && w'.passes == w.passes
    ensures w'.db.offers == w.db.offers[offer := NewRow(w.db.offers[offer], p)]
  {
    var w2 := ReadAndUpdate(w, sid, offer, action, today, p);
    WritingRows(w.db, p);
    w' := CommitAlone(w2, sid, w2.txns[sid]);
    assert w2.txns - {sid} == w.txns;
  }

  lemma WritingRows(db: Db, p: Plan)
    requires p.Write? && WriteMatches(Seen(db, NO_CHANGES), p)
    ensures p.offer in db.offers && Seen(db, Writing(db, NO_CHANGES, p)).offers == db.offers[p.offer := NewRow(db.offers[p.offer], p)]
  {
    WritingChanges(db, NO_CHANGES, p);
  }

  const DUE: Offer := Offer(7, Some(1), Some(2), Some(Active), 1, true)

  const PAUSED: Offer := Offer(7, Some(1), Some(2), Some(Paused), 2, false)

  const ARCHIVED: Offer := Offer(7, Some(1), Some(2), Some(Archived), 2, false)

  const LISTED: Pass := Pass(5, {0, 1}, {0, 1}, map[0 := DUE, 1 := DUE], {}, {}, 0)

  /** A pass of session 1 that has listed two due offers which may have changed since. */
  ghost predicate Listing(w: World, first: Offer, second: Offer) {
    Reachable(w) && w.db.offers == map[0 := first, 1 := second] && w.txns == map[1 := NO_CHANGES] && w.passes == map[1 := LISTED]
  }

  lemma ListingIsReachable() returns (w: World)
    ensures Listing(w, DUE, DUE)
  {
    InitIsReachable();
    StepReaches(INIT, CreateOffer(0, 7, Some(1), Some(2)));
    var w1 := Apply(INIT, CreateOffer(0, 7, Some(1), Some(2)));
    StepReaches(w1, CreateOffer(1, 7, Some(1), Some(2)));
    var w2 := Apply(w1, CreateOffer(1, 7, Some(1), Some(2)));
    assert w2.db.offers == map[0 := DUE, 1 := DUE];
    StepReaches(w2, BeginPass(1, 5));
    assert DueOffers(w2.db, 5) == {0, 1};
    assert Begun(w2.db, 5) == LISTED;
    w := Apply(w2, BeginPass(1, 5));
  }

  lemma PauseWhileListed(w: World, second: Offer) returns (w': World)
    requires Listing(w, DUE, second)
    ensures Listing(w', PAUSED, second)
  {
    w' := Transitioned(w, 2, 0, Pause, 5, Plan.Write(0, 7, Active, Paused, false, 1, Pause, "applied"));
    assert w'.db.offers == map[0 := PAUSED, 1 := second];
  }

  lemma ArchiveWhileListed(w: World, first: Offer) returns (w': World)
    requires Listing(w, first, DUE)
    ensures Listing(w', first, ARCHIVED)
  {
    w' := Transitioned(w, 2, 1, Archive, 5, Plan.Write(1, 7, Active, Archived, false, 1, Archive, "applied"));
    assert w'.db.offers == map[0 := first, 1 := ARCHIVED];
  }

  /** An update that matches, in a pass. */
  lemma PassWrites(w: World, id: Id, pass: Pass) returns (w': World)
    requires Reachable(w) && w.txns == map[1 := NO_CHANGES] && w.passes == map[1 := pass]
    requires id in pass.rest && id in pass.cached && id in w.db.offers && pass.cached[id] == w.db.offers[id]
    requires !ReadExpired(pass, id) && w.db.offers[id].version > 0
    ensures Reachable(w') && w'.db == w.db && w'.txns.Keys == {1} && w'.txns[1].rows == map[id := ExpiredRow(w.db.offers[id])]
    ensures w'.txns[1].suppressed == Waiting(w.db, id) && w'.txns[1].inserted == []
    ensures w'.passes == map[1 := Counting(pass, id, ExpiredRow(w.db.offers[id]))]
  {
    var p := PlanFor(pass, id);
    PlanForIs(pass, id);
    MatchesRow(w.db, NO_CHANGES, p);
    WritingChanges(w.db, NO_CHANGES, p);
    StepReaches(w, ExpireNext(1, id));
    w' := Apply(w, ExpireNext(1, id));
    var next := Expiring(w.db, NO_CHANGES, pass, id);
    assert w' == w.(txns := w.txns[1 := next.0], passes := w.passes[1 := next.1]);
  }

  /** An update of a pass that conflicts. */
  lemma PassConflicts(w: World, id: Id, pass: Pass) returns (w': World)
    requires Reachable(w) && w.txns.Keys == {1} && w.passes == map[1 := pass] && id !in w.txns[1].rows
    requires id in pass.rest && id in pass.cached && id in w.db.offers && !ReadExpired(pass, id)
    requires w.db.offers[id].version != VersionOf(pass.cached[id])
    ensures Reachable(w') && w'.db == w.db && w'.txns == map[1 := NO_CHANGES] && w'.passes == map[1 := RolledBack(pass, id)]
  {
    var p := PlanFor(pass, id);
    PlanForIs(pass, id);
    MatchesRow(w.db, w.txns[1], p);
    StepReaches(w, ExpireNext(1, id));
    w' := Apply(w, ExpireNext(1, id));
    assert w' == w.(txns := w.txns[1 := NO_CHANGES], passes := w.passes[1 := RolledBack(pass, id)]);
  }

  /** From the empty tables: a pass lists two due offers with versions, a user pauses one of
      them, the pass expires the other and then conflicts. When it commits, both are still due,
      and it reports an expiration. */
  lemma RivalLeavesDueOffers()
    ensures exists w, sid ::
              && Reachable(w) && sid in w.passes && Enabled(w, Commit(sid))
              && w.passes[sid].listed == {0, 1} && w.passes[sid].reported == 1
              && DueOffers(Apply(w, Commit(sid)).db, w.passes[sid].today) == {0, 1}
  {
    var w := ListingIsReachable();
    w := PauseWhileListed(w, DUE);
    w := PassWrites(w, 1, LISTED);
    w := PassConflicts(w, 0, Counting(LISTED, 1, ExpiredRow(DUE)));
    CommitIs(w, 1);
    SeenNothing(w.db);
  }

  /** From the empty tables: after such a conflict the pass reads the other offer again, which a
      user has archived meanwhile, and expires it: its rank falls. */
  lemma ArchiveIsExpired()
    ensures exists w, s, id :: Reachable(w) && Falls(w, s, id)
  {
    var w := ListingIsReachable();
    w := PauseWhileListed(w, DUE);
    w := ArchiveWhileListed(w, PAUSED);
    w := PassConflicts(w, 0, LISTED);
    var pass := RolledBack(LISTED, 0).(cached := map[1 := ARCHIVED]);
    StepReaches(w, LoadForPass(1, 1));
    var w1 := Apply(w, LoadForPass(1, 1));
    assert Loaded(w.db, RolledBack(LISTED, 0), 1) == pass;
    assert w1 == w.(passes := map[1 := pass]);
    var w2 := PassWrites(w1, 1, pass);
    CommitIs(w2, 1);
    assert Apply(w2, Commit(1)).db.offers[1] == ExpiredRow(ARCHIVED);
    assert Falls(w2, Commit(1), 1);
  }
}
