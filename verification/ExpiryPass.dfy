/** The expiry pass as seen by its session: it reads the due offers once, and expires them one
    by one in an open transaction while other sessions commit transitions of their own.

    An offer stays in the session's cache as it was read, so the conditional update of an
    offer that has changed since matches no row. That conflict rolls the whole transaction
    back, and it empties the cache: the offers after it are read again. */
module ExpiryPass {
  import opened Sql
  import opened Lifecycle

  /** `rest` are the listed offers still to come, `kept` those that are expired unless the
      transaction is rolled back, `undone` those up to and including the last conflict. */
  datatype Pass = Pass(today: int, listed: set<Id>, rest: set<Id>, cached: map<Id, Offer>,
                       kept: set<Id>, undone: set<Id>, reported: nat)

  function Begun(db: Db, today: int): Pass {
    var due := DueOffers(db, today);
    Pass(today, due, due, map id | id in due :: db.offers[id], {}, {}, 0)
  }

  function Loaded(db: Db, pass: Pass, id: Id): Pass {
    if id in pass.cached || id !in db.offers then pass else pass.(cached := pass.cached[id := db.offers[id]])
  }

  function PlanFor(pass: Pass, id: Id): Plan
    requires id in pass.cached
  {
    PlanFrom(pass.cached[id], pass.cached[id].user, id, Expire, VersionOf(pass.cached[id]), pass.today)
  }

  predicate Conflicts(db: Db, t: Txn, pass: Pass, id: Id)
    requires id in pass.cached
  {
    PlanFor(pass, id).Write? && !WriteMatches(Seen(db, t), PlanFor(pass, id))
  }

  function Keeping(pass: Pass, id: Id): Pass {
    pass.(rest := pass.rest - {id}, kept := pass.kept + {id})
  }

  function Counting(pass: Pass, id: Id, row: Offer): Pass {
    Keeping(pass, id).(reported := pass.reported + 1, cached := pass.cached[id := row])
  }

  function RolledBack(pass: Pass, id: Id): Pass {
    pass.(rest := pass.rest - {id}, kept := {}, undone := pass.undone + pass.kept + {id}, cached := map[])
  }

  /** One iteration: the transaction and the pass after it. */
  function Expiring(db: Db, t: Txn, pass: Pass, id: Id): (Txn, Pass)
    requires id in pass.cached
  {
    var p := PlanFor(pass, id);
    if !p.Write? then (t, Keeping(pass, id))
    else if WriteMatches(Seen(db, t), p) then
      var t' := Writing(db, t, p);
      (t', Counting(pass, id, t'.rows[id]))
    else (NO_CHANGES, RolledBack(pass, id))
  }

  // ---------- what other sessions may do meanwhile ----------

  /** How a stored offer may change: by transitions, which raise its version and never lead
      back from a closed state. */
  predicate Later(o: Offer, o': Offer) {
    && o'.user == o.user && o'.checkIn == o.checkIn && o'.checkOut == o.checkOut
    && o.version <= o'.version && (o.version == o'.version ==> o' == o)
    && (Closed(o) ==> Closed(o'))
  }

  predicate LaterDb(db: Db, db': Db) {
    forall id :: id in db.offers ==> id in db'.offers && Later(db.offers[id], db'.offers[id])
  }

  /** The rows the session has locked do not change. */
  predicate KeepsLocked(db: Db, t: Txn, db': Db) {
    forall id :: id in t.rows && id in db.offers ==> id in db'.offers && db'.offers[id] == db.offers[id]
  }

  // ---------- the invariant of the pass ----------

  function ExpiredRow(o: Offer): Offer {
    o.(state := Some(Expired), version := o.version + 1, isActive := false)
  }

  ghost predicate Partitioned(pass: Pass) {
    && pass.rest !! pass.kept && pass.rest !! pass.undone && pass.kept !! pass.undone
    && pass.rest + pass.kept + pass.undone == pass.listed
  }

  /** The transaction expires offers among the kept ones, each once, and does nothing else. */
  ghost predicate OnlyExpires(db: Db, t: Txn, kept: set<Id>) {
    && t.rows.Keys <= kept && |t.events| == |t.rows| && t.inserted == []
    && (forall id :: id in t.rows ==> id in db.offers && t.rows[id] == ExpiredRow(db.offers[id]))
    && (forall i :: 0 <= i < |t.events| ==> t.events[i].offer in t.rows && t.events[i].to == Expired)
    && (forall id :: id in kept && id !in t.rows ==> id in db.offers && Closed(db.offers[id]))
  }

  ghost predicate CacheOk(db: Db, pass: Pass) {
    && pass.listed <= db.offers.Keys
    && (forall id :: id in pass.rest && id in pass.cached ==> id in db.offers && Later(pass.cached[id], db.offers[id]))
    && (pass.undone == {} ==> forall id :: id in pass.rest ==> id in pass.cached && !Closed(pass.cached[id]))
  }

  ghost predicate PassOk(db: Db, t: Txn, pass: Pass) {
    Partitioned(pass) && OnlyExpires(db, t, pass.kept) && CacheOk(db, pass)
    && |t.rows| <= pass.reported && (pass.undone == {} ==> pass.reported == |t.rows|)
  }

  lemma BegunOk(db: Db, today: int)
    ensures PassOk(db, NO_CHANGES, Begun(db, today))
  {
  }

  lemma LoadKeepsOk(db: Db, t: Txn, pass: Pass, id: Id)
    requires PassOk(db, t, pass)
    ensures PassOk(db, t, Loaded(db, pass, id))
  {
  }

  lemma RivalsKeepOk(db: Db, t: Txn, pass: Pass, db': Db)
    requires PassOk(db, t, pass) && LaterDb(db, db') && KeepsLocked(db, t, db')
    ensures PassOk(db', t, pass)
  {
  }

  predicate ReadExpired(pass: Pass, id: Id)
    requires id in pass.cached
  {
    StateOf(pass.cached[id]) == Expired && !pass.cached[id].isActive
  }

  lemma PlanForIs(pass: Pass, id: Id)
    requires id in pass.cached
    ensures var o := pass.cached[id];
            PlanFor(pass, id) == if ReadExpired(pass, id) then Existing
                                 else Plan.Write(id, o.user, StateOf(o), Expired, false, VersionOf(o), Expire, "expired")
  {
  }

  lemma ExpiringRow(db: Db, t: Txn, pass: Pass, id: Id)
    requires Partitioned(pass) && t.rows.Keys <= pass.kept && id in pass.rest && id in pass.cached && t.inserted == []
    requires PlanFor(pass, id).Write? && WriteMatches(Seen(db, t), PlanFor(pass, id))
    ensures var t' := Writing(db, t, PlanFor(pass, id));
            && id !in t.rows && id in db.offers
            && t'.rows == t.rows[id := ExpiredRow(db.offers[id])]
            && t'.events == t.events + [EventOf(PlanFor(pass, id))] && t'.inserted == []
            && EventOf(PlanFor(pass, id)).offer == id && EventOf(PlanFor(pass, id)).to == Expired
  {
    PlanForIs(pass, id);
    WritingChanges(db, t, PlanFor(pass, id));
  }

  lemma OneMoreExpires(db: Db, t: Txn, kept: set<Id>, t': Txn, id: Id, e: Event)
    requires OnlyExpires(db, t, kept) && id !in t.rows && id in db.offers && e.offer == id && e.to == Expired
    requires t'.rows == t.rows[id := ExpiredRow(db.offers[id])] && t'.events == t.events + [e] && t'.inserted == []
    ensures OnlyExpires(db, t', kept + {id}) && |t'.rows| == |t.rows| + 1
  {
  }

  lemma ExistingKeepsOk(db: Db, t: Txn, pass: Pass, id: Id)
    requires PassOk(db, t, pass) && id in pass.rest && id in pass.cached && Closed(pass.cached[id])
    ensures PassOk(db, t, Keeping(pass, id))
  {
  }

  lemma CountingKeepsOk(db: Db, t: Txn, pass: Pass, id: Id, t': Txn, row: Offer)
    requires PassOk(db, t, pass) && id in pass.rest
    requires OnlyExpires(db, t', pass.kept + {id}) && |t'.rows| == |t.rows| + 1
    ensures PassOk(db, t', Counting(pass, id, row))
  {
  }

  lemma RollbackPartitions(pass: Pass, id: Id)
    requires Partitioned(pass) && id in pass.rest
    ensures Partitioned(RolledBack(pass, id)) && id in RolledBack(pass, id).undone
  {
  }

  lemma RollbackKeepsOk(db: Db, t: Txn, pass: Pass, id: Id)
    requires PassOk(db, t, pass) && id in pass.rest
    ensures PassOk(db, NO_CHANGES, RolledBack(pass, id))
  {
    RollbackPartitions(pass, id);
  }

  lemma ExpiringKeepsOk(db: Db, t: Txn, pass: Pass, id: Id)
    requires PassOk(db, t, pass) && id in pass.rest && id in pass.cached
    ensures PassOk(db, Expiring(db, t, pass, id).0, Expiring(db, t, pass, id).1)
  {
    var p := PlanFor(pass, id);
    PlanForIs(pass, id);
    if !p.Write? {
      ExistingKeepsOk(db, t, pass, id);
    } else if WriteMatches(Seen(db, t), p) {
      var t' := Writing(db, t, p);
      ExpiringRow(db, t, pass, id);
      OneMoreExpires(db, t, pass.kept, t', id, EventOf(p));
      CountingKeepsOk(db, t, pass, id, t', t'.rows[id]);
    } else {
      RollbackKeepsOk(db, t, pass, id);
    }
  }

  /** An iteration conflicts exactly if the offer's version is not the one that was read, and
      the offer was not read as already expired. */
  lemma ConflictIff(db: Db, t: Txn, pass: Pass, id: Id)
    requires PassOk(db, t, pass) && id in pass.rest && id in pass.cached
    ensures Conflicts(db, t, pass, id)
            <==> !ReadExpired(pass, id) && db.offers[id].version != VersionOf(pass.cached[id])
  {
    PlanForIs(pass, id);
    if !ReadExpired(pass, id) {
      MatchesRow(db, t, PlanFor(pass, id));
    }
  }

  function SeenRow(db: Db, t: Txn, id: Id): Offer
    requires id in t.rows || id in db.offers
  {
    if id in t.rows then t.rows[id] else db.offers[id]
  }

  lemma DueAfterPass(db: Db, t: Txn, pass: Pass, id: Id)
    requires PassOk(db, t, pass) && pass.rest == {} && id in pass.listed
    ensures id in db.offers
    ensures IsDue(SeenRow(db, t, id), pass.today) <==> id in pass.undone && IsDue(db.offers[id], pass.today)
  {
    assert id in pass.kept || id in pass.undone;
    if id in pass.kept {
      assert Closed(SeenRow(db, t, id));
    }
  }

  lemma SeenDue(db: Db, t: Txn, today: int, id: Id)
    requires id in db.offers
    ensures id in DueOffers(Seen(db, t), today) <==> IsDue(SeenRow(db, t, id), today)
  {
  }

  /** When all listed offers have had their turn, those that are still due are the ones up to
      and including the last conflict that the other sessions left due. So nothing listed is
      due any more exactly if none of those is. */
  lemma PassLeavesDueIff(db: Db, t: Txn, pass: Pass)
    requires PassOk(db, t, pass) && pass.rest == {}
    ensures DueOffers(Seen(db, t), pass.today) * pass.listed == DueOffers(db, pass.today) * pass.undone
    ensures DueOffers(Seen(db, t), pass.today) * pass.listed == {} <==> DueOffers(db, pass.today) * pass.undone == {}
  {
    var after, before := DueOffers(Seen(db, t), pass.today), DueOffers(db, pass.today);
    forall id | id in pass.listed ensures id in after <==> id in before && id in pass.undone {
      DueAfterPass(db, t, pass, id);
      SeenDue(db, t, pass.today, id);
    }
    assert after * pass.listed == before * pass.undone;
  }

  // ---------- the whole pass while other sessions commit ----------

  /** What the others had committed by then, except for the rows this session has locked. */
  function Masked(db: Db, t: Txn, rival: Db): Db {
    rival.(offers := map id | id in rival.offers :: if id in t.rows && id in db.offers then db.offers[id] else rival.offers[id])
  }

  predicate Successive(db: Db, rivals: seq<Db>) {
    (rivals != [] ==> LaterDb(db, rivals[0])) && forall i :: 0 <= i < |rivals| - 1 ==> LaterDb(rivals[i], rivals[i + 1])
  }

  function RivalAt(db: Db, rivals: seq<Db>, n: nat): Db {
    if rivals == [] then db else if n < |rivals| then rivals[n] else rivals[|rivals| - 1]
  }

  lemma RivalsProceed(db: Db, rivals: seq<Db>, n: nat)
    requires Successive(db, rivals)
    ensures LaterDb(db, RivalAt(db, rivals, 0))
    ensures LaterDb(RivalAt(db, rivals, n), RivalAt(db, rivals, n + 1))
  {
  }

  lemma LaterDbTransitive(a: Db, b: Db, c: Db)
    requires LaterDb(a, b) && LaterDb(b, c)
    ensures LaterDb(a, c)
  {
  }

  lemma MaskedIsLater(db: Db, t: Txn, rival: Db)
    requires LaterDb(db, rival)
    ensures LaterDb(db, Masked(db, t, rival)) && LaterDb(Masked(db, t, rival), rival) && KeepsLocked(db, t, Masked(db, t, rival))
  {
  }

  /** The pass after some of the listed offers. */
  datatype Stage = Stage(db: Db, own: Txn, pass: Pass)

  /** What the session works on when it comes to an offer: what the others have committed by
      then, and the offer loaded. */
  function ReadyFor(s: Stage, rival: Db, id: Id): Stage {
    var now := Masked(s.db, s.own, rival);
    Stage(now, s.own, Loaded(now, s.pass, id))
  }

  function Expired1(s: Stage, id: Id): Stage {
    if id !in s.pass.cached then s else Stage(s.db, Expiring(s.db, s.own, s.pass, id).0, Expiring(s.db, s.own, s.pass, id).1)
  }

  function StageAfter(db: Db, rivals: seq<Db>, today: int, order: seq<Id>): Stage {
    if order == [] then Stage(db, NO_CHANGES, Begun(db, today))
    else
      var n, id := |order| - 1, order[|order| - 1];
      Expired1(ReadyFor(StageAfter(db, rivals, today, order[..n]), RivalAt(db, rivals, n), id), id)
  }

  ghost predicate Distinct(order: seq<Id>) {
    forall i, j :: 0 <= i < j < |order| ==> order[i] != order[j]
  }

  function Ids(order: seq<Id>): set<Id> {
    set id | id in order
  }

  /** While the others proceed, the pass keeps its invariant, whatever the order. */
  ghost predicate StageOk(s: Stage, rival: Db, due: set<Id>, done: set<Id>, today: int) {
    && PassOk(s.db, s.own, s.pass) && LaterDb(s.db, rival)
    && s.pass.listed == due && s.pass.rest == due - done && s.pass.today == today
  }

  lemma ReadyOk(s: Stage, rival: Db, due: set<Id>, done: set<Id>, today: int, id: Id, next: Db)
    requires StageOk(s, rival, due, done, today) && id in due && id !in done && LaterDb(rival, next)
    ensures var s1 := ReadyFor(s, next, id);
            StageOk(s1, next, due, done, today) && id in s1.pass.cached && LaterDb(s.db, s1.db)
  {
    var now := Masked(s.db, s.own, next);
    LaterDbTransitive(s.db, rival, next);
    MaskedIsLater(s.db, s.own, next);
    RivalsKeepOk(s.db, s.own, s.pass, now);
    LoadKeepsOk(now, s.own, s.pass, id);
  }

  lemma ExpiringGoesOn(db: Db, t: Txn, pass: Pass, id: Id)
    requires id in pass.cached
    ensures var next := Expiring(db, t, pass, id).1;
            next.listed == pass.listed && next.today == pass.today && next.rest == pass.rest - {id}
  {
  }

  lemma StageGoesOn(s: Stage, rival: Db, due: set<Id>, done: set<Id>, today: int, id: Id)
    requires StageOk(s, rival, due, done, today) && id in due && id !in done && id in s.pass.cached
    ensures StageOk(Expired1(s, id), rival, due, done + {id}, today) && Expired1(s, id).db == s.db
  {
    ExpiringKeepsOk(s.db, s.own, s.pass, id);
    ExpiringGoesOn(s.db, s.own, s.pass, id);
  }

  lemma StageGoesOnWith(s: Stage, rival: Db, due: set<Id>, done: set<Id>, today: int, id: Id, next: Db)
    requires StageOk(s, rival, due, done, today) && id in due && id !in done && LaterDb(rival, next)
    ensures var s1 := ReadyFor(s, next, id);
            && id in s1.pass.cached && id !in s1.own.rows
            && StageOk(Expired1(s1, id), next, due, done + {id}, today) && LaterDb(s.db, Expired1(s1, id).db)
  {
    ReadyOk(s, rival, due, done, today, id, next);
    StageGoesOn(ReadyFor(s, next, id), next, due, done, today, id);
  }

  /** The other sessions' tables at the last update so far. */
  function LastRival(db: Db, rivals: seq<Db>, order: seq<Id>): Db {
    RivalAt(db, rivals, if order == [] then 0 else |order| - 1)
  }

  lemma NextRival(db: Db, rivals: seq<Db>, order: seq<Id>)
    requires Successive(db, rivals)
    ensures LaterDb(LastRival(db, rivals, order), RivalAt(db, rivals, |order|))
  {
    if order != [] {
      RivalsProceed(db, rivals, |order| - 1);
    }
  }

  lemma Appended(db: Db, rivals: seq<Db>, today: int, order: seq<Id>, id: Id)
    requires id !in order
    ensures StageAfter(db, rivals, today, order + [id])
            == Expired1(ReadyFor(StageAfter(db, rivals, today, order), RivalAt(db, rivals, |order|), id), id)
    ensures LastRival(db, rivals, order + [id]) == RivalAt(db, rivals, |order|)
    ensures Ids(order + [id]) == Ids(order) + {id} && id !in Ids(order)
    ensures Distinct(order) ==> Distinct(order + [id])
  {
    assert (order + [id])[..|order|] == order;
  }

  /** The stage after some of the due offers, in any order. */
  ghost predicate StageReached(db: Db, rivals: seq<Db>, today: int, order: seq<Id>) {
    var s := StageAfter(db, rivals, today, order);
    StageOk(s, LastRival(db, rivals, order), DueOffers(db, today), Ids(order), today) && LaterDb(db, s.db)
  }

  lemma OneMoreStage(db: Db, rivals: seq<Db>, today: int, order: seq<Id>, id: Id)
    requires Successive(db, rivals) && id in DueOffers(db, today) && id !in order && StageReached(db, rivals, today, order)
    ensures StageReached(db, rivals, today, order + [id])
    ensures var s1 := ReadyFor(StageAfter(db, rivals, today, order), RivalAt(db, rivals, |order|), id);
            && id in s1.pass.cached && id !in s1.own.rows
            && StageAfter(db, rivals, today, order + [id]) == Expired1(s1, id)
  {
    var s, next := StageAfter(db, rivals, today, order), RivalAt(db, rivals, |order|);
    Appended(db, rivals, today, order, id);
    NextRival(db, rivals, order);
    StageGoesOnWith(s, LastRival(db, rivals, order), DueOffers(db, today), Ids(order), today, id, next);
    LaterDbTransitive(db, s.db, Expired1(ReadyFor(s, next, id), id).db);
  }

  lemma {:induction false} AfterOk(db: Db, rivals: seq<Db>, today: int, order: seq<Id>)
    requires Successive(db, rivals) && Distinct(order) && Ids(order) <= DueOffers(db, today)
    ensures StageReached(db, rivals, today, order)
  {
    if order == [] {
      BegunOk(db, today);
      RivalsProceed(db, rivals, 0);
    } else {
      var n, id := |order| - 1, order[|order| - 1];
      assert order == order[..n] + [id];
      Appended(db, rivals, today, order[..n], id);
      AfterOk(db, rivals, today, order[..n]);
      OneMoreStage(db, rivals, today, order[..n], id);
    }
  }

  /** A whole pass, in any order and whatever the others commit meanwhile: it only expires
      listed offers, and of those the ones still due when it commits are the ones up to and
      including its last conflict that the others left due. */
  lemma WholePass(db: Db, rivals: seq<Db>, today: int, order: seq<Id>)
    requires Successive(db, rivals) && Distinct(order) && Ids(order) == DueOffers(db, today)
    ensures var s := StageAfter(db, rivals, today, order);
            && PassOk(s.db, s.own, s.pass) && LaterDb(db, s.db)
            && DueOffers(Seen(s.db, s.own), today) * DueOffers(db, today) == DueOffers(s.db, today) * s.pass.undone
  {
    var s := StageAfter(db, rivals, today, order);
    AfterOk(db, rivals, today, order);
    PassLeavesDueIff(s.db, s.own, s.pass);
  }

  // ---------- a pass nobody disturbs ----------

  predicate Versioned(db: Db, ids: set<Id>) {
    forall id :: id in ids && id in db.offers ==> db.offers[id].version > 0
  }

  /** Nothing cached is out of date, and every conflict so far was on a row without a version. */
  ghost predicate Undisturbed(db: Db, s: Stage, done: set<Id>) {
    && s.db == db && (forall id :: id in s.pass.rest && id in s.pass.cached ==> id in db.offers && s.pass.cached[id] == db.offers[id])
    && (forall id :: id in s.pass.rest ==> id in db.offers && IsDue(db.offers[id], s.pass.today))
    && (s.pass.undone == {} <==> Versioned(db, done)) && done <= db.offers.Keys
  }

  lemma MaskedBySelf(db: Db, t: Txn)
    ensures Masked(db, t, db) == db
  {
    assert Masked(db, t, db).offers == db.offers;
  }

  lemma ExpiringCases(db: Db, t: Txn, pass: Pass, id: Id)
    requires id in pass.cached
    ensures var next := Expiring(db, t, pass, id).1;
            if Conflicts(db, t, pass, id) then next == RolledBack(pass, id)
            else (ReadExpired(pass, id) && next == Keeping(pass, id)) || exists row :: next == Counting(pass, id, row)
  {
    PlanForIs(pass, id);
  }

  lemma UndisturbedExpiring(db: Db, t: Txn, pass: Pass, done: set<Id>, id: Id)
    requires Undisturbed(db, Stage(db, t, pass), done) && PassOk(db, t, pass) && id in pass.rest && id in pass.cached
    ensures Undisturbed(db, Stage(db, Expiring(db, t, pass, id).0, Expiring(db, t, pass, id).1), done + {id})
  {
    ConflictIff(db, t, pass, id);
    ExpiringCases(db, t, pass, id);
    assert Versioned(db, done + {id}) <==> Versioned(db, done) && db.offers[id].version > 0;
  }

  lemma UndisturbedStep(db: Db, s: Stage, done: set<Id>, id: Id)
    requires Undisturbed(db, s, done) && PassOk(s.db, s.own, s.pass) && id in s.pass.rest
    ensures Undisturbed(db, Expired1(ReadyFor(s, db, id), id), done + {id})
  {
    MaskedBySelf(db, s.own);
    LoadKeepsOk(db, s.own, s.pass, id);
    UndisturbedExpiring(db, s.own, Loaded(db, s.pass, id), done, id);
  }

  lemma {:induction false} UndisturbedPass(db: Db, today: int, order: seq<Id>)
    requires Distinct(order) && Ids(order) <= DueOffers(db, today)
    ensures Undisturbed(db, StageAfter(db, [], today, order), Ids(order))
  {
    if order != [] {
      var n, id := |order| - 1, order[|order| - 1];
      assert order == order[..n] + [id];
      Appended(db, [], today, order[..n], id);
      UndisturbedPass(db, today, order[..n]);
      AfterOk(db, [], today, order[..n]);
      UndisturbedStep(db, StageAfter(db, [], today, order[..n]), Ids(order[..n]), id);
    }
  }

  lemma AllHadTheirTurn(db: Db, today: int, order: seq<Id>)
    requires Distinct(order) && Ids(order) == DueOffers(db, today)
    ensures var pass := StageAfter(db, [], today, order).pass;
            pass.undone <= DueOffers(db, today) && (pass.undone == {} ==> pass.kept == DueOffers(db, today))
  {
    AfterOk(db, [], today, order);
  }

  /** If nobody else commits during the pass, nothing is due afterwards exactly if every due
      offer had a version; all of them are then expired. */
  lemma NothingDueIsLeftIff(db: Db, today: int, order: seq<Id>)
    requires Distinct(order) && Ids(order) == DueOffers(db, today)
    ensures var s := StageAfter(db, [], today, order);
            && s.db == db
            && (DueOffers(Seen(db, s.own), today) * DueOffers(db, today) == {} <==> Versioned(db, DueOffers(db, today)))
            && (Versioned(db, DueOffers(db, today)) ==> s.pass.kept == DueOffers(db, today))
  {
    WholePass(db, [], today, order);
    UndisturbedPass(db, today, order);
    AllHadTheirTurn(db, today, order);
    var undone := StageAfter(db, [], today, order).pass.undone;
    assert DueOffers(db, today) * undone == undone;
  }

  /** Then each of them moves to expired once, and is reported. */
  lemma QuietPassExpiresAll(db: Db, today: int, order: seq<Id>)
    requires Distinct(order) && Ids(order) == DueOffers(db, today) && Versioned(db, DueOffers(db, today))
    ensures var s := StageAfter(db, [], today, order);
            && s.db == db && s.own.rows.Keys == Ids(order) && s.pass.reported == |order|
            && forall id :: id in s.own.rows ==>
                 s.own.rows[id] == db.offers[id].(state := Some(Expired), version := db.offers[id].version + 1, isActive := false)
  {
    var s, due := StageAfter(db, [], today, order), DueOffers(db, today);
    AfterOk(db, [], today, order);
    NothingDueIsLeftIff(db, today, order);
    UndisturbedPass(db, today, order);
    assert s.pass.undone == {};
    forall id | id in due ensures id in s.own.rows {
      assert IsDue(db.offers[id], today);
    }
    assert s.own.rows.Keys == due;
    DistinctCount(order);
  }

  lemma {:induction false} DistinctCount(order: seq<Id>)
    requires Distinct(order)
    ensures |Ids(order)| == |order|
  {
    if order != [] {
      var n, last := |order| - 1, order[|order| - 1];
      DistinctCount(order[..n]);
      assert order == order[..n] + [last];
      assert Ids(order) == Ids(order[..n]) + {last};
    }
  }
}
