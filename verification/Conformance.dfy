/** The store methods are steps of the run machines: whatever a run of those steps keeps, a
    program that calls the methods keeps. Each method here makes one call against a store
    that shows the state of a world, and leaves the store showing the state of the next. */
module Conformance {
  import opened Sql
  import opened Database
  import K = Circuit
  import KR = CircuitRuns
  import L = Lease
  import LR = LeaseRuns
  import B = Budget
  import BR = BudgetRuns
  import T = Lifecycle
  import TS = Tracking
  import E = ExpiryPass
  import TR = LifecycleRuns
  import TD = DeliveryRuns
  import F = LiveLock
  import FR = LiveLockRuns

  // ---------- the circuit breaker ----------

  predicate ShowsCircuit(store: K.CircuitStore, key: K.Key, w: KR.World)
    reads store
  {
    && store.durableSavepoints == w.durable
    && w.row == if key in store.committed then Some(store.committed[key]) else None
  }

  /** The second step of an admission that reads the row in this world. */
  function SecondStep(w: KR.World, threshold: int, cooldown: int, ttl: int): KR.World {
    var row := if w.row.Some? then w.row.value else K.NewRow(threshold, cooldown);
    var begun := KR.Apply(w, KR.BeginAdmit(threshold, cooldown));
    match K.Decide(row, w.clock)
    case AdmitClosed => KR.Apply(begun, KR.FinishClosed(w.row.None?))
    case TryClaim => KR.Apply(begun, KR.FinishClaim(KR.ClaimRead(row.status, row.version, w.clock), ttl))
    case Deny => begun
  }

  lemma ClosedAdmission(w: KR.World, row: K.Row, threshold: int, cooldown: int, ttl: int)
    requires threshold >= 1 && cooldown >= 1 && row == (if w.row.Some? then w.row.value else K.NewRow(threshold, cooldown))
    requires K.Decide(row, w.clock) == K.AdmitClosed
    ensures var w' := SecondStep(w, threshold, cooldown, ttl);
            && w'.durable == w.durable
            && w'.row == (if w.durable || w.row.Some? then Some(row) else None)
            && w'.permits == w.permits + {K.Permit(None, row.version)}
  {
  }

  lemma ProbeAdmission(w: KR.World, row: K.Row, threshold: int, cooldown: int, ttl: int)
    requires threshold >= 1 && cooldown >= 1 && ttl >= 1 && w.row == Some(row)
    requires K.Decide(row, w.clock) == K.TryClaim
    ensures var w' := SecondStep(w, threshold, cooldown, ttl);
            && w'.durable == w.durable
            && w'.row == Some(K.Claimed(row, w.clock, ttl, w.nextToken))
            && w'.permits == w.permits + {K.Permit(Some(w.nextToken), row.version + 1)}
  {
  }

  method AdmitIsTwoSteps(store: K.CircuitStore, key: K.Key, w: KR.World, threshold: int, cooldown: int, ttl: int)
    returns (admission: K.Admission)
    requires KR.Inv(w) && ShowsCircuit(store, key, w) && threshold >= 1 && cooldown >= 1 && ttl >= 1
    modifies store
    ensures ShowsCircuit(store, key, SecondStep(w, threshold, cooldown, ttl))
    ensures admission.Skipped? ==> SecondStep(w, threshold, cooldown, ttl).permits == w.permits
    ensures admission.Allowed? ==> SecondStep(w, threshold, cooldown, ttl).permits == w.permits + {admission.permit}
  {
    var row := if w.row.Some? then w.row.value else K.NewRow(threshold, cooldown);
    if K.Decide(row, w.clock) == K.AdmitClosed {
      ClosedAdmission(w, row, threshold, cooldown, ttl);
    } else if K.Decide(row, w.clock) == K.TryClaim {
      ProbeAdmission(w, row, threshold, cooldown, ttl);
    }
    admission := store.Admit(key, w.clock, Some(threshold), Some(cooldown), Some(ttl), (3, 300, 30), w.nextToken, None);
  }

  method RecordIsAStep(store: K.CircuitStore, key: K.Key, w: KR.World, permit: K.Permit, outcome: string, now: int,
                       cooldown: Option<int>)
    returns (accepted: bool)
    requires ShowsCircuit(store, key, w) && permit in w.permits && now <= w.clock
    modifies store
    ensures ShowsCircuit(store, key, KR.Apply(w, KR.Record(permit, outcome, now, cooldown)))
    ensures accepted <==> KR.Apply(w, KR.Record(permit, outcome, now, cooldown)).log != w.log
  {
    accepted := store.Record(key, permit, outcome, now, cooldown);
  }

  // ---------- the lease ----------

  predicate ShowsLease(db: Session, fingerprint: string, w: LR.World)
    reads db
  {
    && w.row == (if fingerprint in db.committed.leases then Some(db.committed.leases[fingerprint]) else None)
    && db.working == (if w.open.None? then db.committed
                      else db.committed.(leases := db.committed.leases[fingerprint := w.open.value.row]))
  }

  /** One step of a worker whose session is otherwise empty. */
  method LeaseStep(store: L.LeaseStore, fingerprint: string, w: LR.World, s: LR.Step)
    requires ShowsLease(store.db, fingerprint, w) && LR.Enabled(w, s)
    modifies store.db
    ensures ShowsLease(store.db, fingerprint, LR.Apply(w, s))
  {
    match s
    case Tick(_) =>
    case Acquire(ttl) =>
      var _ := store.Acquire(fingerprint, w.clock, ttl, w.nextToken);
    case Renew(token, ttl) =>
      var _ := store.Renew(L.Token(fingerprint, token, 0), w.clock, ttl);
    case Finish(token, status, error, commit) =>
      var _ := store.Finish(L.Token(fingerprint, token, 0), status, w.clock, error, commit);
    case Commit => store.db.Commit();
    case Rollback => store.db.Rollback();
  }

  // ---------- the budget ----------

  method ReserveIsAStep(store: B.BudgetLedger, w: BR.World, p: B.Policy, now: int, monthOf: int -> int, raced: bool)
    returns (handle: Option<B.Handle>)
    requires store.db.working.ledger == w.ledger && B.WindowOf(p.window, now, monthOf).Some?
    modifies store.db
    ensures var w' := BR.Apply(w, BR.Reserve(p, B.WindowOf(p.window, now, monthOf).value, raced));
            && store.db.working.ledger == w'.ledger
            && (handle.Some? ==> handle.value in w'.handles)
  {
    handle := store.Reserve(p, now, monthOf, raced, w.nextId);
  }

  method MoveIsAStep(store: B.BudgetLedger, w: BR.World, h: B.Handle, use: bool) returns (done: bool)
    requires store.db.working.ledger == w.ledger && h in w.handles
    modifies store.db
    ensures store.db.working.ledger == BR.Apply(w, BR.Move(h, if use then Used else Released)).ledger
    ensures done <==> B.TransitionMatches(w.ledger, h)
  {
    if use {
      done := store.Consume(h);
    } else {
      done := store.Release(h);
    }
  }

  // ---------- tracked offers ----------

  /** A new session on the tables of this world. */
  predicate ShowsTables(store: TS.TrackingStore, w: TR.World)
    reads store
  {
    store.committed == w.db && store.own == T.NO_CHANGES && store.cached == map[]
  }

  lemma TransitionSteps(w: TR.World, sid: nat, read: TR.Step, p: T.Plan)
    requires read.ReadForTransition? && sid !in w.txns && sid !in w.passes && (p.Write? ==> !TR.LockedByOther(w, sid, p.offer))
    requires p == T.PlanOf(T.RowOf(w.db, read.offer), read.user, read.offer, read.action, read.expected, read.today)
    ensures TR.Apply(TR.Apply(TR.Apply(w, read), TR.Update(sid, p)), TR.Commit(sid)).db
            == if p.Write? && T.WriteMatches(T.Seen(w.db, T.NO_CHANGES), p)
               then T.Seen(w.db, T.Writing(w.db, T.NO_CHANGES, p)) else w.db
  {
    var w1 := w.(plans := w.plans + {p});
    assert TR.Apply(w, read) == w1;
    if p.Write? && T.WriteMatches(T.Seen(w.db, T.NO_CHANGES), p) {
      assert TR.Apply(w1, TR.Update(sid, p)) == w1.(txns := w.txns[sid := T.Writing(w.db, T.NO_CHANGES, p)]);
    } else {
      assert TR.Apply(w1, TR.Update(sid, p)) == w1;
    }
  }

  method TransitionIsThreeSteps(store: TS.TrackingStore, w: TR.World, sid: nat, read: TR.Step) returns (result: TS.TransitionResult)
    requires ShowsTables(store, w) && read.ReadForTransition? && sid !in w.txns && sid !in w.passes
    requires !TR.LockedByOther(w, sid, read.offer)
    modifies store
    ensures var p := T.PlanOf(T.RowOf(w.db, read.offer), read.user, read.offer, read.action, read.expected, read.today);
            store.committed == TR.Apply(TR.Apply(TR.Apply(w, read), TR.Update(sid, p)), TR.Commit(sid)).db
  {
    ghost var p := T.PlanOf(T.RowOf(w.db, read.offer), read.user, read.offer, read.action, read.expected, read.today);
    TransitionSteps(w, sid, read, p);
    T.SeenNothing(w.db);
    result := store.Transition(read.user, read.offer, read.action, read.expected, read.today, true);
  }

  method DeliveryIsThreeSteps(store: TS.TrackingStore, w: TR.World, sid: nat, k: T.DeliveryKey) returns (created: bool)
    requires ShowsTables(store, w) && sid !in w.txns && sid !in w.passes && !TR.InsertedByOther(w, sid, k)
    requires T.DeliveryAllowed(w.db, k) && !T.HasDelivery(w.db, k)
    modifies store
    ensures created && store.committed == TR.Run(w, [TR.CheckDelivery(k), TR.InsertDelivery(sid, k), TR.Commit(sid)]).db
  {
    T.SeenNothing(w.db);
    TD.CheckInsertCommit(w, sid, k);
    assert w.db.offers + map[] == w.db.offers;
    created := store.CreateDelivery(k);
    store.Commit();
  }

  /** The session that runs a pass of this world. */
  predicate ShowsPass(store: TS.TrackingStore, w: TR.World, sid: nat)
    reads store
  {
    sid in w.txns && sid in w.passes && store.State() == TS.Session(w.db, w.txns[sid], w.passes[sid].cached)
  }

  /** One iteration of the pass loads the offer, if need be, and expires it. */
  method ExpireOneIsTwoSteps(store: TS.TrackingStore, w: TR.World, sid: nat, id: T.Id) returns (expired: Option<bool>)
    requires TR.OffersInv(w) && ShowsPass(store, w, sid) && id in w.passes[sid].rest && !TR.LockedByOther(w, sid, id)
    modifies store
    ensures var w' := TR.Apply(TR.Apply(w, TR.LoadForPass(sid, id)), TR.ExpireNext(sid, id));
            && ShowsPass(store, w', sid) && id !in w'.passes[sid].rest
            && expired == Some(w'.passes[sid].reported == w.passes[sid].reported + 1)
  {
    LoadedInPass(w, sid, id);
    PassSteps(w, sid, id);
    expired := store.ExpireOne(id, w.passes[sid].today);
  }

  lemma LoadedInPass(w: TR.World, sid: nat, id: T.Id)
    requires TR.OffersInv(w) && sid in w.passes && id in w.passes[sid].rest
    ensures sid in w.txns && id !in w.txns[sid].rows && id in E.Loaded(w.db, w.passes[sid], id).cached
  {
    TR.PartsOf(w, sid);
  }

  lemma ExpireStep(w: TR.World, sid: nat, id: T.Id, t: T.Txn, pass: E.Pass)
    requires sid in w.txns && w.txns[sid] == t && sid in w.passes && w.passes[sid] == pass
    requires id in pass.rest && id in pass.cached && !TR.LockedByOther(w, sid, id)
    ensures var w' := TR.Apply(w, TR.ExpireNext(sid, id));
            && w'.db == w.db && w'.txns == w.txns[sid := E.Expiring(w.db, t, pass, id).0]
            && w'.passes == w.passes[sid := E.Expiring(w.db, t, pass, id).1]
  {
  }

  lemma ExpiredOnce(db: T.Db, t: T.Txn, pass: E.Pass, id: T.Id)
    requires id in E.Loaded(db, pass, id).cached && id !in t.rows
    ensures var next := E.Expiring(db, t, E.Loaded(db, pass, id), id);
            && TS.ExpiredBy(TS.Session(db, t, pass.cached), id, pass.today)
               == (TS.Session(db, next.0, next.1.cached), Some(next.1.reported == pass.reported + 1))
            && id !in next.1.rest
  {
    TS.LoadedIsExpiredBy(db, t, pass, id);
    TS.ExpiringIsExpiredBy(E.Stage(db, t, E.Loaded(db, pass, id)), id);
    E.ExpiringGoesOn(db, t, E.Loaded(db, pass, id), id);
  }

  lemma PassSteps(w: TR.World, sid: nat, id: T.Id)
    requires sid in w.txns && sid in w.passes && id in w.passes[sid].rest && !TR.LockedByOther(w, sid, id)
    requires id !in w.txns[sid].rows && id in E.Loaded(w.db, w.passes[sid], id).cached
    ensures var w' := TR.Apply(TR.Apply(w, TR.LoadForPass(sid, id)), TR.ExpireNext(sid, id));
            var pass := w.passes[sid];
            && sid in w'.txns && sid in w'.passes && id !in w'.passes[sid].rest
            && TS.ExpiredBy(TS.Session(w.db, w.txns[sid], pass.cached), id, pass.today)
               == (TS.Session(w'.db, w'.txns[sid], w'.passes[sid].cached), Some(w'.passes[sid].reported == pass.reported + 1))
  {
    var pass := E.Loaded(w.db, w.passes[sid], id);
    var w1 := w.(passes := w.passes[sid := pass]);
    assert TR.Apply(w, TR.LoadForPass(sid, id)) == w1;
    ExpiredOnce(w.db, w.txns[sid], w.passes[sid], id);
    ExpireStep(w1, sid, id, w.txns[sid], pass);
  }

  // ---------- the live-refresh lock ----------

  method LockStep(store: F.LockStore, w: FR.World, s: FR.Step)
    requires store.rows == w.rows
    modifies store
    ensures store.rows == FR.Apply(w, s).rows
  {
    match s
    case Tick(_) =>
    case Acquire(flight, ttl) =>
      var _ := store.Acquire(flight, w.clock, ttl, |w.grants|);
    case Hold(token, outcome, ttl) =>
      var _ := store.Hold(token, outcome, w.clock, ttl);
    case Release(token) =>
      var _ := store.Release(token);
  }
}
