/** The delivery intents in the runs of all sessions. */
module DeliveryRuns {
  import opened Sql
  import opened Lifecycle
  import opened ExpiryPass
  import opened LifecycleRuns
  import opened OfferRuns

  // ---------- one delivery per key ----------

  predicate Unique(ds: seq<Delivery>) {
    forall i, j :: 0 <= i < j < |ds| ==> ds[i].key != ds[j].key
  }

  predicate Apart(a: seq<Delivery>, b: seq<Delivery>) {
    forall i, j :: 0 <= i < |a| && 0 <= j < |b| ==> a[i].key != b[j].key
  }

  predicate SameKeys(a: seq<Delivery>, b: seq<Delivery>) {
    |a| == |b| && forall i :: 0 <= i < |a| ==> a[i].key == b[i].key
  }

  ghost predicate KeysOk(ds: seq<Delivery>, txns: map<nat, Txn>) {
    && Unique(ds)
    && (forall s :: s in txns ==> Unique(txns[s].inserted) && Apart(ds, txns[s].inserted))
    && (forall s, r :: s in txns && r in txns && s != r ==> Apart(txns[s].inserted, txns[r].inserted))
  }

  lemma KeysReplaced(ds: seq<Delivery>, txns: map<nat, Txn>, sid: nat, t': Txn)
    requires KeysOk(ds, txns) && Unique(t'.inserted) && Apart(ds, t'.inserted)
    requires forall r :: r in txns && r != sid ==> Apart(txns[r].inserted, t'.inserted) && Apart(t'.inserted, txns[r].inserted)
    ensures KeysOk(ds, txns[sid := t'])
  {
  }

  lemma SameKeysReplaced(ds: seq<Delivery>, w: World, sid: nat, t': Txn)
    requires KeysOk(ds, w.txns) && (t'.inserted == [] || SameKeys(Open(w, sid).inserted, t'.inserted))
    ensures KeysOk(ds, w.txns[sid := t'])
  {
    KeysReplaced(ds, w.txns, sid, t');
  }

  lemma KeysAfterCommit(db: Db, txns: map<nat, Txn>, sid: nat)
    requires KeysOk(db.deliveries, txns) && sid in txns
    ensures KeysOk(Seen(db, txns[sid]).deliveries, txns - {sid})
  {
    var ds' := Seen(db, txns[sid]).deliveries;
    assert SameKeys(db.deliveries, Marked(db.deliveries, txns[sid].suppressed));
    assert ds' == Marked(db.deliveries, txns[sid].suppressed) + txns[sid].inserted;
  }

  lemma WritingKeepsKeys(db: Db, t: Txn, p: Plan)
    requires p.Write? && WriteMatches(Seen(db, t), p)
    ensures SameKeys(t.inserted, Writing(db, t, p).inserted)
  {
  }

  lemma StepKeepsKeys(w: World, s: Step)
    requires KeysOk(w.db.deliveries, w.txns)
    ensures KeysOk(Apply(w, s).db.deliveries, Apply(w, s).txns)
  {
    if Enabled(w, s) {
      match s
      case Update(sid, p) =>
        WritingKeepsKeys(w.db, Open(w, sid), p);
        SameKeysReplaced(w.db.deliveries, w, sid, Writing(w.db, Open(w, sid), p));
      case InsertDelivery(sid, k) => InsertKeepsKeys(w, sid, k);
      case BeginPass(sid, _) => SameKeysReplaced(w.db.deliveries, w, sid, NO_CHANGES);
      case ExpireNext(sid, id) => ExpireKeepsKeys(w, sid, id);
      case Commit(sid) => KeysAfterCommit(w.db, w.txns, sid);
      case CreateOffer(_, _, _, _) =>
      case CreateRule(_, _, _) =>
      case CreateAlert(_, _) =>
      case ReadForTransition(_, _, _, _, _) =>
      case CheckDelivery(_) =>
      case LoadForPass(_, _) =>
      case Rollback(_) =>
    }
  }

  lemma InsertKeepsKeys(w: World, sid: nat, k: DeliveryKey)
    requires KeysOk(w.db.deliveries, w.txns) && Enabled(w, InsertDelivery(sid, k))
    ensures KeysOk(Apply(w, InsertDelivery(sid, k)).db.deliveries, Apply(w, InsertDelivery(sid, k)).txns)
  {
    var t := Open(w, sid);
    if !HasDelivery(w.db, k) && !Inserts(t, k) {
      var t' := t.(inserted := t.inserted + [Delivery(k, Queued)]);
      forall r | r in w.txns && r != sid ensures Apart(w.txns[r].inserted, t'.inserted) {
        assert !Inserts(w.txns[r], k);
      }
      KeysReplaced(w.db.deliveries, w.txns, sid, t');
    }
  }

  lemma ExpireKeepsKeys(w: World, sid: nat, id: Id)
    requires KeysOk(w.db.deliveries, w.txns) && Enabled(w, ExpireNext(sid, id))
    ensures KeysOk(Apply(w, ExpireNext(sid, id)).db.deliveries, Apply(w, ExpireNext(sid, id)).txns)
  {
    var p := PlanFor(w.passes[sid], id);
    if p.Write? && WriteMatches(Seen(w.db, Open(w, sid)), p) {
      WritingKeepsKeys(w.db, Open(w, sid), p);
    }
    SameKeysReplaced(w.db.deliveries, w, sid, Expiring(w.db, Open(w, sid), w.passes[sid], id).0);
  }

  lemma {:induction false} RunKeepsKeys(w: World, steps: seq<Step>)
    requires KeysOk(w.db.deliveries, w.txns)
    ensures KeysOk(Run(w, steps).db.deliveries, Run(w, steps).txns)
    decreases |steps|
  {
    if steps != [] {
      StepKeepsKeys(w, steps[0]);
      RunKeepsKeys(Apply(w, steps[0]), steps[1..]);
    }
  }

  /** Each event, user, channel and template has at most one delivery in every reachable
      state, however many sessions insert. */
  lemma DeliveriesStayUnique(steps: seq<Step>, i: nat, j: nat)
    requires var db := Run(INIT, steps).db;
             i < |db.deliveries| && j < |db.deliveries| && db.deliveries[i].key == db.deliveries[j].key
    ensures i == j
  {
    RunKeepsKeys(INIT, steps);
  }

  lemma StepKeepsSuppressed(w: World, s: Step, i: nat)
    requires i < |w.db.deliveries|
    ensures var ds := Apply(w, s).db.deliveries;
            && i < |ds| && ds[i].key == w.db.deliveries[i].key
            && (w.db.deliveries[i].status == Suppressed ==> ds[i].status == Suppressed)
  {
    if s.Commit? && Enabled(w, s) {
      CommitIs(w, s.sid);
    }
  }

  /** A suppressed delivery is never queued again. */
  lemma {:induction false} SuppressedStaysSuppressed(w: World, steps: seq<Step>, i: nat)
    requires i < |w.db.deliveries|
    ensures var ds := Run(w, steps).db.deliveries;
            && i < |ds| && ds[i].key == w.db.deliveries[i].key
            && (w.db.deliveries[i].status == Suppressed ==> ds[i].status == Suppressed)
    decreases |steps|
  {
    if steps != [] {
      StepKeepsSuppressed(w, steps[0], i);
      SuppressedStaysSuppressed(Apply(w, steps[0]), steps[1..], i);
    }
  }

  // ---------- references between the tables ----------

  predicate EventsExist(db: Db, ds: seq<Delivery>) {
    forall i :: 0 <= i < |ds| ==> ds[i].key.event in db.alerts
  }

  ghost predicate Linked(w: World) {
    && EventsExist(w.db, w.db.deliveries)
    && (forall s :: s in w.txns ==> EventsExist(w.db, w.txns[s].inserted)
                                    && forall i :: i in w.txns[s].suppressed ==> i < |w.db.deliveries|)
    && (forall k :: k in w.checked ==> k.event in w.db.alerts)
    && (forall e :: e in w.db.alerts && w.db.alerts[e].rule.Some? ==> w.db.alerts[e].rule.value in w.db.rules)
    && (forall r :: r in w.db.rules && w.db.rules[r].offer.Some? ==> w.db.rules[r].offer.value in w.db.offers)
  }

  lemma WritingKeepsLinks(db: Db, t: Txn, p: Plan)
    requires p.Write? && WriteMatches(Seen(db, t), p) && EventsExist(db, t.inserted)
    requires forall i :: i in t.suppressed ==> i < |db.deliveries|
    ensures var t' := Writing(db, t, p);
            EventsExist(db, t'.inserted) && forall i :: i in t'.suppressed ==> i < |db.deliveries|
  {
    WritingChanges(db, t, p);
    WritingKeepsKeys(db, t, p);
  }

  lemma ExpiringKeepsLinks(db: Db, t: Txn, pass: Pass, id: Id)
    requires id in pass.cached && EventsExist(db, t.inserted)
    requires forall i :: i in t.suppressed ==> i < |db.deliveries|
    ensures var t' := Expiring(db, t, pass, id).0;
            EventsExist(db, t'.inserted) && forall i :: i in t'.suppressed ==> i < |db.deliveries|
  {
    if PlanFor(pass, id).Write? && WriteMatches(Seen(db, t), PlanFor(pass, id)) {
      WritingKeepsLinks(db, t, PlanFor(pass, id));
    }
  }

  lemma CommitKeepsLinks(w: World, sid: nat)
    requires Linked(w) && Enabled(w, Commit(sid))
    ensures Linked(Apply(w, Commit(sid)))
  {
    var w' := Apply(w, Commit(sid));
    CommitIs(w, sid);
    assert w'.db.deliveries == Marked(w.db.deliveries, w.txns[sid].suppressed) + w.txns[sid].inserted;
    assert w'.db.offers == w.db.offers + w.txns[sid].rows;
  }

  lemma NewRowsKeepLinks(w: World, s: Step)
    requires Linked(w) && (s.CreateOffer? || s.CreateRule? || s.CreateAlert?) && Enabled(w, s)
    ensures Linked(Apply(w, s))
  {
  }

  lemma InsertKeepsLinks(w: World, s: Step)
    requires Linked(w) && s.InsertDelivery? && Enabled(w, s)
    ensures Linked(Apply(w, s))
  {
  }

  lemma TxnKeepsLinks(w: World, w': World, sid: nat, t': Txn)
    requires Linked(w) && w'.db == w.db && w'.checked == w.checked && w'.txns == w.txns[sid := t']
    requires EventsExist(w.db, t'.inserted) && forall i :: i in t'.suppressed ==> i < |w.db.deliveries|
    ensures Linked(w')
  {
  }

  lemma StepKeepsLinks(w: World, s: Step)
    requires Linked(w)
    ensures Linked(Apply(w, s))
  {
    if Enabled(w, s) {
      if s.Update? {
        WritingKeepsLinks(w.db, Open(w, s.sid), s.plan);
        TxnKeepsLinks(w, Apply(w, s), s.sid, Writing(w.db, Open(w, s.sid), s.plan));
      } else if s.ExpireNext? {
        ExpiringKeepsLinks(w.db, Open(w, s.sid), w.passes[s.sid], s.id);
        TxnKeepsLinks(w, Apply(w, s), s.sid, Expiring(w.db, Open(w, s.sid), w.passes[s.sid], s.id).0);
      } else if s.Commit? {
        CommitKeepsLinks(w, s.sid);
      } else if s.CreateOffer? || s.CreateRule? || s.CreateAlert? {
        NewRowsKeepLinks(w, s);
      } else if s.InsertDelivery? {
        InsertKeepsLinks(w, s);
      }
    }
  }

  // ---------- queued deliveries and the offers they descend from ----------

  /** No queued delivery descends from a rule whose tracked offer is not active. */
  predicate QueuedAreLive(db: Db) {
    forall i :: 0 <= i < |db.deliveries| && db.deliveries[i].status == Queued ==> EventIsLive(db, db.deliveries[i].key.event)
  }

  predicate EventIsLive(db: Db, event: Id) {
    OfferOfEvent(db, event).Some? ==> IsLive(db, OfferOfEvent(db, event).value)
  }

  predicate RowLive(o: Offer) {
    o.isActive && StateOf(o) == Active
  }

  /** The open transaction takes the offer away from active. */
  predicate Closes(t: Txn, offer: Id) {
    offer in t.rows && !RowLive(t.rows[offer])
  }

  /** What is stored stays live if this transaction commits. */
  predicate StaysLive(db: Db, t: Txn) {
    forall i :: 0 <= i < |db.deliveries| && db.deliveries[i].status == Queued && i !in t.suppressed ==>
      var offer := OfferOfEvent(db, db.deliveries[i].key.event); offer.Some? ==> !Closes(t, offer.value)
  }

  /** The stored deliveries are live, and stay so whichever open transactions commit. */
  ghost predicate Tidy(w: World) {
    QueuedAreLive(w.db) && AllStayLive(w.db, w.txns)
  }

  ghost predicate AllStayLive(db: Db, txns: map<nat, Txn>) {
    forall sid :: sid in txns ==> StaysLive(db, txns[sid])
  }

  /** The offers of what the transaction inserted are active as it commits. */
  predicate InsertsLive(db: Db, t: Txn) {
    forall j :: 0 <= j < |t.inserted| && t.inserted[j].status == Queued ==>
      var offer := OfferOfEvent(db, t.inserted[j].key.event); offer.Some? ==> IsLive(Seen(db, t), offer.value)
  }

  /** Another transaction takes none of them away from active. */
  predicate Untouched(db: Db, t: Txn, other: Txn) {
    forall j :: 0 <= j < |t.inserted| && t.inserted[j].status == Queued ==>
      var offer := OfferOfEvent(db, t.inserted[j].key.event); offer.Some? ==> !Closes(other, offer.value)
  }

  ghost predicate Timely(w: World, sid: nat)
    requires sid in w.txns
  {
    InsertsLive(w.db, w.txns[sid]) && AllUntouched(w.db, w.txns[sid], w.txns - {sid})
  }

  ghost predicate AllUntouched(db: Db, t: Txn, others: map<nat, Txn>) {
    forall r :: r in others ==> Untouched(db, t, others[r])
  }

  /** The conditional update suppresses all that waits for its offer, so its commit leaves
      nothing behind that was stored before it. */
  lemma WritingStaysLive(db: Db, t: Txn, p: Plan)
    requires p.Write? && WriteMatches(Seen(db, t), p) && StaysLive(db, t) && (p.active <==> p.to == Active)
    ensures StaysLive(db, Writing(db, t, p))
  {
    WritingChanges(db, t, p);
    var t' := Writing(db, t, p);
    forall i | 0 <= i < |db.deliveries| && db.deliveries[i].status == Queued && i !in t'.suppressed
      ensures var offer := OfferOfEvent(db, db.deliveries[i].key.event); offer.Some? ==> !Closes(t', offer.value)
    {
      assert p.to != Active ==> i !in Waiting(db, p.offer);
    }
  }

  lemma ExpiringStaysLive(db: Db, t: Txn, pass: Pass, id: Id)
    requires id in pass.cached && StaysLive(db, t)
    ensures StaysLive(db, Expiring(db, t, pass, id).0)
  {
    var p := PlanFor(pass, id);
    PlanForIs(pass, id);
    if p.Write? && WriteMatches(Seen(db, t), p) {
      WritingStaysLive(db, t, p);
    }
  }

  lemma CommitDeliveries(db: Db, t: Txn, i: nat)
    requires i < |Seen(db, t).deliveries|
    ensures var d, n := Seen(db, t).deliveries[i], |db.deliveries|;
            && OfferOfEvent(Seen(db, t), d.key.event) == OfferOfEvent(db, d.key.event)
            && (i < n ==> d.key == db.deliveries[i].key
                          && (d.status == Queued <==> db.deliveries[i].status == Queued && i !in t.suppressed))
            && (i >= n ==> i - n < |t.inserted| && d == t.inserted[i - n])
  {
  }

  lemma SeenLive(db: Db, t: Txn, offer: Id)
    ensures IsLive(Seen(db, t), offer) <==> if offer in t.rows then RowLive(t.rows[offer]) else IsLive(db, offer)
  {
  }

  lemma InsertedDelivery(db: Db, t: Txn, j: nat)
    requires j < |t.inserted|
    ensures Seen(db, t).deliveries[|db.deliveries| + j] == t.inserted[j]
    ensures OfferOfEvent(Seen(db, t), t.inserted[j].key.event) == OfferOfEvent(db, t.inserted[j].key.event)
  {
  }

  /** A commit leaves the tables live exactly if the inserts in it are of active offers. */
  lemma CommitLiveIff(db: Db, t: Txn)
    requires QueuedAreLive(db) && StaysLive(db, t)
    ensures QueuedAreLive(Seen(db, t)) <==> InsertsLive(db, t)
  {
    var db', n := Seen(db, t), |db.deliveries|;
    forall i | 0 <= i < n && db'.deliveries[i].status == Queued ensures EventIsLive(db', db'.deliveries[i].key.event) {
      CommitDeliveries(db, t, i);
      var offer := OfferOfEvent(db, db.deliveries[i].key.event);
      assert EventIsLive(db, db.deliveries[i].key.event);
      if offer.Some? {
        SeenLive(db, t, offer.value);
      }
    }
    forall j | 0 <= j < |t.inserted|
      ensures db'.deliveries[n + j] == t.inserted[j]
      ensures OfferOfEvent(db', t.inserted[j].key.event) == OfferOfEvent(db, t.inserted[j].key.event)
    {
      InsertedDelivery(db, t, j);
    }
  }

  /** Another open transaction stays good exactly if it closes none of their offers. */
  lemma OtherStaysLiveIff(db: Db, t: Txn, r: Txn)
    requires StaysLive(db, r) && forall i :: i in r.suppressed ==> i < |db.deliveries|
    ensures StaysLive(Seen(db, t), r) <==> Untouched(db, t, r)
  {
    var db', n := Seen(db, t), |db.deliveries|;
    forall i | 0 <= i < |db'.deliveries|
      ensures OfferOfEvent(db', db'.deliveries[i].key.event) == OfferOfEvent(db, db'.deliveries[i].key.event)
      ensures i < n ==> db'.deliveries[i].key == db.deliveries[i].key
                        && (db'.deliveries[i].status == Queued ==> db.deliveries[i].status == Queued)
      ensures i >= n ==> i - n < |t.inserted| && db'.deliveries[i] == t.inserted[i - n]
    {
      CommitDeliveries(db, t, i);
    }
    forall j | 0 <= j < |t.inserted| ensures db'.deliveries[n + j] == t.inserted[j] && n + j !in r.suppressed {
      InsertedDelivery(db, t, j);
    }
  }

  lemma OthersStayLiveIff(db: Db, t: Txn, others: map<nat, Txn>)
    requires AllStayLive(db, others) && forall r :: r in others ==> forall i :: i in others[r].suppressed ==> i < |db.deliveries|
    ensures AllStayLive(Seen(db, t), others) <==> AllUntouched(db, t, others)
  {
    forall r | r in others ensures StaysLive(Seen(db, t), others[r]) <==> Untouched(db, t, others[r]) {
      OtherStaysLiveIff(db, t, others[r]);
    }
  }

  lemma CommitLeaves(w: World, sid: nat)
    requires Enabled(w, Commit(sid))
    ensures Apply(w, Commit(sid)).db == Seen(w.db, w.txns[sid]) && Apply(w, Commit(sid)).txns == w.txns - {sid}
  {
  }

  /** Only the commit of an insert can leave the tables untidy, and it does exactly if it is
      not timely: whether the intent was checked just before does not decide it. */
  lemma CommitTidyIff(w: World, sid: nat)
    requires Linked(w) && Tidy(w) && Enabled(w, Commit(sid))
    ensures Tidy(Apply(w, Commit(sid))) <==> Timely(w, sid)
  {
    CommitLeaves(w, sid);
    CommitLiveIff(w.db, w.txns[sid]);
    OthersStayLiveIff(w.db, w.txns[sid], w.txns - {sid});
  }

  lemma TxnKeepsTidy(w: World, w': World, sid: nat, t': Txn)
    requires Tidy(w) && w'.db == w.db && w'.txns == w.txns[sid := t'] && StaysLive(w.db, t')
    ensures Tidy(w')
  {
  }

  lemma NewRowsKeepTidy(w: World, s: Step)
    requires Linked(w) && Tidy(w) && (s.CreateOffer? || s.CreateRule? || s.CreateAlert?) && Enabled(w, s)
    ensures Tidy(Apply(w, s))
  {
    var w' := Apply(w, s);
    forall i | 0 <= i < |w.db.deliveries|
      ensures var e := w.db.deliveries[i].key.event;
              OfferOfEvent(w'.db, e) == OfferOfEvent(w.db, e) && (EventIsLive(w.db, e) ==> EventIsLive(w'.db, e))
    {
    }
  }

  lemma StepKeepsTidy(w: World, s: Step)
    requires Linked(w) && OffersInv(w) && Tidy(w) && !(s.Commit? && Enabled(w, s))
    ensures Tidy(Apply(w, s))
  {
    if Enabled(w, s) {
      if s.Update? {
        UpdateKeepsTidy(w, s);
      } else if s.ExpireNext? {
        ExpiringStaysLive(w.db, Open(w, s.sid), w.passes[s.sid], s.id);
        TxnKeepsTidy(w, Apply(w, s), s.sid, Expiring(w.db, Open(w, s.sid), w.passes[s.sid], s.id).0);
      } else if s.CreateOffer? || s.CreateRule? || s.CreateAlert? {
        NewRowsKeepTidy(w, s);
      } else if s.InsertDelivery? {
        InsertKeepsTidy(w, s);
      } else if s.BeginPass? {
        TxnKeepsTidy(w, Apply(w, s), s.sid, NO_CHANGES);
      } else {
        OtherKeepsTidy(w, s);
      }
    }
  }

  lemma UpdateKeepsTidy(w: World, s: Step)
    requires PlansOk(w.db.offers, w.plans) && Tidy(w) && s.Update? && Enabled(w, s)
    ensures Tidy(Apply(w, s))
  {
    assert PlanOk(w.db.offers, s.plan);
    WritingStaysLive(w.db, Open(w, s.sid), s.plan);
    TxnKeepsTidy(w, Apply(w, s), s.sid, Writing(w.db, Open(w, s.sid), s.plan));
  }

  lemma InsertKeepsTidy(w: World, s: Step)
    requires Tidy(w) && s.InsertDelivery? && Enabled(w, s)
    ensures Tidy(Apply(w, s))
  {
    var t := Open(w, s.sid);
    if !HasDelivery(w.db, s.key) && !Inserts(t, s.key) {
      TxnKeepsTidy(w, Apply(w, s), s.sid, t.(inserted := t.inserted + [Delivery(s.key, Queued)]));
    }
  }

  lemma OtherKeepsTidy(w: World, s: Step)
    requires Tidy(w) && (s.ReadForTransition? || s.CheckDelivery? || s.LoadForPass? || s.Rollback?)
    ensures Tidy(Apply(w, s))
  {
  }

  ghost predicate TidyThroughout(w: World, steps: seq<Step>)
    decreases |steps|
  {
    Tidy(w) && (steps == [] || TidyThroughout(Apply(w, steps[0]), steps[1..]))
  }

  ghost predicate CommitsTimely(w: World, steps: seq<Step>)
    decreases |steps|
  {
    steps == [] ||
    ((steps[0].Commit? && Enabled(w, steps[0]) ==> Timely(w, steps[0].sid)) && CommitsTimely(Apply(w, steps[0]), steps[1..]))
  }

  /** In any run of all sessions: no queued delivery ever descends from an offer that is not
      active, nor will if an open transaction commits, exactly if each insert is committed
      while its offer is active and no open transaction takes it away. */
  lemma {:induction false} QueuedDeliveriesAreLiveIff(w: World, steps: seq<Step>)
    requires Linked(w) && OffersInv(w) && Tidy(w)
    ensures TidyThroughout(w, steps) <==> CommitsTimely(w, steps)
    decreases |steps|
  {
    if steps != [] {
      var s, w1 := steps[0], Apply(w, steps[0]);
      StepKeepsLinks(w, s);
      StepKeepsOffers(w, s);
      if s.Commit? && Enabled(w, s) {
        CommitTidyIff(w, s.sid);
      } else {
        StepKeepsTidy(w, s);
      }
      if Tidy(w1) {
        QueuedDeliveriesAreLiveIff(w1, steps[1..]);
      }
    }
  }

  // ---------- check and insert back to back ----------

  predicate ClosedByOther(w: World, sid: nat, offer: Id) {
    exists r :: r in w.txns && r != sid && Closes(w.txns[r], offer)
  }

  lemma AllowedIsLive(db: Db, k: DeliveryKey)
    requires DeliveryAllowed(db, k)
    ensures EventIsLive(db, k.event)
  {
  }

  function Inserting1(k: DeliveryKey): Txn {
    NO_CHANGES.(inserted := [Delivery(k, Queued)])
  }

  lemma InsertIs(w: World, sid: nat, k: DeliveryKey)
    requires k in w.checked && sid !in w.txns && sid !in w.passes && !InsertedByOther(w, sid, k) && !HasDelivery(w.db, k)
    ensures Apply(w, InsertDelivery(sid, k)) == w.(txns := w.txns[sid := Inserting1(k)])
  {
    assert NO_CHANGES.inserted + [Delivery(k, Queued)] == [Delivery(k, Queued)];
  }

  lemma UntouchedBy(db: Db, k: DeliveryKey, r: Txn)
    ensures Untouched(db, Inserting1(k), r) <==>
            var offer := OfferOfEvent(db, k.event); offer.Some? ==> !Closes(r, offer.value)
  {
    assert Inserting1(k).inserted[0] == Delivery(k, Queued);
  }

  lemma InsertIsLive(db: Db, k: DeliveryKey)
    requires DeliveryAllowed(db, k)
    ensures InsertsLive(db, Inserting1(k))
  {
    AllowedIsLive(db, k);
    assert Seen(db, Inserting1(k)).offers == db.offers;
  }

  lemma InsertTimelyIff(w: World, sid: nat, k: DeliveryKey)
    requires sid in w.txns && w.txns[sid] == Inserting1(k) && DeliveryAllowed(w.db, k)
    ensures Timely(w, sid) <==> var offer := OfferOfEvent(w.db, k.event); offer.Some? ==> !ClosedByOther(w, sid, offer.value)
  {
    InsertIsLive(w.db, k);
    var offer, others := OfferOfEvent(w.db, k.event), w.txns - {sid};
    forall r | r in others ensures Untouched(w.db, Inserting1(k), others[r]) <==> offer.Some? ==> !Closes(w.txns[r], offer.value) {
      UntouchedBy(w.db, k, w.txns[r]);
    }
    if offer.Some? && ClosedByOther(w, sid, offer.value) {
      var r :| r in w.txns && r != sid && Closes(w.txns[r], offer.value);
      assert r in others;
    }
  }

  /** An intent that is checked, inserted and committed without anything in between is timely
      exactly if no open transaction takes its offer away from active. */
  lemma CheckedAtOnceIff(w: World, sid: nat, k: DeliveryKey)
    requires sid !in w.txns && sid !in w.passes && !InsertedByOther(w, sid, k)
    requires DeliveryAllowed(w.db, k) && !HasDelivery(w.db, k)
    ensures CommitsTimely(w, [CheckDelivery(k), InsertDelivery(sid, k), Commit(sid)])
            <==> var offer := OfferOfEvent(w.db, k.event); offer.Some? ==> !ClosedByOther(w, sid, offer.value)
  {
    var steps := [CheckDelivery(k), InsertDelivery(sid, k), Commit(sid)];
    var w1 := w.(checked := w.checked + {k});
    var w2 := w1.(txns := w.txns[sid := Inserting1(k)]);
    assert Apply(w, steps[0]) == w1;
    InsertIs(w1, sid, k);
    assert steps[1..] == [InsertDelivery(sid, k), Commit(sid)] && steps[1..][1..] == [Commit(sid)] && [Commit(sid)][1..] == [];
    assert CommitsTimely(Apply(w2, Commit(sid)), []);
    assert CommitsTimely(w2, [Commit(sid)]) <==> Timely(w2, sid);
    assert CommitsTimely(w1, steps[1..]) <==> CommitsTimely(w2, [Commit(sid)]);
    InsertTimelyIff(w2, sid, k);
    SameClosers(w, w2, sid);
  }

  lemma SameClosers(w: World, w': World, sid: nat)
    requires forall r :: r != sid ==> (r in w.txns <==> r in w'.txns) && (r in w.txns ==> w'.txns[r] == w.txns[r])
    ensures forall offer :: ClosedByOther(w, sid, offer) <==> ClosedByOther(w', sid, offer)
  {
    forall offer ensures ClosedByOther(w, sid, offer) <==> ClosedByOther(w', sid, offer) {
      if ClosedByOther(w, sid, offer) {
        var r :| r in w.txns && r != sid && Closes(w.txns[r], offer);
        assert r in w'.txns && Closes(w'.txns[r], offer);
      }
      if ClosedByOther(w', sid, offer) {
        var r :| r in w'.txns && r != sid && Closes(w'.txns[r], offer);
        assert r in w.txns && Closes(w.txns[r], offer);
      }
    }
  }

  // ---------- runs in which it goes wrong ----------

  lemma InsertAlone(w: World, sid: nat, k: DeliveryKey) returns (w': World)
    requires Reachable(w) && k in w.checked && sid !in w.txns && sid !in w.passes
    requires !InsertedByOther(w, sid, k) && !HasDelivery(w.db, k)
    ensures Reachable(w') && w'.txns == w.txns && w'.passes == w.passes
    ensures w'.db == w.db.(deliveries := w.db.deliveries + [Delivery(k, Queued)])
  {
    StepReaches(w, InsertDelivery(sid, k));
    var w1 := w.(txns := w.txns[sid := Inserting1(k)]);
    InsertIs(w, sid, k);
    w' := CommitAlone(w1, sid, Inserting1(k));
    assert w1.txns - {sid} == w.txns;
    SeenNothing(w.db);
  }

  lemma QueuedIsNotLive(db: Db, k: DeliveryKey, offer: Id)
    requires OfferOfEvent(db, k.event) == Some(offer) && !IsLive(db, offer)
    requires db.deliveries != [] && db.deliveries[|db.deliveries| - 1] == Delivery(k, Queued)
    ensures !QueuedAreLive(db)
  {
    assert !EventIsLive(db, k.event);
  }

  lemma PausePlan(w: World, offer: Id, today: int)
    requires OffersInv(w) && IsLive(w.db, offer)
    ensures var o := w.db.offers[offer];
            && o.version > 0
            && PlanFrom(o, o.user, offer, Pause, VersionOf(o), today)
               == Plan.Write(offer, o.user, Active, Paused, false, o.version, Pause, "applied")
  {
    PartsOf(w, 0);
    assert Reproduces(EventsOf(w.db.log, offer), w.db.offers[offer]);
  }

  lemma PauseLeaves(db: Db, p: Plan, db': Db)
    requires p.Write? && p.to == Paused && WriteMatches(Seen(db, NO_CHANGES), p) && db' == Seen(db, Writing(db, NO_CHANGES, p))
    ensures p.offer in db'.offers && StateOf(db'.offers[p.offer]) == Paused
    ensures db'.rules == db.rules && db'.alerts == db.alerts && SameKeys(db.deliveries, db'.deliveries)
  {
    var t := Writing(db, NO_CHANGES, p);
    WritingRows(db, p);
    WritingKeepsKeys(db, NO_CHANGES, p);
    assert SameKeys(db.deliveries, Marked(db.deliveries, t.suppressed));
    assert t.inserted == [];
  }

  lemma PauseOpens(w: World, sid: nat, offer: Id, today: int) returns (w': World, p: Plan)
    requires Reachable(w) && sid !in w.txns && sid !in w.passes && !LockedByOther(w, sid, offer) && IsLive(w.db, offer)
    ensures p.Write? && p.offer == offer && p.to == Paused && WriteMatches(Seen(w.db, NO_CHANGES), p)
    ensures Reachable(w') && w'.db == w.db && w'.passes == w.passes && w'.checked == w.checked
    ensures w'.txns == w.txns[sid := Writing(w.db, NO_CHANGES, p)]
  {
    ReachableIsOk(w);
    PausePlan(w, offer, today);
    var o := w.db.offers[offer];
    p := Plan.Write(offer, o.user, Active, Paused, false, o.version, Pause, "applied");
    w' := ReadAndUpdate(w, sid, offer, Pause, today, p);
  }

  lemma PauseAlone(w: World, sid: nat, offer: Id, today: int) returns (w': World)
    requires Reachable(w) && sid !in w.txns && sid !in w.passes && !LockedByOther(w, sid, offer) && IsLive(w.db, offer)
    ensures Reachable(w') && w'.txns == w.txns && w'.passes == w.passes && w'.checked == w.checked
    ensures offer in w'.db.offers && StateOf(w'.db.offers[offer]) == Paused
    ensures w'.db.rules == w.db.rules && w'.db.alerts == w.db.alerts && SameKeys(w.db.deliveries, w'.db.deliveries)
  {
    var w2, p := PauseOpens(w, sid, offer, today);
    w' := CommitAlone(w2, sid, w2.txns[sid]);
    PauseLeaves(w.db, p, w'.db);
    assert w.txns[sid := w2.txns[sid]] - {sid} == w.txns;
  }

  /** For every checked delivery of a tracked offer: when a pause is committed between its
      check and its insert, a paused offer has a queued delivery. */
  lemma PauseBetweenCheckAndInsert(w: World, sid: nat, k: DeliveryKey, offer: Id, today: int) returns (w': World)
    requires Reachable(w) && k in w.checked && DeliveryAllowed(w.db, k) && !HasDelivery(w.db, k)
    requires OfferOfEvent(w.db, k.event) == Some(offer)
    requires sid !in w.txns && sid !in w.passes && !LockedByOther(w, sid, offer) && !InsertedByOther(w, sid, k)
    ensures Reachable(w') && offer in w'.db.offers && StateOf(w'.db.offers[offer]) == Paused && !QueuedAreLive(w'.db)
  {
    AllowedIsLive(w.db, k);
    var w1 := PauseAlone(w, sid, offer, today);
    w' := InsertAlone(w1, sid, k);
    QueuedIsNotLive(w'.db, k, offer);
  }

  const KEY: DeliveryKey := DeliveryKey(0, 7, "in_app", "hotel-alert-v1")

  const ALERT: Alert := Alert(Some(7), Some(0), 0, false)

  /** One due offer with a rule and an event whose delivery is allowed. */
  ghost predicate Alerted(w: World) {
    && Reachable(w) && w.db.offers == map[0 := DUE] && w.db.rules == map[0 := Rule(7, Some(0))] && w.db.alerts == map[0 := ALERT]
    && w.db.deliveries == [] && w.txns == map[] && w.passes == map[]
  }

  lemma AlertedIsReachable() returns (w: World)
    ensures Alerted(w)
  {
    InitIsReachable();
    StepReaches(INIT, CreateOffer(0, 7, Some(1), Some(2)));
    var w1 := Apply(INIT, CreateOffer(0, 7, Some(1), Some(2)));
    StepReaches(w1, CreateRule(0, 7, Some(0)));
    var w2 := Apply(w1, CreateRule(0, 7, Some(0)));
    StepReaches(w2, CreateAlert(0, ALERT));
    w := Apply(w2, CreateAlert(0, ALERT));
  }

  lemma Check(w: World) returns (w': World)
    requires Reachable(w) && w.db.offers == map[0 := DUE] && w.db.rules == map[0 := Rule(7, Some(0))] && w.db.alerts == map[0 := ALERT]
    ensures Reachable(w') && DeliveryAllowed(w.db, KEY) && OfferOfEvent(w.db, 0) == Some(0)
    ensures w' == w.(checked := w.checked + {KEY})
  {
    StepReaches(w, CheckDelivery(KEY));
    w' := Apply(w, CheckDelivery(KEY));
  }

  /** From the empty tables a run reaches a queued delivery of a paused offer. */
  lemma RaceIsReachable()
    ensures exists w :: Reachable(w) && !QueuedAreLive(w.db)
  {
    var w := AlertedIsReachable();
    w := Check(w);
    w := PauseBetweenCheckAndInsert(w, 2, KEY, 0, 0);
  }

  const ONE_DUE: Pass := Pass(5, {0}, {0}, map[0 := DUE], {}, {}, 0)

  lemma PassBegins(w: World) returns (w': World)
    requires Alerted(w)
    ensures Reachable(w') && w'.db == w.db && w'.txns == map[1 := NO_CHANGES] && w'.passes == map[1 := ONE_DUE]
  {
    StepReaches(w, BeginPass(1, 5));
    w' := Apply(w, BeginPass(1, 5));
    assert DueOffers(w.db, 5) == {0};
    assert Begun(w.db, 5) == ONE_DUE;
  }

  lemma RunThree(w: World, a: Step, b: Step, c: Step)
    ensures Run(w, [a, b, c]) == Apply(Apply(Apply(w, a), b), c)
  {
    assert [a, b, c][1..] == [b, c] && [b, c][1..] == [c] && [c][1..] == [];
    assert Run(Apply(Apply(w, a), b), [c]) == Run(Apply(Apply(Apply(w, a), b), c), []);
    assert Run(Apply(w, a), [b, c]) == Run(Apply(Apply(w, a), b), [c]);
  }

  lemma CommitInsert(w: World, sid: nat, k: DeliveryKey)
    requires sid in w.txns && w.txns[sid] == Inserting1(k) && sid !in w.passes
    ensures var w' := Apply(w, Commit(sid));
            && w'.db == w.db.(deliveries := w.db.deliveries + [Delivery(k, Queued)])
            && w'.txns == w.txns - {sid} && w'.passes == w.passes
  {
    CommitLeaves(w, sid);
    assert Marked(w.db.deliveries, {}) == w.db.deliveries && w.db.offers + map[] == w.db.offers;
    assert w.passes - {sid} == w.passes;
  }

  lemma CheckInsertCommit(w: World, sid: nat, k: DeliveryKey)
    requires sid !in w.txns && sid !in w.passes && !InsertedByOther(w, sid, k)
    requires DeliveryAllowed(w.db, k) && !HasDelivery(w.db, k)
    ensures var w' := Run(w, [CheckDelivery(k), InsertDelivery(sid, k), Commit(sid)]);
            && w'.db == w.db.(deliveries := w.db.deliveries + [Delivery(k, Queued)])
            && w'.txns == w.txns && w'.passes == w.passes
  {
    RunThree(w, CheckDelivery(k), InsertDelivery(sid, k), Commit(sid));
    var w1 := w.(checked := w.checked + {k});
    assert Apply(w, CheckDelivery(k)) == w1;
    InsertIs(w1, sid, k);
    CommitInsert(Apply(w1, InsertDelivery(sid, k)), sid, k);
    assert w.txns[sid := Inserting1(k)] - {sid} == w.txns;
  }

  lemma PassCommitStrands(db: Db, t: Txn)
    requires db.offers == map[0 := DUE] && db.rules == map[0 := Rule(7, Some(0))] && db.alerts == map[0 := ALERT]
    requires db.deliveries == [Delivery(KEY, Queued)] && t.rows == map[0 := ExpiredRow(DUE)] && t.suppressed == {} && t.inserted == []
    ensures QueuedAreLive(db) && !QueuedAreLive(Seen(db, t))
  {
    var after := Seen(db, t);
    assert after.deliveries == [Delivery(KEY, Queued)];
    assert after.offers[0] == ExpiredRow(DUE);
    QueuedIsNotLive(after, KEY, 0);
  }

  /** A pass has expired the offer in its transaction, and has only to commit. */
  lemma PassOpen() returns (w: World)
    ensures Reachable(w) && w.db.offers == map[0 := DUE] && w.db.rules == map[0 := Rule(7, Some(0))]
    ensures w.db.alerts == map[0 := ALERT] && w.db.deliveries == []
    ensures w.txns.Keys == {1} && w.txns[1].rows == map[0 := ExpiredRow(DUE)] && w.txns[1].suppressed == {} && w.txns[1].inserted == []
    ensures w.passes.Keys == {1} && w.passes[1].rest == {}
  {
    var w0 := AlertedIsReachable();
    var w1 := PassBegins(w0);
    w := PassWrites(w1, 0, ONE_DUE);
    assert Waiting(w.db, 0) == {};
  }

  /** And while a pass is open, checking, inserting and committing back to back is not enough:
      the offer is still active when the insert commits, and expired when the pass commits. */
  lemma OpenPassRaceIsReachable()
    ensures exists w, pass, sid ::
              && Reachable(w) && DeliveryAllowed(w.db, KEY)
              && var w' := Run(w, [CheckDelivery(KEY), InsertDelivery(sid, KEY), Commit(sid)]);
                 QueuedAreLive(w'.db) && Enabled(w', Commit(pass)) && !QueuedAreLive(Apply(w', Commit(pass)).db)
  {
    var w := PassOpen();
    assert DeliveryAllowed(w.db, KEY);
    CheckInsertCommit(w, 2, KEY);
    var w' := Run(w, [CheckDelivery(KEY), InsertDelivery(2, KEY), Commit(2)]);
    PassCommitStrands(w'.db, w'.txns[1]);
    CommitIs(w', 1);
  }
}
