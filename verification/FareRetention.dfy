/** Retention of the fare memory: price observations of departed flights go first, then the
    offers that departed or have no observation. */
module FareRetention {
  import opened Chunks

  datatype Offer = Offer(departureAt: int)

  datatype Observation = Observation(offer: nat)

  datatype Db = Db(offers: map<nat, Offer>, observations: map<nat, Observation>)

  datatype Table = Observations | Offers

  datatype TableReport = TableReport(candidates: nat, deleted: nat, batches: nat)

  // ---------- the candidate statements ----------

  /** The join of the observations with their departed offers. */
  function PastObservations(db: Db, now: int): set<nat> {
    set i | i in db.observations && db.observations[i].offer in db.offers
            && db.offers[db.observations[i].offer].departureAt < now
  }

  predicate HasObservation(db: Db, offer: nat) {
    exists i :: i in db.observations && db.observations[i].offer == offer
  }

  function DeadOffers(db: Db, now: int): set<nat> {
    set o | o in db.offers && (db.offers[o].departureAt < now || !HasObservation(db, o))
  }

  function CandidateRows(db: Db, table: Table, now: int): set<nat> {
    match table
    case Observations => PastObservations(db, now)
    case Offers => DeadOffers(db, now)
  }

  function Deleting(db: Db, table: Table, ids: set<nat>): Db {
    match table
    case Observations => db.(observations := map i | i in db.observations && i !in ids :: db.observations[i])
    case Offers => db.(offers := map o | o in db.offers && o !in ids :: db.offers[o])
  }

  function Pruned(db: Db, now: int): Db {
    Deleting(Deleting(db, Observations, PastObservations(db, now)), Offers, DeadOffers(db, now))
  }

  /** Every observation belongs to a stored offer. */
  predicate Referential(db: Db) {
    forall i :: i in db.observations ==> db.observations[i].offer in db.offers
  }

  // ---------- why the counts agree ----------

  /** Deleting rows of a table does not change which of its other rows are candidates. */
  lemma CandidatesShrink(db: Db, table: Table, ids: set<nat>, now: int)
    ensures CandidateRows(Deleting(db, table, ids), table, now) == CandidateRows(db, table, now) - ids
  {
    var after := Deleting(db, table, ids);
    if table == Offers {
      assert forall o :: HasObservation(after, o) <==> HasObservation(db, o);
    }
  }

  /** Pruning observations, in part or in full, leaves the dead offers as they are: an offer
      loses observations only if it has departed, and then it is dead anyway. */
  lemma OffersPredictedBeforehand(db: Db, gone: set<nat>, now: int)
    requires gone <= PastObservations(db, now)
    ensures DeadOffers(Deleting(db, Observations, gone), now) == DeadOffers(db, now)
  {
    var after := Deleting(db, Observations, gone);
    forall o | o in db.offers && db.offers[o].departureAt >= now
      ensures HasObservation(after, o) <==> HasObservation(db, o)
    {
      if HasObservation(db, o) {
        var i :| i in db.observations && db.observations[i].offer == o;
        assert i in after.observations;
      }
    }
  }

  lemma DeletingTwice(db: Db, table: Table, a: set<nat>, b: set<nat>)
    ensures Deleting(Deleting(db, table, a), table, b) == Deleting(db, table, a + b)
  {
    assert Deleting(Deleting(db, table, a), table, b).observations == Deleting(db, table, a + b).observations;
    assert Deleting(Deleting(db, table, a), table, b).offers == Deleting(db, table, a + b).offers;
  }

  lemma DeletingNothing(db: Db, table: Table)
    ensures Deleting(db, table, {}) == db
  {
    assert Deleting(db, table, {}).observations == db.observations;
    assert Deleting(db, table, {}).offers == db.offers;
  }

  /** Once the past observations are gone, any batch of dead offers can be deleted without
      leaving an observation behind; before that, a batch can be deleted exactly if none of
      its offers is past and observed. */
  lemma OfferBatchIsSafeIff(db: Db, ids: set<nat>, now: int)
    requires Referential(db) && ids <= DeadOffers(db, now)
    ensures Referential(Deleting(db, Offers, ids)) <==> forall o :: o in ids ==> !HasObservation(db, o)
    ensures Referential(Deleting(Deleting(db, Observations, PastObservations(db, now)), Offers, ids))
  {
    var after := Deleting(db, Offers, ids);
    if !forall o :: o in ids ==> !HasObservation(db, o) {
      var o :| o in ids && HasObservation(db, o);
      var i :| i in db.observations && db.observations[i].offer == o;
      assert i in after.observations && after.observations[i].offer !in after.offers;
    }
  }

  /** After the run every observation still has its offer, and no offer has departed or is
      without observations. */
  lemma PrunedIsClean(db: Db, now: int)
    requires Referential(db)
    ensures var after := Pruned(db, now);
            && Referential(after)
            && DeadOffers(after, now) == {} && PastObservations(after, now) == {}
            && forall o :: o in after.offers ==> after.offers[o].departureAt >= now && HasObservation(after, o)
  {
    var mid := Deleting(db, Observations, PastObservations(db, now));
    OfferBatchIsSafeIff(db, DeadOffers(db, now), now);
    OffersPredictedBeforehand(db, PastObservations(db, now), now);
    CandidatesShrink(mid, Offers, DeadOffers(db, now), now);
    CandidatesShrink(db, Observations, PastObservations(db, now), now);
    var after := Pruned(db, now);
    forall o | o in after.offers ensures after.offers[o].departureAt >= now && HasObservation(after, o) {
      assert o !in DeadOffers(after, now);
    }
  }

  /** As many batches as the deleted rows need. */
  predicate RoundedUp(r: TableReport, batchSize: nat) {
    r.deleted == r.candidates && RoundsUp(r.deleted, batchSize, r.batches)
  }

  lemma CandidateColumns(db: Db, now: int)
    ensures PastObservations(db, now)
            == set i | i in db.observations && db.observations[i].offer in db.offers
                       && db.offers[db.observations[i].offer].departureAt < now
    ensures DeadOffers(db, now)
            == set o | o in db.offers
                       && (db.offers[o].departureAt < now || forall i :: i in db.observations ==> db.observations[i].offer != o)
  {
  }

  lemma PrunedColumns(db: Db, now: int)
    ensures var after := Pruned(db, now);
            && after.observations.Keys <= db.observations.Keys && after.offers.Keys <= db.offers.Keys
            && (forall i :: i in db.observations ==>
                  && (i in after.observations ==> after.observations[i] == db.observations[i])
                  && (i !in after.observations <==>
                        db.observations[i].offer in db.offers && db.offers[db.observations[i].offer].departureAt < now))
            && (forall o :: o in db.offers ==>
                  && (o in after.offers ==> after.offers[o] == db.offers[o])
                  && (o !in after.offers <==>
                        db.offers[o].departureAt < now || forall i :: i in db.observations ==> db.observations[i].offer != o))
  {
    CandidateColumns(db, now);
  }

  // ---------- the deletion loop ----------

  /** The candidates in `done` are gone, and nothing else is. */
  ghost predicate Deleted(start: Db, db: Db, table: Table, now: int, done: set<nat>) {
    done <= CandidateRows(start, table, now) && db == Deleting(start, table, done)
  }

  /** All batches but the last one were full. */
  predicate Batched(total: nat, done: nat, batchSize: nat, batches: nat) {
    && (batchSize == 0 ==> done == 0 && batches == 0)
    && done <= Capacity(batchSize, batches) && (batches > 0 ==> Capacity(batchSize, batches - 1) < done)
    && (done == Capacity(batchSize, batches) || done == total)
  }

  /** One more batch. */
  lemma DeletedMore(start: Db, db: Db, table: Table, now: int, done: set<nat>, ids: set<nat>)
    requires Deleted(start, db, table, now, done) && ids <= CandidateRows(db, table, now)
    ensures CandidateRows(db, table, now) == CandidateRows(start, table, now) - done
    ensures Deleted(start, Deleting(db, table, ids), table, now, done + ids)
    ensures |done + ids| == |done| + |ids|
    ensures |CandidateRows(db, table, now)| == |CandidateRows(start, table, now)| - |done|
    ensures |CandidateRows(start, table, now) - (done + ids)| == |CandidateRows(start, table, now)| - |done| - |ids|
  {
    var all := CandidateRows(start, table, now);
    CandidatesShrink(start, table, done, now);
    DeletingTwice(start, table, done, ids);
    SubsetCount(done, all);
    SubsetCount(done + ids, all);
  }

  lemma DeletedAll(start: Db, db: Db, table: Table, now: int, done: set<nat>)
    requires Deleted(start, db, table, now, done)
    ensures done == {} ==> db == start
    ensures |done| == |CandidateRows(start, table, now)| ==> done == CandidateRows(start, table, now)
  {
    DeletingNothing(start, table);
    SubsetCount(done, CandidateRows(start, table, now));
  }

  class Store {
    var db: Db

    constructor (db: Db)
      ensures this.db == db
    {
      this.db := db;
    }

    /** Batches of candidates until the query finds none. With a batch size of zero the
        first query is empty and nothing is deleted. */
    method DeleteEntries(table: Table, dryRun: bool, batchSize: nat, now: int) returns (deleted: nat, batches: nat)
      modifies this
      ensures
        var rows := CandidateRows(old(db), table, now);
        if dryRun || batchSize == 0 then db == old(db) && deleted == 0 && batches == 0
        else db == Deleting(old(db), table, rows) && deleted == |rows| && LeastBatches(deleted, batchSize, batches)
    {
      deleted, batches := 0, 0;
      if dryRun {
        return;
      }
      ghost var start, done := db, {};
      DeletingNothing(db, table);
      while true
        invariant Deleted(start, db, table, now, done)
        invariant Batched(|CandidateRows(start, table, now)|, |done|, batchSize, batches) && deleted == |done|
        decreases |CandidateRows(start, table, now) - done|
      {
        var ids := AnyRows(CandidateRows(db, table, now), batchSize);
        DeletedMore(start, db, table, now, done, ids);
        if ids == {} {
          break;
        }
        db := Deleting(db, table, ids);
        deleted := deleted + |ids|;
        done := done + ids;
        batches := batches + 1;
      }
      DeletedAll(start, db, table, now, done);
    }

    method PruneTable(table: Table, dryRun: bool, batchSize: nat, now: int) returns (r: TableReport)
      modifies this
      ensures
        var rows := CandidateRows(old(db), table, now);
        && r.candidates == |rows|
        && (if dryRun || batchSize == 0 then db == old(db) && r.deleted == 0 && r.batches == 0
            else db == Deleting(old(db), table, rows) && r.deleted == |rows| && LeastBatches(r.deleted, batchSize, r.batches))
    {
      var candidates := |CandidateRows(db, table, now)|;
      var deleted, batches := DeleteEntries(table, dryRun, batchSize, now);
      r := TableReport(candidates, deleted, batches);
    }

    /** The run in the terms of its candidates. */
    method PruneTables(dryRun: bool, batchSize: nat, now: int) returns (observations: TableReport, offers: TableReport)
      modifies this
      ensures observations.candidates == |PastObservations(old(db), now)|
      ensures offers.candidates == |DeadOffers(old(db), now)|
      ensures if dryRun || batchSize == 0 then
                db == old(db) && observations.deleted == offers.deleted == 0 && observations.batches == offers.batches == 0
              else db == Pruned(old(db), now) && RoundedUp(observations, batchSize) && RoundedUp(offers, batchSize)
    {
      OffersPredictedBeforehand(db, PastObservations(db, now), now);
      observations := PruneTable(Observations, dryRun, batchSize, now);
      offers := PruneTable(Offers, dryRun, batchSize, now);
      if !dryRun && batchSize > 0 {
        LeastBatchesRoundUp(observations.deleted, batchSize, observations.batches);
        LeastBatchesRoundUp(offers.deleted, batchSize, offers.batches);
      }
    }

    /** Both modes report the same candidates, although a real run counts the offers only
        after the observations are gone. A real run deletes exactly them if and only if its
        batch size is positive or there is nothing to delete. */
    method Run(dryRun: bool, batchSize: nat, now: int) returns (observations: TableReport, offers: TableReport)
      modifies this
      ensures observations.candidates == |PastObservations(old(db), now)|
      ensures offers.candidates == |DeadOffers(old(db), now)|
      ensures dryRun ==> db == old(db)
      ensures !dryRun && batchSize > 0 ==> db == Pruned(old(db), now)
      ensures !dryRun ==>
                (observations.deleted == observations.candidates && offers.deleted == offers.candidates
                 <==> batchSize > 0 || (PastObservations(old(db), now) == {} && DeadOffers(old(db), now) == {}))
      // Counted are the observations of departed offers, and the offers that have departed or
      // that no observation names.
      ensures observations.candidates
              == |set i | i in old(db.observations) && old(db.observations)[i].offer in old(db.offers)
                          && old(db.offers)[old(db.observations)[i].offer].departureAt < now|
      ensures offers.candidates
              == |set o | o in old(db.offers)
                          && (old(db.offers)[o].departureAt < now
                              || forall i :: i in old(db.observations) ==> old(db.observations)[i].offer != o)|
      ensures dryRun || batchSize == 0 ==>
                && db == old(db) && observations.deleted == offers.deleted == 0 && observations.batches == offers.batches == 0
      // Exactly these are deleted, in full batches.
      ensures !dryRun && batchSize > 0 ==>
                && db.observations.Keys <= old(db.observations).Keys && db.offers.Keys <= old(db.offers).Keys
                && (forall i :: i in old(db.observations) ==>
                      var o := old(db.observations)[i].offer;
                      && (i in db.observations ==> db.observations[i] == old(db.observations)[i])
                      && (i !in db.observations <==> o in old(db.offers) && old(db.offers)[o].departureAt < now))
                && (forall o :: o in old(db.offers) ==>
                      && (o in db.offers ==> db.offers[o] == old(db.offers)[o])
                      && (o !in db.offers <==>
                            || old(db.offers)[o].departureAt < now
                            || forall i :: i in old(db.observations) ==> old(db.observations)[i].offer != o))
                && RoundedUp(observations, batchSize) && RoundedUp(offers, batchSize)
    {
      CandidateColumns(db, now);
      PrunedColumns(db, now);
      observations, offers := PruneTables(dryRun, batchSize, now);
    }
  }
}
