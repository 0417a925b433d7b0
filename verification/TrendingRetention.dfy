/** Retention of the community trending snapshots, their routes, and the read states that
    users keep for the routes they were shown.

    A dry run counts; a real run deletes snapshots in keyset batches and afterwards the
    read states no surviving snapshot shows. */
module TrendingRetention {
  import opened Sql
  import opened Chunks

  const MIN_DAYS := 30
  const SQL_BATCH_SIZE := 200
  const METADATA_SLICE := 500

  datatype Status = Published | Building

  datatype Snapshot = Snapshot(status: Status, reportingDate: int, calculatedAt: int, createdAt: int)

  datatype Route = Route(snapshot: nat, origin: string, destination: string)

  /** The parsed form of a source id; other text never comes from a route. */
  datatype SourceId = Key(date: int, origin: string, destination: string) | Text(text: string)

  datatype ReadState = ReadState(sourceType: string, sourceId: SourceId)

  datatype Db = Db(snapshots: map<nat, Snapshot>, routes: map<nat, Route>, states: map<nat, ReadState>)

  datatype Cutoffs = Cutoffs(published: int, building: int)

  datatype Options = Options(dryRun: bool, batchSize: int, snapshotDays: int, buildingHours: int, now: int)

  datatype Report = Report(
    publishedCandidates: nat, buildingCandidates: nat, statesCandidates: nat, routesCandidates: nat,
    snapshotsDeleted: nat, buildingDeleted: nat, statesDeleted: nat, routesDeleted: nat, batches: nat)

  function CutoffsOf(o: Options): Cutoffs {
    Cutoffs(o.now - o.snapshotDays * 86400, o.now - o.buildingHours * 3600)
  }

  // ---------- what is to be deleted ----------

  predicate IsCandidate(s: Snapshot, c: Cutoffs) {
    match s.status
    case Published => s.calculatedAt < c.published
    case Building => s.createdAt < c.building
  }

  function CandidatesWith(db: Db, c: Cutoffs, status: Status): set<nat> {
    set id | id in db.snapshots && db.snapshots[id].status == status && IsCandidate(db.snapshots[id], c)
  }

  function Candidates(db: Db, c: Cutoffs): set<nat> {
    CandidatesWith(db, c, Published) + CandidatesWith(db, c, Building)
  }

  function RoutesOf(db: Db, ids: set<nat>): set<nat> {
    set r | r in db.routes && db.routes[r].snapshot in ids
  }

  function SourceOf(db: Db, r: nat): SourceId
    requires r in db.routes && db.routes[r].snapshot in db.snapshots
  {
    Key(db.snapshots[db.routes[r].snapshot].reportingDate, db.routes[r].origin, db.routes[r].destination)
  }

  /** The join of some snapshots with their routes. */
  function SourcesOf(db: Db, ids: set<nat>): set<SourceId> {
    set r | r in db.routes && db.routes[r].snapshot in ids && db.routes[r].snapshot in db.snapshots :: SourceOf(db, r)
  }

  /** Those of the given sources that some snapshot outside `gone` shows. */
  function RetainedSources(db: Db, sources: set<SourceId>, gone: set<nat>): set<SourceId> {
    set s | s in sources && s in SourcesOf(db, db.snapshots.Keys - gone)
  }

  function StatesFor(db: Db, sources: set<SourceId>): set<nat> {
    set i | i in db.states && db.states[i].sourceType == "community_trending" && db.states[i].sourceId in sources
  }

  /** The tables without some snapshots and the routes that hang on them. */
  function Without(db: Db, ids: set<nat>): Db {
    db.(snapshots := map id | id in db.snapshots && id !in ids :: db.snapshots[id],
        routes := map r | r in db.routes && db.routes[r].snapshot !in ids :: db.routes[r])
  }

  function RemovableSources(db: Db, c: Cutoffs): set<SourceId> {
    var gone := Candidates(db, c);
    SourcesOf(db, gone) - RetainedSources(db, SourcesOf(db, gone), gone)
  }

  function Pruned(db: Db, c: Cutoffs): Db {
    Without(db, Candidates(db, c)).(states := StatesWithout(db, RemovableSources(db, c)))
  }

  // ---------- the predictions the two modes must agree on ----------

  /** Before the deletion the anti-join leaves out the candidates, after it there are none
      left to leave out: both find the same sources still shown. */
  lemma AntiJoinSurvivesDeletion(db: Db, gone: set<nat>, sources: set<SourceId>)
    ensures RetainedSources(db, sources, gone) == RetainedSources(Without(db, gone), sources, {})
  {
    var after := Without(db, gone);
    assert after.snapshots.Keys - {} == db.snapshots.Keys - gone;
    forall s ensures s in SourcesOf(db, db.snapshots.Keys - gone) <==> s in SourcesOf(after, after.snapshots.Keys - {}) {
      if s in SourcesOf(db, db.snapshots.Keys - gone) {
        var r :| r in db.routes && db.routes[r].snapshot in db.snapshots.Keys - gone && SourceOf(db, r) == s;
        assert r in after.routes && SourceOf(after, r) == s;
      }
      if s in SourcesOf(after, after.snapshots.Keys - {}) {
        var r :| r in after.routes && after.routes[r].snapshot in after.snapshots && SourceOf(after, r) == s;
        assert r in db.routes && SourceOf(db, r) == s;
      }
    }
  }

  predicate Shows(db: Db, id: nat, source: SourceId) {
    exists r :: r in db.routes && db.routes[r].snapshot == id && id in db.snapshots && SourceOf(db, r) == source
  }

  lemma SourcesAreShown(db: Db, ids: set<nat>, source: SourceId)
    ensures source in SourcesOf(db, ids) <==> exists id :: id in ids && Shows(db, id, source)
  {
    if source in SourcesOf(db, ids) {
      var r :| r in db.routes && db.routes[r].snapshot in ids && db.routes[r].snapshot in db.snapshots && SourceOf(db, r) == source;
      assert Shows(db, db.routes[r].snapshot, source);
    }
  }

  /** A read state is deleted exactly if it belongs to the trending feed, some deleted
      snapshot shows its source, and no surviving snapshot does. */
  lemma StateDeletedIffNoLongerShown(db: Db, c: Cutoffs, i: nat)
    requires i in db.states
    ensures var source := db.states[i].sourceId; var gone := Candidates(db, c);
            i !in Pruned(db, c).states <==>
            && db.states[i].sourceType == "community_trending"
            && (exists id :: id in gone && Shows(db, id, source))
            && (forall id :: id in db.snapshots.Keys - gone ==> !Shows(db, id, source))
  {
    var source, gone := db.states[i].sourceId, Candidates(db, c);
    SourcesAreShown(db, gone, source);
    SourcesAreShown(db, db.snapshots.Keys - gone, source);
    assert i !in Pruned(db, c).states <==> i in StatesFor(db, RemovableSources(db, c));
  }

  /** The routes of the snapshots that are gone are gone, and no others. */
  predicate RoutesFollow(db: Db, db': Db) {
    && db'.routes.Keys <= db.routes.Keys
    && forall r :: r in db.routes ==>
         && (r in db'.routes ==> db'.routes[r] == db.routes[r])
         && (r !in db'.routes <==> db.routes[r].snapshot in db.snapshots && db.routes[r].snapshot !in db'.snapshots)
  }

  /** A stored snapshot has a route on its day that this source names. */
  predicate Displays(db: Db, source: SourceId) {
    exists r :: r in db.routes && db.routes[r].snapshot in db.snapshots
      && source == Key(db.snapshots[db.routes[r].snapshot].reportingDate, db.routes[r].origin, db.routes[r].destination)
  }

  /** The read states of the trending feed go that some snapshot displayed and none does now. */
  predicate StatesFollow(db: Db, db': Db) {
    && db'.states.Keys <= db.states.Keys
    && forall i :: i in db.states ==>
         && (i in db'.states ==> db'.states[i] == db.states[i])
         && (i !in db'.states <==>
               && db.states[i].sourceType == "community_trending"
               && Displays(db, db.states[i].sourceId) && !Displays(db', db.states[i].sourceId))
  }

  /** The candidates, by the columns and the options. */
  lemma CandidateColumns(db: Db, o: Options)
    ensures var c := CutoffsOf(o);
            && CandidatesWith(db, c, Published)
               == (set id | id in db.snapshots && db.snapshots[id].status == Published
                            && db.snapshots[id].calculatedAt < o.now - o.snapshotDays * 86400)
            && CandidatesWith(db, c, Building)
               == (set id | id in db.snapshots && db.snapshots[id].status == Building
                            && db.snapshots[id].createdAt < o.now - o.buildingHours * 3600)
  {
  }

  lemma DisplaysIsShown(db: Db, source: SourceId)
    ensures Displays(db, source) <==> source in SourcesOf(db, db.snapshots.Keys)
  {
    if Displays(db, source) {
      var r :| r in db.routes && db.routes[r].snapshot in db.snapshots
        && source == Key(db.snapshots[db.routes[r].snapshot].reportingDate, db.routes[r].origin, db.routes[r].destination);
      assert SourceOf(db, r) == source;
    }
    if source in SourcesOf(db, db.snapshots.Keys) {
      var r :| r in db.routes && db.routes[r].snapshot in db.snapshots && SourceOf(db, r) == source;
    }
  }

  lemma SomeStillShown(db: Db, gone: set<nat>, source: SourceId)
    requires gone <= db.snapshots.Keys
    ensures source in SourcesOf(db, gone) - RetainedSources(db, SourcesOf(db, gone), gone)
            <==> source in SourcesOf(db, db.snapshots.Keys) && source !in SourcesOf(Without(db, gone), Without(db, gone).snapshots.Keys)
  {
    var after := Without(db, gone);
    AntiJoinSurvivesDeletion(db, gone, {source});
    assert after.snapshots.Keys - {} == after.snapshots.Keys;
    assert source in RetainedSources(db, {source}, gone) <==> source in SourcesOf(db, db.snapshots.Keys - gone);
    assert source in RetainedSources(after, {source}, {}) <==> source in SourcesOf(after, after.snapshots.Keys);
    SourcesAreShown(db, gone, source);
    SourcesAreShown(db, db.snapshots.Keys - gone, source);
    SourcesAreShown(db, db.snapshots.Keys, source);
  }

  /** What pruning leaves, by the columns. */
  lemma PrunedColumns(db: Db, o: Options)
    ensures var c := CutoffsOf(o);
            && Pruned(db, c).snapshots == (map id | id in db.snapshots && id !in Candidates(db, c) :: db.snapshots[id])
            && RoutesFollow(db, Pruned(db, c)) && StatesFollow(db, Pruned(db, c))
  {
    var c := CutoffsOf(o);
    var after, gone := Pruned(db, c), Candidates(db, c);
    assert after.snapshots == Without(db, gone).snapshots && after.routes == Without(db, gone).routes;
    forall i | i in db.states ensures i !in after.states <==>
      && db.states[i].sourceType == "community_trending"
      && Displays(db, db.states[i].sourceId) && !Displays(after, db.states[i].sourceId)
    {
      var source := db.states[i].sourceId;
      DisplaysIsShown(db, source);
      DisplaysIsShown(Without(db, gone), source);
      SomeStillShown(db, gone, source);
      assert Displays(after, source) <==> Displays(Without(db, gone), source);
    }
  }

  lemma RouteCount(db: Db, c: Cutoffs)
    ensures |db.routes.Keys - Pruned(db, c).routes.Keys| == |RoutesOf(db, Candidates(db, c))|
  {
    assert db.routes.Keys - Without(db, Candidates(db, c)).routes.Keys == RoutesOf(db, Candidates(db, c));
  }

  lemma StateCount(db: Db, sources: set<SourceId>)
    ensures |db.states.Keys - StatesWithout(db, sources).Keys| == |StatesFor(db, sources)|
  {
    assert db.states.Keys - StatesWithout(db, sources).Keys == StatesFor(db, sources);
  }

  /** The batches of both statuses. */
  ghost predicate InBatches(published: nat, building: nat, n: nat, batches: nat) {
    exists p: nat, b: nat :: batches == p + b && RoundsUp(published, n, p) && RoundsUp(building, n, b)
  }

  /** What a run leaves and reports, in the terms of the candidates of its cutoffs. */
  ghost predicate Outcome(before: Db, after: Db, o: Options, r: Report)
    requires o.batchSize >= 1
  {
    var c := CutoffsOf(o);
    && r.publishedCandidates == |CandidatesWith(before, c, Published)|
    && r.buildingCandidates == |CandidatesWith(before, c, Building)|
    && r.routesCandidates == |RoutesOf(before, Candidates(before, c))|
    && r.statesCandidates == |StatesFor(before, RemovableSources(before, c))|
    && (if o.dryRun then
          after == before && r.snapshotsDeleted == r.buildingDeleted == r.routesDeleted == r.statesDeleted == r.batches == 0
        else
          && after == Pruned(before, c)
          && r.snapshotsDeleted == r.publishedCandidates && r.buildingDeleted == r.buildingCandidates
          && r.routesDeleted == r.routesCandidates && r.statesDeleted == r.statesCandidates
          && InBatches(r.snapshotsDeleted, r.buildingDeleted, Min(o.batchSize, SQL_BATCH_SIZE), r.batches))
  }

  lemma OutcomeSnapshots(before: Db, after: Db, o: Options, r: Report)
    requires o.batchSize >= 1 && Outcome(before, after, o, r) && !o.dryRun
    ensures after.snapshots.Keys <= before.snapshots.Keys
    ensures forall id :: id in before.snapshots ==>
              var s := before.snapshots[id];
              && (id in after.snapshots ==> after.snapshots[id] == s)
              && (id !in after.snapshots <==>
                    || (s.status == Published && s.calculatedAt < o.now - o.snapshotDays * 86400)
                    || (s.status == Building && s.createdAt < o.now - o.buildingHours * 3600))
    ensures RoutesFollow(before, after) && StatesFollow(before, after)
  {
    CandidateColumns(before, o);
    PrunedColumns(before, o);
  }

  /** The report by the columns and the options. A dry run reports no deletions and changes
      nothing; a real run deletes what it counts as candidates, in full batches. */
  ghost predicate Counted(before: Db, after: Db, o: Options, r: Report)
    requires o.batchSize >= 1
  {
    && r.publishedCandidates
       == |set id | id in before.snapshots && before.snapshots[id].status == Published
                    && before.snapshots[id].calculatedAt < o.now - o.snapshotDays * 86400|
    && r.buildingCandidates
       == |set id | id in before.snapshots && before.snapshots[id].status == Building
                    && before.snapshots[id].createdAt < o.now - o.buildingHours * 3600|
    && (if o.dryRun then
          after == before && r.snapshotsDeleted == r.buildingDeleted == r.routesDeleted == r.statesDeleted == r.batches == 0
        else
          && r.snapshotsDeleted == r.publishedCandidates && r.buildingDeleted == r.buildingCandidates
          && r.routesDeleted == r.routesCandidates == |before.routes.Keys - after.routes.Keys|
          && r.statesDeleted == r.statesCandidates == |before.states.Keys - after.states.Keys|
          && InBatches(r.snapshotsDeleted, r.buildingDeleted, if o.batchSize < 200 then o.batchSize else 200, r.batches))
  }

  lemma OutcomeCounts(before: Db, after: Db, o: Options, r: Report)
    requires o.batchSize >= 1 && Outcome(before, after, o, r)
    ensures Counted(before, after, o, r)
  {
    var c := CutoffsOf(o);
    CandidateColumns(before, o);
    RouteCount(before, c);
    StateCount(before, RemovableSources(before, c));
  }

  /** Pruning leaves nothing to prune, so a second run deletes nothing. */
  lemma PrunedHasNoCandidates(db: Db, c: Cutoffs)
    ensures Candidates(Pruned(db, c), c) == {} && Pruned(Pruned(db, c), c) == Pruned(db, c)
  {
    var after := Pruned(db, c);
    assert Candidates(after, c) == {};
    assert forall ids :: ids == {} ==> SourcesOf(after, ids) == {};
    assert RemovableSources(after, c) == {};
    assert StatesFor(after, {}) == {};
    assert Pruned(after, c).snapshots == after.snapshots;
    assert Pruned(after, c).routes == after.routes;
    assert Pruned(after, c).states == after.states;
  }

  // ---------- batches ----------

  /** Non-empty batches of at most `n` ids. */
  predicate ProperBatches(batches: seq<seq<nat>>, n: nat) {
    forall b :: 0 <= b < |batches| ==> 0 < |batches[b]| <= n
  }

  function Flat(batches: seq<seq<nat>>): seq<nat> {
    if batches == [] then [] else Flat(batches[..|batches| - 1]) + batches[|batches| - 1]
  }

  lemma FlatAppend(batches: seq<seq<nat>>, b: seq<nat>)
    ensures Flat(batches + [b]) == Flat(batches) + b
  {
    assert (batches + [b])[..|batches + [b]| - 1] == batches;
  }

  lemma WithoutTwice(db: Db, a: set<nat>, b: set<nat>)
    ensures Without(Without(db, a), b) == Without(db, a + b)
  {
    assert Without(Without(db, a), b).snapshots == Without(db, a + b).snapshots;
    assert Without(Without(db, a), b).routes == Without(db, a + b).routes;
  }

  lemma WithoutNothing(db: Db)
    ensures Without(db, {}) == db
  {
    assert Without(db, {}).snapshots == db.snapshots;
    assert Without(db, {}).routes == db.routes;
  }

  lemma CandidatesAfter(db: Db, c: Cutoffs, status: Status, gone: set<nat>)
    ensures CandidatesWith(Without(db, gone), c, status) == CandidatesWith(db, c, status) - gone
  {
  }

  lemma RoutesAfter(db: Db, a: set<nat>, b: set<nat>)
    requires a !! b
    ensures |RoutesOf(db, a + b)| == |RoutesOf(db, a)| + |RoutesOf(Without(db, a), b)|
  {
    assert RoutesOf(Without(db, a), b) == RoutesOf(db, b);
    assert RoutesOf(db, a + b) == RoutesOf(db, a) + RoutesOf(db, b);
    assert RoutesOf(db, a) !! RoutesOf(db, b);
  }

  /** How far a keyset pass over a set of ids has got. */
  ghost predicate KeysetProgress(all: set<nat>, visited: seq<nat>, last: Option<nat>) {
    && Increasing(visited) && Elements(visited) <= all
    && last == (if visited == [] then None else Some(visited[|visited| - 1]))
    && forall x :: x in all - Elements(visited) ==> last.None? || x > last.value
  }

  lemma KeysetStep(all: set<nat>, visited: seq<nat>, last: Option<nat>, page: seq<nat>)
    requires KeysetProgress(all, visited, last)
    requires Increasing(page) && page != [] && Elements(page) <= all - Elements(visited)
    requires forall x :: x in all - Elements(visited) - Elements(page) ==> AllBelow(page, x)
    ensures KeysetProgress(all, visited + page, Some(page[|page| - 1]))
    ensures Elements(visited + page) == Elements(visited) + Elements(page)
  {
    var longer := visited + page;
    ElementsAppend(visited, page);
    forall i, j | 0 <= i < j < |longer| ensures longer[i] < longer[j] {
      if i < |visited| <= j {
        assert page[j - |visited|] in Elements(page);
        assert visited[i] <= visited[|visited| - 1];
      }
    }
    assert longer[|longer| - 1] == page[|page| - 1];
    assert forall x :: x in all - Elements(longer) ==> x in all - Elements(visited) - Elements(page);
  }

  /** The rows a keyset query ranges over: the candidates beyond the last id seen. */
  function RowsBeyond(db: Db, c: Cutoffs, status: Status, last: Option<nat>): set<nat> {
    set id | id in CandidatesWith(db, c, status) && (last.None? || id > last.value)
  }

  /** They are the candidates not visited yet. */
  lemma KeysetSelects(start: Db, c: Cutoffs, status: Status, visited: seq<nat>, last: Option<nat>)
    requires KeysetProgress(CandidatesWith(start, c, status), visited, last)
    ensures RowsBeyond(Without(start, Elements(visited)), c, status, last) == CandidatesWith(start, c, status) - Elements(visited)
    ensures |CandidatesWith(start, c, status) - Elements(visited)| == |CandidatesWith(start, c, status)| - |visited|
  {
    CandidatesAfter(start, c, status, Elements(visited));
    forall x | x in Elements(visited) ensures last.Some? && x <= last.value {
      var i :| 0 <= i < |visited| && visited[i] == x;
      assert visited[i] <= visited[|visited| - 1];
    }
    IncreasingCount(visited);
    SubsetCount(Elements(visited), CandidatesWith(start, c, status));
  }

  /** The deletion of one status after some batches: the tables lack exactly the ids
      visited so far, and the counters count them and their routes. */
  ghost predicate Deleting(start: Db, db: Db, all: set<nat>, n: nat, visited: seq<seq<nat>>, last: Option<nat>,
                           deleted: nat, routes: nat)
  {
    && KeysetProgress(all, Flat(visited), last)
    && db == Without(start, Elements(Flat(visited)))
    && deleted == |Flat(visited)|
    && routes == |RoutesOf(start, Elements(Flat(visited)))|
    && ProperBatches(visited, n)
  }

  lemma DeletingStarts(db: Db, all: set<nat>, n: nat)
    ensures Deleting(db, db, all, n, [], None, 0, 0)
  {
    WithoutNothing(db);
    assert Elements([]) == {};
    assert RoutesOf(db, {}) == {};
  }

  lemma DeletingContinues(start: Db, db: Db, all: set<nat>, n: nat, visited: seq<seq<nat>>, last: Option<nat>,
                          deleted: nat, routes: nat, page: seq<nat>)
    requires Deleting(start, db, all, n, visited, last, deleted, routes)
    requires page != [] && |page| <= n && Increasing(page) && Elements(page) <= all - Elements(Flat(visited))
    requires forall x :: x in all - Elements(Flat(visited)) - Elements(page) ==> AllBelow(page, x)
    ensures Deleting(start, Without(db, Elements(page)), all, n, visited + [page], Some(page[|page| - 1]),
                     deleted + |page|, routes + |RoutesOf(db, Elements(page))|)
  {
    var seen := Flat(visited);
    FlatAppend(visited, page);
    ElementsAppend(seen, page);
    KeysetStep(all, seen, last, page);
    RoutesAfter(start, Elements(seen), Elements(page));
    WithoutTwice(start, Elements(seen), Elements(page));
  }

  lemma DeletingEnds(start: Db, db: Db, all: set<nat>, n: nat, visited: seq<seq<nat>>, last: Option<nat>,
                     deleted: nat, routes: nat)
    requires Deleting(start, db, all, n, visited, last, deleted, routes) && deleted == |all|
    ensures db == Without(start, all) && routes == |RoutesOf(start, all)|
    ensures Increasing(Flat(visited)) && Elements(Flat(visited)) == all
  {
    IncreasingCount(Flat(visited));
    SubsetCount(Elements(Flat(visited)), all);
    assert all - Elements(Flat(visited)) == {};
    assert Elements(Flat(visited)) == all;
  }

  lemma UnvisitedRows(db: Db, c: Cutoffs, status: Status, visited: seq<nat>, last: Option<nat>)
    requires KeysetProgress(CandidatesWith(db, c, status), visited, last)
    ensures RowsBeyond(db, c, status, last) == CandidatesWith(db, c, status) - Elements(visited)
    ensures |RowsBeyond(db, c, status, last)| == |CandidatesWith(db, c, status)| - |visited|
  {
    forall x | x in Elements(visited) ensures last.Some? && x <= last.value {
      var i :| 0 <= i < |visited| && visited[i] == x;
      assert visited[i] <= visited[|visited| - 1];
    }
    IncreasingCount(visited);
    SubsetCount(Elements(visited), CandidatesWith(db, c, status));
  }

  lemma MetadataAdds(db: Db, a: set<nat>, b: set<nat>)
    requires a !! b
    ensures SourcesOf(db, a + b) == SourcesOf(db, a) + SourcesOf(db, b)
    ensures |RoutesOf(db, a + b)| == |RoutesOf(db, a)| + |RoutesOf(db, b)|
  {
    assert RoutesOf(db, a + b) == RoutesOf(db, a) + RoutesOf(db, b);
    assert RoutesOf(db, a) !! RoutesOf(db, b);
  }

  /** One slice of the candidate ids adds its sources and its routes. */
  lemma SliceMetadata(db: Db, c: Cutoffs, published: seq<nat>, building: seq<nat>, k: nat, next: nat)
    requires Increasing(published) && Elements(published) == CandidatesWith(db, c, Published)
    requires Increasing(building) && Elements(building) == CandidatesWith(db, c, Building)
    requires k <= next <= |published + building|
    ensures var ids := published + building; var done, slice := Elements(ids[..k]), Elements(ids[k..next]);
            && SourcesOf(db, Elements(ids[..next])) == SourcesOf(db, done) + SourcesOf(db, slice)
            && |RoutesOf(db, Elements(ids[..next]))| == |RoutesOf(db, done)| + |RoutesOf(db, slice)|
  {
    var ids := published + building;
    assert ids[..next] == ids[..k] + ids[k..next];
    ElementsAppend(ids[..k], ids[k..next]);
    forall i, j | 0 <= i < j < |ids| ensures ids[i] != ids[j] {
      if i < |published| <= j {
        assert published[i] in Elements(published) && building[j - |published|] in Elements(building);
      }
    }
    assert Elements(ids[..k]) !! Elements(ids[k..next]);
    MetadataAdds(db, Elements(ids[..k]), Elements(ids[k..next]));
  }

  function StatesWithout(db: Db, sources: set<SourceId>): map<nat, ReadState> {
    map i | i in db.states && i !in StatesFor(db, sources) :: db.states[i]
  }

  lemma StatesAdd(db: Db, a: set<SourceId>, b: set<SourceId>)
    requires a !! b
    ensures StatesFor(db, a + b) == StatesFor(db, a) + StatesFor(db, b)
    ensures |StatesFor(db, a + b)| == |StatesFor(db, a)| + |StatesFor(db, b)|
  {
    assert StatesFor(db, a + b) == StatesFor(db, a) + StatesFor(db, b);
    assert StatesFor(db, a) !! StatesFor(db, b);
  }

  lemma StatesWithoutNone(db: Db)
    ensures db == db.(states := StatesWithout(db, {})) && StatesFor(db, {}) == {}
  {
    assert StatesFor(db, {}) == {};
    assert StatesWithout(db, {}) == db.states;
  }

  /** Deleting the states of one more chunk of sources. */
  lemma StatesWithoutMore(start: Db, done: set<SourceId>, chunk: set<SourceId>)
    requires done !! chunk
    ensures var db := start.(states := StatesWithout(start, done));
            && StatesWithout(db, chunk) == StatesWithout(start, done + chunk)
            && |StatesFor(start, done + chunk)| == |StatesFor(start, done)| + |StatesFor(db, chunk)|
  {
    var db := start.(states := StatesWithout(start, done));
    StatesAdd(start, done, chunk);
    assert StatesFor(db, chunk) == StatesFor(start, chunk);
    assert StatesWithout(db, chunk) == StatesWithout(start, done + chunk);
  }

  class Store {
    var db: Db

    constructor (db: Db)
      ensures this.db == db
    {
      this.db := db;
    }

    /** One keyset page: the smallest candidates of the status beyond the last id seen. */
    method SelectPage(c: Cutoffs, status: Status, last: Option<nat>, limit: nat) returns (page: seq<nat>)
      ensures var rows := RowsBeyond(db, c, status, last);
              && Increasing(page) && Elements(page) <= rows && |page| == Min(limit, |rows|)
              && forall x :: x in rows - Elements(page) ==> AllBelow(page, x)
    {
      page := SmallestIds(RowsBeyond(db, c, status, last), limit);
    }

    method DeleteRoutesForSnapshots(ids: seq<nat>) returns (deleted: nat)
      modifies this
      ensures db == old(db).(routes := db.routes)
      ensures db.routes == map r | r in old(db.routes) && old(db.routes)[r].snapshot !in Elements(ids) :: old(db.routes)[r]
      ensures deleted == |RoutesOf(old(db), Elements(ids))|
    {
      var rows := RoutesOf(db, Elements(ids));
      deleted := |rows|;
      db := db.(routes := map r | r in db.routes && db.routes[r].snapshot !in Elements(ids) :: db.routes[r]);
    }

    method DeleteBatch(ids: seq<nat>) returns (routes: nat, deleted: nat)
      requires Increasing(ids) && Elements(ids) <= db.snapshots.Keys
      modifies this
      ensures db == Without(old(db), Elements(ids))
      ensures routes == |RoutesOf(old(db), Elements(ids))| && deleted == |ids|
    {
      routes := DeleteRoutesForSnapshots(ids);
      IncreasingCount(ids);
      var rows := set id | id in Elements(ids) && id in db.snapshots;
      deleted := |rows|;
      assert rows == Elements(ids);
      db := db.(snapshots := map id | id in db.snapshots && id !in Elements(ids) :: db.snapshots[id]);
      assert db.snapshots == Without(old(db), Elements(ids)).snapshots;
    }

    /** The next keyset page and its deletion; an empty page means there was nothing left. */
    method NextBatch(c: Cutoffs, status: Status, n: nat, last: Option<nat>,
                     ghost start: Db, ghost visited: seq<seq<nat>>, ghost deleted: nat, ghost routes: nat)
      returns (page: seq<nat>, routesNow: nat, deletedNow: nat)
      requires Deleting(start, db, CandidatesWith(start, c, status), n, visited, last, deleted, routes)
      modifies this
      ensures |page| == deletedNow && deleted <= |CandidatesWith(start, c, status)|
      ensures deletedNow == Min(n, |CandidatesWith(start, c, status)| - deleted)
      ensures if page == [] then db == old(db)
              else Deleting(start, db, CandidatesWith(start, c, status), n, visited + [page], Some(page[|page| - 1]),
                            deleted + deletedNow, routes + routesNow)
    {
      ghost var all, seen := CandidatesWith(start, c, status), Flat(visited);
      KeysetSelects(start, c, status, seen, last);
      page := SelectPage(c, status, last, n);
      if page == [] {
        return page, 0, 0;
      }
      DeletingContinues(start, db, all, n, visited, last, deleted, routes, page);
      routesNow, deletedNow := DeleteBatch(page);
    }

    /** Keyset batches that are deleted as they are visited: every candidate of the status
        is visited exactly once, in id order, nothing else is touched, every batch is
        non-empty and within the limit, and their number is the least possible. */
    method DeleteCandidates(c: Cutoffs, status: Status, n: nat)
      returns (deleted: nat, routes: nat, batches: nat, ghost visited: seq<seq<nat>>)
      requires n > 0
      modifies this
      ensures db == Without(old(db), CandidatesWith(old(db), c, status))
      ensures deleted == |CandidatesWith(old(db), c, status)|
      ensures routes == |RoutesOf(old(db), CandidatesWith(old(db), c, status))|
      ensures batches == |visited| && LeastBatches(deleted, n, batches)
      ensures ProperBatches(visited, n) && Increasing(Flat(visited))
      ensures Elements(Flat(visited)) == CandidatesWith(old(db), c, status)
    {
      ghost var start, all := db, CandidatesWith(db, c, status);
      var last: Option<nat> := None;
      deleted, routes, batches, visited := 0, 0, 0, [];
      DeletingStarts(db, all, n);
      while true
        invariant Deleting(start, db, all, n, visited, last, deleted, routes)
        invariant batches == |visited| && deleted == Capacity(n, batches) && deleted <= |all|
        decreases |all| - deleted
      {
        var page, routesNow, deletedNow := NextBatch(c, status, n, last, start, visited, deleted, routes);
        if page == [] {
          break;
        }
        visited := visited + [page];
        routes, deleted, batches := routes + routesNow, deleted + deletedNow, batches + 1;
        last := Some(page[|page| - 1]);
        if |page| < n {
          break;
        }
      }
      DeletingEnds(start, db, all, n, visited, last, deleted, routes);
    }

    // ---------- the read-only queries ----------

    /** Keyset pages of one status, read without deleting anything. */
    method CandidateIds(c: Cutoffs, status: Status, n: nat) returns (ids: seq<nat>)
      requires n > 0
      ensures Increasing(ids) && Elements(ids) == CandidatesWith(db, c, status)
    {
      ghost var all := CandidatesWith(db, c, status);
      var last: Option<nat> := None;
      ids := [];
      assert Elements([]) == {};
      while true
        invariant KeysetProgress(all, ids, last) && |ids| <= |all|
        decreases |all| - |ids|
      {
        UnvisitedRows(db, c, status, ids, last);
        var page := SelectPage(c, status, last, n);
        if page == [] {
          break;
        }
        KeysetStep(all, ids, last, page);
        IncreasingCount(ids + page);
        SubsetCount(Elements(ids + page), all);
        ids, last := ids + page, Some(page[|page| - 1]);
        if |page| < n {
          break;
        }
      }
      IncreasingCount(ids);
      SubsetCount(Elements(ids), all);
      assert all - Elements(ids) == {};
    }

    /** The sources the candidates show and the number of their routes, in slices. */
    method CollectMetadata(c: Cutoffs, n: nat) returns (sources: set<SourceId>, routes: nat)
      requires n > 0
      ensures sources == SourcesOf(db, Candidates(db, c)) && routes == |RoutesOf(db, Candidates(db, c))|
    {
      var published := CandidateIds(c, Published, n);
      var building := CandidateIds(c, Building, n);
      var ids := published + building;
      ElementsAppend(published, building);
      sources, routes := {}, 0;
      var k := 0;
      assert ids[..0] == [] && Elements([]) == {};
      while k < |ids|
        invariant 0 <= k <= |ids|
        invariant sources == SourcesOf(db, Elements(ids[..k])) && routes == |RoutesOf(db, Elements(ids[..k]))|
      {
        var next := Min(k + METADATA_SLICE, |ids|);
        var slice := ids[k..next];
        SliceMetadata(db, c, published, building, k, next);
        sources := sources + SourcesOf(db, Elements(slice));
        routes := routes + |RoutesOf(db, Elements(slice))|;
        k := next;
      }
      assert ids[..k] == ids;
    }

    /** The sources among the given ones that are still shown, looked up in chunks. With
        cutoffs the candidates are left out. */
    method FindRetained(sources: set<SourceId>, leaveOut: Option<Cutoffs>) returns (retained: set<SourceId>)
      ensures retained == RetainedSources(db, sources, if leaveOut.Some? then Candidates(db, leaveOut.value) else {})
    {
      var gone := if leaveOut.Some? then Candidates(db, leaveOut.value) else {};
      var keys := set s | s in sources && s.Key?;
      retained := {};
      var rest := keys;
      while rest != {}
        invariant rest <= keys
        invariant retained == RetainedSources(db, keys - rest, gone)
        decreases rest
      {
        var chunk := AnyRows(rest, SQL_BATCH_SIZE);
        assert chunk != {};
        retained := retained + set s | s in chunk && s in SourcesOf(db, db.snapshots.Keys - gone);
        rest := rest - chunk;
      }
    }

    method CountStates(sources: set<SourceId>) returns (total: nat)
      ensures total == |StatesFor(db, sources)|
    {
      total := 0;
      var rest := sources;
      assert StatesFor(db, {}) == {};
      while rest != {}
        invariant rest <= sources && total == |StatesFor(db, sources - rest)|
        decreases rest
      {
        var chunk := AnyRows(rest, SQL_BATCH_SIZE);
        assert chunk != {};
        StatesAdd(db, sources - rest, chunk);
        assert sources - rest + chunk == sources - (rest - chunk);
        total := total + |StatesFor(db, chunk)|;
        rest := rest - chunk;
      }
      assert sources - rest == sources;
    }

    method DeleteStateChunk(chunk: set<SourceId>) returns (deleted: nat)
      modifies this
      ensures db == old(db).(states := StatesWithout(old(db), chunk))
      ensures deleted == |StatesFor(old(db), chunk)|
    {
      var rows := StatesFor(db, chunk);
      deleted := |rows|;
      db := db.(states := map i | i in db.states && i !in rows :: db.states[i]);
    }

    method DeleteStates(sources: set<SourceId>) returns (deleted: nat)
      modifies this
      ensures db == old(db).(states := StatesWithout(old(db), sources))
      ensures deleted == |StatesFor(old(db), sources)|
    {
      deleted := 0;
      var rest := sources;
      ghost var start := db;
      StatesWithoutNone(start);
      while rest != {}
        invariant rest <= sources
        invariant db == start.(states := StatesWithout(start, sources - rest))
        invariant deleted == |StatesFor(start, sources - rest)|
        decreases rest
      {
        var chunk := AnyRows(rest, SQL_BATCH_SIZE);
        assert chunk != {};
        StatesWithoutMore(start, sources - rest, chunk);
        assert sources - rest + chunk == sources - (rest - chunk);
        var now := DeleteStateChunk(chunk);
        deleted := deleted + now;
        rest := rest - chunk;
      }
      assert sources - rest == sources;
    }

    // ---------- the whole run ----------

    /** The part of the run that deletes. */
    method Prune(c: Cutoffs, n: nat, sources: set<SourceId>)
      returns (published: nat, building: nat, states: nat, routes: nat, batches: nat)
      requires n > 0 && sources == SourcesOf(db, Candidates(db, c))
      modifies this
      ensures db == Pruned(old(db), c)
      ensures published == |CandidatesWith(old(db), c, Published)| && building == |CandidatesWith(old(db), c, Building)|
      ensures routes == |RoutesOf(old(db), Candidates(old(db), c))|
      ensures states == |StatesFor(old(db), RemovableSources(old(db), c))|
      ensures InBatches(published, building, n, batches)
    {
      ghost var start, ps, bs := db, CandidatesWith(db, c, Published), CandidatesWith(db, c, Building);
      CandidatesAfter(start, c, Building, ps);
      assert bs - ps == bs;
      RoutesAfter(start, ps, bs);
      WithoutTwice(start, ps, bs);
      var publishedRoutes, publishedBatches;
      ghost var visited;
      published, publishedRoutes, publishedBatches, visited := DeleteCandidates(c, Published, n);
      var buildingRoutes, buildingBatches;
      building, buildingRoutes, buildingBatches, visited := DeleteCandidates(c, Building, n);
      routes, batches := publishedRoutes + buildingRoutes, publishedBatches + buildingBatches;
      LeastBatchesRoundUp(published, n, publishedBatches);
      LeastBatchesRoundUp(building, n, buildingBatches);
      AntiJoinSurvivesDeletion(start, Candidates(start, c), sources);
      var retained := FindRetained(sources, None);
      assert StatesFor(db, sources - retained) == StatesFor(start, sources - retained);
      states := DeleteStates(sources - retained);
    }

    /** The run in the terms of the candidates of its cutoffs. */
    method CountAndPrune(o: Options) returns (report: Option<Report>)
      modifies this
      ensures report.Some? <==> o.batchSize >= 1 && o.snapshotDays >= 30 && o.buildingHours > 0
      ensures report.None? ==> db == old(db)
      ensures report.Some? ==> Outcome(old(db), db, o, report.value)
    {
      if o.batchSize < 1 || o.snapshotDays < MIN_DAYS || o.buildingHours <= 0 {
        return None;
      }
      var c := CutoffsOf(o);
      var publishedCandidates := |CandidatesWith(db, c, Published)|;
      var buildingCandidates := |CandidatesWith(db, c, Building)|;
      var sources, routesCandidates := CollectMetadata(c, o.batchSize);
      var retained := FindRetained(sources, Some(c));
      var statesCandidates := CountStates(sources - retained);
      if o.dryRun {
        return Some(Report(publishedCandidates, buildingCandidates, statesCandidates, routesCandidates, 0, 0, 0, 0, 0));
      }
      var published, building, states, routes, batches := Prune(c, Min(o.batchSize, SQL_BATCH_SIZE), sources);
      report := Some(Report(publishedCandidates, buildingCandidates, statesCandidates, routesCandidates,
                            published, building, states, routes, batches));
    }

    /** A dry run changes nothing and reports what would go. A real run removes exactly the
        candidates, their routes and the read states nothing shows any more, and each of
        its four deletion counts equals the prediction. None is the ValueError. */
    method Run(o: Options) returns (report: Option<Report>)
      modifies this
      ensures report.Some? <==> o.batchSize >= 1 && o.snapshotDays >= 30 && o.buildingHours > 0
      ensures report.None? ==> db == old(db)
      ensures report.Some? ==> Outcome(old(db), db, o, report.value)
      // Published snapshots go by their calculation, building ones by their creation.
      ensures report.Some? && !o.dryRun ==>
                && db.snapshots.Keys <= old(db.snapshots).Keys
                && forall id :: id in old(db.snapshots) ==>
                     var s := old(db.snapshots)[id];
                     && (id in db.snapshots ==> db.snapshots[id] == s)
                     && (id !in db.snapshots <==>
                           || (s.status == Published && s.calculatedAt < o.now - o.snapshotDays * 86400)
                           || (s.status == Building && s.createdAt < o.now - o.buildingHours * 3600))
      ensures report.Some? && !o.dryRun ==> RoutesFollow(old(db), db) && StatesFollow(old(db), db)
      // What is deleted is counted, and done in full batches of at most 200.
      ensures report.Some? ==> Counted(old(db), db, o, report.value)
    {
      ghost var before := db;
      report := CountAndPrune(o);
      if report.Some? {
        OutcomeCounts(before, db, o, report.value);
        if !o.dryRun {
          OutcomeSnapshots(before, db, o, report.value);
        }
      }
    }
  }
}
