/** The lease row of one fingerprint through every interleaving of workers; each
    operation reads the clock when it runs. */
module LeaseRuns {
  import opened Sql
  import opened Database
  import opened Lease

  /** The arguments of a `finish`. */
  datatype Closing = Closing(status: string, error: Option<string>)

  /** One successful acquisition: from when until when its token may own the lease, how
      many of its `finish` calls were committed, and the last of them. */
  datatype Grant = Grant(token: nat, start: int, end: int, finishes: nat, closing: Option<Closing>)

  /** A finish that was executed but whose transaction is still open. */
  datatype Open = Open(token: nat, row: LeaseRow, at: int, closing: Closing)

  datatype World = World(
    row: Option<LeaseRow>,
    open: Option<Open>,
    grants: seq<Grant>,
    clock: int,
    nextToken: nat)

  datatype Step =
    | Tick(seconds: nat)
    | Acquire(ttl: int)
    | Renew(token: nat, ttl: int)
    | Finish(token: nat, status: string, error: Option<string>, commit: bool)
    | Commit
    | Rollback

  function Init(clock: int): World {
    World(None, None, [], clock, 0)
  }

  /** An open finish locks the row: other statements on it wait for its commit or rollback. */
  predicate Enabled(w: World, s: Step) {
    match s
    case Tick(_) => true
    case Acquire(ttl) => w.open.None?
    case Renew(_, ttl) => w.open.None?
    case Finish(_, status, _, _) => w.open.None? && status in FINAL_STATUSES
    case Commit => w.open.Some?
    case Rollback => w.open.Some?
  }

  function WithLast(grants: seq<Grant>, g: Grant): seq<Grant>
    requires grants != []
  {
    grants[..|grants| - 1] + [g]
  }

  function CommitFinish(w: World, row: LeaseRow, at: int, closing: Closing): World {
    w.(row := Some(row), open := None,
       grants := if w.grants == [] then [] else
                   var last := w.grants[|w.grants| - 1];
                   WithLast(w.grants, last.(end := at, finishes := last.finishes + 1, closing := Some(closing))))
  }

  function Apply(w: World, s: Step): World {
    if !Enabled(w, s) then w else
      match s
      case Tick(seconds) => w.(clock := w.clock + seconds)
      case Acquire(ttlSeconds) =>
        var ttl := AtLeastOne(ttlSeconds);
        if w.row.None? || TakeOverMatches(w.row.value, w.clock) then
          w.(row := Some(if w.row.None? then InsertedRow(w.clock, ttl, w.nextToken)
                         else TakenOver(w.row.value, w.clock, ttl, w.nextToken)),
             grants := w.grants + [Grant(w.nextToken, w.clock, w.clock + ttl, 0, None)],
             nextToken := w.nextToken + 1)
        else w
      case Renew(token, ttlSeconds) =>
        var ttl := AtLeastOne(ttlSeconds);
        if w.row.Some? && RenewMatches(w.row.value, token, w.clock) then
          w.(row := Some(Renewed(w.row.value, w.clock, ttl)),
             grants := if w.grants == [] then [] else WithLast(w.grants, w.grants[|w.grants| - 1].(end := w.clock + ttl)))
        else w
      case Finish(token, status, error, commit) =>
        if w.row.Some? && FinishMatches(w.row.value, token, w.clock) then
          var row := Finished(w.row.value, status, w.clock, error);
          var closing := Closing(status, error);
          if commit then CommitFinish(w, row, w.clock, closing) else w.(open := Some(Open(token, row, w.clock, closing)))
        else w
      case Commit => CommitFinish(w, w.open.value.row, w.open.value.at, w.open.value.closing)
      case Rollback => w.(open := None)
  }

  function Run(w: World, steps: seq<Step>): World
    decreases |steps|
  {
    if steps == [] then w else Run(Apply(w, steps[0]), steps[1..])
  }

  /** `owns_active_lease`, as every other session sees it. */
  predicate Owns(w: World, token: nat) {
    w.row.Some? && FinishMatches(w.row.value, token, w.clock)
  }

  predicate Disjoint(grants: seq<Grant>) {
    forall i, j :: 0 <= i < j < |grants| ==> grants[i].end <= grants[j].start && grants[i].token < grants[j].token
  }

  /** A lease that was not finished runs until the end of its grant, without an end or an
      error of its own, whatever happened to those before it; one that was finished has
      exactly the status and the error of its finish, and the time of it. */
  predicate EndsAs(row: LeaseRow, last: Grant) {
    match last.closing
    case None => row.status == "running" && row.expiresAt == Some(last.end) && row.finishedAt == None && row.lastError == None
    case Some(c) =>
      row.status == c.status && row.lastError == c.error && row.expiresAt == None && row.finishedAt == Some(last.end)
  }

  /** The row is the state of the last grant. */
  ghost predicate Inv(w: World) {
    && Disjoint(w.grants)
    && (forall i :: 0 <= i < |w.grants| ==>
          w.grants[i].token < w.nextToken && w.grants[i].start <= w.clock && w.grants[i].finishes <= 1
          && w.grants[i].start <= w.grants[i].end)
    && (w.row.None? <==> w.grants == [])
    && (w.open.Some? ==>
          && w.row.Some?
          && FinishMatches(w.row.value, w.open.value.token, w.open.value.at)
          && w.open.value.at <= w.clock
          && w.open.value.closing.status in FINAL_STATUSES
          && w.open.value.row == Finished(w.row.value, w.open.value.closing.status, w.open.value.at, w.open.value.closing.error))
    && (w.row.Some? ==>
          var last := w.grants[|w.grants| - 1]; var row := w.row.value;
          && row.attempts == |w.grants|
          && row.token == Some(last.token)
          && (row.status == "running" || row.status in FINAL_STATUSES)
          && (row.status == "running" ==> last.closing == None && last.finishes == 0)
          && (row.status != "running" ==> last.closing.Some? && last.finishes == 1 && last.end <= w.clock)
          && EndsAs(row, last)
          && (w.open.Some? ==> last.start <= w.open.value.at))
  }

  lemma AcquireKeepsInv(w: World, ttl: int)
    requires Inv(w)
    ensures Inv(Apply(w, Acquire(ttl)))
  {
  }

  lemma RenewKeepsInv(w: World, token: nat, ttl: int)
    requires Inv(w)
    ensures Inv(Apply(w, Renew(token, ttl)))
  {
  }

  lemma CommitFinishKeepsInv(w: World, token: nat, status: string, at: int, error: Option<string>)
    requires Inv(w) && w.row.Some? && FinishMatches(w.row.value, token, at) && status in FINAL_STATUSES
    requires w.grants[|w.grants| - 1].start <= at <= w.clock
    ensures Inv(CommitFinish(w, Finished(w.row.value, status, at, error), at, Closing(status, error)))
  {
  }

  lemma StepKeepsInv(w: World, s: Step)
    requires Inv(w)
    ensures Inv(Apply(w, s))
  {
    match s
    case Tick(_) =>
    case Acquire(ttl) => AcquireKeepsInv(w, ttl);
    case Renew(token, ttl) => RenewKeepsInv(w, token, ttl);
    case Finish(token, status, error, commit) =>
      if Enabled(w, s) && w.row.Some? && FinishMatches(w.row.value, token, w.clock) {
        CommitFinishKeepsInv(w, token, status, w.clock, error);
      }
    case Commit =>
      if w.open.Some? {
        var o := w.open.value;
        CommitFinishKeepsInv(w, o.token, o.closing.status, o.at, o.closing.error);
      }
    case Rollback =>
  }

  lemma {:induction false} RunKeepsInv(w: World, steps: seq<Step>)
    requires Inv(w)
    ensures Inv(Run(w, steps))
    decreases |steps|
  {
    if steps != [] {
      StepKeepsInv(w, steps[0]);
      RunKeepsInv(Apply(w, steps[0]), steps[1..]);
    }
  }

  /** Over any run the ownership periods of different tokens are disjoint intervals in
      the order of acquisition, whoever owns the lease is inside the last of them, the
      attempt counter counts the acquisitions, and no token's finish is committed twice. */
  lemma OwnershipNeverOverlaps(clock: int, steps: seq<Step>)
    ensures var w := Run(Init(clock), steps);
            && Disjoint(w.grants)
            && (forall token :: Owns(w, token) ==>
                  && w.grants != []
                  && var last := w.grants[|w.grants| - 1];
                     last.token == token && last.finishes == 0 && last.start <= w.clock < last.end)
            && (w.row.Some? ==> w.row.value.attempts == |w.grants|)
            && (forall i :: 0 <= i < |w.grants| ==> w.grants[i].finishes <= 1)
  {
    RunKeepsInv(Init(clock), steps);
  }

  /** In every reachable state the stored row tells how the last acquisition ended. */
  lemma RowTellsLastFinish(clock: int, steps: seq<Step>)
    ensures var w := Run(Init(clock), steps);
            w.row.Some? ==>
              && w.grants != []
              && var row, last := w.row.value, w.grants[|w.grants| - 1];
                 && row.token == Some(last.token) && row.attempts == |w.grants|
                 && (last.closing == None ==>
                       row.status == "running" && row.expiresAt == Some(last.end) && row.finishedAt == None && row.lastError == None)
                 && (last.closing.Some? ==>
                       && row.status == last.closing.value.status && row.lastError == last.closing.value.error
                       && row.expiresAt == None && row.finishedAt == Some(last.end))
  {
    RunKeepsInv(Init(clock), steps);
  }

  /** The finish of the owner is what the grant records, at the time it was executed. */
  lemma FinishIsRecorded(w: World, token: nat, status: string, error: Option<string>)
    requires Inv(w) && Enabled(w, Finish(token, status, error, true)) && Owns(w, token)
    ensures var w' := Apply(w, Finish(token, status, error, true));
            && |w'.grants| == |w.grants| > 0
            && w'.grants[|w.grants| - 1].closing == Some(Closing(status, error)) && w'.grants[|w.grants| - 1].end == w.clock
            && w'.grants[..|w.grants| - 1] == w.grants[..|w.grants| - 1]
  {
  }

  /** An acquisition succeeds exactly when no token owns the lease and no finish is open. */
  lemma AcquireSucceedsIffUnowned(clock: int, steps: seq<Step>, ttl: int)
    ensures var w := Run(Init(clock), steps);
            Apply(w, Acquire(ttl)) != w <==> w.open.None? && forall token :: !Owns(w, token)
  {
    RunKeepsInv(Init(clock), steps);
    var w := Run(Init(clock), steps);
    if w.row.Some? {
      var last := w.grants[|w.grants| - 1];
      assert Owns(w, last.token) <==> !TakeOverMatches(w.row.value, w.clock);
    }
  }

  lemma DeadStep(w: World, s: Step, token: nat)
    requires Inv(w) && token < w.nextToken && !Owns(w, token)
    ensures !Owns(Apply(w, s), token) && token < Apply(w, s).nextToken
  {
  }

  /** A token that no longer owns the lease, because it finished, expired or was
      superseded, never owns it again, and its renewals and finishes change nothing. A
      renewal cannot revive a finished lease although it does not test the status. */
  lemma {:induction false} DeadLeaseStaysDead(w: World, steps: seq<Step>, token: nat, ttl: int,
                                              status: string, error: Option<string>, commit: bool)
    requires Inv(w) && token < w.nextToken && !Owns(w, token)
    ensures var w' := Run(w, steps);
            && !Owns(w', token)
            && Apply(w', Renew(token, ttl)) == w'
            && Apply(w', Finish(token, status, error, commit)) == w'
    decreases |steps|
  {
    if steps == [] {
    } else {
      DeadStep(w, steps[0], token);
      StepKeepsInv(w, steps[0]);
      DeadLeaseStaysDead(Apply(w, steps[0]), steps[1..], token, ttl, status, error, commit);
    }
  }

  /** A committed finish ends the ownership of its token, so it succeeds at most once. */
  lemma CommittedFinishIsFinal(w: World, token: nat, status: string, error: Option<string>)
    requires Inv(w) && Enabled(w, Finish(token, status, error, true)) && Owns(w, token)
    ensures var w' := Apply(w, Finish(token, status, error, true));
            && Inv(w') && token < w'.nextToken && !Owns(w', token) && w' != w
            && w'.grants[|w'.grants| - 1].finishes == 1
  {
    StepKeepsInv(w, Finish(token, status, error, true));
  }

  /** Without `commit`, the finish stands or falls with its transaction: committing it is
      the committed finish, rolling it back leaves the token the owner it was, so the
      call can report success again exactly in that case. */
  lemma OpenFinishFollowsItsTransaction(w: World, token: nat, status: string, error: Option<string>)
    requires Inv(w) && Enabled(w, Finish(token, status, error, false)) && Owns(w, token)
    ensures var w' := Apply(w, Finish(token, status, error, false));
            && Apply(w', Commit) == Apply(w, Finish(token, status, error, true))
            && Apply(w', Rollback) == w
            && !Owns(Apply(w', Commit), token)
            && Owns(Apply(w', Rollback), token)
  {
  }
}
