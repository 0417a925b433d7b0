/** Any number of workers interleaved between the read and the conditional write of the
    circuit breaker. The row is related to the log of the writes that were accepted. */
module CircuitRuns {
  import opened Sql
  import opened Circuit

  /** An accepted write, in the order of acceptance. */
  datatype Write =
    | Failure(at: int, cooldown: int, code: string)
    | Success(at: int)
    | Claim(token: nat, at: int, expires: int)

  /** What a worker holds between reading the row and acting on it. */
  datatype Read = ClosedRead(inserted: bool) | ClaimRead(status: Status, version: int, at: int)

  datatype World = World(
    durable: bool,
    row: Option<Row>,
    pending: multiset<Read>,
    permits: set<Permit>,
    log: seq<Write>,
    clock: int,
    nextToken: nat)

  datatype Step =
    | Tick(seconds: nat)
    | BeginAdmit(threshold: int, cooldown: int)
    | FinishClosed(inserted: bool)
    | FinishClaim(read: Read, ttl: int)
    | Record(permit: Permit, outcome: string, now: int, cooldownParam: Option<int>)

  function Init(durable: bool, clock: int): World {
    World(durable, None, multiset{}, {}, [], clock, 0)
  }

  /** A step a worker may take now. The time a worker passes was read from the clock
      earlier, so it is never ahead of it. Each pending read is one worker's, which may
      finish it at any later moment or, having crashed, never. */
  predicate Enabled(w: World, s: Step) {
    match s
    case Tick(_) => true
    case BeginAdmit(threshold, cooldown) => threshold >= 1 && cooldown >= 1
    case FinishClosed(inserted) => ClosedRead(inserted) in w.pending
    case FinishClaim(read, ttl) => read in w.pending && read.ClaimRead? && ttl >= 1 && w.row.Some?
    case Record(permit, _, now, _) => permit in w.permits && now <= w.clock
  }

  function WriteOf(row: Row, outcome: string, now: int, cooldown: Option<int>): Write {
    var code := Normalize(outcome);
    if IsSuccess(code) then Success(now) else Failure(now, AtLeastOne(OrElse(cooldown, row.cooldown)), code)
  }

  function Apply(w: World, s: Step): World {
    if !Enabled(w, s) then w else
      match s
      case Tick(seconds) => w.(clock := w.clock + seconds)
      case BeginAdmit(threshold, cooldown) =>
        var row := if w.row.Some? then w.row.value else NewRow(threshold, cooldown);
        var w1 := if w.durable || w.row.Some? then w.(row := Some(row)) else w;
        (match Decide(row, w.clock)
         case AdmitClosed => w1.(pending := w.pending + multiset{ClosedRead(w.row.None?)})
         case TryClaim => w1.(pending := w.pending + multiset{ClaimRead(row.status, row.version, w.clock)})
         case Deny => w1)
      case FinishClosed(inserted) =>
        // The rollback expires a row that was read, so its version is read again here. A row
        // this session inserted is no longer the database's, and keeps its version 0.
        w.(pending := w.pending - multiset{ClosedRead(inserted)},
           permits := w.permits + {Permit(None, if inserted || w.row.None? then 0 else w.row.value.version)})
      case FinishClaim(read, ttl) =>
        if ClaimMatches(w.row.value, read.status, read.version, read.at) then
          w.(row := Some(Claimed(w.row.value, read.at, ttl, w.nextToken)),
             permits := w.permits + {Permit(Some(w.nextToken), read.version + 1)},
             log := w.log + [Claim(w.nextToken, read.at, read.at + ttl)],
             nextToken := w.nextToken + 1,
             pending := w.pending - multiset{read})
        else w.(pending := w.pending - multiset{read})
      case Record(permit, outcome, now, cooldown) =>
        if w.row.None? then w else
          var after := Recorded(w.row.value, permit, outcome, now, cooldown);
          if after.None? then w else
            w.(row := after, log := w.log + [WriteOf(w.row.value, outcome, now, cooldown)])
  }

  function Run(w: World, steps: seq<Step>): World
    decreases |steps|
  {
    if steps == [] then w else Run(Apply(w, steps[0]), steps[1..])
  }

  // ---------- the row as a function of the log ----------

  /** Failures since the last success. */
  function Streak(log: seq<Write>): nat {
    if log == [] then 0 else
      match log[|log| - 1]
      case Success(_) => 0
      case Failure(_, _, _) => Streak(log[..|log| - 1]) + 1
      case Claim(_, _, _) => Streak(log[..|log| - 1])
  }

  /** The last failure since the last success. */
  function LastFailure(log: seq<Write>): Option<Write> {
    if log == [] then None else
      match log[|log| - 1]
      case Success(_) => None
      case Failure(_, _, _) => Some(log[|log| - 1])
      case Claim(_, _, _) => LastFailure(log[..|log| - 1])
  }

  lemma {:induction false} StreakHasLastFailure(log: seq<Write>)
    ensures LastFailure(log).Some? <==> Streak(log) > 0
    ensures LastFailure(log).Some? ==> LastFailure(log).value.Failure?
  {
    if log != [] && log[|log| - 1].Claim? {
      StreakHasLastFailure(log[..|log| - 1]);
    }
  }

  predicate EndsWithClaim(log: seq<Write>) {
    log != [] && log[|log| - 1].Claim?
  }

  /** Every column of the row, read off the log of accepted writes. */
  ghost predicate RowIs(row: Row, log: seq<Write>) {
    && row.threshold >= 1 && row.cooldown >= 1
    && row.version == |log|
    && row.failures == Streak(log)
    && (row.status == Closed <==> Streak(log) < row.threshold)
    && (row.status == HalfOpen <==> EndsWithClaim(log))
    && row.probeToken == (if EndsWithClaim(log) then Some(log[|log| - 1].token) else None)
    && row.probeExpiresAt == (if EndsWithClaim(log) then Some(log[|log| - 1].expires) else None)
    && (LastFailure(log).Some? ==> LastFailure(log).value.Failure?)
    && row.lastError == (if LastFailure(log).Some? then Some(LastFailure(log).value.code) else None)
    && (row.status != Closed ==>
          && LastFailure(log).Some?
          && row.openedAt == Some(LastFailure(log).value.at)
          && row.nextProbeAt == Some(LastFailure(log).value.at + LastFailure(log).value.cooldown))
    && (row.status == Closed ==> row.openedAt == None && row.nextProbeAt == None)
  }

  /** A probe permit belongs to the claim that issued it. */
  predicate PermitIssued(p: Permit, log: seq<Write>) {
    && 0 <= p.version <= |log|
    && (p.probeToken.Some? ==>
          p.version >= 1 && log[p.version - 1].Claim? && log[p.version - 1].token == p.probeToken.value)
  }

  predicate TokensBelow(log: seq<Write>, bound: nat) {
    forall i :: 0 <= i < |log| && log[i].Claim? ==> log[i].token < bound
  }

  /** A pending read saw every write below its version, so none of them is later. */
  predicate ReadIsCurrent(r: Read, w: World)
    requires r.ClaimRead?
  {
    && r.at <= w.clock && r.status != Closed && 0 <= r.version <= |w.log|
    && forall i :: 0 <= i < r.version ==> w.log[i].at <= r.at
  }

  /** A claim comes after everything logged before it, and after the expiry of a
      claim it replaces directly. */
  predicate ClaimsFollow(log: seq<Write>) {
    forall j :: 0 <= j < |log| && log[j].Claim? ==>
      && (forall i :: 0 <= i < j ==> log[i].at <= log[j].at)
      && (j > 0 && log[j - 1].Claim? ==> log[j - 1].expires <= log[j].at)
  }

  ghost predicate RowInv(w: World) {
    && (w.row.None? ==> w.log == [] && forall r :: r in w.pending ==> r.ClosedRead?)
    && (w.row.Some? ==> RowIs(w.row.value, w.log))
    && (forall p :: p in w.permits ==> PermitIssued(p, w.log))
    && TokensBelow(w.log, w.nextToken)
  }

  ghost predicate TimeInv(w: World) {
    && (forall r :: r in w.pending && r.ClaimRead? ==> ReadIsCurrent(r, w))
    && (forall i :: 0 <= i < |w.log| ==> w.log[i].at <= w.clock)
    && ClaimsFollow(w.log)
  }

  ghost predicate Inv(w: World) {
    RowInv(w) && TimeInv(w)
  }

  lemma AppendLast(log: seq<Write>, e: Write)
    ensures var longer := log + [e];
            && longer[|longer| - 1] == e && longer[..|longer| - 1] == log
            && Streak(longer) == (match e case Success(_) => 0 case Failure(_, _, _) => Streak(log) + 1 case Claim(_, _, _) => Streak(log))
            && LastFailure(longer) == (match e case Success(_) => None case Failure(_, _, _) => Some(e) case Claim(_, _, _) => LastFailure(log))
            && EndsWithClaim(longer) == e.Claim?
            && (forall p :: PermitIssued(p, log) ==> PermitIssued(p, longer))
  {
    var longer := log + [e];
    assert longer[..|longer| - 1] == log;
  }

  lemma RecordedRefinesLog(row: Row, log: seq<Write>, p: Permit, outcome: string, now: int, cooldown: Option<int>)
    requires RowIs(row, log) && Recorded(row, p, outcome, now, cooldown).Some?
    ensures RowIs(Recorded(row, p, outcome, now, cooldown).value, log + [WriteOf(row, outcome, now, cooldown)])
  {
    AppendLast(log, WriteOf(row, outcome, now, cooldown));
    StreakHasLastFailure(log);
  }

  lemma ClaimRefinesLog(row: Row, log: seq<Write>, status: Status, version: int, at: int, ttl: int, token: nat)
    requires RowIs(row, log) && status != Closed && ClaimMatches(row, status, version, at)
    ensures RowIs(Claimed(row, at, ttl, token), log + [Claim(token, at, at + ttl)])
  {
    AppendLast(log, Claim(token, at, at + ttl));
    StreakHasLastFailure(log);
  }

  lemma AppendKeepsRow(w: World, w': World, e: Write)
    requires RowInv(w) && w.row.Some? && w'.row.Some?
    requires w'.log == w.log + [e] && w'.pending <= w.pending && w.nextToken <= w'.nextToken
    requires RowIs(w'.row.value, w'.log)
    requires e.Claim? ==> e.token < w'.nextToken
    requires forall p :: p in w'.permits ==> p in w.permits || PermitIssued(p, w'.log)
    ensures RowInv(w')
  {
    assert forall p :: PermitIssued(p, w.log) ==> PermitIssued(p, w'.log);
    assert TokensBelow(w'.log, w'.nextToken);
  }

  lemma AppendKeepsTime(w: World, w': World, e: Write)
    requires TimeInv(w)
    requires w'.log == w.log + [e] && w'.pending <= w.pending && w'.clock == w.clock
    requires e.at <= w.clock && (e.Claim? ==> ClaimsFollow(w'.log))
    ensures TimeInv(w')
  {
    forall r | r in w'.pending && r.ClaimRead? ensures ReadIsCurrent(r, w') {
      assert ReadIsCurrent(r, w);
    }
  }

  /** An appended claim was read when the log was as long as it is now. */
  lemma ClaimKeepsOrder(w: World, read: Read, ttl: int)
    requires Inv(w) && Enabled(w, FinishClaim(read, ttl))
    requires ClaimMatches(w.row.value, read.status, read.version, read.at)
    ensures ClaimsFollow(w.log + [Claim(w.nextToken, read.at, read.at + ttl)])
  {
    assert ReadIsCurrent(read, w);
  }

  lemma ClaimKeepsInv(w: World, read: Read, ttl: int)
    requires Inv(w) && Enabled(w, FinishClaim(read, ttl))
    requires ClaimMatches(w.row.value, read.status, read.version, read.at)
    ensures Inv(Apply(w, FinishClaim(read, ttl)))
  {
    var w', e := Apply(w, FinishClaim(read, ttl)), Claim(w.nextToken, read.at, read.at + ttl);
    assert ReadIsCurrent(read, w);
    ClaimRefinesLog(w.row.value, w.log, read.status, read.version, read.at, ttl, w.nextToken);
    ClaimKeepsOrder(w, read, ttl);
    AppendKeepsRow(w, w', e);
    AppendKeepsTime(w, w', e);
  }

  lemma RecordKeepsInv(w: World, p: Permit, outcome: string, now: int, cooldown: Option<int>)
    requires Inv(w) && Enabled(w, Record(p, outcome, now, cooldown))
    ensures Inv(Apply(w, Record(p, outcome, now, cooldown)))
  {
    if w.row.Some? && Recorded(w.row.value, p, outcome, now, cooldown).Some? {
      var w', e := Apply(w, Record(p, outcome, now, cooldown)), WriteOf(w.row.value, outcome, now, cooldown);
      RecordedRefinesLog(w.row.value, w.log, p, outcome, now, cooldown);
      AppendKeepsRow(w, w', e);
      AppendKeepsTime(w, w', e);
    }
  }

  lemma BeginKeepsInv(w: World, threshold: int, cooldown: int)
    requires Inv(w) && threshold >= 1 && cooldown >= 1
    ensures Inv(Apply(w, BeginAdmit(threshold, cooldown)))
  {
    var w' := Apply(w, BeginAdmit(threshold, cooldown));
    assert w'.log == w.log && w'.clock == w.clock;
    forall r | r in w'.pending && r.ClaimRead? ensures ReadIsCurrent(r, w') {
      assert r in w.pending ==> ReadIsCurrent(r, w);
    }
  }

  lemma FinishedKeepsInv(w: World, read: Read)
    requires Inv(w)
    ensures Inv(w.(pending := w.pending - multiset{read}))
  {
    var w' := w.(pending := w.pending - multiset{read});
    forall r | r in w'.pending && r.ClaimRead? ensures ReadIsCurrent(r, w') {
      assert ReadIsCurrent(r, w);
    }
  }

  lemma ClosedKeepsInv(w: World, inserted: bool)
    requires Inv(w)
    ensures Inv(Apply(w, FinishClosed(inserted)))
  {
    FinishedKeepsInv(w, ClosedRead(inserted));
  }

  lemma StepKeepsInv(w: World, s: Step)
    requires Inv(w)
    ensures Inv(Apply(w, s))
  {
    if Enabled(w, s) {
      match s
      case Tick(_) =>
        assert forall r :: r in w.pending && r.ClaimRead? ==> ReadIsCurrent(r, w);
      case BeginAdmit(threshold, cooldown) => BeginKeepsInv(w, threshold, cooldown);
      case FinishClosed(inserted) => ClosedKeepsInv(w, inserted);
      case FinishClaim(read, ttl) =>
        if ClaimMatches(w.row.value, read.status, read.version, read.at) {
          ClaimKeepsInv(w, read, ttl);
        } else {
          FinishedKeepsInv(w, read);
        }
      case Record(p, outcome, now, cooldown) => RecordKeepsInv(w, p, outcome, now, cooldown);
    }
  }

  lemma {:induction false} RunKeepsInv(w: World, steps: seq<Step>)
    requires Inv(w)
    ensures Inv(Run(w, steps))
    decreases |steps|
  {
    if steps != [] {
      StepKeepsInv(w, steps[0]);
      RunKeepsInv(Apply(w, steps[0]), steps[1..]);
    }
  }

  /** For any interleaving of workers the row is determined by the log of the accepted
      writes: its failure count is the trailing run of failures, it is closed exactly
      while that run is below the threshold, and its version counts the writes. */
  lemma CircuitRefinesLog(durable: bool, clock: int, steps: seq<Step>)
    ensures var w := Run(Init(durable, clock), steps);
            && (w.row.Some? ==> RowIs(w.row.value, w.log))
            && (w.row.None? ==> w.log == [])
  {
    RunKeepsInv(Init(durable, clock), steps);
  }

  // ---------- what a run never undoes ----------

  ghost predicate Grows(w: World, w': World) {
    && w.log <= w'.log && w.permits <= w'.permits && w.clock <= w'.clock
    && w'.durable == w.durable && (w.row.Some? ==> w'.row.Some?)
    && (w.row.Some? && w'.log == w.log ==> w'.row == w.row)
  }

  lemma {:induction false} RunGrows(w: World, steps: seq<Step>)
    ensures Grows(w, Run(w, steps))
    decreases |steps|
  {
    if steps != [] {
      var w1 := Apply(w, steps[0]);
      assert Grows(w, w1);
      RunGrows(w1, steps[1..]);
    }
  }

  /** `record` accepts this probe permit at this time. */
  predicate Acceptable(w: World, p: Permit, now: int) {
    w.row.Some? && p.probeToken.Some? && FailureMatches(w.row.value, p, now)
  }

  lemma ProbeAcceptance(w: World, p: Permit, now: int)
    requires Inv(w) && p in w.permits
    ensures Acceptable(w, p, now) <==>
            && EndsWithClaim(w.log) && p == Permit(Some(w.log[|w.log| - 1].token), |w.log|)
            && now < w.log[|w.log| - 1].expires
  {
  }

  /** In every reachable state `record` accepts at most one of the probe permits ever issued:
      the one of the last accepted write, and only until that expires. */
  lemma AtMostOneProbe(durable: bool, clock: int, steps: seq<Step>, p: Permit, now: int)
    requires var w := Run(Init(durable, clock), steps); p in w.permits && Acceptable(w, p, now)
    ensures var w := Run(Init(durable, clock), steps);
            && EndsWithClaim(w.log)
            && var last := w.log[|w.log| - 1];
               && p == Permit(Some(last.token), |w.log|) && now < last.expires
               && forall q, later :: q in w.permits && Acceptable(w, q, later) ==> q == p && later < last.expires
  {
    RunKeepsInv(Init(durable, clock), steps);
    var w := Run(Init(durable, clock), steps);
    ProbeAcceptance(w, p, now);
    forall q, later | q in w.permits && Acceptable(w, q, later)
      ensures q == p && later < w.log[|w.log| - 1].expires
    {
      ProbeAcceptance(w, q, later);
    }
  }

  /** A probe permit that was superseded, used or expired can never change the row
      again, whatever the other workers do and whatever outcome it reports. */
  lemma DeadProbeStaysDead(w: World, steps: seq<Step>, p: Permit, now: int, later: int,
                           outcome: string, cooldown: Option<int>)
    requires Inv(w) && p in w.permits && p.probeToken.Some?
    requires !Acceptable(w, p, now) && now <= later
    ensures var w' := Run(w, steps);
            !Acceptable(w', p, later) && Apply(w', Record(p, outcome, later, cooldown)) == w'
  {
    RunGrows(w, steps);
    RunKeepsInv(w, steps);
    var w' := Run(w, steps);
    ProbeAcceptance(w, p, now);
    ProbeAcceptance(w', p, later);
  }

  /** When the probe issued by the claim at `i` stopped being acceptable: at its expiry
      if it was reclaimed, otherwise at the write that resolved it. */
  function WindowEnd(log: seq<Write>, i: nat): int
    requires i + 1 < |log| && log[i].Claim?
  {
    if log[i + 1].Claim? then log[i].expires else log[i + 1].at
  }

  /** The validity windows of successive probes are disjoint. */
  lemma ProbeWindowsDisjoint(durable: bool, clock: int, steps: seq<Step>, i: nat, j: nat)
    requires var w := Run(Init(durable, clock), steps);
             i < j < |w.log| && w.log[i].Claim? && w.log[j].Claim?
    ensures var w := Run(Init(durable, clock), steps);
            WindowEnd(w.log, i) <= w.log[j].at
  {
    RunKeepsInv(Init(durable, clock), steps);
  }

  /** Each step finishes a pending claim of the generation the row is in. */
  predicate ClaimsOf(w: World, steps: seq<Step>) {
    forall i :: 0 <= i < |steps| ==>
      && steps[i].FinishClaim? && Enabled(w, steps[i])
      && ClaimMatches(w.row.value, steps[i].read.status, steps[i].read.version, steps[i].read.at)
  }

  lemma {:induction false} LateClaimsLose(w: World, steps: seq<Step>, version: int)
    requires w.row.Some? && w.row.value.version != version
    requires forall i :: 0 <= i < |steps| ==> steps[i].FinishClaim? && steps[i].read.ClaimRead? && steps[i].read.version == version
    ensures var w' := Run(w, steps); w'.log == w.log && w'.permits == w.permits && w'.row == w.row
    decreases |steps|
  {
    if steps != [] {
      LateClaimsLose(Apply(w, steps[0]), steps[1..], version);
    }
  }

  lemma FirstClaimWins(w: World, s: Step)
    requires Inv(w) && ClaimsOf(w, [s])
    ensures var w' := Apply(w, s); var p := Permit(Some(w.nextToken), |w.log| + 1);
            && |w'.log| == |w.log| + 1 && w'.row.Some? && w'.row.value.version != w.row.value.version
            && w'.permits == w.permits + {p} && p !in w.permits
  {
    assert [s][0] == s && s.FinishClaim? && Enabled(w, s);
  }

  /** Of several concurrent claimers of one generation exactly one gets a permit. */
  lemma ExactlyOneClaimWins(w: World, steps: seq<Step>)
    requires Inv(w) && steps != [] && ClaimsOf(w, steps)
    ensures var w' := Run(w, steps);
            && |w'.log| == |w.log| + 1
            && w'.permits == w.permits + {Permit(Some(w.nextToken), |w.log| + 1)}
            && Permit(Some(w.nextToken), |w.log| + 1) !in w.permits
  {
    FirstClaimWins(w, steps[0]);
    forall i | 0 <= i < |steps| - 1 ensures steps[1..][i].FinishClaim? && steps[1..][i].read.ClaimRead?
      && steps[1..][i].read.version == w.row.value.version
    {
      assert Enabled(w, steps[i + 1]);
    }
    LateClaimsLose(Apply(w, steps[0]), steps[1..], w.row.value.version);
  }

  /** A success is accepted only if nothing at all was written since its permit was
      issued, so it never erases a failure recorded after its admission. A permit that names
      an older generation than that of its issue is never accepted. */
  lemma LateSuccessErasesNothing(w: World, steps: seq<Step>, p: Permit, outcome: string, now: int, cooldown: Option<int>)
    requires Inv(w) && p in w.permits && IsSuccess(outcome)
    requires var w' := Run(w, steps); Apply(w', Record(p, outcome, now, cooldown)).log != w'.log
    ensures Run(w, steps).log == w.log && p.version == |w.log|
  {
    RunGrows(w, steps);
    RunKeepsInv(w, steps);
  }

  /** Every permit names the generation of the moment it is issued, except that the worker
      whose admission inserted the row gets one for generation 0. */
  lemma PermitsNameTheirGeneration(w: World, s: Step, p: Permit)
    requires Inv(w) && p !in w.permits && p in Apply(w, s).permits
    ensures p.version == if s == FinishClosed(true) then 0 else |Apply(w, s).log|
  {
    StepKeepsInv(w, s);
  }

  // ---------- opening, recovery ----------

  /** The steps that hand out a permit. */
  predicate Issues(w: World, s: Step) {
    && Enabled(w, s)
    && (s.FinishClosed? || (s.FinishClaim? && ClaimMatches(w.row.value, s.read.status, s.read.version, s.read.at)))
  }

  function Issued(w: World, steps: seq<Step>): nat
    decreases |steps|
  {
    if steps == [] then 0 else (if Issues(w, steps[0]) then 1 else 0) + Issued(Apply(w, steps[0]), steps[1..])
  }

  lemma OpenRefusesOutcomes(row: Row, p: Permit, outcome: string, now: int, cooldown: Option<int>)
    requires row.status == Open
    ensures Recorded(row, p, outcome, now, cooldown).None?
  {
  }

  lemma OpenStep(w: World, s: Step)
    requires Inv(w) && w.row.Some? && w.row.value.status == Open
    ensures var w' := Apply(w, s);
            || (w'.log == w.log && w'.row == w.row)
            || (w'.log == w.log + [w'.log[|w.log|]] && w'.log[|w.log|].Claim?
                && w'.log[|w.log|].at >= w.row.value.nextProbeAt.value)
  {
    if s.Record? {
      OpenRefusesOutcomes(w.row.value, s.permit, s.outcome, s.now, s.cooldownParam);
    } else if s.FinishClaim? && Enabled(w, s) {
      var e := Claim(w.nextToken, s.read.at, s.read.at + s.ttl);
      assert (w.log + [e])[|w.log|] == e;
    }
  }

  /** The cooldown of an open circuit has not passed. */
  predicate Cooling(w: World) {
    && w.row.Some? && w.row.value.status == Open
    && w.row.value.nextProbeAt.Some? && w.clock < w.row.value.nextProbeAt.value
  }

  /** The workers that read the circuit closed and have yet to finish. */
  function ClosedReads(w: World): nat {
    w.pending[ClosedRead(true)] + w.pending[ClosedRead(false)]
  }

  /** The permits a cooling circuit may still hand out, to workers that read it closed. */
  predicate OnlyClosedPermits(w: World, w': World) {
    forall p :: p in w'.permits ==> p in w.permits || p == Permit(None, |w.log|) || p == Permit(None, 0)
  }

  predicate StaysCooling(w: World, w': World) {
    w'.log == w.log && w'.row == w.row && w'.clock >= w.clock && OnlyClosedPermits(w, w')
  }

  lemma CoolingFinish(w: World, inserted: bool)
    requires Inv(w) && Cooling(w) && ClosedRead(inserted) in w.pending
    ensures var w' := Apply(w, FinishClosed(inserted));
            StaysCooling(w, w') && ClosedReads(w) == 1 + ClosedReads(w')
  {
    var w' := Apply(w, FinishClosed(inserted));
    assert w'.permits == w.permits + {Permit(None, if inserted then 0 else w.row.value.version)};
    assert w'.pending[ClosedRead(!inserted)] == w.pending[ClosedRead(!inserted)];
  }

  /** A claim read before the circuit opened again is too old, and one read since is not due. */
  lemma CoolingClaim(w: World, read: Read, ttl: int)
    requires Inv(w) && Cooling(w) && Enabled(w, FinishClaim(read, ttl))
    ensures var w' := Apply(w, FinishClaim(read, ttl));
            && w' == w.(pending := w.pending - multiset{read}) && ClosedReads(w) == ClosedReads(w')
            && !Issues(w, FinishClaim(read, ttl))
  {
    assert ReadIsCurrent(read, w);
    assert !ClaimMatches(w.row.value, read.status, read.version, read.at);
  }

  lemma CoolingStep(w: World, s: Step)
    requires Inv(w) && Cooling(w)
    ensures var w' := Apply(w, s);
            StaysCooling(w, w') && ClosedReads(w) == (if Issues(w, s) then 1 else 0) + ClosedReads(w')
  {
    if Enabled(w, s) {
      match s
      case Tick(_) =>
      case BeginAdmit(_, _) => assert Apply(w, s) == w;
      case FinishClosed(inserted) => CoolingFinish(w, inserted);
      case FinishClaim(read, ttl) => CoolingClaim(w, read, ttl);
      case Record(p, outcome, now, cooldown) =>
        OpenRefusesOutcomes(w.row.value, p, outcome, now, cooldown);
        assert Apply(w, s) == w;
    }
  }

  /** While the circuit is open no admission that reads it then is granted before its
      cooldown has passed: the row does not move, every read is refused, and each permit
      handed out uses up one closed read that was already pending. The next accepted write
      is a probe claim made at or after that time. */
  lemma {:induction false} OpenCircuitHolds(w: World, steps: seq<Step>)
    requires Inv(w) && w.row.Some? && w.row.value.status == Open
    ensures var w' := Run(w, steps); var until := w.row.value.nextProbeAt.value;
            && (w'.clock < until ==>
                  && w'.row == w.row && w'.log == w.log && Decide(w'.row.value, w'.clock) == Deny
                  && Issued(w, steps) + ClosedReads(w') == ClosedReads(w)
                  && OnlyClosedPermits(w, w'))
            && (w'.log != w.log ==> |w.log| < |w'.log| && w'.log[|w.log|].Claim? && until <= w'.log[|w.log|].at <= w'.clock)
    decreases |steps|
  {
    RunKeepsInv(w, steps);
    RunGrows(w, steps);
    if steps != [] {
      var w1 := Apply(w, steps[0]);
      OpenStep(w, steps[0]);
      StepKeepsInv(w, steps[0]);
      RunGrows(w1, steps[1..]);
      if w1.log == w.log {
        OpenCircuitHolds(w1, steps[1..]);
      } else {
        assert Run(w, steps).log[|w.log|] == w1.log[|w.log|];
      }
      if Cooling(w) {
        CoolingStep(w, steps[0]);
      }
    }
  }

  /** So inside the cooldown a permit can be handed out exactly if a worker that read the
      circuit closed has yet to finish: this is decided when the circuit opens. */
  lemma PermitWhileCoolingIff(w: World)
    requires Inv(w) && Cooling(w)
    ensures (exists steps :: Run(w, steps).clock < w.row.value.nextProbeAt.value && Issued(w, steps) > 0) <==> ClosedReads(w) > 0
  {
    if ClosedReads(w) > 0 {
      var finish := FinishClosed(ClosedRead(true) in w.pending);
      var steps := [finish];
      CoolingStep(w, finish);
      assert steps[1..] == [] && Run(w, steps) == Apply(w, finish);
      assert Issued(w, steps) == 1;
    }
    forall steps | Run(w, steps).clock < w.row.value.nextProbeAt.value && Issued(w, steps) > 0
      ensures ClosedReads(w) > 0
    {
      OpenCircuitHolds(w, steps);
    }
  }

  /** The opening failure fixes that time: its own time plus the row's cooldown, or the one it
      is given. */
  lemma OpeningSetsCooldown(w: World, p: Permit, outcome: string, now: int, cooldown: Option<int>)
    requires Inv(w) && w.row.Some?
    requires var w' := Apply(w, Record(p, outcome, now, cooldown));
             w'.log != w.log && w'.row.value.status == Open
    ensures var until := Apply(w, Record(p, outcome, now, cooldown)).row.value.nextProbeAt;
            && (cooldown == None || cooldown == Some(0) ==> until == Some(now + w.row.value.cooldown))
            && (cooldown.Some? && cooldown.value >= 1 ==> until == Some(now + cooldown.value))
            && (cooldown.Some? && cooldown.value < 0 ==> until == Some(now + 1))
  {
  }

  lemma {:induction false} RunAnd(w: World, steps: seq<Step>, s: Step)
    ensures Run(w, steps + [s]) == Apply(Run(w, steps), s)
    decreases |steps|
  {
    if steps == [] {
      assert [s][1..] == [] && Run(w, [s]) == Run(Apply(w, s), []);
    } else {
      assert (steps + [s])[1..] == steps[1..] + [s];
      RunAnd(Apply(w, steps[0]), steps[1..], s);
    }
  }

  lemma TwoReaders(clock: int, cooldown: int)
    requires cooldown >= 1
    ensures var begin := BeginAdmit(1, cooldown);
            var w := Run(Init(true, clock), [begin, begin, FinishClosed(true)]);
            && w.row == Some(NewRow(1, cooldown)) && w.clock == clock
            && w.permits == {Permit(None, 0)} && w.pending == multiset{ClosedRead(false)}
  {
    var w0, begin := Init(true, clock), BeginAdmit(1, cooldown);
    RunAnd(w0, [], begin);
    RunAnd(w0, [begin], begin);
    RunAnd(w0, [begin, begin], FinishClosed(true));
    assert [] + [begin] == [begin] && [begin] + [begin] == [begin, begin];
    assert [begin, begin] + [FinishClosed(true)] == [begin, begin, FinishClosed(true)];
  }

  lemma FailureOpens(w: World, cooldown: int)
    requires w.row == Some(NewRow(1, cooldown)) && cooldown >= 1
    requires w.permits == {Permit(None, 0)} && ClosedRead(false) in w.pending
    ensures var w' := Apply(w, Record(Permit(None, 0), "failed", w.clock, None));
            && Cooling(w') && w'.clock == w.clock && w'.permits == w.permits
            && Apply(w', FinishClosed(false)).permits == w'.permits + {Permit(None, 1)}
  {
    assert Normalize("failed") == "failed" && !IsSuccess("failed");
  }

  /** It does happen: two workers read a new circuit closed, the failure of the first opens
      it, and the second still gets its permit although the cooldown has not passed. */
  lemma ClosedReadPassesOpenCircuit(clock: int, cooldown: int)
    requires cooldown >= 1
    ensures exists steps :: var w := Run(Init(true, clock), steps);
              && Cooling(w) && w.clock == clock
              && Apply(w, FinishClosed(false)).permits == w.permits + {Permit(None, 1)} && Permit(None, 1) !in w.permits
  {
    var w0, begin := Init(true, clock), BeginAdmit(1, cooldown);
    var opening, failure := [begin, begin, FinishClosed(true)], Record(Permit(None, 0), "failed", clock, None);
    TwoReaders(clock, cooldown);
    FailureOpens(Run(w0, opening), cooldown);
    RunAnd(w0, opening, failure);
    assert Cooling(Run(w0, opening + [failure]));
  }

  /** The time from which an admission succeeds. */
  function ReadyAt(row: Row): int {
    match row.status
    case Closed => 0
    case Open => if row.nextProbeAt.Some? then row.nextProbeAt.value else 0
    case HalfOpen => if row.probeExpiresAt.Some? then row.probeExpiresAt.value else 0
  }

  /** A crashed prober never strands the circuit: from every reachable state an admission
      succeeds once its time has come, and a success recorded on it in time closes it. */
  lemma CircuitNeverStranded(durable: bool, clock: int, steps: seq<Step>, now: int, ttl: int, token: nat, done: int)
    requires Run(Init(durable, clock), steps).row.Some?
    requires now <= done < now + ttl
    requires var row := Run(Init(durable, clock), steps).row.value; row.status != Closed ==> now >= ReadyAt(row)
    ensures var row := Run(Init(durable, clock), steps).row.value;
            && Decide(row, now) != Deny
            && (Decide(row, now) == TryClaim ==>
                  && ClaimMatches(row, row.status, row.version, now)
                  && var closed := Recorded(Claimed(row, now, ttl, token), Permit(Some(token), row.version + 1), "success", done, None);
                     closed.Some? && closed.value.status == Closed && closed.value.failures == 0)
  {
    RunKeepsInv(Init(durable, clock), steps);
  }

  /** The step that finishes an admission begun at once. */
  function Finishing(row: Row, now: int): Step {
    if row.status == Closed then FinishClosed(false) else FinishClaim(ClaimRead(row.status, row.version, now), 1)
  }

  function PermitOf(row: Row, token: nat): Permit {
    if row.status == Closed then Permit(None, row.version) else Permit(Some(token), row.version + 1)
  }

  lemma SuccessCloses(w: World, p: Permit)
    requires w.row.Some? && p in w.permits && SuccessMatches(w.row.value, p, w.clock)
    ensures Apply(w, Record(p, "success", w.clock, None)).row == Some(Succeeded(w.row.value))
  {
    assert Normalize("success") == "success" && IsSuccess("success");
  }

  lemma BegunAdmission(w: World) returns (w1: World)
    requires Inv(w) && w.row.Some?
    requires w.row.value.status != Closed ==> w.clock >= ReadyAt(w.row.value)
    ensures w1 == Apply(w, BeginAdmit(1, 1)) && Enabled(w1, Finishing(w.row.value, w.clock))
    ensures w1 == w.(pending := w1.pending)
  {
    w1 := Apply(w, BeginAdmit(1, 1));
    var read := if w.row.value.status == Closed then ClosedRead(false) else ClaimRead(w.row.value.status, w.row.value.version, w.clock);
    assert w1 == w.(pending := w.pending + multiset{read});
    assert read in w1.pending;
  }

  lemma FinishedAdmission(w: World)
    requires Inv(w) && w.row.Some? && Enabled(w, Finishing(w.row.value, w.clock))
    requires w.row.value.status != Closed ==> w.clock >= ReadyAt(w.row.value)
    ensures var w' := Apply(w, Finishing(w.row.value, w.clock)); var p := PermitOf(w.row.value, w.nextToken);
            p in w'.permits && w'.row.Some? && SuccessMatches(w'.row.value, p, w'.clock)
  {
    var row := w.row.value;
    if row.status != Closed {
      assert ClaimMatches(row, row.status, row.version, w.clock);
      assert Apply(w, Finishing(row, w.clock)).row == Some(Claimed(row, w.clock, 1, w.nextToken));
    }
  }

  /** The wait after which an admission succeeds. */
  function Wait(w: World): nat
    requires w.row.Some?
  {
    if w.clock >= ReadyAt(w.row.value) then 0 else ReadyAt(w.row.value) - w.clock
  }

  lemma Recovers(w: World) returns (more: seq<Step>, p: Permit)
    requires Inv(w) && w.row.Some?
    ensures var w' := Run(w, more);
            p in w'.permits && w'.row.Some? && SuccessMatches(w'.row.value, p, w'.clock)
  {
    var w1 := Apply(w, Tick(Wait(w)));
    StepKeepsInv(w, Tick(Wait(w)));
    var w2 := BegunAdmission(w1);
    StepKeepsInv(w1, BeginAdmit(1, 1));
    FinishedAdmission(w2);
    p := PermitOf(w2.row.value, w2.nextToken);
    var last := Finishing(w2.row.value, w2.clock);
    more := [Tick(Wait(w))] + [BeginAdmit(1, 1)] + [last];
    RunAnd(w, [], Tick(Wait(w)));
    RunAnd(w, [] + [Tick(Wait(w))], BeginAdmit(1, 1));
    assert [] + [Tick(Wait(w))] == [Tick(Wait(w))];
    RunAnd(w, [Tick(Wait(w))] + [BeginAdmit(1, 1)], last);
  }

  /** And as a run: from every reachable world with a row there are steps after which a permit
      is issued and a success recorded on it closes the circuit. */
  lemma RecoveryIsReachable(durable: bool, clock: int, steps: seq<Step>)
    requires Run(Init(durable, clock), steps).row.Some?
    ensures exists more, p :: var w := Run(Run(Init(durable, clock), steps), more);
              && p in w.permits
              && var w' := Apply(w, Record(p, "success", w.clock, None));
                 w'.row.Some? && w'.row.value.status == Closed && w'.row.value.failures == 0
  {
    RunKeepsInv(Init(durable, clock), steps);
    var more, p := Recovers(Run(Init(durable, clock), steps));
    var w := Run(Run(Init(durable, clock), steps), more);
    SuccessCloses(w, p);
  }

  // ---------- the first row ----------

  lemma {:induction false} FirstRow(w: World, steps: seq<Step>)
    requires Inv(w) && w.row.None?
    ensures var w' := Run(w, steps);
            w'.row.Some? <==> w.durable && exists i :: 0 <= i < |steps| && steps[i].BeginAdmit? && Enabled(w, steps[i])
    decreases |steps|
  {
    if steps != [] {
      var w1 := Apply(w, steps[0]);
      StepKeepsInv(w, steps[0]);
      assert w1.durable == w.durable;
      assert forall i :: 0 < i < |steps| ==> steps[i] == steps[1..][i - 1];
      if w1.row.Some? {
        RunGrows(w1, steps[1..]);
        assert steps[0].BeginAdmit? && Enabled(w, steps[0]);
      } else {
        FirstRow(w1, steps[1..]);
        assert forall s: Step :: s.BeginAdmit? ==> Enabled(w1, s) == Enabled(w, s);
        if w.durable && exists i :: 0 <= i < |steps| && steps[i].BeginAdmit? && Enabled(w, steps[i]) {
          var i :| 0 <= i < |steps| && steps[i].BeginAdmit? && Enabled(w, steps[i]);
          assert steps[1..][i - 1].BeginAdmit? && Enabled(w1, steps[1..][i - 1]);
        }
      }
    }
  }

  /** The admission that creates the row is a closed one, and it rolls its session back.
      So after an admission there is a row exactly if the driver keeps released
      savepoints; otherwise no outcome is ever accepted and every admission is granted. */
  lemma BreakerWorksIffSavepointsDurable(durable: bool, clock: int, steps: seq<Step>)
    requires exists i :: 0 <= i < |steps| && steps[i].BeginAdmit? && Enabled(Init(durable, clock), steps[i])
    ensures var w := Run(Init(durable, clock), steps);
            && (w.row.Some? <==> durable)
            && (!durable ==>
                  && w.log == []
                  && (forall p, outcome, now, cooldown :: Apply(w, Record(p, outcome, now, cooldown)) == w)
                  && (forall threshold, cooldown | threshold >= 1 && cooldown >= 1 ::
                        ClosedRead(true) in Apply(w, BeginAdmit(threshold, cooldown)).pending))
  {
    RunKeepsInv(Init(durable, clock), steps);
    FirstRow(Init(durable, clock), steps);
  }
}
