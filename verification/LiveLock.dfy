/** The lock under which one worker refreshes a live flight. Unlike the sweep lease it is
    held and released by token alone, and a held lock is the cooldown after a refresh. */
module LiveLock {
  import opened Sql

  datatype LockRow = LockRow(token: nat, acquiredAt: int, expiresAt: int, outcome: Option<string>)

  type Locks = map<string, LockRow>

  function HasToken(rows: Locks, token: nat): set<string> {
    set f | f in rows && rows[f].token == token
  }

  /** Inserted, or taken over: both write the same row. */
  function Taken(now: int, ttl: int, token: nat): LockRow {
    LockRow(token, now, now + ttl, None)
  }

  predicate Free(rows: Locks, flight: string, now: int) {
    flight !in rows || rows[flight].expiresAt <= now
  }

  function Held(rows: Locks, token: nat, outcome: string, now: int, ttl: int): Locks {
    map f | f in rows :: if rows[f].token == token then rows[f].(outcome := Some(outcome), expiresAt := now + ttl) else rows[f]
  }

  function WithoutToken(rows: Locks, token: nat): Locks {
    map f | f in rows && rows[f].token != token :: rows[f]
  }

  predicate OnlyWith(rows: Locks, token: nat, flight: string)
    requires flight in rows
  {
    rows[flight].token == token && forall f :: f in rows && f != flight ==> rows[f].token != token
  }

  lemma OneWithToken(rows: Locks, token: nat)
    ensures |HasToken(rows, token)| == 1 <==> exists f :: f in rows && OnlyWith(rows, token, f)
    ensures forall f :: f in rows && OnlyWith(rows, token, f) ==>
              && WithoutToken(rows, token) == rows - {f}
              && forall outcome, now, ttl ::
                   Held(rows, token, outcome, now, ttl) == rows[f := LockRow(token, rows[f].acquiredAt, now + ttl, Some(outcome))]
  {
    var with := HasToken(rows, token);
    if |with| == 1 {
      var f :| f in with;
      assert |with - {f}| == 0;
      forall g | g in rows && g != f ensures rows[g].token != token {
        assert g !in with - {f};
      }
      assert OnlyWith(rows, token, f);
    }
    if f :| f in rows && OnlyWith(rows, token, f) {
      assert with == {f};
    }
  }

  class LockStore {
    var rows: Locks

    constructor ()
      ensures rows == map[]
    {
      rows := map[];
    }

    /** The expiry of the new lease, or None. */
    method Acquire(flight: string, now: int, ttlSeconds: int, token: nat) returns (expiry: Option<int>)
      modifies this
      ensures
        var row := Taken(now, AtLeastOne(ttlSeconds), token);
        if Free(old(rows), flight, now) then rows == old(rows)[flight := row] && expiry == Some(row.expiresAt)
        else rows == old(rows) && expiry == None
      ensures expiry.Some? <==> flight !in old(rows) || old(rows)[flight].expiresAt <= now
      ensures expiry.Some? ==>
                && expiry.value == now + (if ttlSeconds >= 1 then ttlSeconds else 1)
                && rows == old(rows)[flight := LockRow(token, now, expiry.value, None)]
    {
      var expiresAt := now + AtLeastOne(ttlSeconds);
      if flight !in rows {
        rows := rows[flight := LockRow(token, now, expiresAt, None)];
        return Some(expiresAt);
      }
      if rows[flight].expiresAt <= now {
        rows := rows[flight := rows[flight].(token := token, acquiredAt := now, expiresAt := expiresAt, outcome := None)];
        return Some(expiresAt);
      }
      expiry := None;
    }

    method CooldownOutcome(flight: string, now: int) returns (outcome: Option<string>)
      ensures outcome.Some? ==> !Free(rows, flight, now) && rows[flight].outcome == outcome
      ensures outcome.None? ==> Free(rows, flight, now) || rows[flight].outcome == None
    {
      outcome := if flight in rows && rows[flight].expiresAt > now then rows[flight].outcome else None;
    }

    /** Neither the hold nor the release tests the expiry. */
    method Hold(token: nat, outcome: string, now: int, ttlSeconds: int) returns (held: bool)
      modifies this
      ensures held <==> |HasToken(old(rows), token)| == 1
      ensures rows == if held then Held(old(rows), token, outcome, now, AtLeastOne(ttlSeconds)) else old(rows)
      // One lock has the token, and only that one changes: its outcome and its expiry.
      ensures held <==> exists f :: f in old(rows) && OnlyWith(old(rows), token, f)
      ensures forall f :: held && f in old(rows) && OnlyWith(old(rows), token, f) ==>
                var until := now + if ttlSeconds >= 1 then ttlSeconds else 1;
                rows == old(rows)[f := LockRow(token, old(rows)[f].acquiredAt, until, Some(outcome))]
    {
      OneWithToken(rows, token);
      held := |HasToken(rows, token)| == 1;
      if held {
        rows := Held(rows, token, outcome, now, AtLeastOne(ttlSeconds));
      }
    }

    method Release(token: nat) returns (released: bool)
      modifies this
      ensures released <==> |HasToken(old(rows), token)| == 1
      ensures rows == if released then WithoutToken(old(rows), token) else old(rows)
      ensures released <==> exists f :: f in old(rows) && OnlyWith(old(rows), token, f)
      ensures forall f :: released && f in old(rows) && OnlyWith(old(rows), token, f) ==> rows == old(rows) - {f}
    {
      OneWithToken(rows, token);
      released := |HasToken(rows, token)| == 1;
      if released {
        rows := WithoutToken(rows, token);
      }
    }
  }
}

/** Every interleaving of workers on the locks of all flights, with their history. */
module LiveLockRuns {
  import opened Sql
  import opened LiveLock

  datatype Step =
    | Tick(seconds: nat)
    | Acquire(flight: string, ttl: int)
    | Hold(token: nat, outcome: string, ttl: int)
    | Release(token: nat)

  /** Token `t` is the `t`-th successful acquisition, of flight `grants[t]`. */
  datatype World = World(rows: Locks, clock: int, grants: seq<string>, released: set<nat>)

  function Init(clock: int): World {
    World(map[], clock, [], {})
  }

  function Apply(w: World, s: Step): World {
    match s
    case Tick(seconds) => w.(clock := w.clock + seconds)
    case Acquire(flight, ttl) =>
      if Free(w.rows, flight, w.clock) then
        w.(rows := w.rows[flight := Taken(w.clock, AtLeastOne(ttl), |w.grants|)], grants := w.grants + [flight])
      else w
    case Hold(token, outcome, ttl) =>
      if |HasToken(w.rows, token)| == 1 then w.(rows := Held(w.rows, token, outcome, w.clock, AtLeastOne(ttl))) else w
    case Release(token) =>
      if |HasToken(w.rows, token)| == 1
      then w.(rows := WithoutToken(w.rows, token), released := w.released + {token})
      else w
  }

  function Run(w: World, steps: seq<Step>): World
    decreases |steps|
  {
    if steps == [] then w else Run(Apply(w, steps[0]), steps[1..])
  }

  /** Granted, not released, and nobody has taken the flight over since. */
  predicate Current(w: World, token: nat) {
    && token < |w.grants| && token !in w.released
    && forall later :: token < later < |w.grants| ==> w.grants[later] != w.grants[token]
  }

  /** The rows are the current tokens. */
  ghost predicate Inv(w: World) {
    && (forall f :: f in w.rows ==> Current(w, w.rows[f].token) && w.grants[w.rows[f].token] == f)
    && (forall t: nat :: Current(w, t) ==> w.grants[t] in w.rows && w.rows[w.grants[t]].token == t)
    && (forall t :: t in w.released ==> t < |w.grants|)
  }

  lemma RowsOfToken(w: World, token: nat)
    requires Inv(w)
    ensures |HasToken(w.rows, token)| == 1 <==> Current(w, token)
    ensures Current(w, token) ==> HasToken(w.rows, token) == {w.grants[token]}
  {
    var rows := HasToken(w.rows, token);
    if Current(w, token) {
      assert rows == {w.grants[token]};
    } else {
      assert rows == {};
    }
  }

  lemma AcquireKeepsInv(w: World, flight: string, ttl: int)
    requires Inv(w)
    ensures Inv(Apply(w, Acquire(flight, ttl)))
  {
    var w' := Apply(w, Acquire(flight, ttl));
    if w' != w {
      var n := |w.grants|;
      assert forall t: nat :: t < n ==> w'.grants[t] == w.grants[t];
      forall t: nat ensures Current(w', t) <==> t == n || (Current(w, t) && w.grants[t] != flight) {
        if Current(w', t) && t < n {
          assert w'.grants[n] != w'.grants[t];
          forall later | t < later < n ensures w.grants[later] != w.grants[t] {
            assert w'.grants[later] != w'.grants[t];
          }
        }
      }
    }
  }

  lemma StepKeepsInv(w: World, s: Step)
    requires Inv(w)
    ensures Inv(Apply(w, s))
  {
    match s
    case Tick(_) =>
    case Acquire(flight, ttl) => AcquireKeepsInv(w, flight, ttl);
    case Hold(token, _, _) => RowsOfToken(w, token);
    case Release(token) => RowsOfToken(w, token);
  }

  lemma {:induction false} RunKeepsInv(w: World, steps: seq<Step>)
    requires Inv(w)
    ensures Inv(Run(w, steps))
    decreases |steps|
  {
    if steps != [] {
      StepKeepsInv(w, steps[0]);
      RunKeepsInv(Apply(w, steps[0]), steps[1..]);
    }
  }

  /** In every run a token can hold or release its flight exactly while it is current,
      expired or not; at most one token of a flight is. */
  lemma TokenActsIffCurrent(clock: int, steps: seq<Step>, token: nat, other: nat, outcome: string, ttl: int)
    ensures var w := Run(Init(clock), steps);
            && (Current(w, token) <==> Apply(w, Release(token)) != w)
            && (!Current(w, token) ==> Apply(w, Hold(token, outcome, ttl)) == w)
            && (Current(w, token) ==>
                  var after := Apply(w, Hold(token, outcome, ttl));
                  && Current(after, token) && w.grants[token] in after.rows
                  && after.rows[w.grants[token]].expiresAt == w.clock + AtLeastOne(ttl)
                  && after.rows[w.grants[token]].outcome == Some(outcome)
                  && forall f :: f in w.rows && f != w.grants[token] ==> f in after.rows && after.rows[f] == w.rows[f])
            && (Current(w, token) && Current(w, other) && w.grants[token] == w.grants[other] ==> token == other)
  {
    var w := Run(Init(clock), steps);
    RunKeepsInv(Init(clock), steps);
    RowsOfToken(w, token);
    StepKeepsInv(w, Release(token));
  }

  /** Superseded or released, a token never acts again. */
  lemma {:induction false} SupersededForever(w: World, steps: seq<Step>, token: nat)
    requires Inv(w) && token < |w.grants| && !Current(w, token)
    ensures var w' := Run(w, steps);
            && Inv(w') && token < |w'.grants| && !Current(w', token)
            && Apply(w', Release(token)) == w'
            && forall outcome, ttl :: Apply(w', Hold(token, outcome, ttl)) == w'
    decreases |steps|
  {
    RowsOfToken(w, token);
    if steps != [] {
      StepKeepsInv(w, steps[0]);
      SupersededForever(Apply(w, steps[0]), steps[1..], token);
    }
  }

  predicate ByOthers(steps: seq<Step>, token: nat) {
    forall i :: 0 <= i < |steps| ==>
      !(steps[i].Hold? && steps[i].token == token) && !(steps[i].Release? && steps[i].token == token)
  }

  lemma StepOfAnother(w: World, s: Step, flight: string)
    requires Inv(w) && !Free(w.rows, flight, w.clock)
    requires !(s.Hold? && s.token == w.rows[flight].token) && !(s.Release? && s.token == w.rows[flight].token)
    ensures var w' := Apply(w, s); w'.clock >= w.clock && flight in w'.rows && w'.rows[flight] == w.rows[flight]
  {
  }

  lemma {:induction false} ClockAdvances(w: World, steps: seq<Step>)
    ensures Run(w, steps).clock >= w.clock
    decreases |steps|
  {
    if steps != [] {
      ClockAdvances(Apply(w, steps[0]), steps[1..]);
    }
  }

  /** Until it expires, a lease or a held cooldown is untouched by whatever others do, so
      acquisitions of the flight fail and its cooldown outcome is the one held; once it has
      expired, the next acquisition succeeds. */
  lemma {:induction false} LockedUntilExpiry(w: World, steps: seq<Step>, flight: string, ttl: int)
    requires Inv(w) && !Free(w.rows, flight, w.clock) && ByOthers(steps, w.rows[flight].token)
    ensures var w' := Run(w, steps);
            && (w'.clock < w.rows[flight].expiresAt ==>
                  flight in w'.rows && w'.rows[flight] == w.rows[flight] && Apply(w', Acquire(flight, ttl)) == w')
            && (flight in w'.rows && w'.rows[flight] == w.rows[flight] && w'.clock >= w.rows[flight].expiresAt ==>
                  Apply(w', Acquire(flight, ttl)).grants == w'.grants + [flight])
    decreases |steps|
  {
    if steps != [] {
      var next := Apply(w, steps[0]);
      StepKeepsInv(w, steps[0]);
      StepOfAnother(w, steps[0], flight);
      ClockAdvances(next, steps[1..]);
      if next.clock < w.rows[flight].expiresAt {
        assert ByOthers(steps[1..], w.rows[flight].token);
        LockedUntilExpiry(next, steps[1..], flight, ttl);
      }
    }
  }

  /** An expired holder may still extend its lock, and whether it can is decided by whether
      another worker acquires the flight first. */
  lemma LateHolderAndSuccessor(w: World, token: nat, outcome: string, ttl: int, ttl': int)
    requires Inv(w) && Current(w, token) && w.rows[w.grants[token]].expiresAt <= w.clock
    ensures var flight := w.grants[token]; var held := Apply(w, Hold(token, outcome, ttl));
            var taken := Apply(w, Acquire(flight, ttl'));
            && !Free(held.rows, flight, held.clock) && Apply(held, Acquire(flight, ttl')) == held
            && Current(taken, |w.grants|) && Apply(taken, Hold(token, outcome, ttl)) == taken
  {
    RowsOfToken(w, token);
    var taken := Apply(w, Acquire(w.grants[token], ttl'));
    AcquireKeepsInv(w, w.grants[token], ttl');
    assert taken.grants[|w.grants|] == taken.grants[token];
    RowsOfToken(taken, token);
  }
}
