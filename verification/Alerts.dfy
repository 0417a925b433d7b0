/** The firing and rearming of one alert rule. An evaluation hands the rule the candidate
    events whose condition holds; without candidates the condition is clear. */
module Alerts {
  import opened Sql

  datatype Evaluated = Clear | Fired | Suppressed | Rearmed

  datatype Memory = Memory(state: Evaluated, lastFiredAt: Option<int>, lastFingerprint: Option<nat>)

  const NEW_RULE: Memory := Memory(Clear, None, None)

  function CooldownSeconds(minutes: int): int {
    60 * AtLeastOne(if minutes == 0 then 60 else minutes)
  }

  function CooldownUntil(m: Memory, minutes: int): Option<int> {
    if m.lastFiredAt.Some? then Some(m.lastFiredAt.value + CooldownSeconds(minutes)) else None
  }

  function AfterClear(m: Memory): Memory {
    Memory(if m.lastFiredAt.Some? then Rearmed else Clear, None, None)
  }

  /** Whether a candidate with this fingerprint becomes an event. */
  predicate Fires(m: Memory, minutes: int, fingerprint: nat, now: int, known: set<nat>) {
    && m.state != Fired && m.state != Suppressed
    && fingerprint !in known && m.lastFingerprint != Some(fingerprint)
    && !After(CooldownUntil(m, minutes), now)
  }

  function AfterCandidate(m: Memory, minutes: int, fingerprint: nat, now: int, known: set<nat>): Memory {
    if Fires(m, minutes, fingerprint, now, known) then Memory(Fired, Some(now), Some(fingerprint))
    else m.(state := Suppressed)
  }

  function AfterCandidates(m: Memory, minutes: int, fs: seq<nat>, now: int, known: set<nat>): Memory {
    if fs == [] then m
    else
      var before := AfterCandidates(m, minutes, fs[..|fs| - 1], now, known);
      AfterCandidate(before, minutes, fs[|fs| - 1], now, known)
  }

  function CreatedFrom(m: Memory, minutes: int, fs: seq<nat>, now: int, known: set<nat>): seq<nat> {
    if fs == [] then []
    else
      var rest, last := fs[..|fs| - 1], fs[|fs| - 1];
      CreatedFrom(m, minutes, rest, now, known)
      + (if Fires(AfterCandidates(m, minutes, rest, now, known), minutes, last, now, known) then [last] else [])
  }

  datatype Evaluation = Evaluation(now: int, candidates: seq<nat>, known: set<nat>)

  function AfterEvaluation(m: Memory, minutes: int, e: Evaluation): Memory {
    if e.candidates == [] then AfterClear(m) else AfterCandidates(m, minutes, e.candidates, e.now, e.known)
  }

  function Created(m: Memory, minutes: int, e: Evaluation): seq<nat> {
    if e.candidates == [] then [] else CreatedFrom(m, minutes, e.candidates, e.now, e.known)
  }

  /** The first candidate decides, by the columns of the rule. */
  lemma {:induction false} CandidateColumns(m: Memory, minutes: int, fs: seq<nat>, now: int, known: set<nat>)
    requires fs != []
    ensures
      var fires := && m.state != Fired && m.state != Suppressed && fs[0] !in known && m.lastFingerprint != Some(fs[0])
                   && (m.lastFiredAt.Some? ==>
                         m.lastFiredAt.value + 60 * (if minutes == 0 then 60 else if minutes < 1 then 1 else minutes) <= now);
      && CreatedFrom(m, minutes, fs, now, known) == (if fires then [fs[0]] else [])
      && AfterCandidates(m, minutes, fs, now, known)
         == Memory(if fires && |fs| == 1 then Fired else Suppressed,
                   if fires then Some(now) else m.lastFiredAt, if fires then Some(fs[0]) else m.lastFingerprint)
  {
    if |fs| == 1 {
      assert fs[..|fs| - 1] == [];
    } else {
      CandidateColumns(m, minutes, fs[..|fs| - 1], now, known);
    }
  }

  class AlertRule {
    var memory: Memory
    const cooldownMinutes: int

    constructor (cooldownMinutes: int)
      ensures memory == NEW_RULE && this.cooldownMinutes == cooldownMinutes
    {
      memory := NEW_RULE;
      this.cooldownMinutes := cooldownMinutes;
    }

    method Rearm()
      modifies this
      ensures memory == AfterClear(old(memory))
      ensures memory.state == (if old(memory).lastFiredAt.Some? then Rearmed else Clear)
      ensures memory.lastFiredAt == None && memory.lastFingerprint == None
    {
      var state := if memory.lastFiredAt.Some? then Rearmed else Clear;
      memory := Memory(state, None, None);
    }

    /** `known` holds the fingerprints of the events stored before the evaluation. */
    method FinalizeCandidates(candidates: seq<nat>, now: int, known: set<nat>) returns (created: seq<nat>)
      modifies this
      ensures memory == AfterCandidates(old(memory), cooldownMinutes, candidates, now, known)
      ensures created == CreatedFrom(old(memory), cooldownMinutes, candidates, now, known)
      // The first candidate becomes an event if the rule is not fired or suppressed, its
      // fingerprint is new, and the rule is not cooling down; then the rule remembers it.
      ensures candidates == [] ==> created == [] && memory == old(memory)
      ensures candidates != [] ==>
        var before, minutes := old(memory), if cooldownMinutes == 0 then 60 else if cooldownMinutes < 1 then 1 else cooldownMinutes;
        var first := candidates[0];
        && (created == [first] || created == [])
        && (created != [] <==>
              && before.state != Fired && before.state != Suppressed && first !in known && before.lastFingerprint != Some(first)
              && (before.lastFiredAt.Some? ==> before.lastFiredAt.value + 60 * minutes <= now))
        && memory.lastFiredAt == (if created != [] then Some(now) else before.lastFiredAt)
        && memory.lastFingerprint == (if created != [] then Some(first) else before.lastFingerprint)
        && memory.state == if created != [] && |candidates| == 1 then Fired else Suppressed
    {
      if candidates != [] {
        CandidateColumns(memory, cooldownMinutes, candidates, now, known);
      }
      created := [];
      for i := 0 to |candidates|
        invariant memory == AfterCandidates(old(memory), cooldownMinutes, candidates[..i], now, known)
        invariant created == CreatedFrom(old(memory), cooldownMinutes, candidates[..i], now, known)
      {
        assert candidates[..i + 1][..i] == candidates[..i];
        var fingerprint := candidates[i];
        var cooldownUntil := CooldownUntil(memory, cooldownMinutes);
        if memory.state == Fired || memory.state == Suppressed {
          memory := memory.(state := Suppressed);
          continue;
        }
        if fingerprint in known || memory.lastFingerprint == Some(fingerprint) {
          memory := memory.(state := Suppressed);
          continue;
        }
        if cooldownUntil.Some? && now < cooldownUntil.value {
          memory := memory.(state := Suppressed);
          continue;
        }
        memory := Memory(Fired, Some(now), Some(fingerprint));
        created := created + [fingerprint];
      }
      assert candidates[..|candidates|] == candidates;
    }

    method Evaluate(e: Evaluation) returns (created: seq<nat>)
      modifies this
      ensures memory == AfterEvaluation(old(memory), cooldownMinutes, e)
      ensures created == Created(old(memory), cooldownMinutes, e)
    {
      if e.candidates == [] {
        Rearm();
      }
      created := FinalizeCandidates(e.candidates, e.now, e.known);
    }
  }

  // ---------- sequences of evaluations ----------

  function MemoryAfter(minutes: int, trace: seq<Evaluation>): Memory {
    if trace == [] then NEW_RULE
    else AfterEvaluation(MemoryAfter(minutes, trace[..|trace| - 1]), minutes, trace[|trace| - 1])
  }

  /** The condition holds at evaluation `i` and did not hold at the one before. */
  predicate RisingEdge(trace: seq<Evaluation>, i: nat)
    requires i < |trace|
  {
    trace[i].candidates != [] && (i > 0 ==> trace[i - 1].candidates == [])
  }

  predicate FreshEdge(trace: seq<Evaluation>, i: nat)
    requires i < |trace|
  {
    RisingEdge(trace, i) && trace[i].candidates[0] !in trace[i].known
  }

  /** Whether the condition has fired since it last was clear. */
  predicate FiredSinceClear(trace: seq<Evaluation>) {
    trace != [] && trace[|trace| - 1].candidates != []
    && (FreshEdge(trace, |trace| - 1) || FiredSinceClear(trace[..|trace| - 1]))
  }

  /** After the first candidate the rule is fired or suppressed, so only that one counts. */
  lemma {:induction false} OnlyFirstCandidateCounts(m: Memory, minutes: int, fs: seq<nat>, now: int, known: set<nat>)
    requires fs != []
    ensures CreatedFrom(m, minutes, fs, now, known) == if Fires(m, minutes, fs[0], now, known) then [fs[0]] else []
    ensures var m' := AfterCandidates(m, minutes, fs, now, known);
            && (m'.state == Fired || m'.state == Suppressed)
            && m'.lastFiredAt == (if Fires(m, minutes, fs[0], now, known) then Some(now) else m.lastFiredAt)
  {
    if |fs| == 1 {
      assert fs[..|fs| - 1] == [];
    } else {
      OnlyFirstCandidateCounts(m, minutes, fs[..|fs| - 1], now, known);
    }
  }

  /** What the rule remembers is a function of the evaluations: it is fired or suppressed
      exactly while the condition holds, it has a firing time exactly if the condition fired
      since it was last clear, and it is rearmed exactly when such a condition just cleared. */
  lemma {:induction false} MemoryReflectsTrace(minutes: int, trace: seq<Evaluation>)
    ensures var m := MemoryAfter(minutes, trace);
            && (m.state == Fired || m.state == Suppressed <==> trace != [] && trace[|trace| - 1].candidates != [])
            && (m.lastFiredAt.Some? <==> FiredSinceClear(trace))
            && (m.state == Rearmed <==> trace != [] && trace[|trace| - 1].candidates == [] && FiredSinceClear(trace[..|trace| - 1]))
            && (m.lastFiredAt.None? && m.state != Suppressed ==> m.lastFingerprint.None?)
            && (m.state != Fired && m.state != Suppressed ==> m.lastFiredAt.None? && m.lastFingerprint.None?)
  {
    if trace != [] {
      var rest, e := trace[..|trace| - 1], trace[|trace| - 1];
      MemoryReflectsTrace(minutes, rest);
      if e.candidates != [] {
        OnlyFirstCandidateCounts(MemoryAfter(minutes, rest), minutes, e.candidates, e.now, e.known);
        assert |trace| > 1 ==> trace[|trace| - 2] == rest[|rest| - 1];
      }
    }
  }

  /** Over any sequence of evaluations an event is created exactly at the rising edges of
      the condition whose fingerprint is new, and it is the first candidate. Neither the
      cooldown nor the remembered fingerprint ever decides. */
  lemma EventsAtFreshRisingEdges(minutes: int, trace: seq<Evaluation>, i: nat)
    requires i < |trace|
    ensures Created(MemoryAfter(minutes, trace[..i]), minutes, trace[i])
            == if FreshEdge(trace, i) then [trace[i].candidates[0]] else []
    ensures var m := MemoryAfter(minutes, trace[..i]);
            m.state != Fired && m.state != Suppressed ==> CooldownUntil(m, minutes) == None && m.lastFingerprint == None
  {
    MemoryReflectsTrace(minutes, trace[..i]);
    if trace[i].candidates != [] {
      OnlyFirstCandidateCounts(MemoryAfter(minutes, trace[..i]), minutes, trace[i].candidates, trace[i].now, trace[i].known);
      assert i > 0 ==> trace[i - 1] == trace[..i][i - 1];
    }
  }

  /** Between two events there is always a clear evaluation. */
  lemma ClearBetweenEvents(minutes: int, trace: seq<Evaluation>, i: nat, j: nat)
    requires i < j < |trace|
    requires Created(MemoryAfter(minutes, trace[..i]), minutes, trace[i]) != []
    requires Created(MemoryAfter(minutes, trace[..j]), minutes, trace[j]) != []
    ensures exists k :: i < k < j && trace[k].candidates == []
  {
    EventsAtFreshRisingEdges(minutes, trace, i);
    EventsAtFreshRisingEdges(minutes, trace, j);
    assert RisingEdge(trace, i) && trace[j - 1].candidates == [];
  }
}
