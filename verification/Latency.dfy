/** The bounded latency accumulator of one provider run, and its rows in the database. */
module Latency {
  import opened Sql

  const PROVIDERS: set<string> := {"mock", "local_scrape", "makcorps", "osm_overpass", "local", "unknown"}
  const OPERATIONS: set<string> := {"ingestion", "revalidation", "area_search", "detail", "rates", "search"}
  const OUTCOMES: set<string> := {"success", "empty", "partial", "rate_limited", "timeout", "unavailable", "unsupported",
                                  "invalid_response", "failed", "unknown"}
  const ERROR_CODES: set<string> := {"timeout", "rate_limited", "network_error", "provider_5xx", "unavailable", "failed",
                                     "provider_error", "provider_unavailable", "provider_fetch_failed", "provider_timeout",
                                     "invalid_response", "schema_drift", "rate_without_currency", "hotel_ambiguous",
                                     "partial_batch", "unknown"}
  const MAX_DURATION: int := 3_600_000
  const MAX_GROUPS: int := 1_000
  const MAX_SAMPLES: int := 100_000
  const MAX_TOTAL: int := 360_000_000_000

  datatype Sample = Sample(provider: string, operation: string, outcome: string, duration: int, errorCode: Option<string>)

  datatype Key = Key(provider: string, operation: string, outcome: string, errorCode: string)

  datatype Group = Group(count: int, total: int, min: int, max: int)

  type Groups = map<Key, Group>

  datatype Verdict =
    | Accepted
    | BadProvider
    | BadOperation
    | BadOutcome
    | BadErrorCode
    | BadDuration
    | TooManyGroups
    | TooManySamples

  /** The group of a sample, by its four labels. */
  function KeyOf(s: Sample): (key: Key)
    ensures key.provider == s.provider && key.operation == s.operation && key.outcome == s.outcome
    ensures s.errorCode.Some? ==> key.errorCode == s.errorCode.value
    ensures s.errorCode.None? ==> key.errorCode == "none"
  {
    Key(s.provider, s.operation, s.outcome, if s.errorCode.None? then "none" else s.errorCode.value)
  }

  // ---------- what the samples say ----------

  /** The durations recorded under a key, in order. */
  function Durations(samples: seq<Sample>, key: Key): seq<int> {
    if samples == [] then []
    else
      var rest, last := samples[..|samples| - 1], samples[|samples| - 1];
      Durations(rest, key) + (if KeyOf(last) == key then [last.duration] else [])
  }

  function Sum(ds: seq<int>): int {
    if ds == [] then 0 else Sum(ds[..|ds| - 1]) + ds[|ds| - 1]
  }

  predicate Least(ds: seq<int>, m: int) {
    m in ds && forall d :: d in ds ==> m <= d
  }

  predicate Greatest(ds: seq<int>, m: int) {
    m in ds && forall d :: d in ds ==> d <= m
  }

  /** The exact figures of the durations under a key. */
  predicate Exact(g: Group, ds: seq<int>) {
    g.count == |ds| && g.total == Sum(ds) && Least(ds, g.min) && Greatest(ds, g.max)
  }

  ghost predicate Summarises(groups: Groups, samples: seq<Sample>) {
    forall key :: (key in groups <==> Durations(samples, key) != [])
                  && (key in groups ==> Exact(groups[key], Durations(samples, key)))
  }

  predicate InBounds(ds: seq<int>) {
    forall d :: d in ds ==> 0 <= d <= MAX_DURATION
  }

  /** The first field that is not allowed. */
  function JudgeFields(s: Sample): Verdict {
    if s.provider !in PROVIDERS then BadProvider
    else if s.operation !in OPERATIONS then BadOperation
    else if s.outcome !in OUTCOMES then BadOutcome
    else if s.errorCode.Some? && s.errorCode.value !in ERROR_CODES then BadErrorCode
    else if s.duration < 0 || s.duration > MAX_DURATION then BadDuration
    else Accepted
  }

  /** What is accepted, by the samples before it. The sum of the durations has no part in it. */
  function JudgeLimits(samples: seq<Sample>, groups: nat, s: Sample): Verdict {
    var before := Durations(samples, KeyOf(s));
    if before == [] && groups >= MAX_GROUPS then TooManyGroups
    else if |before| >= MAX_SAMPLES then TooManySamples
    else Accepted
  }

  function Judge(samples: seq<Sample>, groups: nat, s: Sample): Verdict {
    if JudgeFields(s) != Accepted then JudgeFields(s) else JudgeLimits(samples, groups, s)
  }

  ghost predicate Bounded(samples: seq<Sample>) {
    forall key :: InBounds(Durations(samples, key)) && |Durations(samples, key)| <= MAX_SAMPLES
  }

  lemma {:induction false} SumBetween(ds: seq<int>, low: int, high: int)
    requires forall d :: d in ds ==> low <= d <= high
    ensures |ds| * low <= Sum(ds) <= |ds| * high
  {
    if ds != [] {
      var rest := ds[..|ds| - 1];
      forall d | d in rest ensures d in ds {}
      assert ds[|ds| - 1] in ds;
      SumBetween(rest, low, high);
      assert |ds| * low == |rest| * low + low && |ds| * high == |rest| * high + high;
    }
  }

  /** The mean lies between the extremes. */
  lemma MeanBetweenExtremes(g: Group, ds: seq<int>)
    requires Exact(g, ds)
    ensures g.count * g.min <= g.total <= g.count * g.max
  {
    SumBetween(ds, g.min, g.max);
  }

  /** Below the sample limit a further duration cannot exceed the total limit. */
  lemma TotalLimitNeverDecides(g: Group, ds: seq<int>, duration: int)
    requires Exact(g, ds) && InBounds(ds) && 0 <= duration <= MAX_DURATION
    ensures g.count >= MAX_SAMPLES || g.total + duration > MAX_TOTAL <==> g.count >= MAX_SAMPLES
  {
    SumBetween(ds, 0, MAX_DURATION);
  }

  /** The figures do not depend on the order in which the durations arrived. */
  lemma {:induction false} ExactIsOrderFree(g: Group, ds: seq<int>, es: seq<int>)
    requires multiset(ds) == multiset(es)
    ensures Exact(g, ds) <==> Exact(g, es)
  {
    SumIsOrderFree(ds, es);
    SameCount(ds, es);
    forall d ensures d in ds <==> d in es {
      assert d in ds <==> d in multiset(ds);
      assert d in es <==> d in multiset(es);
    }
  }

  lemma SameCount(ds: seq<int>, es: seq<int>)
    requires multiset(ds) == multiset(es)
    ensures |ds| == |es|
  {
    assert |multiset(ds)| == |ds| && |multiset(es)| == |es|;
  }

  lemma {:induction false} SumWithout(ds: seq<int>, i: nat)
    requires i < |ds|
    ensures Sum(ds) == Sum(ds[..i] + ds[i + 1..]) + ds[i]
    decreases |ds|
  {
    var n := |ds| - 1;
    if i == n {
      assert ds[..i] + ds[i + 1..] == ds[..n];
    } else {
      SumWithout(ds[..n], i);
      var without := ds[..i] + ds[i + 1..];
      assert without[..n - 1] == ds[..n][..i] + ds[..n][i + 1..];
    }
  }

  lemma {:induction false} SumIsOrderFree(ds: seq<int>, es: seq<int>)
    requires multiset(ds) == multiset(es)
    ensures Sum(ds) == Sum(es)
    decreases |ds|
  {
    SameCount(ds, es);
    if ds != [] {
      var n := |ds| - 1;
      assert ds == ds[..n] + [ds[n]];
      assert ds[n] in multiset(es);
      var i :| 0 <= i < |es| && es[i] == ds[n];
      assert es == es[..i] + [es[i]] + es[i + 1..];
      SumWithout(es, i);
      assert multiset(ds[..n]) == multiset(ds) - multiset{ds[n]};
      assert multiset(es[..i] + es[i + 1..]) == multiset(es) - multiset{es[i]};
      SumIsOrderFree(ds[..n], es[..i] + es[i + 1..]);
    }
  }

  // ---------- one more sample ----------

  function Extended(g: Group, duration: int): Group {
    Group(g.count + 1, g.total + duration, Min(g.min, duration), Max(g.max, duration))
  }

  lemma ExtendedIsExact(g: Group, ds: seq<int>, duration: int)
    requires Exact(g, ds) || (ds == [] && g == Group(0, 0, duration, duration))
    ensures Exact(Extended(g, duration), ds + [duration])
  {
    assert (ds + [duration])[..|ds|] == ds;
    var after := ds + [duration];
    assert duration == after[|ds|];
    forall d ensures d in after <==> d in ds || d == duration {}
  }

  lemma OneMoreDuration(samples: seq<Sample>, s: Sample, key: Key)
    ensures Durations(samples + [s], key) == Durations(samples, key) + (if KeyOf(s) == key then [s.duration] else [])
  {
    var all := samples + [s];
    assert all[..|samples|] == samples && all[|samples|] == s;
  }

  function GroupFor(groups: Groups, s: Sample): Group {
    if KeyOf(s) in groups then groups[KeyOf(s)] else Group(0, 0, s.duration, s.duration)
  }

  function WithSample(groups: Groups, s: Sample): Groups {
    groups[KeyOf(s) := Extended(GroupFor(groups, s), s.duration)]
  }

  lemma OneMoreSample(groups: Groups, samples: seq<Sample>, s: Sample)
    requires Summarises(groups, samples)
    ensures Summarises(WithSample(groups, s), samples + [s])
  {
    var after := WithSample(groups, s);
    ExtendedIsExact(GroupFor(groups, s), Durations(samples, KeyOf(s)), s.duration);
    forall key
      ensures (key in after <==> Durations(samples + [s], key) != [])
              && (key in after ==> Exact(after[key], Durations(samples + [s], key)))
    {
      OneMoreDuration(samples, s, key);
      if key != KeyOf(s) {
        assert Durations(samples + [s], key) == Durations(samples, key);
      }
    }
  }

  lemma StillBounded(groups: nat, samples: seq<Sample>, s: Sample)
    requires Bounded(samples) && 0 <= s.duration <= MAX_DURATION && JudgeLimits(samples, groups, s) == Accepted
    ensures Bounded(samples + [s])
  {
    forall key ensures InBounds(Durations(samples + [s], key)) && |Durations(samples + [s], key)| <= MAX_SAMPLES {
      OneMoreDuration(samples, s, key);
    }
  }

  /** The groups of an accumulator that accepted these samples. */
  ghost predicate Fits(groups: Groups, samples: seq<Sample>) {
    Summarises(groups, samples) && Bounded(samples) && |groups| <= MAX_GROUPS
  }

  lemma AcceptedFits(groups: Groups, samples: seq<Sample>, s: Sample)
    requires Fits(groups, samples) && 0 <= s.duration <= MAX_DURATION && JudgeLimits(samples, |groups|, s) == Accepted
    ensures Fits(WithSample(groups, s), samples + [s])
  {
    OneMoreSample(groups, samples, s);
    StillBounded(|groups|, samples, s);
    if KeyOf(s) in groups {
      assert WithSample(groups, s).Keys == groups.Keys;
    } else {
      assert WithSample(groups, s).Keys == groups.Keys + {KeyOf(s)};
    }
  }

  /** The tests on an existing or a new group. */
  function Tested(groups: Groups, s: Sample): Verdict {
    if KeyOf(s) !in groups && |groups| >= MAX_GROUPS then TooManyGroups
    else if GroupFor(groups, s).count >= MAX_SAMPLES || GroupFor(groups, s).total + s.duration > MAX_TOTAL then TooManySamples
    else Accepted
  }

  /** They amount to counting groups and samples, and never reject a new group for its size. */
  lemma LimitsDecide(groups: Groups, samples: seq<Sample>, s: Sample)
    requires Fits(groups, samples) && 0 <= s.duration <= MAX_DURATION
    ensures JudgeLimits(samples, |groups|, s) == Tested(groups, s)
    ensures Tested(groups, s) == TooManySamples ==> KeyOf(s) in groups
  {
    if KeyOf(s) in groups {
      TotalLimitNeverDecides(groups[KeyOf(s)], Durations(samples, KeyOf(s)), s.duration);
    }
  }

  function Answer(groups: Groups, s: Sample): Verdict {
    if JudgeFields(s) != Accepted then JudgeFields(s) else Tested(groups, s)
  }

  /** The first field that is not allowed rejects a sample, then a thousand groups, then a
      hundred thousand samples of its own group. */
  function ByLimits(groups: Groups, s: Sample): Verdict {
    if s.provider !in PROVIDERS then BadProvider
    else if s.operation !in OPERATIONS then BadOperation
    else if s.outcome !in OUTCOMES then BadOutcome
    else if s.errorCode.Some? && s.errorCode.value !in ERROR_CODES then BadErrorCode
    else if s.duration < 0 || s.duration > 3_600_000 then BadDuration
    else if KeyOf(s) !in groups && |groups| >= 1_000 then TooManyGroups
    else if KeyOf(s) in groups && groups[KeyOf(s)].count >= 100_000 then TooManySamples
    else Accepted
  }

  /** The figures once a sample has entered those of its group. */
  function Entered(groups: Groups, s: Sample): Groups {
    groups[KeyOf(s) :=
      if KeyOf(s) !in groups then Group(1, s.duration, s.duration, s.duration)
      else
        var g := groups[KeyOf(s)];
        Group(g.count + 1, g.total + s.duration,
              if s.duration < g.min then s.duration else g.min, if s.duration > g.max then s.duration else g.max)]
  }

  lemma AnswerByLimits(groups: Groups, samples: seq<Sample>, s: Sample)
    requires Fits(groups, samples)
    ensures Answer(groups, s) == ByLimits(groups, s)
  {
    if KeyOf(s) in groups && JudgeFields(s) == Accepted {
      TotalLimitNeverDecides(groups[KeyOf(s)], Durations(samples, KeyOf(s)), s.duration);
    }
  }

  lemma SampleEntered(groups: Groups, s: Sample)
    ensures WithSample(groups, s) == Entered(groups, s)
  {
  }

  /** Accepted samples share a group exactly if they agree on all four labels: no error code
      stands for the missing one. */
  lemma GroupsSeparateLabels(s: Sample, s': Sample)
    requires JudgeFields(s) == Accepted && JudgeFields(s') == Accepted
    ensures KeyOf(s) == KeyOf(s')
            <==> s.provider == s'.provider && s.operation == s'.operation && s.outcome == s'.outcome && s.errorCode == s'.errorCode
  {
  }

  // ---------- the rows of the runs ----------

  datatype Row = Row(figures: Group, createdAt: int, updatedAt: int)

  type Rows = map<(string, Key), Row>

  function Upserted(rows: Rows, run: string, key: Key, g: Group, now: int): Rows {
    var created := if (run, key) in rows then rows[(run, key)].createdAt else now;
    rows[(run, key) := Row(g, created, now)]
  }

  /** The rows after persisting `groups` for a run at time `now`. */
  ghost predicate Persisted(rows: Rows, run: string, groups: Groups, now: int, after: Rows) {
    && (forall k :: k in after <==> k in rows || (k.0 == run && k.1 in groups))
    && (forall k :: k in rows && !(k.0 == run && k.1 in groups) ==> after[k] == rows[k])
    && (forall key :: key in groups ==>
          after[(run, key)] == Row(groups[key], if (run, key) in rows then rows[(run, key)].createdAt else now, now))
  }

  /** Persisting a second time, with the same groups or with groups that have grown since,
      leaves what persisting only the later groups would have left: the first time can be
      told only from the creation times. */
  lemma PersistingAgainOverwrites(rows: Rows, run: string, groups: Groups, later: Groups, now: int, again: int,
                                  once: Rows, twice: Rows, direct: Rows)
    requires groups.Keys <= later.Keys
    requires Persisted(rows, run, groups, now, once) && Persisted(once, run, later, again, twice)
    requires Persisted(rows, run, later, again, direct)
    ensures twice.Keys == direct.Keys
    ensures forall k :: k in twice ==> twice[k].figures == direct[k].figures && twice[k].updatedAt == direct[k].updatedAt
    ensures forall k :: k in twice ==>
              twice[k].createdAt == if k !in rows && k.0 == run && k.1 in groups then now else direct[k].createdAt
  {
  }

  class Accumulator {
    var groups: Groups
    ghost var accepted: seq<Sample>

    ghost predicate Valid()
      reads this
    {
      Fits(groups, accepted)
    }

    constructor ()
      ensures Valid() && accepted == []
    {
      groups, accepted := map[], [];
    }

    /** The sample's group, which is stored if it is new and there is room for it. */
    method OpenGroup(s: Sample) returns (g: Option<Group>)
      modifies this`groups
      ensures g == if KeyOf(s) !in old(groups) && |old(groups)| >= MAX_GROUPS then None else Some(GroupFor(old(groups), s))
      ensures groups == if g.None? then old(groups) else old(groups)[KeyOf(s) := g.value]
    {
      var key := KeyOf(s);
      if key !in groups {
        if |groups| >= MAX_GROUPS {
          return None;
        }
        groups := groups[key := Group(0, 0, s.duration, s.duration)];
      }
      g := Some(groups[key]);
    }

    /** A new group is stored before its limits are tested; since they never fail for it, a
        rejected sample leaves no trace. */
    method TestLimits(s: Sample) returns (v: Verdict)
      requires Tested(groups, s) == TooManySamples ==> KeyOf(s) in groups
      modifies this`groups
      ensures v == Tested(old(groups), s)
      ensures groups == if v == Accepted then WithSample(old(groups), s) else old(groups)
    {
      var g := OpenGroup(s);
      if g.None? {
        return TooManyGroups;
      }
      if g.value.count >= MAX_SAMPLES || g.value.total + s.duration > MAX_TOTAL {
        assert groups == old(groups);
        return TooManySamples;
      }
      groups := groups[KeyOf(s) := Extended(g.value, s.duration)];
      assert groups == WithSample(old(groups), s);
      v := Accepted;
    }

    method AddWithinLimits(s: Sample) returns (v: Verdict)
      requires Valid() && 0 <= s.duration <= MAX_DURATION
      modifies this
      ensures Valid()
      ensures v == JudgeLimits(old(accepted), |old(groups)|, s) == Tested(old(groups), s)
      ensures accepted == if v == Accepted then old(accepted) + [s] else old(accepted)
      ensures groups == if v == Accepted then WithSample(old(groups), s) else old(groups)
    {
      ghost var before := groups;
      LimitsDecide(groups, accepted, s);
      v := TestLimits(s);
      if v == Accepted {
        AcceptedFits(before, accepted, s);
        accepted := accepted + [s];
      }
    }

    /** The tests on the fields, and then the limits. */
    method Enter(s: Sample) returns (v: Verdict)
      requires Valid()
      modifies this
      ensures Valid()
      ensures v == Judge(old(accepted), |old(groups)|, s) == Answer(old(groups), s)
      ensures accepted == if v == Accepted then old(accepted) + [s] else old(accepted)
      ensures groups == if v == Accepted then WithSample(old(groups), s) else old(groups)
    {
      v := JudgeFields(s);
      if v == Accepted {
        v := AddWithinLimits(s);
      }
    }

    method Add(s: Sample) returns (v: Verdict)
      requires Valid()
      modifies this
      ensures Valid()
      ensures v == Judge(old(accepted), |old(groups)|, s)
      ensures accepted == if v == Accepted then old(accepted) + [s] else old(accepted)
      ensures v != Accepted ==> groups == old(groups)
      ensures v == ByLimits(old(groups), s)
      ensures v == Accepted ==> groups == Entered(old(groups), s)
    {
      AnswerByLimits(groups, accepted, s);
      SampleEntered(groups, s);
      v := Enter(s);
    }
  }

  class AggregateTable {
    var rows: Rows

    constructor ()
      ensures rows == map[]
    {
      rows := map[];
    }

    /** None stands for the ValueError of an empty run id. */
    method Persist(run: string, groups: Groups, now: int) returns (count: Option<nat>)
      modifies this
      ensures count == if run == "" then None else Some(|groups|)
      ensures if run == "" then rows == old(rows) else Persisted(old(rows), run, groups, now, rows)
    {
      if run == "" {
        return None;
      }
      var rest := groups;
      while rest.Keys != {}
        invariant rest.Keys <= groups.Keys && forall key :: key in rest ==> rest[key] == groups[key]
        invariant Persisted(old(rows), run, groups - rest.Keys, now, rows)
        decreases |rest|
      {
        var key :| key in rest.Keys;
        rows := Upserted(rows, run, key, rest[key], now);
        rest := rest - {key};
      }
      count := Some(|groups|);
    }
  }
}
