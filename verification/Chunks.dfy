/** Bounded selections from a set of rows: any `n` of them, or the `n` smallest ids. */
module Chunks {
  import opened Sql

  /** What so many batches of `n` rows hold. */
  function Capacity(n: nat, batches: nat): nat {
    if batches == 0 then 0 else Capacity(n, batches - 1) + n
  }

  /** As few batches of at most `n` rows as `total` rows need. */
  predicate LeastBatches(total: nat, n: nat, batches: nat) {
    total <= Capacity(n, batches) && (batches > 0 ==> Capacity(n, batches - 1) < total)
  }

  /** The rows divided by the size of a batch, rounded up. */
  predicate RoundsUp(total: nat, n: nat, batches: nat) {
    total <= batches * n && (batches > 0 ==> (batches - 1) * n < total)
  }

  lemma {:induction false} CapacityIsProduct(n: nat, batches: nat)
    ensures Capacity(n, batches) == batches * n
  {
    if batches > 0 {
      CapacityIsProduct(n, batches - 1);
      assert batches * n == (batches - 1) * n + n;
    }
  }

  lemma LeastBatchesRoundUp(total: nat, n: nat, batches: nat)
    requires LeastBatches(total, n, batches)
    ensures RoundsUp(total, n, batches)
  {
    CapacityIsProduct(n, batches);
    if batches > 0 {
      CapacityIsProduct(n, batches - 1);
    }
  }

  lemma {:induction false} SubsetCount<T>(a: set<T>, b: set<T>)
    requires a <= b
    ensures |a| <= |b| && |b - a| == |b| - |a|
  {
    if a == {} {
      assert b - a == b;
    } else {
      var x :| x in a;
      SubsetCount(a - {x}, b - {x});
      assert (b - {x}) - (a - {x}) == b - a;
    }
  }

  /** A query with a limit and no order: any rows, as many as the limit allows. */
  method AnyRows<T(==)>(rows: set<T>, limit: nat) returns (chosen: set<T>)
    ensures chosen <= rows && |chosen| == Min(limit, |rows|)
  {
    chosen := {};
    var rest := rows;
    while |chosen| < limit && rest != {}
      invariant chosen + rest == rows && chosen !! rest
      invariant |chosen| + |rest| == |rows| && |chosen| <= limit
      decreases rest
    {
      var x :| x in rest;
      chosen, rest := chosen + {x}, rest - {x};
    }
  }

  predicate Increasing(ids: seq<nat>) {
    forall i, j :: 0 <= i < j < |ids| ==> ids[i] < ids[j]
  }

  predicate AllBelow(ids: seq<nat>, x: nat) {
    forall i :: 0 <= i < |ids| ==> ids[i] < x
  }

  function Elements(ids: seq<nat>): set<nat> {
    set i | i in ids
  }

  lemma {:induction false} IncreasingCount(ids: seq<nat>)
    requires Increasing(ids)
    ensures |Elements(ids)| == |ids|
  {
    if ids != [] {
      var rest, last := ids[..|ids| - 1], ids[|ids| - 1];
      IncreasingCount(rest);
      assert Elements(ids) == Elements(rest) + {last};
      assert last !in rest;
    }
  }

  lemma ElementsAppend(a: seq<nat>, b: seq<nat>)
    ensures Elements(a + b) == Elements(a) + Elements(b)
  {
    forall x ensures x in Elements(a + b) <==> x in Elements(a) || x in Elements(b) {
      assert x in a + b <==> x in a || x in b;
    }
  }

  lemma Inhabited<T>(s: set<T>)
    requires s != {}
    ensures exists x :: x in s
  {
  }

  lemma {:induction false} HasLeast(rows: set<nat>) returns (least: nat)
    requires rows != {}
    ensures least in rows && forall x :: x in rows ==> least <= x
    decreases rows
  {
    Inhabited(rows);
    least :| least in rows;
    var rest := rows - {least};
    assert rows == rest + {least};
    if rest != {} {
      var other := HasLeast(rest);
      least := if other < least then other else least;
    }
  }

  /** `ids` are the smallest of `rows` in order, and `rest` the others. */
  ghost predicate Smallest(rows: set<nat>, ids: seq<nat>, rest: set<nat>) {
    && Increasing(ids) && Elements(ids) == rows - rest && rest <= rows
    && |ids| + |rest| == |rows|
    && forall x :: x in rest ==> AllBelow(ids, x)
  }

  lemma SmallestStep(rows: set<nat>, ids: seq<nat>, rest: set<nat>, x: nat)
    requires Smallest(rows, ids, rest) && x in rest && forall y :: y in rest ==> x <= y
    ensures Smallest(rows, ids + [x], rest - {x})
  {
    ElementsAppend(ids, [x]);
    assert Elements([x]) == {x};
    assert AllBelow(ids, x);
    forall y | y in rest - {x} ensures AllBelow(ids + [x], y) {
      assert AllBelow(ids, y);
    }
  }

  /** A query ordered by id with a limit. */
  method SmallestIds(rows: set<nat>, limit: nat) returns (ids: seq<nat>)
    ensures Increasing(ids) && Elements(ids) <= rows && |ids| == Min(limit, |rows|)
    ensures forall x :: x in rows - Elements(ids) ==> AllBelow(ids, x)
  {
    ids := [];
    var rest := rows;
    assert Elements([]) == {};
    while |ids| < limit && rest != {}
      invariant Smallest(rows, ids, rest) && |ids| <= limit
      decreases rest
    {
      ghost var _ := HasLeast(rest);
      var x :| x in rest && forall y :: y in rest ==> x <= y;
      SmallestStep(rows, ids, rest, x);
      ids, rest := ids + [x], rest - {x};
    }
    assert rows - Elements(ids) == rest;
  }
}
