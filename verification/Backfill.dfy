/**
 * The completed-at backfill: two batched updates in a loop, one stamping completed todos
 * that lack a time and one clearing the time of todos that were reopened.
 */
module Backfill {

  import opened Prelude

  /** A todo, in id order. */
  datatype Row = Row(completed: bool, stamp: Option<real>)

  predicate Unstamped(row: Row) { row.completed && row.stamp.None? }

  predicate Stale(row: Row) { !row.completed && row.stamp.Some? }

  predicate Consistent(row: Row) { row.completed <==> row.stamp.Some? }

  /** One UPDATE: the first `limit` rows that satisfy `p`, in id order, get `stamp`. */
  function UpdateFirst(rows: seq<Row>, p: Row -> bool, limit: nat, stamp: Option<real>): (updated: seq<Row>)
    ensures |updated| == |rows|
  {
    if rows == [] then []
    else if limit > 0 && p(rows[0]) then [rows[0].(stamp := stamp)] + UpdateFirst(rows[1..], p, limit - 1, stamp)
    else [rows[0]] + UpdateFirst(rows[1..], p, limit, stamp)
  }

  function Min(a: nat, b: nat): nat { if a <= b then a else b }

  function Less(a: nat, b: nat): nat { if a <= b then 0 else a - b }

  /** The number of batches of `size` that `n` rows need. */
  function Batches(n: nat, size: nat): nat
    requires size > 0
  {
    (n + size - 1) / size
  }

  function Max(a: nat, b: nat): nat { if a >= b then a else b }

  /** What one statement leaves: `p` rows fewer by the limit, every other row as it was. */
  lemma {:induction false} UpdateCounts(rows: seq<Row>, p: Row -> bool, q: Row -> bool, limit: nat, stamp: Option<real>)
    requires forall row :: p(row) ==> !p(row.(stamp := stamp)) && !q(row) && !q(row.(stamp := stamp))
    ensures var updated := UpdateFirst(rows, p, limit, stamp);
            && Count(updated, p) == Less(Count(rows, p), limit)
            && Count(updated, q) == Count(rows, q)
            && forall i :: 0 <= i < |rows| ==>
                 updated[i] == rows[i] || (p(rows[i]) && updated[i] == rows[i].(stamp := stamp))
  {
    if rows != [] {
      hide Count, UpdateFirst;
      var hit := limit > 0 && p(rows[0]);
      var first := if hit then rows[0].(stamp := stamp) else rows[0];
      var rest := UpdateFirst(rows[1..], p, if hit then limit - 1 else limit, stamp);
      UpdateCounts(rows[1..], p, q, if hit then limit - 1 else limit, stamp);
      UpdateUnfolds(rows, p, limit, stamp);
      var updated := UpdateFirst(rows, p, limit, stamp);
      assert updated[0] == first && updated[1..] == rest;
      CountFromFront(rows, p);
      CountFromFront(rows, q);
      CountFromFront(updated, p);
      CountFromFront(updated, q);
      forall i | 0 <= i < |rows|
        ensures updated[i] == rows[i] || (p(rows[i]) && updated[i] == rows[i].(stamp := stamp))
      {
        if i > 0 { assert updated[i] == rest[i - 1] && rows[i] == rows[1..][i - 1]; }
      }
    }
  }

  lemma UpdateUnfolds(rows: seq<Row>, p: Row -> bool, limit: nat, stamp: Option<real>)
    requires rows != []
    ensures var hit := limit > 0 && p(rows[0]);
            UpdateFirst(rows, p, limit, stamp)
            == [if hit then rows[0].(stamp := stamp) else rows[0]]
             + UpdateFirst(rows[1..], p, if hit then limit - 1 else limit, stamp)
  {
  }

  lemma {:induction false} NoneLeft(rows: seq<Row>)
    requires Count(rows, Unstamped) == 0 && Count(rows, Stale) == 0
    ensures forall i :: 0 <= i < |rows| ==> Consistent(rows[i])
  {
    if rows != [] {
      CountFromFront(rows, Unstamped);
      CountFromFront(rows, Stale);
      NoneLeft(rows[1..]);
      forall i | 0 <= i < |rows| ensures Consistent(rows[i]) {
        if i > 0 { assert rows[i] == rows[1..][i - 1]; }
      }
    }
  }

  /** From `was` to `row`: unchanged, stamped because it lacked a time, or cleared because it was stale. */
  predicate Repaired(was: Row, row: Row) {
    || row == was
    || (Unstamped(was) && row.completed && row.stamp.Some?)
    || (Stale(was) && row == Row(false, None))
  }

  lemma Scaled(a: nat, b: nat, size: nat)
    ensures a <= b ==> a * size <= b * size
  {
  }

  /** `Batches` is the least number of batches that suffice. */
  lemma BatchesAreLeast(n: nat, size: nat, k: nat)
    requires size > 0
    ensures n <= k * size <==> Batches(n, size) <= k
  {
    var q := Batches(n, size);
    assert q * size <= n + size - 1 < q * size + size;
    Scaled(q, k, size);
    Scaled(k + 1, q, size);
    assert (k + 1) * size == k * size + size;
  }

  lemma BatchCount(missing: nat, wrong: nat, size: nat, batches: nat)
    requires size > 0 && missing <= batches * size && wrong <= batches * size
    requires batches > 0 ==> (batches - 1) * size < Max(missing, wrong)
    ensures batches == Max(Batches(missing, size), Batches(wrong, size))
  {
    hide Batches;
    BatchesAreLeast(missing, size, batches);
    BatchesAreLeast(wrong, size, batches);
    if batches > 0 {
      BatchesAreLeast(missing, size, batches - 1);
      BatchesAreLeast(wrong, size, batches - 1);
    }
  }

  lemma RepairedAgain(was: Row, row: Row, p: Row -> bool, stamp: Option<real>)
    requires Repaired(was, row) && p(row)
    requires (p == Unstamped && stamp.Some?) || (p == Stale && stamp.None?)
    ensures Repaired(was, row.(stamp := stamp))
  {
  }

  lemma UpdateRepairs(was: seq<Row>, rows: seq<Row>, p: Row -> bool, q: Row -> bool, limit: nat, stamp: Option<real>)
    requires |rows| == |was| && forall i :: 0 <= i < |rows| ==> Repaired(was[i], rows[i])
    requires (p == Unstamped && q == Stale && stamp.Some?) || (p == Stale && q == Unstamped && stamp.None?)
    ensures var updated := UpdateFirst(rows, p, limit, stamp);
            && (forall i :: 0 <= i < |updated| ==> Repaired(was[i], updated[i]))
            && Count(updated, p) == Less(Count(rows, p), limit)
            && Count(updated, q) == Count(rows, q)
  {
    UpdateCounts(rows, p, q, limit, stamp);
    var updated := UpdateFirst(rows, p, limit, stamp);
    forall i | 0 <= i < |updated| ensures Repaired(was[i], updated[i]) {
      if updated[i] != rows[i] { RepairedAgain(was[i], rows[i], p, stamp); }
    }
  }

  // ------------------------------------------------------------------ which time

  /** Row `i` is changed exactly if it is among the first `limit` that need it. */
  lemma {:induction false} UpdateAt(rows: seq<Row>, p: Row -> bool, limit: nat, stamp: Option<real>, i: nat)
    requires i < |rows|
    ensures UpdateFirst(rows, p, limit, stamp)[i]
         == if p(rows[i]) && Count(rows[..i], p) < limit then rows[i].(stamp := stamp) else rows[i]
  {
    hide Count, UpdateFirst;
    var hit := limit > 0 && p(rows[0]);
    UpdateUnfolds(rows, p, limit, stamp);
    if i == 0 {
      assert rows[..0] == [];
      NothingCounted(p);
    } else {
      UpdateAt(rows[1..], p, if hit then limit - 1 else limit, stamp, i - 1);
      assert rows[..i][1..] == rows[1..][..i - 1];
      CountFromFront(rows[..i], p);
    }
  }

  lemma NothingCounted(p: Row -> bool)
    ensures Count([], p) == 0
  {
  }

  /** How many rows that lack a time come before row `i`. */
  function Rank(was: seq<Row>, i: nat): nat
    requires i <= |was|
  {
    Count(was[..i], Unstamped)
  }

  /**
   * After `k` batches: the first `k * size` rows that lacked a time carry that of their
   * batch, the others still lack it.
   */
  ghost predicate StampedSoFar(was: seq<Row>, rows: seq<Row>, size: nat, k: nat, clock: nat -> real)
    requires size > 0
  {
    && |rows| == |was|
    && forall i :: 0 <= i < |was| ==>
         if !Unstamped(was[i]) then !Unstamped(rows[i])
         else if Rank(was, i) < k * size then rows[i] == Row(true, Some(clock(Rank(was, i) / size)))
         else rows[i] == was[i]
  }

  lemma {:induction false} RankLeft(was: seq<Row>, rows: seq<Row>, size: nat, k: nat, clock: nat -> real, i: nat)
    requires size > 0 && StampedSoFar(was, rows, size, k, clock) && i <= |was|
    ensures Rank(rows, i) == Less(Rank(was, i), k * size)
  {
    if i == 0 {
      assert was[..0] == [] == rows[..0];
    } else {
      RankLeft(was, rows, size, k, clock, i - 1);
      assert was[..i][..i - 1] == was[..i - 1] && rows[..i][..i - 1] == rows[..i - 1];
    }
  }

  lemma InBatch(r: nat, size: nat, k: nat)
    requires size > 0 && k * size <= r < k * size + size
    ensures r / size == k
  {
    assert k * size == size * k;
    Quotient(r, size, k, r - k * size);
  }

  lemma StampRow(was: seq<Row>, rows: seq<Row>, size: nat, k: nat, clock: nat -> real, i: nat)
    requires size > 0 && StampedSoFar(was, rows, size, k, clock) && i < |was|
    ensures
      var row := UpdateFirst(rows, Unstamped, size, Some(clock(k)))[i];
      if !Unstamped(was[i]) then !Unstamped(row)
      else if Rank(was, i) < k * size + size then row == Row(true, Some(clock(Rank(was, i) / size)))
      else row == was[i]
  {
    hide UpdateFirst, Count;
    UpdateAt(rows, Unstamped, size, Some(clock(k)), i);
    RankLeft(was, rows, size, k, clock, i);
    if k * size <= Rank(was, i) < k * size + size { InBatch(Rank(was, i), size, k); }
  }

  /** Clearing touches no completed row. */
  lemma ClearRow(rows: seq<Row>, size: nat, i: nat)
    requires i < |rows|
    ensures
      var row := UpdateFirst(rows, Stale, size, None)[i];
      (rows[i].completed ==> row == rows[i]) && (!Unstamped(rows[i]) ==> !Unstamped(row))
  {
    hide UpdateFirst, Count;
    UpdateAt(rows, Stale, size, None, i);
  }

  lemma StampRound(was: seq<Row>, rows: seq<Row>, size: nat, k: nat, clock: nat -> real)
    requires size > 0 && StampedSoFar(was, rows, size, k, clock)
    ensures
      var stamped := UpdateFirst(rows, Unstamped, size, Some(clock(k)));
      StampedSoFar(was, UpdateFirst(stamped, Stale, size, None), size, k + 1, clock)
  {
    var stamped := UpdateFirst(rows, Unstamped, size, Some(clock(k)));
    var cleared := UpdateFirst(stamped, Stale, size, None);
    assert (k + 1) * size == k * size + size;
    hide UpdateFirst, Rank;
    forall i | 0 <= i < |was|
      ensures
        if !Unstamped(was[i]) then !Unstamped(cleared[i])
        else if Rank(was, i) < (k + 1) * size then cleared[i] == Row(true, Some(clock(Rank(was, i) / size)))
        else cleared[i] == was[i]
    {
      StampRow(was, rows, size, k, clock, i);
      ClearRow(stamped, size, i);
    }
  }

  lemma StampStarts(rows: seq<Row>, size: nat, clock: nat -> real)
    requires size > 0
    ensures StampedSoFar(rows, rows, size, 0, clock)
  {
  }

  /** The times in a repaired table: each row that lacked one has that of the batch it fell into. */
  ghost predicate TimesOfBatches(was: seq<Row>, rows: seq<Row>, size: nat, clock: nat -> real)
    requires size > 0
  {
    && |rows| == |was|
    && forall i :: 0 <= i < |was| && was[i].completed && was[i].stamp.None? ==>
         rows[i] == Row(true, Some(clock(Rank(was, i) / size)))
  }

  lemma StampEnds(was: seq<Row>, rows: seq<Row>, size: nat, k: nat, clock: nat -> real)
    requires size > 0 && StampedSoFar(was, rows, size, k, clock)
    requires forall i :: 0 <= i < |rows| ==> Consistent(rows[i])
    ensures TimesOfBatches(was, rows, size, clock)
  {
    hide Rank;
  }

  class TodoTable {
    var rows: seq<Row>

    constructor (rows: seq<Row>)
      ensures this.rows == rows
    {
      this.rows := rows;
    }

    /** One statement and its row count. */
    method Update(p: Row -> bool, limit: nat, stamp: Option<real>) returns (count: nat)
      modifies this
      ensures rows == UpdateFirst(old(rows), p, limit, stamp)
      ensures count == Min(Count(old(rows), p), limit)
    {
      count := Min(Count(rows, p), limit);
      rows := UpdateFirst(rows, p, limit, stamp);
    }

    /**
     * The whole backfill, with `clock(k)` the time of the k-th batch. It ends with every
     * row stamped exactly when completed, having touched only inconsistent rows, each once.
     */
    method Run(size: nat, clock: nat -> real) returns (total: nat, batches: nat)
      modifies this
      ensures |rows| == |old(rows)| && forall i :: 0 <= i < |rows| ==> Repaired(old(rows)[i], rows[i])
      ensures size > 0 ==> forall i :: 0 <= i < |rows| ==> Consistent(rows[i])
      ensures size > 0 ==> TimesOfBatches(old(rows), rows, size, clock)
      ensures size > 0 ==> total == Count(old(rows), Unstamped) + Count(old(rows), Stale)
      ensures size > 0 ==> batches == Max(Batches(Count(old(rows), Unstamped), size),
                                          Batches(Count(old(rows), Stale), size))
      ensures size == 0 ==> rows == old(rows) && total == 0 && batches == 0
    {
      hide *;
      ghost var missing, wrong, was := Count(rows, Unstamped), Count(rows, Stale), rows;
      total, batches := 0, 0;
      Starts(rows, size);
      if size > 0 { StampStarts(rows, size, clock); }
      while true
        invariant Progress(was, rows, missing, wrong, size, total, batches)
        invariant size > 0 ==> StampedSoFar(was, rows, size, batches, clock)
        decreases missing + wrong - total
      {
        Round(was, rows, missing, wrong, size, total, batches, clock(batches));
        if size > 0 { StampRound(was, rows, size, batches, clock); }
        var stamped := Update(Unstamped, size, Some(clock(batches)));
        var cleared := Update(Stale, size, None);
        var updated := stamped + cleared;
        if updated == 0 { break; }
        total := total + updated;
        batches := batches + 1;
      }
      Finishes(was, rows, missing, wrong, size, total, batches);
      if size > 0 { StampEnds(was, rows, size, batches + 1, clock); }
    }
  }

  lemma Starts(rows: seq<Row>, size: nat)
    ensures Progress(rows, rows, Count(rows, Unstamped), Count(rows, Stale), size, 0, 0)
  {
  }

  /** One turn of the loop either changes nothing because nothing is left (or the size is 0), or makes progress. */
  lemma Round(was: seq<Row>, rows: seq<Row>, missing: nat, wrong: nat, size: nat, total: nat, batches: nat, now: real)
    requires Progress(was, rows, missing, wrong, size, total, batches)
    ensures var stamped := UpdateFirst(rows, Unstamped, size, Some(now));
            var cleared := UpdateFirst(stamped, Stale, size, None);
            var updated := Min(Count(rows, Unstamped), size) + Min(Count(stamped, Stale), size);
            if updated == 0 then
              && Progress(was, cleared, missing, wrong, size, total, batches)
              && (size > 0 ==> Count(cleared, Unstamped) == 0 == Count(cleared, Stale))
            else
              Progress(was, cleared, missing, wrong, size, total + updated, batches + 1) && total < missing + wrong
  {
    hide UpdateFirst, Count, Repaired, Unstamped, Stale;
    var stamped := UpdateFirst(rows, Unstamped, size, Some(now));
    UpdateRepairs(was, rows, Unstamped, Stale, size, Some(now));
    UpdateRepairs(was, stamped, Stale, Unstamped, size, None);
    assert (batches + 1) * size == batches * size + size;
    if size == 0 {
      NothingUpdated(rows, Unstamped, Some(now));
      NothingUpdated(rows, Stale, None);
    }
  }

  lemma Finishes(was: seq<Row>, rows: seq<Row>, missing: nat, wrong: nat, size: nat, total: nat, batches: nat)
    requires Progress(was, rows, missing, wrong, size, total, batches)
    requires size > 0 ==> Count(rows, Unstamped) == 0 == Count(rows, Stale)
    ensures |rows| == |was| && forall i :: 0 <= i < |rows| ==> Repaired(was[i], rows[i])
    ensures size > 0 ==> (forall i :: 0 <= i < |rows| ==> Consistent(rows[i])) && total == missing + wrong
    ensures size > 0 ==> batches == Max(Batches(missing, size), Batches(wrong, size))
    ensures size == 0 ==> rows == was && batches == 0 && total == 0
  {
    hide Repaired;
    if size > 0 {
      NoneLeft(rows);
      BatchCount(missing, wrong, size, batches);
    }
  }

  lemma {:induction false} NothingUpdated(rows: seq<Row>, p: Row -> bool, stamp: Option<real>)
    ensures UpdateFirst(rows, p, 0, stamp) == rows
  {
    if rows != [] { NothingUpdated(rows[1..], p, stamp); }
  }

  /** After some batches: what is repaired, what is left of either kind, and what was counted. */
  ghost predicate Progress(was: seq<Row>, rows: seq<Row>, missing: nat, wrong: nat, size: nat, total: nat,
                           batches: nat)
  {
    && |rows| == |was| && (forall i :: 0 <= i < |rows| ==> Repaired(was[i], rows[i]))
    && Count(rows, Unstamped) == Less(missing, batches * size)
    && Count(rows, Stale) == Less(wrong, batches * size)
    && total + Count(rows, Unstamped) + Count(rows, Stale) == missing + wrong
    && (batches > 0 ==> size > 0 && (batches - 1) * size < Max(missing, wrong))
    && (size == 0 ==> rows == was && batches == 0 && total == 0)
  }
}
