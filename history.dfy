/**
 * One history column of the dashboard: a list that receives one entry per
 * ingested message and is then cut to its newest `MaxPoints` entries with the
 * Python slice `col[-MaxPoints:]`.
 */
module History {

  /** The bound on every history column (`max_points`). */
  const MaxPoints: nat := 120

  /** `col[-MaxPoints:]`: the newest `MaxPoints` entries, or all of them when there are fewer. */
  function Truncate<T>(col: seq<T>): (r: seq<T>)
    ensures |r| == if |col| <= MaxPoints then |col| else MaxPoints
  {
    if |col| <= MaxPoints then col else col[|col| - MaxPoints..]
  }

  /** What survives the cut is the newest part of the column, in its original order. */
  lemma TruncateKeepsNewest<T>(col: seq<T>)
    ensures Truncate(col) == col[|col| - |Truncate(col)|..]
    ensures col != [] ==> Truncate(col)[|Truncate(col)| - 1] == col[|col| - 1]
  {
  }

  /** Reference definition of FIFO eviction: while over capacity, drop the oldest entry. */
  function EvictOldest<T>(col: seq<T>): (kept: seq<T>)
    decreases |col|
  {
    if |col| <= MaxPoints then col else EvictOldest(col[1..])
  }

  /** The slice keeps exactly what evicting oldest-first one at a time keeps. */
  lemma {:induction false} TruncateIsEviction<T>(col: seq<T>)
    ensures Truncate(col) == EvictOldest(col)
    decreases |col|
  {
    if |col| > MaxPoints {
      TruncateIsEviction(col[1..]);
      assert col[1..][|col| - 1 - |Truncate(col[1..])|..] == col[|col| - |Truncate(col[1..])|..];
    }
  }

  /** One ingest step on a column: append the new value, then cut to the bound. */
  function Push<T>(col: seq<T>, v: T): (r: seq<T>)
    ensures |r| == if |col| < MaxPoints then |col| + 1 else MaxPoints
    ensures r[|r| - 1] == v
    ensures |col| < MaxPoints ==> r == col + [v]
    ensures |col| == MaxPoints ==> r == col[1..] + [v]
  {
    Truncate(col + [v])
  }

  /** A column after a stream of values arrives one ingest at a time. */
  function PushAll<T>(col: seq<T>, vs: seq<T>): (r: seq<T>)
    ensures vs != [] ==> 0 < |r| <= MaxPoints
    ensures vs != [] ==> r[|r| - 1] == vs[|vs| - 1]
    decreases |vs|
  {
    if vs == [] then col else PushAll(Push(col, vs[0]), vs[1..])
  }

  /** Cutting early and then appending more keeps the same newest entries as cutting once at the end. */
  lemma TruncateAppend<T>(a: seq<T>, b: seq<T>)
    ensures Truncate(Truncate(a) + b) == Truncate(a + b)
  {
  }

  /** A non-empty stream first pushes its oldest value. */
  lemma PushAllStep<T>(col: seq<T>, vs: seq<T>)
    requires vs != []
    ensures PushAll(col, vs) == PushAll(Truncate(col + [vs[0]]), vs[1..])
  {
  }

  /** Taking the oldest value off a stream and putting it back gives the same stream. */
  lemma SplitFirst<T>(col: seq<T>, vs: seq<T>)
    requires vs != []
    ensures col + [vs[0]] + vs[1..] == col + vs
  {
  }

  /**
   * Ingesting a stream value by value leaves the column holding the newest
   * `MaxPoints` values of the whole arrival sequence, in arrival order.
   */
  lemma {:induction false} PushAllIsTruncate<T>(col: seq<T>, vs: seq<T>)
    requires |col| <= MaxPoints
    ensures PushAll(col, vs) == Truncate(col + vs)
    decreases |vs|
  {
    if vs != [] {
      var head, rest := col + [vs[0]], vs[1..];
      PushAllStep(col, vs);
      PushAllIsTruncate(Truncate(head), rest);
      TruncateAppend(head, rest);
      SplitFirst(col, vs);
    }
  }

  /** Starting empty, `MaxPoints + 1` arrivals leave every value but the oldest, in order. */
  lemma OverflowEvictsOldest<T>(vs: seq<T>)
    requires |vs| == MaxPoints + 1
    ensures PushAll([], vs) == vs[1..]
  {
    PushAllIsTruncate([], vs);
    assert [] + vs == vs;
  }
}
