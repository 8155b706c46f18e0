/** "Filter, order by a key, take the first row": the shape of every query
    in the meet core that picks one record (the primary weight class, the
    primary age class and the next lift in the queue). */
module Selection {
  import opened Wrappers

  /** `leq` compares every pair and is transitive, as an SQL ORDER BY key is. */
  ghost predicate TotalPreorder<T(!new)>(leq: (T, T) -> bool) {
    && (forall a, b :: leq(a, b) || leq(b, a))
    && (forall a, b, c :: leq(a, b) && leq(b, c) ==> leq(a, c))
  }

  /** Index `i` holds a row that passes the filter `ok`, is `leq` every row
      that passes it, and strictly precedes every earlier row that passes it:
      ties on the key go to the row that comes first in table order. */
  ghost predicate IsFirstLeast<T>(xs: seq<T>, ok: T -> bool, leq: (T, T) -> bool, i: int) {
    && 0 <= i < |xs|
    && ok(xs[i])
    && (forall j :: 0 <= j < |xs| && ok(xs[j]) ==> leq(xs[i], xs[j]))
    && (forall j :: 0 <= j < i && ok(xs[j]) ==> !leq(xs[j], xs[i]))
  }

  /** The first row, in `leq` order, of those that pass `ok`; `None` when no
      row passes. */
  function FirstLeast<T(!new)>(xs: seq<T>, ok: T -> bool, leq: (T, T) -> bool): (r: Option<nat>)
    requires TotalPreorder(leq)
    ensures r.Some? ==> IsFirstLeast(xs, ok, leq, r.value)
    ensures r.None? <==> (forall j :: 0 <= j < |xs| ==> !ok(xs[j]))
    decreases |xs|
  {
    if |xs| == 0 then None
    else
      var last := |xs| - 1;
      var prefix := FirstLeast(xs[..last], ok, leq);
      assert forall j :: 0 <= j < last ==> xs[..last][j] == xs[j];
      if ok(xs[last]) && (prefix.None? || !leq(xs[prefix.value], xs[last])) then Some(last)
      else prefix
  }

  /** At most one index is the first least one, so the pick is determined by
      the rows alone. */
  lemma FirstLeastUnique<T>(xs: seq<T>, ok: T -> bool, leq: (T, T) -> bool, i: int, k: int)
    requires IsFirstLeast(xs, ok, leq, i) && IsFirstLeast(xs, ok, leq, k)
    ensures i == k
  {
  }

  /** `FirstLeast` returns exactly the index the reference definition
      `IsFirstLeast` describes. */
  lemma FirstLeastCharacterized<T(!new)>(xs: seq<T>, ok: T -> bool, leq: (T, T) -> bool, i: int)
    requires TotalPreorder(leq)
    ensures IsFirstLeast(xs, ok, leq, i) <==> FirstLeast(xs, ok, leq) == Some(i)
  {
    var r := FirstLeast(xs, ok, leq);
    if IsFirstLeast(xs, ok, leq, i) {
      assert r.Some?;
      FirstLeastUnique(xs, ok, leq, i, r.value);
    }
  }
}
