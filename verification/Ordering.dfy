/** `ORDER BY key ASC, id ASC` over a finite set of rows. */
module Ordering {
  import opened Schema

  predicate Before(keys: map<Uuid, Time>, i: Uuid, j: Uuid)
    requires i in keys && j in keys
  {
    keys[i] < keys[j] || (keys[i] == keys[j] && i <= j)
  }

  predicate First(keys: map<Uuid, Time>, i: Uuid) {
    i in keys && forall j | j in keys :: Before(keys, i, j)
  }

  lemma {:induction false} FirstExists(keys: map<Uuid, Time>)
    requires |keys| > 0
    ensures exists i :: First(keys, i)
    decreases |keys|
  {
    var k :| k in keys;
    var rest := keys - {k};
    if rest.Keys == {} {
      assert keys.Keys == {k};
      assert First(keys, k);
    } else {
      assert rest.Keys == keys.Keys - {k};
      assert |rest| == |rest.Keys| && |keys| == |keys.Keys|;
      FirstExists(rest);
      var m :| First(rest, m);
      if Before(keys, k, m) {
        forall j | j in keys ensures Before(keys, k, j) {
          if j != k { assert j in rest; assert Before(rest, m, j); }
        }
        assert First(keys, k);
      } else {
        forall j | j in keys ensures Before(keys, m, j) {
          if j != k { assert j in rest; assert Before(rest, m, j); }
        }
        assert First(keys, m);
      }
    }
  }

  /** The row that comes first. */
  function Least(keys: map<Uuid, Time>): (i: Uuid)
    requires |keys| > 0
    ensures First(keys, i)
  {
    FirstExists(keys);
    var i :| First(keys, i);
    i
  }

  lemma {:induction false} WithoutLeast(keys: map<Uuid, Time>, i: Uuid)
    requires i in keys
    ensures |keys - {i}| == |keys| - 1
  {
    assert (keys - {i}).Keys == keys.Keys - {i};
  }

  /** All rows in order. */
  function Sorted(keys: map<Uuid, Time>): (ids: seq<Uuid>)
    decreases |keys|
  {
    if |keys| == 0 then
      []
    else
      var i := Least(keys);
      WithoutLeast(keys, i);
      [i] + Sorted(keys - {i})
  }

  /** A listing of exactly the rows of `keys`, each once, in order. */
  ghost predicate Lists(keys: map<Uuid, Time>, ids: seq<Uuid>) {
    && (forall n | 0 <= n < |ids| :: ids[n] in keys)
    && (forall i | i in keys :: i in ids)
    && (forall m, n | 0 <= m < n < |ids| ::
          ids[m] in keys && ids[n] in keys && ids[m] != ids[n] && Before(keys, ids[m], ids[n]))
  }

  lemma {:induction false} ListsCons(keys: map<Uuid, Time>, i: Uuid, tail: seq<Uuid>)
    requires First(keys, i)
    requires Lists(keys - {i}, tail)
    ensures Lists(keys, [i] + tail)
  {
    var ids := [i] + tail;
    forall n | 0 <= n < |tail| ensures tail[n] in keys && tail[n] != i {
      assert tail[n] in keys - {i};
    }
    forall j | j in keys ensures j in ids {
      if j != i { assert j in keys - {i}; assert j in tail; }
    }
    forall m, n | 0 <= m < n < |ids|
      ensures ids[m] in keys && ids[n] in keys && ids[m] != ids[n] && Before(keys, ids[m], ids[n])
    {
      assert ids[n] == tail[n - 1];
      if m > 0 {
        assert ids[m] == tail[m - 1];
        assert Before(keys - {i}, tail[m - 1], tail[n - 1]);
      }
    }
  }

  /** `Sorted` is such a listing, and as long as the table. */
  lemma {:induction false} SortedLists(keys: map<Uuid, Time>)
    ensures Lists(keys, Sorted(keys))
    ensures |Sorted(keys)| == |keys|
    decreases |keys|
  {
    if |keys| != 0 {
      var i := Least(keys);
      WithoutLeast(keys, i);
      SortedLists(keys - {i});
      ListsCons(keys, i, Sorted(keys - {i}));
    }
  }

  function Min(a: int, b: int): int {
    if a <= b then a else b
  }

  /** `LIMIT n`. */
  function Limited(ids: seq<Uuid>, limit: int): seq<Uuid> {
    if limit <= 0 then [] else ids[..Min(limit, |ids|)]
  }

  /** `ORDER BY ... LIMIT n` takes the first rows of the order. */
  lemma LimitedIsFirst(keys: map<Uuid, Time>, limit: int)
    ensures var ids := Limited(Sorted(keys), limit);
      && |ids| == Min(if limit <= 0 then 0 else limit, |keys|)
      && (forall n | 0 <= n < |ids| :: ids[n] in keys)
      && (forall m, n | 0 <= m < n < |ids| :: ids[m] != ids[n] && Before(keys, ids[m], ids[n]))
      && (forall n, j | 0 <= n < |ids| && j in keys && j !in ids :: Before(keys, ids[n], j))
  {
    hide Sorted, Before;
    SortedLists(keys);
    var sorted, ids := Sorted(keys), Limited(Sorted(keys), limit);
    forall n, j | 0 <= n < |ids| && j in keys && j !in ids ensures Before(keys, ids[n], j) {
      var tail := sorted[|ids|..];
      assert sorted == ids + tail;
      var q :| 0 <= q < |tail| && tail[q] == j;
      assert sorted[|ids| + q] == j && sorted[n] == ids[n];
    }
  }
}
