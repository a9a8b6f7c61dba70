/** Options and sums over finite maps, used by every component. */
module Basics {

  datatype Option<+T> = None | Some(value: T)

  /** No element appears twice. */
  ghost predicate Distinct<T>(s: seq<T>) {
    forall i, j :: 0 <= i < j < |s| ==> s[i] != s[j]
  }

  /** The sum of w(k, m[k]) over the keys of m. */
  ghost function MapSum<K(!new), V(!new)>(m: map<K, V>, w: (K, V) -> nat): (total: nat)
    decreases |m|
  {
    if m == map[] then 0
    else
      var k :| k in m;
      w(k, m[k]) + MapSum(m - {k}, w)
  }

  /** Any key may be split off first: the sum does not depend on an enumeration order. */
  lemma {:induction false} MapSumSplit<K(!new), V(!new)>(m: map<K, V>, w: (K, V) -> nat, k: K)
    requires k in m
    ensures MapSum(m, w) == w(k, m[k]) + MapSum(m - {k}, w)
    decreases |m|
  {
    var j :| j in m && MapSum(m, w) == w(j, m[j]) + MapSum(m - {j}, w);
    if j != k {
      MapSumSplit(m - {j}, w, k);
      MapSumSplit(m - {k}, w, j);
      assert m - {j} - {k} == m - {k} - {j};
    }
  }

  /** Changing the value at one key changes the sum by the change at that key. */
  lemma MapSumUpdate<K(!new), V(!new)>(m: map<K, V>, w: (K, V) -> nat, k: K, v: V)
    ensures MapSum(m[k := v], w) == w(k, v) + MapSum(m - {k}, w)
    ensures k !in m ==> MapSum(m[k := v], w) == w(k, v) + MapSum(m, w)
  {
    MapSumSplit(m[k := v], w, k);
    assert m[k := v] - {k} == m - {k};
    if k !in m {
      assert m - {k} == m;
    }
  }

  /** Entries of weight zero may be dropped. */
  lemma {:induction false} MapSumDrop<K(!new), V(!new)>(m: map<K, V>, sub: map<K, V>, w: (K, V) -> nat)
    requires sub.Keys <= m.Keys
    requires forall k :: k in sub ==> sub[k] == m[k]
    requires forall k :: k in m && k !in sub ==> w(k, m[k]) == 0
    ensures MapSum(sub, w) == MapSum(m, w)
    decreases |m|
  {
    if k :| k in m {
      MapSumSplit(m, w, k);
      if k in sub {
        MapSumSplit(sub, w, k);
        MapSumDrop(m - {k}, sub - {k}, w);
      } else {
        MapSumDrop(m - {k}, sub, w);
      }
    } else {
      assert sub == m;
    }
  }

  /** A per-entry bound bounds the sum. */
  lemma {:induction false} MapSumBound<K(!new), V(!new)>(m: map<K, V>, w: (K, V) -> nat, bound: nat)
    requires forall k :: k in m ==> w(k, m[k]) <= bound
    ensures MapSum(m, w) <= bound * |m|
    decreases |m|
  {
    if k :| k in m {
      MapSumSplit(m, w, k);
      var rest := m - {k};
      assert rest.Keys == m.Keys - {k};
      MapSumBound(rest, w, bound);
      calc <= {
        MapSum(m, w);
        bound + bound * |rest|;
        bound * (1 + |rest|);
      }
    }
  }
}
