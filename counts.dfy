/**
 * A Python `dict` used as a counter, `counts[k] = counts.get(k, 0) + 1`, and
 * the sum of its values. Keys may be any value, including `None`.
 */
module Counts {

  /** The counter a single `counts[k] = counts.get(k, 0) + 1` leaves behind. */
  function Bump<K>(m: map<K, nat>, k: K): (r: map<K, nat>)
    ensures r.Keys == m.Keys + {k}
    ensures r[k] == (if k in m then m[k] else 0) + 1
    ensures r - {k} == m - {k}
  {
    m[k := (if k in m then m[k] else 0) + 1]
  }

  /** The counter that counting every element of `items` produces: one key per distinct element. */
  function CountsOf<K>(items: seq<K>): (counts: map<K, nat>)
    ensures counts.Keys == set k | k in items
    ensures forall k :: k in counts ==> counts[k] >= 1
  {
    map k | k in items :: multiset(items)[k]
  }

  /** Some key of a non-empty map. */
  ghost function AnyKey<K>(m: map<K, nat>): K
    requires m != map[]
  {
    assert m.Keys != {} by {
      var k :| k in m;
    }
    var k :| k in m; k
  }

  /** `sum(m.values())`. */
  ghost function SumOver<K>(m: map<K, nat>): nat
    decreases |m|
  {
    if m == map[] then 0
    else
      var k := AnyKey(m);
      assert |m - {k}| == |m| - 1 by { assert (m - {k}).Keys == m.Keys - {k}; }
      m[k] + SumOver(m - {k})
  }

  /** The sum does not depend on which key is taken out first. */
  lemma {:induction false} SumOverRemove<K>(m: map<K, nat>, k: K)
    requires k in m
    ensures SumOver(m) == m[k] + SumOver(m - {k})
    decreases |m|
  {
    var j := AnyKey(m);
    if j != k {
      assert (m - {j}).Keys == m.Keys - {j};
      assert (m - {k}).Keys == m.Keys - {k};
      SumOverRemove(m - {j}, k);
      SumOverRemove(m - {k}, j);
      assert m - {j} - {k} == m - {k} - {j};
    }
  }

  /** One bump raises the sum of the counts by exactly one. */
  lemma SumOverBump<K>(m: map<K, nat>, k: K)
    ensures SumOver(Bump(m, k)) == SumOver(m) + 1
  {
    var b := Bump(m, k);
    SumOverRemove(b, k);
    if k in m {
      SumOverRemove(m, k);
    } else {
      assert b - {k} == m;
    }
  }

  /** Counting one more element is one more bump. */
  lemma CountsOfSnoc<K>(items: seq<K>, x: K)
    ensures CountsOf(items + [x]) == Bump(CountsOf(items), x)
  {
    assert multiset(items + [x]) == multiset(items) + multiset{x};
    forall k | k in items + [x] ensures k in items || k == x { }
  }

  /**
   * The counter of `items` has exactly the distinct elements as keys, no key
   * with count zero, and each key's count is the number of its occurrences.
   */
  lemma CountsOfMeaning<K>(items: seq<K>, k: K)
    ensures k in CountsOf(items) <==> k in items
    ensures k in CountsOf(items) ==> CountsOf(items)[k] == multiset(items)[k] >= 1
  {
  }

  /** The counts sum to the number of counted elements. */
  lemma {:induction false} SumOfCounts<K>(items: seq<K>)
    ensures SumOver(CountsOf(items)) == |items|
  {
    if items == [] {
      assert CountsOf(items) == map[];
    } else {
      var init, last := items[..|items| - 1], items[|items| - 1];
      assert items == init + [last];
      SumOfCounts(init);
      CountsOfSnoc(init, last);
      SumOverBump(CountsOf(init), last);
    }
  }
}
