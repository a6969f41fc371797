/**
 * Sums over finite maps whose values are amounts of money. The source walks
 * its dictionaries in insertion order; with exact arithmetic the order does
 * not matter, so a sum is defined by removing an arbitrary key and the lemma
 * SumOfRemove shows that every key may be the one removed.
 */
module Sums {

  /** Some element of a non-empty set, the same one every time. */
  ghost function Pick<K>(s: set<K>): (k: K)
    requires s != {}
    ensures k in s
  {
    var k :| k in s; k
  }

  /** The sum of all values of `lines`. */
  ghost function SumOf<K>(lines: map<K, real>): real
    decreases |lines|
  {
    if lines == map[] then 0.0
    else
      var k := Pick(lines.Keys);
      assert |lines - {k}| < |lines| by {
        assert (lines - {k}).Keys == lines.Keys - {k};
      }
      lines[k] + SumOf(lines - {k})
  }

  /** The entries of `m` whose key lies in `keys`. */
  function Restrict<K, V>(m: map<K, V>, keys: set<K>): (r: map<K, V>)
    ensures r.Keys == m.Keys * keys
    ensures forall k :: k in r ==> r[k] == m[k]
  {
    map k | k in m && k in keys :: m[k]
  }

  /** Any key can be taken out of a sum first. */
  lemma {:induction false} SumOfRemove<K>(lines: map<K, real>, k: K)
    requires k in lines
    ensures SumOf(lines) == lines[k] + SumOf(lines - {k})
    decreases |lines|
  {
    var j := Pick(lines.Keys);
    if j != k {
      assert (lines - {j}).Keys == lines.Keys - {j};
      assert (lines - {k}).Keys == lines.Keys - {k};
      SumOfRemove(lines - {j}, k);
      SumOfRemove(lines - {k}, j);
      assert lines - {j} - {k} == lines - {k} - {j};
    }
  }

  /** A sum of non-negative amounts is non-negative. */
  lemma {:induction false} SumOfNonNegative<K>(lines: map<K, real>)
    requires forall k :: k in lines ==> lines[k] >= 0.0
    ensures SumOf(lines) >= 0.0
    decreases |lines|
  {
    if lines != map[] {
      var k := Pick(lines.Keys);
      assert (lines - {k}).Keys == lines.Keys - {k};
      SumOfNonNegative(lines - {k});
    }
  }

  /** A single line sums to its own amount. */
  lemma SumOfSingleton<K>(k: K, v: real)
    ensures SumOf(map[k := v]) == v
  {
    SumOfRemove(map[k := v], k);
    assert map[k := v] - {k} == map[];
  }

  /** Restricting to every key changes nothing; restricting to none leaves nothing. */
  lemma RestrictBounds<K, V>(m: map<K, V>)
    ensures Restrict(m, m.Keys) == m
    ensures Restrict(m, {}) == map[]
  {
  }

  /** Taking one more key out of the restriction set takes that key out of the map. */
  lemma RestrictRemove<K, V>(m: map<K, V>, keys: set<K>, k: K)
    ensures Restrict(m, keys) - {k} == Restrict(m, keys - {k})
  {
  }
}
