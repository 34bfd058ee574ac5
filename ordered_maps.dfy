/** Python's `collections.OrderedDict`, reduced to what the message table
    uses: item assignment `d[k] = v` and `popitem()` (which, with its default
    `last=True`, removes the most recently inserted key). */
module OrderedMaps {

  /** The keys in insertion order, and the value stored under each. */
  datatype OrderedMap<K, V> = OrderedMap(keys: seq<K>, values: map<K, V>)

  /** Keys are distinct and are exactly the keys of the value map. */
  ghost predicate Valid<K, V>(m: OrderedMap<K, V>) {
    && (forall i, j :: 0 <= i < j < |m.keys| ==> m.keys[i] != m.keys[j])
    && m.values.Keys == set k | k in m.keys
  }

  /** `len(d)`: a valid table holds one entry per key. */
  lemma {:induction false} SizeIsKeyCount<K, V>(m: OrderedMap<K, V>)
    requires Valid(m)
    ensures |m.values| == |m.keys|
    decreases |m.keys|
  {
    if |m.keys| > 0 {
      var last := m.keys[|m.keys| - 1];
      var r := OrderedMap(m.keys[..|m.keys| - 1], m.values - {last});
      assert forall k :: k in r.keys ==> k in m.keys;
      assert last !in r.keys;
      assert (set k | k in m.keys) == (set k | k in r.keys) + {last};
      SizeIsKeyCount(r);
    }
  }

  /** `OrderedDict()`. */
  function Empty<K, V>(): (m: OrderedMap<K, V>)
    ensures Valid(m) && |m.keys| == 0 && m.values == map[]
  {
    OrderedMap([], map[])
  }

  /** `d[k] = v`: a new key goes to the end; an existing key keeps its
      position and only its value changes. */
  function Assign<K, V>(m: OrderedMap<K, V>, k: K, v: V): (r: OrderedMap<K, V>)
    requires Valid(m)
    ensures Valid(r)
    ensures r.values == m.values[k := v]
    ensures k in m.values ==> r.keys == m.keys
    ensures k !in m.values ==> r.keys == m.keys + [k]
  {
    if k in m.values then OrderedMap(m.keys, m.values[k := v])
    else OrderedMap(m.keys + [k], m.values[k := v])
  }

  /** `d.popitem()`: the last-inserted key and its value leave the map;
      the other keys keep their order and values. */
  function PopItem<K, V>(m: OrderedMap<K, V>): (r: OrderedMap<K, V>)
    requires Valid(m) && |m.keys| > 0
    ensures Valid(r)
    ensures r.keys == m.keys[..|m.keys| - 1]
    ensures m.keys[|m.keys| - 1] !in r.values
    ensures forall k :: k in r.values ==> k in m.values && r.values[k] == m.values[k]
  {
    var last := m.keys[|m.keys| - 1];
    var r := OrderedMap(m.keys[..|m.keys| - 1], m.values - {last});
    assert forall k :: k in r.keys ==> k in m.keys;
    r
  }

  /** `while len(d) > limit: d.popitem()`. */
  function Trim<K, V>(m: OrderedMap<K, V>, limit: nat): (r: OrderedMap<K, V>)
    requires Valid(m)
    ensures Valid(r)
    ensures |r.keys| <= limit
    decreases |m.keys|
  {
    if |m.keys| <= limit then m else Trim(PopItem(m), limit)
  }

  /** The first `n` entries of `m`. */
  function Prefix<K, V>(m: OrderedMap<K, V>, n: nat): OrderedMap<K, V>
    requires Valid(m) && n <= |m.keys|
  {
    OrderedMap(m.keys[..n], map k | k in m.keys[..n] :: m.values[k])
  }

  lemma PrefixWhole<K, V>(m: OrderedMap<K, V>)
    requires Valid(m)
    ensures Prefix(m, |m.keys|) == m
  {
    assert m.keys[..|m.keys|] == m.keys;
    var q := Prefix(m, |m.keys|).values;
    assert q.Keys == m.values.Keys;
    assert forall k :: k in q ==> q[k] == m.values[k];
  }

  /** A prefix holds a prefix of the keys, with their values. */
  lemma PrefixIsSubmap<K, V>(m: OrderedMap<K, V>, n: nat)
    requires Valid(m) && n <= |m.keys|
    ensures Prefix(m, n).keys <= m.keys
    ensures forall k :: k in Prefix(m, n).values ==> k in m.values && Prefix(m, n).values[k] == m.values[k]
  {
  }

  lemma FrontIsNotLast<K, V>(m: OrderedMap<K, V>, n: nat, k: K)
    requires Valid(m) && n < |m.keys| && k in m.keys[..n]
    ensures k != m.keys[|m.keys| - 1] && k in m.values
  {
    var i :| 0 <= i < n && m.keys[..n][i] == k;
    assert m.keys[i] == k;
  }

  /** Dropping the newest entry does not change a shorter prefix. */
  lemma PrefixOfPop<K, V>(m: OrderedMap<K, V>, n: nat)
    requires Valid(m) && n < |m.keys|
    ensures Prefix(PopItem(m), n) == Prefix(m, n)
  {
    var p := PopItem(m);
    var front := m.keys[..n];
    assert p.keys[..n] == front;
    forall k | k in front ensures p.values[k] == m.values[k] {
      FrontIsNotLast(m, n, k);
    }
    SameOn(p.values, m.values, front);
  }

  /** Two maps agreeing on the keys of `s`, which both hold, give the same
      map restricted to `s`. */
  lemma SameOn<K, V>(a: map<K, V>, b: map<K, V>, s: seq<K>)
    requires forall k :: k in s ==> k in a && k in b && a[k] == b[k]
    ensures (map k | k in s :: a[k]) == (map k | k in s :: b[k])
  {
  }

  /** Trimming to `limit` keeps exactly the `limit` oldest entries, so what
      is dropped is always the newest. */
  lemma {:induction false} TrimKeepsOldest<K, V>(m: OrderedMap<K, V>, limit: nat)
    requires Valid(m)
    ensures Trim(m, limit) == Prefix(m, if |m.keys| <= limit then |m.keys| else limit)
    decreases |m.keys|
  {
    if |m.keys| <= limit {
      PrefixWhole(m);
    } else {
      var p := PopItem(m);
      TrimKeepsOldest(p, limit);
      if |p.keys| <= limit {
        PrefixWhole(p);
      }
      PrefixOfPop(m, limit);
    }
  }
}
