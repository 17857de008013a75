/**
 * Python's dict as the core uses it: an association list in insertion order.
 * Assigning an existing key replaces its value in place; a new key goes to the end.
 */
module Dicts {
  import opened Base

  type Dict<K, V> = seq<(K, V)>

  /** `list(d.keys())`, in insertion order. */
  function Keys<K, V>(d: Dict<K, V>): seq<K>
  {
    seq(|d|, i requires 0 <= i < |d| => d[i].0)
  }

  /** A well-formed dict: no key twice. */
  predicate DistinctKeys<K(==), V>(d: Dict<K, V>)
  {
    Distinct(Keys(d))
  }

  /** `d.get(k)`: the value of the first pair with key k (a dict has only one). */
  function Get<K(==), V>(d: Dict<K, V>, k: K): Option<V>
  {
    if |d| == 0 then None
    else if d[0].0 == k then Some(d[0].1)
    else Get(d[1..], k)
  }

  /** The value of the LAST pair with key k: what `dict(pairs)` keeps for k. */
  function LastGet<K(==), V>(pairs: seq<(K, V)>, k: K): Option<V>
  {
    if |pairs| == 0 then None
    else if pairs[|pairs| - 1].0 == k then Some(pairs[|pairs| - 1].1)
    else LastGet(pairs[..|pairs| - 1], k)
  }

  /** `d[k] = v`. */
  function Put<K(==), V>(d: Dict<K, V>, k: K, v: V): Dict<K, V>
  {
    if |d| == 0 then [(k, v)]
    else if d[0].0 == k then [(k, v)] + d[1..]
    else [d[0]] + Put(d[1..], k, v)
  }

  /** Dropping the first pair drops the first key. */
  lemma KeysTail<K, V>(d: Dict<K, V>)
    requires |d| > 0
    ensures Keys(d) == [d[0].0] + Keys(d[1..])
  {
    assert Keys(d) == [d[0].0] + Keys(d)[1..];
  }

  /** Appending a pair appends its key. */
  lemma KeysSnoc<K, V>(d: Dict<K, V>, p: (K, V))
    ensures Keys(d + [p]) == Keys(d) + [p.0]
  {
  }

  /** `d.get(k)` finds something exactly when k is a key of d. */
  lemma {:induction false} GetSome<K, V>(d: Dict<K, V>, k: K)
    ensures Get(d, k).Some? <==> k in Keys(d)
  {
    if |d| > 0 {
      KeysTail(d);
      GetSome(d[1..], k);
    }
  }

  /** The last pair with key k exists exactly when k is a key of the pairs. */
  lemma {:induction false} LastGetSome<K, V>(pairs: seq<(K, V)>, k: K)
    ensures LastGet(pairs, k).Some? <==> k in Keys(pairs)
  {
    if |pairs| > 0 {
      var init := pairs[..|pairs| - 1];
      assert pairs == init + [pairs[|pairs| - 1]];
      KeysSnoc(init, pairs[|pairs| - 1]);
      LastGetSome(init, k);
    }
  }

  /** `d[k] = v` keeps the keys and their order, adding k at the end when it is new, and keeps a dict well formed. */
  lemma {:induction false} PutKeys<K, V>(d: Dict<K, V>, k: K, v: V)
    ensures Keys(Put(d, k, v)) == if k in Keys(d) then Keys(d) else Keys(d) + [k]
    ensures DistinctKeys(d) ==> DistinctKeys(Put(d, k, v))
  {
    if |d| > 0 {
      KeysTail(d);
      var r := Put(d, k, v);
      KeysTail(r);
      if d[0].0 != k {
        PutKeys(d[1..], k, v);
        assert r[1..] == Put(d[1..], k, v);
      } else {
        assert r[1..] == d[1..];
      }
    }
  }

  /** After `d[k] = v`, k holds v and every other key keeps its value. */
  lemma {:induction false} PutGet<K, V>(d: Dict<K, V>, k: K, v: V, x: K)
    ensures Get(Put(d, k, v), x) == if x == k then Some(v) else Get(d, x)
  {
    if |d| > 0 && d[0].0 != k {
      var r := Put(d, k, v);
      assert r[0] == d[0] && r[1..] == Put(d[1..], k, v);
      PutGet(d[1..], k, v, x);
    }
  }

  /** Assigning a key the dict lacks appends the pair at the end. */
  lemma {:induction false} PutNew<K, V>(d: Dict<K, V>, k: K, v: V)
    requires k !in Keys(d)
    ensures Put(d, k, v) == d + [(k, v)]
  {
    if |d| > 0 {
      KeysTail(d);
      PutNew(d[1..], k, v);
      assert d == [d[0]] + d[1..];
    }
  }

  /** `{**a, **b}`: a's pairs, then every pair of b assigned in b's order. */
  function Merge<K(==), V>(a: Dict<K, V>, b: Dict<K, V>): (r: Dict<K, V>)
  {
    if |b| == 0 then a
    else Put(Merge(a, b[..|b| - 1]), b[|b| - 1].0, b[|b| - 1].1)
  }

  /** `{k: v for k, v in pairs}`: the dict built from a list of pairs, later pairs winning. */
  function FromPairs<K(==), V>(pairs: seq<(K, V)>): (r: Dict<K, V>)
  {
    Merge([], pairs)
  }

  /** `{**a, **b}[k]` is b's value when b has k, a's otherwise. */
  lemma {:induction false} MergeGet<K, V>(a: Dict<K, V>, b: Dict<K, V>, x: K)
    ensures Get(Merge(a, b), x) == if x in Keys(b) then LastGet(b, x) else Get(a, x)
  {
    if |b| > 0 {
      var init, last := b[..|b| - 1], b[|b| - 1];
      assert b == init + [last];
      KeysSnoc(init, last);
      MergeGet(a, init, x);
      PutGet(Merge(a, init), last.0, last.1, x);
      if x != last.0 {
        LastGetSome(init, x);
      }
    }
  }

  /** `{**a, **b}` keeps a's keys in their order, adds b's new keys after them, and has no key twice. */
  lemma {:induction false} MergeKeys<K, V>(a: Dict<K, V>, b: Dict<K, V>)
    ensures Keys(a) <= Keys(Merge(a, b))
    ensures forall x :: x in Keys(Merge(a, b)) <==> x in Keys(a) || x in Keys(b)
    ensures DistinctKeys(a) ==> DistinctKeys(Merge(a, b))
  {
    if |b| > 0 {
      var init, last := b[..|b| - 1], b[|b| - 1];
      assert b == init + [last];
      KeysSnoc(init, last);
      MergeKeys(a, init);
      PutKeys(Merge(a, init), last.0, last.1);
    }
  }

  /** A dict built from pairs has each key once, holding the last value paired with it. */
  lemma FromPairsGet<K, V>(pairs: seq<(K, V)>, x: K)
    ensures DistinctKeys(FromPairs(pairs))
    ensures x in Keys(FromPairs(pairs)) <==> x in Keys(pairs)
    ensures Get(FromPairs(pairs), x) == LastGet(pairs, x)
  {
    MergeGet([], pairs, x);
    MergeKeys([], pairs);
    assert Keys<K, V>([]) == [];
    LastGetSome(pairs, x);
  }

  /** Pairs with no key twice build the dict holding exactly those pairs, in their order. */
  lemma {:induction false} FromPairsDistinct<K, V>(pairs: seq<(K, V)>)
    requires DistinctKeys(pairs)
    ensures FromPairs(pairs) == pairs
  {
    if |pairs| > 0 {
      var init, last := pairs[..|pairs| - 1], pairs[|pairs| - 1];
      assert pairs == init + [last];
      KeysSnoc(init, last);
      assert Keys(init) == Keys(pairs)[..|pairs| - 1];
      FromPairsDistinct(init);
      assert last.0 !in Keys(init) by {
        assert Keys(pairs)[|pairs| - 1] == last.0;
      }
      PutNew(init, last.0, last.1);
    }
  }

  /** In a dict with no key twice, looking up the i-th key finds the i-th value. */
  lemma {:induction false} GetDistinct<K, V>(d: Dict<K, V>, i: nat)
    requires DistinctKeys(d) && i < |d|
    ensures Get(d, d[i].0) == Some(d[i].1)
  {
    if i > 0 {
      assert Keys(d)[0] != Keys(d)[i];
      KeysTail(d);
      assert Keys(d[1..]) == Keys(d)[1..];
      GetDistinct(d[1..], i - 1);
    }
  }
  /** The last pair with key x in `b + c` is c's when c has x, b's otherwise. */
  lemma {:induction false} LastGetAppend<K, V>(b: seq<(K, V)>, c: seq<(K, V)>, x: K)
    ensures LastGet(b + c, x) == if x in Keys(c) then LastGet(c, x) else LastGet(b, x)
  {
    if |c| > 0 {
      var init, last := c[..|c| - 1], c[|c| - 1];
      assert c == init + [last];
      assert (b + c)[..|b + c| - 1] == b + init;
      KeysSnoc(init, last);
      LastGetAppend(b, init, x);
    } else {
      assert b + c == b;
    }
  }

  /** In a dict with no key twice, the last pair with a key is its only pair. */
  lemma LastGetDistinct<K, V>(d: Dict<K, V>, x: K)
    requires DistinctKeys(d)
    ensures LastGet(d, x) == Get(d, x)
  {
    FromPairsDistinct(d);
    FromPairsGet(d, x);
  }
}
