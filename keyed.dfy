/**
 * What the client's "insert every element into a hash map" loops compute:
 * indexing a list by a key, where a later element with the same key replaces
 * an earlier one, and grouping a list by a key, where every element is
 * pushed onto the vector of its key.
 */
module Keyed {

  /** The map a loop of `map.insert(key(x), val(x))` over `xs` leaves, starting from `m`. */
  function InsertAll<T, K, V>(m: map<K, V>, xs: seq<T>, key: T -> K, val: T -> V): map<K, V>
    decreases |xs|
  {
    if xs == [] then m else InsertAll(m, xs[..|xs| - 1], key, val)[key(xs[|xs| - 1]) := val(xs[|xs| - 1])]
  }

  /** The element itself, as the value stored under its key. */
  function Itself<T>(x: T): T
  {
    x
  }

  /** Indexing a list into a fresh map. */
  function IndexBy<T, K, V>(xs: seq<T>, key: T -> K, val: T -> V): map<K, V>
  {
    InsertAll(map[], xs, key, val)
  }

  /** The keys of `init + [x]`: those of `init`, and `x`'s. */
  lemma KeysOfSnoc<T, K>(init: seq<T>, x: T, key: T -> K)
    ensures (set i | 0 <= i < |init + [x]| :: key((init + [x])[i])) == (set i | 0 <= i < |init| :: key(init[i])) + {key(x)}
  {
    var xs := init + [x];
    var all := set i | 0 <= i < |xs| :: key(xs[i]);
    var front := set i | 0 <= i < |init| :: key(init[i]);
    forall k | k in all
      ensures k in front + {key(x)}
    {
      var i :| 0 <= i < |xs| && key(xs[i]) == k;
      if i < |init| {
        assert key(init[i]) == k;
      }
    }
    forall k | k in front
      ensures k in all
    {
      var i :| 0 <= i < |init| && key(init[i]) == k;
      assert key(xs[i]) == k;
    }
    assert key(xs[|init|]) in all;
  }

  /** After the inserts the map has the old keys and the key of every element. */
  lemma {:induction false} InsertAllKeys<T, K, V>(m: map<K, V>, xs: seq<T>, key: T -> K, val: T -> V)
    ensures InsertAll(m, xs, key, val).Keys == m.Keys + set i | 0 <= i < |xs| :: key(xs[i])
    decreases |xs|
  {
    if xs != [] {
      var n := |xs| - 1;
      InsertAllKeys(m, xs[..n], key, val);
      assert xs == xs[..n] + [xs[n]];
      KeysOfSnoc(xs[..n], xs[n], key);
    }
  }

  /**
   * The value under a key is that of the LAST element with that key, and a
   * key no element has keeps its old value.
   */
  lemma {:induction false} InsertAllLastWins<T, K, V>(m: map<K, V>, xs: seq<T>, key: T -> K, val: T -> V, i: nat)
    requires i < |xs|
    requires forall j | i < j < |xs| :: key(xs[j]) != key(xs[i])
    ensures key(xs[i]) in InsertAll(m, xs, key, val)
    ensures InsertAll(m, xs, key, val)[key(xs[i])] == val(xs[i])
    decreases |xs|
  {
    var n := |xs| - 1;
    if i < n {
      assert xs[..n][i] == xs[i];
      assert forall j | i < j < n :: xs[..n][j] == xs[j];
      InsertAllLastWins(m, xs[..n], key, val, i);
    }
  }

  lemma {:induction false} InsertAllKeepsOthers<T, K, V>(m: map<K, V>, xs: seq<T>, key: T -> K, val: T -> V, k: K)
    requires k in m
    requires forall i | 0 <= i < |xs| :: key(xs[i]) != k
    ensures k in InsertAll(m, xs, key, val) && InsertAll(m, xs, key, val)[k] == m[k]
    decreases |xs|
  {
    if xs != [] {
      var n := |xs| - 1;
      assert forall i | 0 <= i < n :: xs[..n][i] == xs[i];
      InsertAllKeepsOthers(m, xs[..n], key, val, k);
    }
  }

  /** Indexing into a fresh map: the keys are exactly those of the elements, the last element of each key wins. */
  lemma IndexByLastWins<T, K, V>(xs: seq<T>, key: T -> K, val: T -> V)
    ensures IndexBy(xs, key, val).Keys == set i | 0 <= i < |xs| :: key(xs[i])
    ensures forall i | 0 <= i < |xs| && (forall j | i < j < |xs| :: key(xs[j]) != key(xs[i])) ::
      IndexBy(xs, key, val)[key(xs[i])] == val(xs[i])
  {
    InsertAllKeys(map[], xs, key, val);
    forall i | 0 <= i < |xs| && (forall j | i < j < |xs| :: key(xs[j]) != key(xs[i]))
      ensures IndexBy(xs, key, val)[key(xs[i])] == val(xs[i])
    {
      InsertAllLastWins(map[], xs, key, val, i);
    }
  }

  /** The elements of `xs` whose key is `k`, in input order. */
  function WithKey<T, K(==)>(xs: seq<T>, key: T -> K, k: K): (r: seq<T>)
    ensures |r| <= |xs|
    ensures forall i | 0 <= i < |r| :: key(r[i]) == k
    ensures |r| > 0 <==> exists i | 0 <= i < |xs| :: key(xs[i]) == k
    decreases |xs|
  {
    if xs == [] then []
    else
      assert forall i | 0 <= i < |xs| - 1 :: xs[..|xs| - 1][i] == xs[i];
      WithKey(xs[..|xs| - 1], key, k) + (if key(xs[|xs| - 1]) == k then [xs[|xs| - 1]] else [])
  }

  /** `map.entry(key(x)).or_insert(vec![]).push(x)` for every `x` of `xs`, in order. */
  function GroupBy<T, K>(xs: seq<T>, key: T -> K): map<K, seq<T>>
    decreases |xs|
  {
    if xs == [] then map[]
    else
      var m := GroupBy(xs[..|xs| - 1], key);
      var x := xs[|xs| - 1];
      m[key(x) := (if key(x) in m then m[key(x)] else []) + [x]]
  }

  /**
   * Grouping: there is one group per key that occurs, each group is the
   * sub-list of the elements with that key in input order, so no group is
   * empty.
   */
  lemma {:induction false} GroupByIsFilter<T, K>(xs: seq<T>, key: T -> K)
    ensures GroupBy(xs, key).Keys == set i | 0 <= i < |xs| :: key(xs[i])
    ensures forall k | k in GroupBy(xs, key) :: GroupBy(xs, key)[k] == WithKey(xs, key, k)
    ensures forall k | k in GroupBy(xs, key) :: |GroupBy(xs, key)[k]| > 0
    decreases |xs|
  {
    if xs != [] {
      var n := |xs| - 1;
      var init := xs[..n];
      GroupByIsFilter(init, key);
      assert xs == init + [xs[n]];
      KeysOfSnoc(init, xs[n], key);
      forall k | k in GroupBy(xs, key)
        ensures GroupBy(xs, key)[k] == WithKey(xs, key, k)
      {
        if k != key(xs[n]) && k !in GroupBy(init, key) {
          assert false;
        }
      }
    }
  }

  /** Sum of the sizes of the groups of the keys `ks`. */
  function SizeOfGroups<T, K(==)>(xs: seq<T>, key: T -> K, ks: seq<K>): nat
    decreases |ks|
  {
    if ks == [] then 0 else |WithKey(xs, key, ks[0])| + SizeOfGroups(xs, key, ks[1..])
  }

  predicate Distinct<K(==)>(ks: seq<K>)
  {
    forall i, j | 0 <= i < j < |ks| :: ks[i] != ks[j]
  }

  lemma {:induction false} SizeOfGroupsStep<T, K>(xs: seq<T>, x: T, key: T -> K, ks: seq<K>)
    requires Distinct(ks)
    ensures SizeOfGroups(xs + [x], key, ks) == SizeOfGroups(xs, key, ks) + (if key(x) in ks then 1 else 0)
    decreases |ks|
  {
    if ks != [] {
      assert (xs + [x])[..|xs + [x]| - 1] == xs;
      SizeOfGroupsStep(xs, x, key, ks[1..]);
      assert key(x) in ks <==> key(x) == ks[0] || key(x) in ks[1..];
      if key(x) == ks[0] {
        assert key(x) !in ks[1..];
      }
    }
  }

  /**
   * The groups of any duplicate-free enumeration of the keys hold, between
   * them, every element once: their sizes sum to the input length.
   */
  lemma {:induction false} GroupSizesSum<T, K>(xs: seq<T>, key: T -> K, ks: seq<K>)
    requires Distinct(ks)
    requires forall i | 0 <= i < |xs| :: key(xs[i]) in ks
    ensures SizeOfGroups(xs, key, ks) == |xs|
    decreases |xs|
  {
    if xs == [] {
      SizeOfNoElements(key, ks);
    } else {
      var n := |xs| - 1;
      assert xs == xs[..n] + [xs[n]];
      GroupSizesSum(xs[..n], key, ks);
      SizeOfGroupsStep(xs[..n], xs[n], key, ks);
    }
  }

  lemma {:induction false} SizeOfNoElements<T, K>(key: T -> K, ks: seq<K>)
    ensures SizeOfGroups([], key, ks) == 0
    decreases |ks|
  {
    if ks != [] {
      SizeOfNoElements(key, ks[1..]);
    }
  }
}
