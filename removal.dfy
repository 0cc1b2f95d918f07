/**
 * Removing a set of positions from a list: the specification shared by the
 * two passes of the zone engine that collect the indices of finished items
 * in ascending order and then `remove` them one by one from the largest
 * down (src/engine/zone/blink.rs, src/engine/zone/animations.rs).
 */
module Removal {

  /** The elements of `s` from position `k` on whose position is not in `marked`, in order. */
  function KeepFrom<T>(s: seq<T>, marked: set<int>, k: nat): (r: seq<T>)
    ensures |r| <= |s| - k || (k > |s| && r == [])
    decreases |s| - k
  {
    if k >= |s| then []
    else (if k in marked then [] else [s[k]]) + KeepFrom(s, marked, k + 1)
  }

  /** The elements of `s` whose position is not in `marked`, in order. */
  function Keep<T>(s: seq<T>, marked: set<int>): seq<T>
  {
    KeepFrom(s, marked, 0)
  }

  /** `Vec::remove`: the element at `i` is taken out, those after it move down by one. */
  function RemoveAt<T>(s: seq<T>, i: nat): (r: seq<T>)
    requires i < |s|
    ensures |r| == |s| - 1
    ensures forall j | 0 <= j < i :: r[j] == s[j]
    ensures forall j | i <= j < |r| :: r[j] == s[j + 1]
  {
    s[..i] + s[i + 1..]
  }

  /** Only the marks at or after `k` matter from `k` on. */
  lemma {:induction false} KeepFromIgnoresEarlierMarks<T>(s: seq<T>, m1: set<int>, m2: set<int>, k: nat)
    requires forall i | k <= i < |s| :: i in m1 <==> i in m2
    ensures KeepFrom(s, m1, k) == KeepFrom(s, m2, k)
    decreases |s| - k
  {
    if k < |s| {
      KeepFromIgnoresEarlierMarks(s, m1, m2, k + 1);
    }
  }

  /** With no mark in [k, p), the elements from `k` on start with s[k..p] unchanged. */
  lemma {:induction false} KeepFromUnmarkedPrefix<T>(s: seq<T>, marked: set<int>, k: nat, p: nat)
    requires k <= p <= |s|
    requires forall i | k <= i < p :: i !in marked
    ensures KeepFrom(s, marked, k) == s[k..p] + KeepFrom(s, marked, p)
    decreases p - k
  {
    if k < p {
      KeepFromUnmarkedPrefix(s, marked, k + 1, p);
      calc {
        KeepFrom(s, marked, k);
        [s[k]] + KeepFrom(s, marked, k + 1);
        [s[k]] + (s[k + 1..p] + KeepFrom(s, marked, p));
        { assert [s[k]] + s[k + 1..p] == s[k..p]; }
        s[k..p] + KeepFrom(s, marked, p);
      }
    }
  }

  /**
   * Removing position `p` from what is left after removing `marked`, when
   * every marked position is above `p`, leaves what removing `marked` and
   * `p` together leaves: positions below every mark have not moved.
   */
  lemma RemoveBelowMarks<T>(s: seq<T>, marked: set<int>, p: nat)
    requires p < |s|
    requires forall i | i in marked :: i > p
    ensures p < |Keep(s, marked)|
    ensures RemoveAt(Keep(s, marked), p) == Keep(s, marked + {p})
  {
    var both := marked + {p};
    var rest := KeepFrom(s, marked, p + 1);
    assert Keep(s, marked) == s[..p] + [s[p]] + rest by {
      KeepFromUnmarkedPrefix(s, marked, 0, p);
      assert KeepFrom(s, marked, p) == [s[p]] + rest;
    }
    assert Keep(s, both) == s[..p] + rest by {
      KeepFromUnmarkedPrefix(s, both, 0, p);
      KeepFromIgnoresEarlierMarks(s, marked, both, p + 1);
      assert KeepFrom(s, both, p) == KeepFrom(s, both, p + 1);
    }
    RemoveAtJoin(s[..p], s[p], rest);
  }

  /** Removing the element between two parts leaves the two parts joined. */
  lemma RemoveAtJoin<T>(a: seq<T>, x: T, b: seq<T>)
    ensures |a| < |a + [x] + b|
    ensures RemoveAt(a + [x] + b, |a|) == a + b
  {
    var s := a + [x] + b;
    assert s[..|a|] == a;
    assert s[|a| + 1..] == b;
  }

  /** `xs` lists positions of a list of length `n` in strictly ascending order. */
  predicate Ascending(xs: seq<int>, n: int)
  {
    && (forall i | 0 <= i < |xs| :: 0 <= xs[i] < n)
    && (forall i, j | 0 <= i < j < |xs| :: xs[i] < xs[j])
  }

  /** The positions listed in `xs`. */
  function Positions(xs: seq<int>): (r: set<int>)
    ensures forall p :: p in r <==> p in xs
  {
    set i | i in xs
  }

  /**
   * One step of removing the listed positions from the largest down: with
   * the positions from `j` on already removed, removing the one at `j - 1`
   * leaves the list with the positions from `j - 1` on removed.
   */
  lemma RemoveNextLower<T>(s: seq<T>, xs: seq<int>, j: nat)
    requires Ascending(xs, |s|) && 0 < j <= |xs|
    ensures xs[j - 1] < |Keep(s, Positions(xs[j..]))|
    ensures RemoveAt(Keep(s, Positions(xs[j..])), xs[j - 1]) == Keep(s, Positions(xs[j - 1..]))
  {
    assert xs[j - 1..] == [xs[j - 1]] + xs[j..];
    assert Positions(xs[j - 1..]) == Positions(xs[j..]) + {xs[j - 1]};
    forall i | i in Positions(xs[j..])
      ensures i > xs[j - 1]
    {
      var k :| j <= k < |xs| && xs[k] == i;
    }
    RemoveBelowMarks(s, Positions(xs[j..]), xs[j - 1]);
  }

  /** Removing nothing leaves the list as it is. */
  lemma KeepNothing<T>(s: seq<T>)
    ensures Keep(s, {}) == s
  {
    KeepFromUnmarkedPrefix(s, {}, 0, |s|);
  }

  /** The marked positions in [k, n). */
  function MarkedIn(marked: set<int>, k: int, n: int): set<int>
  {
    set i | i in marked && k <= i < n
  }

  /** What is left has one element less per marked position. */
  lemma {:induction false} KeepFromLength<T>(s: seq<T>, marked: set<int>, k: nat)
    requires k <= |s|
    ensures |KeepFrom(s, marked, k)| == |s| - k - |MarkedIn(marked, k, |s|)|
    decreases |s| - k
  {
    if k < |s| {
      KeepFromLength(s, marked, k + 1);
      if k in marked {
        assert MarkedIn(marked, k, |s|) == MarkedIn(marked, k + 1, |s|) + {k};
      } else {
        assert MarkedIn(marked, k, |s|) == MarkedIn(marked, k + 1, |s|);
      }
    } else {
      assert MarkedIn(marked, k, |s|) == {};
    }
  }

  /** Every element left is an element of the list at an unmarked position. */
  lemma {:induction false} KeepFromMembers<T>(s: seq<T>, marked: set<int>, k: nat, x: T)
    requires x in KeepFrom(s, marked, k)
    ensures exists i | k <= i < |s| :: i !in marked && s[i] == x
    decreases |s| - k
  {
    if k < |s| {
      if !(k !in marked && s[k] == x) {
        KeepFromMembers(s, marked, k + 1, x);
      }
    }
  }
}
