/**
 * The zone engine's pass over its blinking icons (src/engine/zone/blink.rs):
 * every icon is updated once, the positions of the finished ones are
 * collected in ascending order, and they are removed from the largest
 * position down. Drawing is not modelled.
 */
module Blinking {

  import BlinkIcon
  import Removal

  /** How many times each icon has been updated. */
  function Counters<Source>(icons: seq<BlinkIcon.BlinkingIcon<Source>>): (r: seq<int>)
    reads set i | 0 <= i < |icons| :: icons[i]
    ensures |r| == |icons| && forall i | 0 <= i < |icons| :: r[i] == icons[i].frameCounter
  {
    seq(|icons|, i reads icons requires 0 <= i < |icons| => icons[i].frameCounter)
  }

  /** The positions of the icons that one more update finishes. */
  function FinishingAt(counters: seq<int>): (r: set<int>)
    ensures forall i :: i in r <==> 0 <= i < |counters| && counters[i] + 1 == BlinkIcon.FRAME_TARGET
  {
    set i | 0 <= i < |counters| && counters[i] + 1 == BlinkIcon.FRAME_TARGET
  }

  /** No icon is listed twice: each is a value of its own in the source's vector. */
  predicate Distinct<Source>(icons: seq<BlinkIcon.BlinkingIcon<Source>>)
  {
    forall i, j | 0 <= i < j < |icons| :: icons[i] != icons[j]
  }

  /** What is left of a list of distinct icons is distinct, and is made of icons of the list. */
  lemma {:induction false} KeepDistinct<Source>(icons: seq<BlinkIcon.BlinkingIcon<Source>>, marked: set<int>, k: nat)
    requires Distinct(icons)
    ensures Distinct(Removal.KeepFrom(icons, marked, k))
    ensures forall x | x in Removal.KeepFrom(icons, marked, k) :: x in icons[k..]
    decreases |icons| - k
  {
    if k < |icons| {
      KeepDistinct(icons, marked, k + 1);
      var rest := Removal.KeepFrom(icons, marked, k + 1);
      assert icons[k + 1..] == icons[k..][1..];
      forall x | x in rest
        ensures x != icons[k]
      {
        var i :| 0 <= i < |icons[k + 1..]| && icons[k + 1..][i] == x;
        assert icons[k + 1 + i] == x;
      }
      if k !in marked {
        var r := [icons[k]] + rest;
        assert r == Removal.KeepFrom(icons, marked, k);
        forall a, b | 0 <= a < b < |r|
          ensures r[a] != r[b]
        {
          assert r[b] == rest[b - 1] && r[b] in rest;
          if a > 0 {
            assert r[a] == rest[a - 1];
          }
        }
      }
    }
  }

  class BlinkingIcons<Source> {
    var icons: seq<BlinkIcon.BlinkingIcon<Source>>
    var frameI: int

    ghost predicate Valid()
      reads this, set i | 0 <= i < |icons| :: icons[i]
    {
      Distinct(icons) && forall i | 0 <= i < |icons| :: icons[i].Valid()
    }

    /**
     * `draw_blinking_icons`: each icon is updated exactly once, and exactly
     * the icons that update finished are removed; the others stay, in order.
     */
    method DrawBlinkingIcons()
      requires Valid()
      modifies this, set i | 0 <= i < |icons| :: icons[i]
      ensures Valid()
      ensures icons == Removal.Keep(old(icons), FinishingAt(old(Counters(icons))))
      ensures forall i | 0 <= i < |old(icons)| ::
        old(icons)[i].frameCounter == old(icons[i].frameCounter) + 1 && old(icons)[i].source == old(icons[i].source)
      ensures frameI == old(frameI)
    {
      ghost var before := icons;
      var indexesToRemove := UpdateAll();
      // The indices were pushed in ascending order, so sorting leaves them as
      // they are and reversing them walks them from the last one down.
      RemoveDescending(indexesToRemove);
      KeepDistinct(before, FinishingAt(old(Counters(icons))), 0);
      forall i | 0 <= i < |icons|
        ensures icons[i].Valid()
      {
        assert icons[i] in icons;
        var k :| 0 <= k < |before| && before[k] == icons[i];
      }
    }

    /** The loop of `draw_blinking_icons`: update each icon once and list, in ascending order, those that finished. */
    method UpdateAll() returns (indexesToRemove: seq<int>)
      requires Valid()
      modifies set i | 0 <= i < |icons| :: icons[i]
      ensures Valid()
      ensures Removal.Ascending(indexesToRemove, |icons|)
      ensures Removal.Positions(indexesToRemove) == FinishingAt(old(Counters(icons)))
      ensures forall i | 0 <= i < |icons| ::
        icons[i].frameCounter == old(icons[i].frameCounter) + 1 && icons[i].source == old(icons[i].source)
    {
      ghost var before := Counters(icons);
      var list := icons;
      indexesToRemove := [];
      var i := 0;
      while i < |list|
        invariant 0 <= i <= |list|
        invariant Removal.Ascending(indexesToRemove, i)
        invariant forall p | 0 <= p < i :: p in indexesToRemove <==> before[p] + 1 == BlinkIcon.FRAME_TARGET
        invariant forall k | 0 <= k < |list| ::
          && list[k].Valid() && list[k].source == old(list[k].source)
          && list[k].frameCounter == before[k] + (if k < i then 1 else 0)
      {
        var finished := UpdateAt(list, i, frameI);
        if finished {
          indexesToRemove := indexesToRemove + [i];
        }
        i := i + 1;
      }
      assert Removal.Positions(indexesToRemove) == FinishingAt(before);
    }

    /** One turn of the loop of `draw_blinking_icons`: update the icon at `i`; the other icons are distinct from it, so they stay as they are. */
    static method UpdateAt(list: seq<BlinkIcon.BlinkingIcon<Source>>, i: nat, frameI: int) returns (finished: bool)
      requires i < |list| && Distinct(list) && forall k | 0 <= k < |list| :: list[k].Valid()
      modifies list[i]
      ensures forall k | 0 <= k < |list| ::
        && list[k].Valid() && list[k].source == old(list[k].source)
        && list[k].frameCounter == old(list[k].frameCounter) + (if k == i then 1 else 0)
      ensures finished <==> old(list[i].frameCounter) + 1 == BlinkIcon.FRAME_TARGET
    {
      finished := list[i].Update(frameI);
    }

    /** The removal loop of `draw_blinking_icons`: `remove` each listed position, the largest first. */
    method RemoveDescending(indexes: seq<int>)
      requires Removal.Ascending(indexes, |icons|)
      modifies this
      ensures icons == Removal.Keep(old(icons), Removal.Positions(indexes))
      ensures frameI == old(frameI)
    {
      assert Removal.Positions(indexes[|indexes|..]) == {};
      Removal.KeepNothing(icons);
      var j := |indexes|;
      while j > 0
        invariant 0 <= j <= |indexes|
        invariant icons == Removal.Keep(old(icons), Removal.Positions(indexes[j..]))
        invariant frameI == old(frameI)
      {
        Removal.RemoveNextLower(old(icons), indexes, j);
        icons := Removal.RemoveAt(icons, indexes[j - 1]);
        j := j - 1;
      }
    }
  }
}
