/**
 * The zone engine's pass over its animations (src/engine/zone/animations.rs):
 * every animation is updated once, in list order, the positions of the
 * finished ones are collected in ascending order, and they are removed from
 * the largest position down. An animation's `update` may change it; it is
 * the parameter `step`, which answers the updated animation and whether it
 * is finished. Drawing is not modelled.
 */
module Animations {

  import Removal
  import VisibleAnimation

  /** Each animation as its update leaves it. */
  function Stepped<A>(s: seq<A>, frameI: int, step: (A, int) -> (A, bool)): (r: seq<A>)
    ensures |r| == |s| && forall i | 0 <= i < |s| :: r[i] == step(s[i], frameI).0
  {
    seq(|s|, i requires 0 <= i < |s| => step(s[i], frameI).0)
  }

  /** The positions of the animations whose update answered finished. */
  function Finished<A>(s: seq<A>, frameI: int, step: (A, int) -> (A, bool)): (r: set<int>)
    ensures forall i :: i in r <==> 0 <= i < |s| && step(s[i], frameI).1
  {
    set i | 0 <= i < |s| && step(s[i], frameI).1
  }

  class Animations<A> {
    var animations: seq<A>
    var frameI: int

    /**
     * `animations`: each animation is updated exactly once, and exactly the
     * finished ones are removed; the others stay, updated and in order.
     */
    method Animations(step: (A, int) -> (A, bool))
      modifies this
      ensures animations == Removal.Keep(Stepped(old(animations), frameI, step), Finished(old(animations), frameI, step))
      ensures frameI == old(frameI)
    {
      var toRemoves := UpdateAll(step);
      RemoveDescending(toRemoves);
    }

    /** The loop of `animations`: update each animation in order and list, ascending, those that finished. */
    method UpdateAll(step: (A, int) -> (A, bool)) returns (toRemoves: seq<int>)
      modifies this
      ensures animations == Stepped(old(animations), frameI, step) && frameI == old(frameI)
      ensures Removal.Ascending(toRemoves, |animations|)
      ensures Removal.Positions(toRemoves) == Finished(old(animations), frameI, step)
    {
      ghost var before := animations;
      toRemoves := [];
      var i := 0;
      while i < |animations|
        invariant 0 <= i <= |animations| == |before|
        invariant frameI == old(frameI)
        invariant forall k | 0 <= k < i :: animations[k] == step(before[k], frameI).0
        invariant forall k | i <= k < |animations| :: animations[k] == before[k]
        invariant Removal.Ascending(toRemoves, i)
        invariant forall p :: p in toRemoves <==> 0 <= p < i && step(before[p], frameI).1
      {
        var (updated, finished) := step(animations[i], frameI);
        animations := animations[i := updated];
        if finished {
          toRemoves := toRemoves + [i];
        }
        i := i + 1;
      }
    }

    /** The removal loop of `animations`: `remove` each listed position, the largest first. */
    method RemoveDescending(indexes: seq<int>)
      requires Removal.Ascending(indexes, |animations|)
      modifies this
      ensures animations == Removal.Keep(old(animations), Removal.Positions(indexes))
      ensures frameI == old(frameI)
    {
      assert Removal.Positions(indexes[|indexes|..]) == {};
      Removal.KeepNothing(animations);
      var j := |indexes|;
      while j > 0
        invariant 0 <= j <= |indexes|
        invariant animations == Removal.Keep(old(animations), Removal.Positions(indexes[j..]))
        invariant frameI == old(frameI)
      {
        Removal.RemoveNextLower(old(animations), indexes, j);
        animations := Removal.RemoveAt(animations, indexes[j - 1]);
        j := j - 1;
      }
    }
  }

  /** The list shrinks by exactly the number of finished animations. */
  lemma ShrinksByFinished<A>(s: seq<A>, frameI: int, step: (A, int) -> (A, bool))
    ensures |Removal.Keep(Stepped(s, frameI, step), Finished(s, frameI, step))| == |s| - |Finished(s, frameI, step)|
  {
    var t := Stepped(s, frameI, step);
    Removal.KeepFromLength(t, Finished(s, frameI, step), 0);
    assert Removal.MarkedIn(Finished(s, frameI, step), 0, |t|) == Finished(s, frameI, step);
  }

  /** With visible animations, what is left is exactly what is still displayed at this frame. */
  lemma VisibleSurvivors<Source, Dest>(s: seq<VisibleAnimation.VisibleAnimation<Source, Dest>>, frameI: int)
    ensures var left := Removal.Keep(Stepped(s, frameI, VisibleAnimation.Step), Finished(s, frameI, VisibleAnimation.Step));
      && (forall a | a in left :: a in s && frameI <= a.displayedUntilFrameI)
      && |left| == |s| - |Finished(s, frameI, VisibleAnimation.Step)|
  {
    var t := Stepped(s, frameI, VisibleAnimation.Step);
    var m := Finished(s, frameI, VisibleAnimation.Step);
    forall a | a in Removal.Keep(t, m)
      ensures a in s && frameI <= a.displayedUntilFrameI
    {
      Removal.KeepFromMembers(t, m, 0, a);
      var i :| 0 <= i < |t| && i !in m && t[i] == a;
      assert t[i] == s[i];
    }
    ShrinksByFinished(s, frameI, VisibleAnimation.Step);
  }
}
