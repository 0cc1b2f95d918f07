/**
 * An animation that shows a tileset rectangle at a place until a given
 * frame (src/animation/visible.rs). `Source` and `Dest` are the rectangle
 * and position types, which are not looked into; drawing is not modelled.
 * `VisibleAnimation::new` is the datatype's constructor: it stores the
 * three values unchanged.
 */
module VisibleAnimation {

  datatype VisibleAnimation<Source, Dest> = VisibleAnimation(source: Source, dest: Dest, displayedUntilFrameI: int)
  {
    /** `update`: finished exactly once the frame is past the last frame it is displayed on; nothing changes. */
    function Update(frameI: int): (finished: bool)
      ensures finished <==> frameI > displayedUntilFrameI
      ensures !finished <==> frameI <= displayedUntilFrameI
    {
      frameI > displayedUntilFrameI
    }
  }

  /** The animation as the zone engine's pass steps it: unchanged, with its `update` answer. */
  function Step<Source, Dest>(a: VisibleAnimation<Source, Dest>, frameI: int): (r: (VisibleAnimation<Source, Dest>, bool))
    ensures r.0 == a && r.1 == a.Update(frameI)
  {
    (a, a.Update(frameI))
  }

  /** Once finished, an animation stays finished at every later frame. */
  lemma FinishedIsMonotone<Source, Dest>(a: VisibleAnimation<Source, Dest>, f: int, g: int)
    requires f <= g && a.Update(f)
    ensures a.Update(g)
  {
  }
}
