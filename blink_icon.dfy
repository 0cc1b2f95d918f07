/**
 * A blinking resume icon (src/engine/zone/gui/blink.rs): it counts the
 * frames it has been updated for, flips its visibility every 15 frames and
 * reports that it is finished on its 120th update. `Source` is the type of
 * the tileset rectangle it shows, which is not looked into.
 */
module BlinkIcon {

  /** `60 * 2`: the update on which an icon is finished. */
  const FRAME_TARGET: int := 120
  const VISIBLE_DURATION: int := 15

  /** Whether an icon updated `n` times is visible: it starts visible and flips at every multiple of 15. */
  function VisibleAfter(n: nat): bool
  {
    (n / VISIBLE_DURATION) % 2 == 0
  }

  /** One more update flips the visibility exactly when the new count is a multiple of 15. */
  lemma VisibleAfterStep(n: nat)
    ensures VisibleAfter(n + 1) == if (n + 1) % VISIBLE_DURATION == 0 then !VisibleAfter(n) else VisibleAfter(n)
  {
    var q := n / VISIBLE_DURATION;
    var r := n % VISIBLE_DURATION;
    assert n == q * VISIBLE_DURATION + r;
    if r == VISIBLE_DURATION - 1 {
      assert n + 1 == (q + 1) * VISIBLE_DURATION;
      assert (n + 1) / VISIBLE_DURATION == q + 1;
    } else {
      assert n + 1 == q * VISIBLE_DURATION + (r + 1);
      assert (n + 1) / VISIBLE_DURATION == q;
      assert (n + 1) % VISIBLE_DURATION == r + 1;
    }
  }

  /** The icon is visible for the first 15 updates, hidden for the next 15, and visible again when it finishes. */
  lemma VisibilityWindows()
    ensures forall n: nat | n < VISIBLE_DURATION :: VisibleAfter(n)
    ensures forall n: nat | VISIBLE_DURATION <= n < 2 * VISIBLE_DURATION :: !VisibleAfter(n)
    ensures VisibleAfter(FRAME_TARGET)
  {
  }

  class BlinkingIcon<Source> {
    var frameCounter: int
    var source: Source
    var frameTarget: int
    var visible: bool
    var visibleDuration: int

    /** The constants are those of `new`, and the flag is the visibility after `frameCounter` updates. */
    ghost predicate Valid()
      reads this
    {
      && frameTarget == FRAME_TARGET
      && visibleDuration == VISIBLE_DURATION
      && frameCounter >= 0
      && visible == VisibleAfter(frameCounter)
    }

    /** `BlinkingIcon::new`: no update yet, visible, finishing after 120 updates, flipping every 15. */
    constructor (source: Source)
      ensures Valid()
      ensures frameCounter == 0 && visible && this.source == source
      ensures frameTarget == 120 && visibleDuration == 15
    {
      frameCounter := 0;
      this.source := source;
      frameTarget := 60 * 2;
      visible := true;
      visibleDuration := 15;
    }

    /**
     * `update`: one more frame; the frame number is ignored. The answer is
     * true on the update that brings the count to 120, and only on that one.
     */
    method Update(frameI: int) returns (finished: bool)
      requires Valid()
      modifies this
      ensures Valid()
      ensures frameCounter == old(frameCounter) + 1
      ensures visible == if frameCounter % VISIBLE_DURATION == 0 then !old(visible) else old(visible)
      ensures finished <==> frameCounter == FRAME_TARGET
      ensures source == old(source)
    {
      VisibleAfterStep(frameCounter);
      frameCounter := frameCounter + 1;
      if frameCounter % visibleDuration == 0 {
        visible := !visible;
      }
      return frameCounter == frameTarget;
    }

    function Source(): Source
      reads this
    {
      source
    }

    /** `visible`: on a valid icon, whether an icon updated that many times is shown. */
    function Visible(): (r: bool)
      reads this
      ensures Valid() ==> r == VisibleAfter(frameCounter)
    {
      visible
    }
  }
}
