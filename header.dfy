/** The page header that hides itself while the reader scrolls down and
    comes back on the way up: the scroll effect of `App`, throttled to one
    animation frame at a time. */
module Header {

  /** Below this scroll offset the header is always shown; above it a fast
      downward scroll hides it. */
  const Threshold: int := 140
  /** A frame must have moved down by more than this to hide the header. */
  const HideDelta: int := 12
  /** A frame must have moved up by more than this to show the header. */
  const ShowDelta: int := 8

  /** The header's visibility after a frame that finds the page at
      `currentY` when the previous frame saw `lastY`. */
  function NextHidden(hidden: bool, lastY: int, currentY: int): bool
  {
    var delta := currentY - lastY;
    if currentY > Threshold && delta > HideDelta then true
    else if delta < -ShowDelta || currentY < Threshold then false
    else hidden
  }

  /** The frame's decision, case by case: a fast downward scroll past the
      threshold hides the header; otherwise an upward scroll or a position
      above the threshold shows it; any other frame keeps it as it was. */
  lemma NextHiddenCases(hidden: bool, lastY: int, currentY: int)
    ensures currentY > Threshold && currentY - lastY > HideDelta ==> NextHidden(hidden, lastY, currentY)
    ensures currentY - lastY < -ShowDelta || currentY < Threshold ==> !NextHidden(hidden, lastY, currentY)
    ensures Threshold <= currentY && -ShowDelta <= currentY - lastY
            && (currentY == Threshold || currentY - lastY <= HideDelta)
            ==> NextHidden(hidden, lastY, currentY) == hidden
  {
  }

  /** The header only goes from shown to hidden while moving down by more
      than 12 beyond offset 140, and only goes from hidden to shown while
      moving up by more than 8 or when near the top. */
  lemma NextHiddenChangesOnlyOnPurpose(hidden: bool, lastY: int, currentY: int)
    ensures !hidden && NextHidden(hidden, lastY, currentY) ==> currentY > lastY + HideDelta && currentY > Threshold
    ensures hidden && !NextHidden(hidden, lastY, currentY) ==> currentY < lastY - ShowDelta || currentY < Threshold
  {
  }

  /** A frame that lands exactly on the threshold can never hide the
      header, so unless it is an upward move of more than 8 it leaves the
      header as it was. */
  lemma AtThresholdKeepsState(hidden: bool, lastY: int)
    requires lastY <= Threshold + ShowDelta
    ensures NextHidden(hidden, lastY, Threshold) == hidden
  {
  }

  /** The scroll state of a mounted page. `pendingFrames` counts the
      frame callbacks requested from the browser and not yet run. */
  class HeaderScroll {
    var hidden: bool
    var lastY: int
    var ticking: bool
    ghost var pendingFrames: nat

    /** A frame is pending exactly while `ticking` is set, so there is
      never more than one. */
    ghost predicate Valid()
      reads this
    {
      pendingFrames == if ticking then 1 else 0
    }

    /** The header starts shown, remembering the offset at mount. */
    constructor (initialY: int)
      ensures Valid()
      ensures !hidden && lastY == initialY && !ticking && pendingFrames == 0
    {
      hidden := false;
      lastY := initialY;
      ticking := false;
      pendingFrames := 0;
    }

    /** A scroll event requests a frame only when none is pending. */
    method OnScrollEvent() returns (scheduled: bool)
      requires Valid()
      modifies this
      ensures Valid()
      ensures scheduled == !old(ticking)
      ensures ticking && pendingFrames == 1
      ensures hidden == old(hidden) && lastY == old(lastY)
    {
      scheduled := !ticking;
      if !ticking {
        pendingFrames := pendingFrames + 1;
        ticking := true;
      }
    }

    /** The pending frame runs at offset `currentY`: it decides visibility,
      remembers the offset and allows the next request. */
    method OnFrame(currentY: int)
      requires Valid() && pendingFrames > 0
      modifies this
      ensures Valid()
      ensures hidden == NextHidden(old(hidden), old(lastY), currentY)
      ensures lastY == currentY && !ticking && pendingFrames == old(pendingFrames) - 1
    {
      var delta := currentY - lastY;
      if currentY > Threshold && delta > HideDelta {
        hidden := true;
      } else if delta < -ShowDelta || currentY < Threshold {
        hidden := false;
      }
      lastY := currentY;
      ticking := false;
      pendingFrames := pendingFrames - 1;
    }
  }
}
