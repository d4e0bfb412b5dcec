/**
 * The direction classifier of the `s-swipe` component: `calculateSwipeDirection`
 * maps a start point, an end point and one distance threshold per axis to four
 * direction flags. Increasing Y is "down" (screen coordinates, origin top-left).
 */
module Direction {

  /** The event payload: one flag per direction. */
  datatype SwipeEvent = SwipeEvent(up: bool, right: bool, down: bool, left: bool)

  /** The record the classifier starts from: no direction recognised. */
  const NoSwipe := SwipeEvent(up := false, right := false, down := false, left := false)

  /**
   * Horizontal axis first: `left` if the pointer moved left by at least
   * `thresholdX`, otherwise `right` if it moved right by at least `thresholdX`.
   * The vertical axis is decided the same way, independently, `down` first.
   */
  function CalculateSwipeDirection(startX: int, startY: int, endX: int, endY: int,
                                   thresholdX: int, thresholdY: int): (r: SwipeEvent)
    // at most one flag per axis, whatever the thresholds (negative ones included)
    ensures !(r.left && r.right) && !(r.up && r.down)
    // each flag on its own: moved that way, and by at least that axis's threshold
    ensures r.left <==> startX > endX && startX - endX >= thresholdX
    ensures r.right <==> startX < endX && endX - startX >= thresholdX
    ensures r.down <==> startY < endY && endY - startY >= thresholdY
    ensures r.up <==> startY > endY && startY - endY >= thresholdY
  {
    var horizontal :=
      if startX > endX && startX - endX >= thresholdX then NoSwipe.(left := true)
      else if startX < endX && endX - startX >= thresholdX then NoSwipe.(right := true)
      else NoSwipe;
    if startY < endY && endY - startY >= thresholdY then horizontal.(down := true)
    else if startY > endY && startY - endY >= thresholdY then horizontal.(up := true)
    else horizontal
  }

  /** A gesture that ends where it started sets no flag, whatever the thresholds. */
  lemma NoMovementNoFlags(x: int, y: int, thresholdX: int, thresholdY: int)
    ensures CalculateSwipeDirection(x, y, x, y, thresholdX, thresholdY) == NoSwipe
  {
  }

  /** A displacement strictly below the threshold on both axes sets no flag. */
  lemma BelowThresholdNoFlags(startX: int, startY: int, endX: int, endY: int,
                              thresholdX: int, thresholdY: int)
    requires -thresholdX < endX - startX < thresholdX
    requires -thresholdY < endY - startY < thresholdY
    ensures CalculateSwipeDirection(startX, startY, endX, endY, thresholdX, thresholdY) == NoSwipe
  {
  }

  /** Reaching the threshold on an axis (a positive one) always sets that axis's flag. */
  lemma AtThresholdFlags(startX: int, startY: int, endX: int, endY: int,
                         thresholdX: int, thresholdY: int)
    requires thresholdX > 0 && thresholdY > 0
    requires endX - startX >= thresholdX || startX - endX >= thresholdX
    requires endY - startY >= thresholdY || startY - endY >= thresholdY
    ensures var r := CalculateSwipeDirection(startX, startY, endX, endY, thresholdX, thresholdY);
            (r.left || r.right) && (r.up || r.down)
  {
  }

  /** Playing a gesture backwards swaps left with right and up with down. */
  lemma ReverseGestureMirrors(startX: int, startY: int, endX: int, endY: int,
                              thresholdX: int, thresholdY: int)
    ensures var r := CalculateSwipeDirection(startX, startY, endX, endY, thresholdX, thresholdY);
            CalculateSwipeDirection(endX, endY, startX, startY, thresholdX, thresholdY)
              == SwipeEvent(up := r.down, right := r.left, down := r.up, left := r.right)
  {
  }

  /** Only the displacement matters: moving both points by the same offset changes nothing. */
  lemma TranslationInvariant(startX: int, startY: int, endX: int, endY: int,
                             thresholdX: int, thresholdY: int, dx: int, dy: int)
    ensures CalculateSwipeDirection(startX + dx, startY + dy, endX + dx, endY + dy, thresholdX, thresholdY)
         == CalculateSwipeDirection(startX, startY, endX, endY, thresholdX, thresholdY)
  {
  }

  /** A flag recognised under some thresholds is still recognised under smaller ones. */
  lemma LowerThresholdKeepsFlags(startX: int, startY: int, endX: int, endY: int,
                                 thresholdX: int, thresholdY: int, lowerX: int, lowerY: int)
    requires lowerX <= thresholdX && lowerY <= thresholdY
    ensures var r := CalculateSwipeDirection(startX, startY, endX, endY, thresholdX, thresholdY);
            var q := CalculateSwipeDirection(startX, startY, endX, endY, lowerX, lowerY);
            (r.left ==> q.left) && (r.right ==> q.right) && (r.up ==> q.up) && (r.down ==> q.down)
  {
  }
}
