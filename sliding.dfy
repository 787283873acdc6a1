/**
  The drag arithmetic of the overlapping panel container, shared by both
  edges: where the top view goes under the finger, how much the mask dims
  while it moves, and whether a released drag counts as ended.
*/
module Sliding {
  import opened Geometry

  /**
    The top view's X during a drag: the X it had when the drag started,
    moved by how far the finger has travelled, and never to the right of
    0. It is the raw target unless that target is at or beyond 0.
  */
  function SlideX(topViewStartX: real, touchStartX: real, touchX: real): (x: real)
    ensures x <= 0.0 && x <= topViewStartX + (touchX - touchStartX)
    ensures x == 0.0 || x == topViewStartX + (touchX - touchStartX)
  {
    var target := topViewStartX + (touchX - touchStartX);
    if target >= 0.0 then 0.0 else target
  }

  /** A drag sampled where it started leaves the top view where it was, clamped at 0. */
  lemma SlideAtStartTouch(topViewStartX: real, touchX: real)
    ensures SlideX(topViewStartX, touchX, touchX) == if topViewStartX < 0.0 then topViewStartX else 0.0
  {
  }

  /** `GetTopViewPositionWhenSliderIsVisible`: the current frame as it is. */
  function TopViewPositionWhenVisible(topViewCurrentFrame: Rect): (r: Rect)
    ensures r == topViewCurrentFrame
  {
    topViewCurrentFrame
  }

  /** `GetTopViewPositionWhenSliderIsHidden`: the current frame moved to X 0. */
  function TopViewPositionWhenHidden(topViewCurrentFrame: Rect): (r: Rect)
    ensures r.x == 0.0
    ensures r.y == topViewCurrentFrame.y
    ensures r.width == topViewCurrentFrame.width && r.height == topViewCurrentFrame.height
  {
    topViewCurrentFrame.(x := 0.0)
  }

  /** A drag pulled to or past 0 lands exactly on the hidden-slider position. */
  lemma FullDragReachesHiddenPosition(topViewStartX: real, touchStartX: real, touchX: real, frame: Rect)
    requires topViewStartX + (touchX - touchStartX) >= 0.0
    ensures frame.(x := SlideX(topViewStartX, touchStartX, touchX)) == TopViewPositionWhenHidden(frame)
  {
  }

  /**
    The percent pushed to the mask for top-view X `x`, given the resting
    X of the panel and the mask's base percent: the base at X 0, and
    otherwise the base less the base divided by |restX / x|, falling back
    to the base when that ratio is 0.
  */
  function SlidingMaskPercent(restX: real, x: real, base: real): (p: real)
    ensures x == 0.0 || restX == 0.0 ==> p == base
  {
    if x == 0.0 then base
    else
      var diff := Abs(restX / x);
      if diff != 0.0 then base - base / diff else base
  }

  /** Left of 0 the dimming grows linearly: base * (1 - |x| / |restX|). */
  lemma MaskPercentClosedForm(restX: real, x: real, base: real)
    requires x < 0.0 && restX != 0.0
    ensures SlidingMaskPercent(restX, x, base) == base * (1.0 + x / Abs(restX))
  {
  }

  /**
    For a left panel of width w (resting X = -w), from the fully extended
    position (X = 0) to the resting one (X = -w) the pushed percent runs
    from the base down to 0; it lies within [0, base] exactly on that
    stretch and turns negative beyond the resting X.
  */
  lemma LeftMaskPercentRange(w: real, x: real, base: real)
    requires w > 0.0 && base > 0.0 && x <= 0.0
    ensures SlidingMaskPercent(-w, x, base) == base * (1.0 + x / w)
    ensures 0.0 <= SlidingMaskPercent(-w, x, base) <= base <==> -w <= x
    ensures SlidingMaskPercent(-w, x, base) == base <==> x == 0.0
    ensures SlidingMaskPercent(-w, x, base) == 0.0 <==> x == -w
  {
  }

  /** Left of 0 a left panel's percent is the base plus the slope base / w times X. */
  lemma LeftPercentLinear(w: real, x: real, base: real)
    requires w > 0.0 && x < 0.0
    ensures SlidingMaskPercent(-w, x, base) == base + (base / w) * x
  {
    var d := -w / x;
    assert d * x == -w;
    assert d > 0.0;
    var k := base / w;
    assert k * w == base;
    assert (-k * x) * d == base;
    assert base / d == -k * x;
  }

  /** For a left panel the pushed percent never falls as the panel is pulled out. */
  lemma LeftMaskPercentMonotone(w: real, x1: real, x2: real, base: real)
    requires w > 0.0 && base > 0.0 && x1 <= x2 <= 0.0
    ensures SlidingMaskPercent(-w, x1, base) <= SlidingMaskPercent(-w, x2, base)
  {
    var k := base / w;
    assert k > 0.0;
    if x1 < 0.0 {
      LeftPercentLinear(w, x1, base);
      if x2 < 0.0 {
        LeftPercentLinear(w, x2, base);
        assert k * (x2 - x1) >= 0.0;
      } else {
        assert k * (-x1) >= 0.0;
      }
    }
  }

  /**
    `SlidingEnded`'s verdict. While the top view is at X 0 on a visible,
    appeared panel, a release at or left of the panel's right edge ends
    the slide; in every other case the slide ends when the top view is at
    least half extended (X no further left than -width / 2).
  */
  function SlidingEndedDecision(x: real, touchX: real, width: real, isVisible: bool, appeared: bool): (ended: bool)
    ensures x == 0.0 && isVisible && appeared ==> (ended <==> touchX <= width)
    ensures !(x == 0.0 && isVisible && appeared) ==> (ended <==> x >= -width / 2.0)
  {
    var rightPos := x + width;
    if x == 0.0 && isVisible && appeared then touchX <= rightPos else rightPos >= width / 2.0
  }
}
