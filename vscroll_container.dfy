/**
 * The plain vertical scroll container (src/widgets/vscroll_container.rs):
 * one child, a content height, and a scroll offset kept within
 * [0, max_scroll]; the scrollbar thumb is sized in proportion to how much
 * of the content the viewport shows.
 *
 * The container is generic in its child's type; the child's preferred
 * height is passed in by the caller. `f32` values are `real` (rounding is
 * not modelled) and casts of non-negative values to integers are `Floor`.
 */
module VScrollContainerWidget {
  import opened Prims
  import opened Geometry
  import WidgetCore

  /** The smallest thumb the container draws, in pixels, when the track is at least that tall. */
  const MinThumb: real := 20.0

  /** `thumb_height`'s arithmetic: the track height scaled by the visible fraction, at least 20 and at most the track. */
  function ThumbLength(height: u32, contentHeight: u32): (r: u32)
    ensures r <= height
    ensures contentHeight == 0 ==> r == height
    ensures 0 < contentHeight <= height ==> r == height
    ensures MinThumb <= height as real ==> MinThumb <= r as real
  {
    if contentHeight == 0 then height
    else
      var h, c := height as real, contentHeight as real;
      var scaled := h * (h / c);
      var atLeast := if scaled >= MinThumb then scaled else MinThumb;
      var atMost := if atLeast <= h then atLeast else h;
      ScaledCovers(h, c);
      assert contentHeight <= height ==> atMost == h;
      assert MinThumb <= h ==> MinThumb <= atMost;
      atMost.Floor
  }

  /** When the content fits, the scaled thumb is at least the whole track. */
  lemma {:induction false} ScaledCovers(h: real, c: real)
    requires 0.0 < c
    ensures c <= h ==> h <= h * (h / c)
  {
    if c <= h {
      assert h / c >= 1.0;
      assert h * (h / c) >= h * 1.0;
    }
  }

  class VScrollContainer<C> {
    const width: u32
    const height: u32
    const scrollbarWidth: u32
    var scrollY: real
    var contentHeight: u32
    var child: Option<C>
    var scrollSpeed: real

    /** `max_scroll`: how far the content overhangs the viewport, or 0. */
    function MaxScroll(): (r: real)
      reads this
      ensures r >= 0.0
      ensures r > 0.0 <==> contentHeight > height
      ensures r > 0.0 ==> r == (contentHeight - height) as real
    {
      if contentHeight > height then (contentHeight - height) as real else 0.0
    }

    /** The offset lies in [0, max_scroll]. */
    predicate Valid()
      reads this
    {
      0.0 <= scrollY <= MaxScroll()
    }

    /** `VScrollContainer::new`: no child, no content, at the top, speed 1. */
    constructor (width: u32, height: u32, scrollbarWidth: u32)
      ensures Valid()
      ensures this.width == width && this.height == height && this.scrollbarWidth == scrollbarWidth
      ensures scrollY == 0.0 && contentHeight == 0 && child == None && scrollSpeed == 1.0
    {
      this.width := width;
      this.height := height;
      this.scrollbarWidth := scrollbarWidth;
      scrollY := 0.0;
      contentHeight := 0;
      child := None;
      scrollSpeed := 1.0;
    }

    /**
     * `set_child`: the content height becomes the child's preferred height
     * and the offset is clamped back into the new range.
     */
    method SetChild(c: C, childHeight: u32)
      requires Valid()
      modifies this`child, this`contentHeight, this`scrollY
      ensures Valid()
      ensures child == Some(c) && contentHeight == childHeight
      ensures scrollY == Clamp(old(scrollY), 0.0, MaxScroll())
    {
      contentHeight := childHeight;
      child := Some(c);
      scrollY := Clamp(scrollY, 0.0, MaxScroll());
    }

    /** `with_scroll_speed`. */
    method WithScrollSpeed(speed: real)
      modifies this`scrollSpeed
      ensures scrollSpeed == speed
    {
      scrollSpeed := speed;
    }

    /** `viewport_width`: the width left of the scrollbar, 0 when the scrollbar is wider. */
    function ViewportWidth(): (r: u32)
      reads this
      ensures scrollbarWidth <= width ==> r + scrollbarWidth == width
      ensures scrollbarWidth >= width ==> r == 0
    {
      SaturatingSub(width, scrollbarWidth)
    }

    /** `scroll_by`: the offset moves against the wheel delta times the speed, clamped to [0, max_scroll]. */
    method ScrollBy(delta: real)
      requires Valid()
      modifies this`scrollY
      ensures Valid()
      ensures scrollY == Clamp(old(scrollY) - delta * scrollSpeed, 0.0, MaxScroll())
    {
      scrollY := Clamp(scrollY - delta * scrollSpeed, 0.0, MaxScroll());
    }

    /** `scroll_ratio`: the offset as a fraction of the maximum, 0 when nothing can scroll. */
    function ScrollRatio(): (r: real)
      reads this
      requires Valid()
      ensures 0.0 <= r <= 1.0
      ensures MaxScroll() == 0.0 ==> r == 0.0
      ensures MaxScroll() > 0.0 ==> r * MaxScroll() == scrollY
    {
      var m := MaxScroll();
      if m > 0.0 then
        Fraction(scrollY, m);
        scrollY / m
      else 0.0
    }

    /** `thumb_height`: never taller than the track. */
    function ThumbHeight(): (r: u32)
      reads this
      ensures r <= height
    {
      ThumbLength(height, contentHeight)
    }

    /**
     * `thumb_y`: the thumb travels the track height left over by the thumb,
     * in proportion to the offset. With `f32` read as a real, the thumb is
     * never taller than the track, so the unchecked `u32` subtraction does
     * not go below zero; with `f32` rounding a very tall track can round up
     * and the subtraction can underflow, which this model does not capture.
     */
    function ThumbY(trackY: int): (r: int)
      reads this
      requires Valid()
      ensures trackY <= r && r + ThumbHeight() <= trackY + height
      ensures ScrollRatio() == 0.0 ==> r == trackY
    {
      var ratio := ScrollRatio();
      Portion((height - ThumbHeight()), ratio);
      trackY + ((height - ThumbHeight()) as real * ratio).Floor
    }

    /** `track_rect`: the scrollbar strip right of the viewport, as tall as the container. */
    function TrackRect(bounds: Rect): (r: Rect)
      reads this
      ensures r.x == bounds.x + ViewportWidth() && r.y == bounds.y
      ensures r.width == scrollbarWidth && r.height == height
      ensures scrollbarWidth <= width ==> r.Right() == bounds.x + width
    {
      Rect(bounds.x + ViewportWidth(), bounds.y, scrollbarWidth, height)
    }

    /** `thumb_rect`: the thumb lies within the track, whatever the offset. */
    function ThumbRect(bounds: Rect): (r: Rect)
      reads this
      requires Valid()
      ensures var track := TrackRect(bounds);
              r.x == track.x && r.width == track.width
              && track.y <= r.y && r.Bottom() <= track.Bottom()
    {
      var track := TrackRect(bounds);
      Rect(track.x, ThumbY(track.y), scrollbarWidth, ThumbHeight())
    }

    /** The bounds `draw` gives the child: the viewport's width, the content's height, shifted up by the offset. */
    function ChildBounds(bounds: Rect): (r: Rect)
      reads this
      requires Valid()
      ensures r.x == bounds.x && r.width == ViewportWidth() && r.height == contentHeight
      ensures bounds.y - MaxScroll().Floor <= r.y <= bounds.y
    {
      Rect(bounds.x, bounds.y - scrollY.Floor, ViewportWidth(), contentHeight)
    }

    /** `preferred_size`: the configured size. */
    function PreferredSize(): (u32, u32)
      reads this
    {
      (width, height)
    }

    /** `on_event`: a wheel scroll is consumed, and scrolls, only when the content can scroll; all else is ignored. */
    method OnEvent(ev: WidgetCore.Event) returns (consumed: bool)
      requires Valid()
      modifies this`scrollY
      ensures Valid()
      ensures consumed <==> ev.MouseWheel? && MaxScroll() > 0.0
      ensures consumed ==> scrollY == Clamp(old(scrollY) - ev.deltaY * scrollSpeed, 0.0, MaxScroll())
      ensures !consumed ==> scrollY == old(scrollY)
    {
      if ev.MouseWheel? && MaxScroll() > 0.0 {
        ScrollBy(ev.deltaY);
        return true;
      }
      return false;
    }
  }
}
