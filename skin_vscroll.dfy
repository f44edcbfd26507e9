/**
 * The skinned vertical scroll container (src/skin/widgets/skin_vscroll.rs):
 * one child, a content height, and a scroll offset kept within
 * [0, max_scroll]; the scrollbar is drawn from a track and a thumb image.
 *
 * The container is generic in its child's type; the child's preferred
 * height is passed in by the caller. `f32` offsets are `real`, and the
 * `as i32` casts of non-negative offsets are `Floor`.
 */
module SkinVScrollWidget {
  import opened Prims
  import opened Geometry
  import WidgetCore
  import SkinTypes

  class SkinVScroll<C> {
    const width: u32
    const height: u32
    const scrollbarWidth: u32
    const trackImage: SkinTypes.Dims
    const thumbImage: SkinTypes.Dims
    var scrollY: real
    var contentHeight: u32
    var child: Option<C>
    var scrollSpeed: real

    /** `max_scroll`: how far the content overhangs the viewport, or 0. */
    function MaxScroll(): (r: real)
      reads this
      ensures r >= 0.0
      ensures r > 0.0 <==> contentHeight > height
      ensures r > 0.0 ==> r == (contentHeight - height) as real
    {
      if contentHeight > height then (contentHeight - height) as real else 0.0
    }

    /** The offset lies in [0, max_scroll]; the scrollbar is as wide as the track image. */
    predicate Valid()
      reads this
    {
      0.0 <= scrollY <= MaxScroll() && scrollbarWidth == trackImage.width
    }

    /** `SkinVScroll::new`: no child, no content, at the top, speed 1, the scrollbar as wide as the track image. */
    constructor (width: u32, height: u32, trackImage: SkinTypes.Dims, thumbImage: SkinTypes.Dims)
      ensures Valid()
      ensures this.width == width && this.height == height
      ensures this.trackImage == trackImage && this.thumbImage == thumbImage
      ensures scrollbarWidth == trackImage.width
      ensures scrollY == 0.0 && contentHeight == 0 && child == None && scrollSpeed == 1.0
    {
      this.width := width;
      this.height := height;
      scrollbarWidth := trackImage.width;
      this.trackImage := trackImage;
      this.thumbImage := thumbImage;
      scrollY := 0.0;
      contentHeight := 0;
      child := None;
      scrollSpeed := 1.0;
    }

    /**
     * `set_child`: the content height becomes the child's preferred height
     * and the offset is clamped back into the new range.
     */
    method SetChild(c: C, childHeight: u32)
      requires Valid()
      modifies this`child, this`contentHeight, this`scrollY
      ensures Valid()
      ensures child == Some(c) && contentHeight == childHeight
      ensures scrollY == Clamp(old(scrollY), 0.0, MaxScroll())
    {
      contentHeight := childHeight;
      child := Some(c);
      scrollY := Clamp(scrollY, 0.0, MaxScroll());
    }

    /** `with_child`: `set_child` in builder form. */
    method WithChild(c: C, childHeight: u32)
      requires Valid()
      modifies this`child, this`contentHeight, this`scrollY
      ensures Valid()
      ensures child == Some(c) && contentHeight == childHeight
      ensures scrollY == Clamp(old(scrollY), 0.0, MaxScroll())
    {
      SetChild(c, childHeight);
    }

    /**
     * `with_content_height`: sets the content height without clamping the
     * offset, so the range is kept only when the offset still fits (as it
     * does on a new container).
     */
    method WithContentHeight(h: u32)
      requires Valid()
      modifies this`contentHeight
      ensures contentHeight == h
      ensures scrollY <= MaxScroll() ==> Valid()
    {
      contentHeight := h;
    }

    /** `with_scroll_speed`. */
    method WithScrollSpeed(speed: real)
      modifies this`scrollSpeed
      ensures scrollSpeed == speed
    {
      scrollSpeed := speed;
    }

    /** `viewport_width`: the width left of the scrollbar, 0 when the scrollbar is wider. */
    function ViewportWidth(): (r: u32)
      reads this
      ensures scrollbarWidth <= width ==> r + scrollbarWidth == width
      ensures scrollbarWidth >= width ==> r == 0
    {
      SaturatingSub(width, scrollbarWidth)
    }

    /** `scroll_by`: the offset moves against the wheel delta times the speed, clamped to [0, max_scroll]. */
    method ScrollBy(delta: real)
      requires Valid()
      modifies this`scrollY
      ensures Valid()
      ensures scrollY == Clamp(old(scrollY) - delta * scrollSpeed, 0.0, MaxScroll())
    {
      scrollY := Clamp(scrollY - delta * scrollSpeed, 0.0, MaxScroll());
    }

    /** `scroll_ratio`: the offset as a fraction of the maximum, 0 when nothing can scroll. */
    function ScrollRatio(): (r: real)
      reads this
      requires Valid()
      ensures 0.0 <= r <= 1.0
      ensures MaxScroll() == 0.0 ==> r == 0.0
      ensures MaxScroll() > 0.0 ==> r * MaxScroll() == scrollY
    {
      var m := MaxScroll();
      if m > 0.0 then
        Fraction(scrollY, m);
        scrollY / m
      else 0.0
    }

    /** `thumb_height`: the thumb image's height. */
    function ThumbHeight(): u32
      reads this
    {
      thumbImage.height
    }

    /** `thumb_y`: the thumb travels the track height left over by the thumb, in proportion to the offset. */
    function ThumbY(trackY: int): (r: int)
      reads this
      requires Valid()
      ensures trackY <= r <= trackY + SaturatingSub(height, ThumbHeight())
      ensures ScrollRatio() == 0.0 ==> r == trackY
    {
      var ratio := ScrollRatio();
      Portion(SaturatingSub(height, ThumbHeight()), ratio);
      trackY + (SaturatingSub(height, ThumbHeight()) as real * ratio).Floor
    }

    /** The bounds `draw` gives the child: the viewport's width, the content's height, shifted up by the offset. */
    function ChildBounds(bounds: Rect): (r: Rect)
      reads this
      requires Valid()
      ensures r.x == bounds.x && r.width == ViewportWidth() && r.height == contentHeight
      ensures bounds.y - MaxScroll().Floor <= r.y <= bounds.y
    {
      Rect(bounds.x, bounds.y - scrollY.Floor, ViewportWidth(), contentHeight)
    }

    /** `preferred_size`: the configured size. */
    function PreferredSize(): (u32, u32)
      reads this
    {
      (width, height)
    }

    /** `on_event`: a wheel scroll is consumed, and scrolls, only when the content can scroll; all else is ignored. */
    method OnEvent(ev: WidgetCore.Event) returns (consumed: bool)
      requires Valid()
      modifies this`scrollY
      ensures Valid()
      ensures consumed <==> ev.MouseWheel? && MaxScroll() > 0.0
      ensures consumed ==> scrollY == Clamp(old(scrollY) - ev.deltaY * scrollSpeed, 0.0, MaxScroll())
      ensures !consumed ==> scrollY == old(scrollY)
    {
      if ev.MouseWheel? && MaxScroll() > 0.0 {
        ScrollBy(ev.deltaY);
        return true;
      }
      return false;
    }
  }
}
