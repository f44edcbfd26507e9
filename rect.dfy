/**
 * Axis-aligned rectangles (src/core/rect.rs): a signed origin and an
 * unsigned size. The i32/u32 widths are not enforced; see README.
 */
module Geometry {

  datatype Rect = Rect(x: int, y: int, width: nat, height: nat) {

    function Right(): int { x + width }

    function Bottom(): int { y + height }

    /** Half-open containment test. */
    predicate Contains(px: int, py: int) {
      px >= x && py >= y && px < x + width && py < y + height
    }
  }

  /** `Rect::default()`. */
  const DefaultRect: Rect := Rect(0, 0, 0, 0)

  /** `Rect::from_size`: a rectangle of the given size anchored at the origin. */
  function FromSize(width: nat, height: nat): (r: Rect)
    ensures r.x == 0 && r.y == 0
    ensures r.width == width && r.height == height
  {
    Rect(0, 0, width, height)
  }

  /** A contained point lies strictly left of `right()` and strictly above `bottom()`. */
  lemma {:induction false} ContainedInsideEdges(r: Rect, px: int, py: int)
    requires r.Contains(px, py)
    ensures r.x <= px < r.Right() && r.y <= py < r.Bottom()
  {
  }

  /** The range is half-open: the origin is inside a non-empty rectangle, the far edges never are. */
  lemma {:induction false} HalfOpen(r: Rect, px: int, py: int)
    ensures r.Contains(r.x, r.y) <==> r.width > 0 && r.height > 0
    ensures !r.Contains(r.Right(), py) && !r.Contains(px, r.Bottom())
  {
  }

  /** A rectangle with zero width or zero height contains no point. */
  lemma {:induction false} EmptyContainsNothing(r: Rect, px: int, py: int)
    requires r.width == 0 || r.height == 0
    ensures !r.Contains(px, py)
  {
  }
}
