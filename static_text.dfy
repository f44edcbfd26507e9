/**
 * Non-editable text (src/skin/widgets/static_text.rs): its content, and the
 * arithmetic `draw` uses to place the text inside the padded bounds.
 *
 * Text metrics come from a `Font` parameter. The `as i32` casts of widths
 * are taken as exact (widths below 2^31); the `u32` products and sums are
 * wrapped as a release build does.
 */
module StaticTextWidget {
  import opened Prims
  import opened Geometry
  import WidgetCore
  import SkinTypes

  /** The bounds inset by `padding` on every side; each size shrinks by twice the padding, stopping at 0. */
  function ContentRect(bounds: Rect, padding: u32): (r: Rect)
    ensures r.x == bounds.x + padding && r.y == bounds.y + padding
    ensures r.width == SaturatingSub(bounds.width, Wrap32(2 * padding))
    ensures r.height == SaturatingSub(bounds.height, Wrap32(2 * padding))
    ensures 2 * padding < U32_LIMIT && bounds.width >= 2 * padding ==> r.Right() + padding == bounds.Right()
    ensures 2 * padding < U32_LIMIT && bounds.height >= 2 * padding ==> r.Bottom() + padding == bounds.Bottom()
  {
    Rect(bounds.x + padding, bounds.y + padding,
         SaturatingSub(bounds.width, Wrap32(padding * 2)),
         SaturatingSub(bounds.height, Wrap32(padding * 2)))
  }

  /** Where a span of length `size` starts in the range [start, start + extent) under each placement. */
  function Place(start: int, extent: int, size: int, atStart: bool, atEnd: bool): (r: int)
    requires !(atStart && atEnd)
    ensures atStart ==> r == start
    ensures atEnd ==> r + size == start + extent
    ensures !atStart && !atEnd ==> r - start == TruncDiv(extent - size, 2)
  {
    if atStart then start
    else if atEnd then start + extent - size
    else start + TruncDiv(extent - size, 2)
  }

  /** The horizontal text position: left edge, centred (Rust's truncating `/ 2`), or right-aligned. */
  function TextX(align: SkinTypes.TextAlign, content: Rect, textWidth: int): (r: int)
    ensures align.AlignLeft? ==> r == content.x
    ensures align.AlignRight? ==> r + textWidth == content.Right()
    ensures align.AlignCenter? ==> r - content.x == TruncDiv(content.width - textWidth, 2)
  {
    Place(content.x, content.width, textWidth, align.AlignLeft?, align.AlignRight?)
  }

  /** The vertical text position: top edge, centred, or bottom-aligned. */
  function TextY(align: SkinTypes.VerticalAlign, content: Rect, textHeight: int): (r: int)
    ensures align.AlignTop? ==> r == content.y
    ensures align.AlignBottom? ==> r + textHeight == content.Bottom()
    ensures align.AlignMiddle? ==> r - content.y == TruncDiv(content.height - textHeight, 2)
  {
    Place(content.y, content.height, textHeight, align.AlignTop?, align.AlignBottom?)
  }

  /**
   * Centring is balanced: the space before the span and the space after it
   * differ by at most one, whether the span fits (both non-negative) or
   * overflows (both non-positive).
   */
  lemma {:induction false} CenterIsBalanced(start: int, extent: int, size: int)
    ensures var r := Place(start, extent, size, false, false);
            var before, after := r - start, (start + extent) - (r + size);
            -1 <= before - after <= 1 && (size <= extent ==> 0 <= before <= after) && (size >= extent ==> after <= before <= 0)
  {
  }

  /** A span that fits stays inside the range under every placement. */
  lemma {:induction false} PlacedInside(start: int, extent: int, size: int, atStart: bool, atEnd: bool)
    requires !(atStart && atEnd) && 0 <= size <= extent
    ensures var r := Place(start, extent, size, atStart, atEnd);
            start <= r && r + size <= start + extent
  {
    if !atStart && !atEnd {
      CenterIsBalanced(start, extent, size);
    }
  }

  /** A static text widget, optionally bound to a store key. */
  class StaticText {
    var content: string
    var fontSize: real
    var textColor: u32
    var textAlign: SkinTypes.TextAlign
    var verticalAlign: SkinTypes.VerticalAlign
    var padding: u32
    var binding: Option<string>

    /** `StaticText::new`: font size 16, black, left/centre aligned, no padding, no binding. */
    constructor (content: string)
      ensures this.content == content && fontSize == 16.0 && textColor == 0
      ensures textAlign == SkinTypes.AlignLeft && verticalAlign == SkinTypes.AlignMiddle
      ensures padding == 0 && binding == None
    {
      this.content := content;
      fontSize := 16.0;
      textColor := 0;
      textAlign := SkinTypes.AlignLeft;
      verticalAlign := SkinTypes.AlignMiddle;
      padding := 0;
      binding := None;
    }

    /** `set_content`: only the content changes. */
    method SetContent(c: string)
      modifies this`content
      ensures content == c
    {
      content := c;
    }

    /** `text_width`: the caret offset after the last character. */
    function TextWidth(font: WidgetCore.Font): u32
      reads this
    {
      font.caretX(content, |content|, fontSize)
    }

    /**
     * `preferred_size`: the text's width and line height, each plus twice
     * the padding (in wrapping `u32` arithmetic).
     */
    function PreferredSize(font: WidgetCore.Font): (r: (u32, u32))
      reads this
      ensures var w := TextWidth(font) + 2 * padding;
              w < U32_LIMIT ==> r.0 == w
      ensures var h := font.lineHeight(fontSize) + 2 * padding;
              h < U32_LIMIT ==> r.1 == h
    {
      (Wrap32(TextWidth(font) + Wrap32(padding * 2)), Wrap32(font.lineHeight(fontSize) + Wrap32(padding * 2)))
    }

    /** The position `draw` gives the text within `bounds`. */
    function TextOrigin(bounds: Rect, font: WidgetCore.Font): (r: (int, int))
      reads this
    {
      var cr := ContentRect(bounds, padding);
      (TextX(textAlign, cr, TextWidth(font)), TextY(verticalAlign, cr, font.lineHeight(fontSize)))
    }

    /** `on_event`: static text consumes nothing. */
    method OnEvent(ev: WidgetCore.Event) returns (consumed: bool)
      ensures !consumed
    {
      consumed := false;
    }
  }

  /**
   * Laid out at its preferred size (with no wrap-around), the text fits its
   * content rectangle exactly, so every alignment keeps it inside.
   */
  lemma {:induction false} PreferredSizeFits(t: StaticText, font: WidgetCore.Font, x: int, y: int)
    requires t.TextWidth(font) + 2 * t.padding < U32_LIMIT
    requires font.lineHeight(t.fontSize) + 2 * t.padding < U32_LIMIT
    ensures var size := t.PreferredSize(font);
            var cr := ContentRect(Rect(x, y, size.0, size.1), t.padding);
            var origin := t.TextOrigin(Rect(x, y, size.0, size.1), font);
            && cr.width == t.TextWidth(font) && cr.height == font.lineHeight(t.fontSize)
            && cr.x <= origin.0 && origin.0 + t.TextWidth(font) <= cr.Right()
            && cr.y <= origin.1 && origin.1 + font.lineHeight(t.fontSize) <= cr.Bottom()
  {
    var size := t.PreferredSize(font);
    var cr := ContentRect(Rect(x, y, size.0, size.1), t.padding);
    PlacedInside(cr.x, cr.width, t.TextWidth(font), t.textAlign.AlignLeft?, t.textAlign.AlignRight?);
    PlacedInside(cr.y, cr.height, font.lineHeight(t.fontSize), t.verticalAlign.AlignTop?, t.verticalAlign.AlignBottom?);
  }
}
