/**
 * The pixel buffer views draw into (src/graphics/canvas.rs): a row-major
 * array of packed 0xRRGGBB colours, `width` pixels per row.
 */
module Graphics {
  import opened Prims

  /** `(r as u32) << 16 | (g as u32) << 8 | (b as u32)`: the three bytes never overlap, so `|` is `+`. */
  function Rgb(r: u8, g: u8, b: u8): (c: u32)
    ensures c / 0x1_0000 == r && (c / 0x100) % 0x100 == g && c % 0x100 == b
  {
    DivModUnique(r, g * 0x100 + b, 0x1_0000);
    DivModUnique(r * 0x100 + g, b, 0x100);
    DivModUnique(r, g, 0x100);
    r * 0x1_0000 + g * 0x100 + b
  }

  class Canvas {
    const buffer: array<u32>
    const width: u32
    const height: u32

    /**
     * The index of the first pixel of row `py`, counted without
     * multiplication: `RowStart(py) == py * width` (RowStartIsProduct).
     */
    function RowStart(py: nat): nat
      reads this
    {
      if py == 0 then 0 else RowStart(py - 1) + width
    }

    lemma {:induction false} RowStartIsProduct(py: nat)
      ensures RowStart(py) == py * width
    {
      if py > 0 {
        RowStartIsProduct(py - 1);
      }
    }

    /** Later rows start further into the buffer, each at least a full row later. */
    lemma {:induction false} RowStartMono(py: nat, qy: nat)
      requires py < qy
      ensures RowStart(py) + width <= RowStart(qy)
      decreases qy
    {
      if py + 1 < qy {
        RowStartMono(py, qy - 1);
      }
    }

    /** The number of pixels, `width * height`. */
    function Area(): nat
      reads this
    {
      RowStart(height)
    }

    /**
     * The buffer holds every pixel, and every row-major index fits in a
     * `u32` (the source computes `y * width + x` in `u32`).
     */
    ghost predicate Valid()
      reads this
    {
      Area() <= buffer.Length && Area() <= U32_LIMIT
    }

    /** `Canvas::new`: a view of the caller's buffer, which must cover the whole area. */
    constructor (buffer: array<u32>, width: u32, height: u32)
      requires width as int * height <= buffer.Length && width as int * height <= U32_LIMIT
      ensures this.buffer == buffer && this.width == width && this.height == height
      ensures Valid()
    {
      this.buffer := buffer;
      this.width := width;
      this.height := height;
      new;
      RowStartIsProduct(height);
    }

    /** Row `py` of the canvas ends within the pixel area. */
    lemma {:induction false} RowInside(py: nat)
      ensures py < height ==> RowStart(py) + width <= Area()
    {
      if py + 1 < height {
        RowStartMono(py, height);
      }
    }

    /**
     * The row-major buffer index of pixel (`px`, `py`), `py * width + px`;
     * a pixel of the canvas has its index inside the pixel area.
     */
    function Cell(px: nat, py: nat): (i: nat)
      reads this
      ensures px < width && py < height ==> i < Area()
    {
      RowInside(py);
      RowStart(py) + px
    }

    /** Distinct pixels of the canvas have distinct indices. */
    lemma {:induction false} CellInjective(px: nat, py: nat, qx: nat, qy: nat)
      requires px < width && qx < width && (px, py) != (qx, qy)
      ensures Cell(px, py) != Cell(qx, qy)
    {
      if py < qy {
        RowStartMono(py, qy);
      } else if qy < py {
        RowStartMono(qy, py);
      }
    }

    /** `set_pixel`: write one pixel; coordinates outside the canvas are ignored. */
    method SetPixel(x: u32, y: u32, color: u32)
      requires Valid()
      modifies buffer
      ensures x < width && y < height ==> buffer[..] == old(buffer[..])[Cell(x, y) := color]
      ensures !(x < width && y < height) ==> buffer[..] == old(buffer[..])
    {
      if x < width && y < height {
        var index := Cell(x, y);
        buffer[index] := color;
      }
    }

    /** `set_pixel_rgb`. */
    method SetPixelRgb(x: u32, y: u32, r: u8, g: u8, b: u8)
      requires Valid()
      modifies buffer
      ensures x < width && y < height ==> buffer[..] == old(buffer[..])[Cell(x, y) := Rgb(r, g, b)]
      ensures !(x < width && y < height) ==> buffer[..] == old(buffer[..])
    {
      var color := Rgb(r, g, b);
      SetPixel(x, y, color);
    }

    /** `clear`: every entry of the buffer becomes `color`. */
    method Clear(color: u32)
      modifies buffer
      ensures forall i :: 0 <= i < buffer.Length ==> buffer[i] == color
    {
      var i := 0;
      while i < buffer.Length
        invariant 0 <= i <= buffer.Length
        invariant forall j :: 0 <= j < i ==> buffer[j] == color
      {
        buffer[i] := color;
        i := i + 1;
      }
    }

    /** The end column of `fill_rect`: `(x + w).min(width)`, with `u32` wrap-around of the sum. */
    function XEnd(x: u32, w: u32): u32
      reads this
    {
      Min(Wrap32(x + w), width)
    }

    /** The end row of `fill_rect`. */
    function YEnd(y: u32, h: u32): u32
      reads this
    {
      Min(Wrap32(y + h), height)
    }

    /**
     * `fill_rect`: `color` is written to exactly the pixels with column in
     * `[x, XEnd(x, w))` and row in `[y, YEnd(y, h))`; every other pixel, and
     * the buffer beyond the pixel area, is unchanged.
     */
    method FillRect(x: u32, y: u32, w: u32, h: u32, color: u32)
      requires Valid()
      modifies buffer
      ensures forall px, py :: 0 <= px < width && 0 <= py < height ==>
        buffer[Cell(px, py)] == if x <= px < XEnd(x, w) && y <= py < YEnd(y, h) then color else old(buffer[Cell(px, py)])
      ensures forall i :: Area() <= i < buffer.Length ==> buffer[i] == old(buffer[i])
    {
      var xEnd := XEnd(x, w);
      var yEnd := YEnd(y, h);
      var py := y;
      while py < yEnd
        invariant y <= py <= yEnd || (yEnd <= y && py == y)
        invariant forall qx, qy :: 0 <= qx < width && 0 <= qy < height ==>
          buffer[Cell(qx, qy)] == if x <= qx < xEnd && y <= qy < py then color else old(buffer[Cell(qx, qy)])
        invariant forall i :: Area() <= i < buffer.Length ==> buffer[i] == old(buffer[i])
      {
        var px := x;
        while px < xEnd
          invariant x <= px <= xEnd || (xEnd <= x && px == x)
          invariant forall qx, qy :: 0 <= qx < width && 0 <= qy < height ==>
            buffer[Cell(qx, qy)] == if (x <= qx < xEnd && y <= qy < py) || (qy == py && x <= qx < px) then color
                                    else old(buffer[Cell(qx, qy)])
          invariant forall i :: Area() <= i < buffer.Length ==> buffer[i] == old(buffer[i])
        {
          ghost var before := buffer[..];
          var index := Cell(px, py);
          buffer[index] := color;
          forall qx, qy | 0 <= qx < width && 0 <= qy < height && (qx, qy) != (px, py)
            ensures buffer[Cell(qx, qy)] == before[Cell(qx, qy)]
          {
            CellInjective(qx, qy, px, py);
          }
          px := px + 1;
        }
        py := py + 1;
      }
    }

    /** Without wrap-around the filled span is the rectangle clipped to the canvas. */
    lemma {:induction false} FillSpanClipped(x: u32, w: u32, y: u32, h: u32)
      requires x + w < U32_LIMIT && y + h < U32_LIMIT
      ensures XEnd(x, w) == Min(x + w, width) && YEnd(y, h) == Min(y + h, height)
    {
    }

    /** A rectangle starting right of or below the canvas covers no pixel. */
    lemma {:induction false} FillOutsideIsEmpty(x: u32, w: u32, y: u32, h: u32)
      requires x >= width || y >= height
      ensures XEnd(x, w) <= x || YEnd(y, h) <= y
    {
    }
  }
}
