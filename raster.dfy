/** The software rasteriser behind the built-in function-curve plot: an RGB
    image of w * h pixels held row by row in a byte array, three bytes per
    pixel, and the primitives that draw into it in place.

    Each drawing method states the new image as a function of the old one
    (SetPx, PaintAll); lemmas then say which pixels those functions change. */
module Raster {

  type Byte = v: int | 0 <= v < 256

  datatype Rgb = Rgb(r: Byte, g: Byte, b: Byte)

  /** A point of the canvas grid, as (x, y). */
  type Point = (int, int)

  /** The byte a colour puts in channel k (0 red, 1 green, 2 blue). */
  function Chan(c: Rgb, k: int): Byte {
    if k == 0 then c.r else if k == 1 then c.g else c.b
  }

  /** The index of the first pixel of row y: y * w, counted row by row. */
  function RowStart(w: int, y: nat): int {
    if y == 0 then 0 else RowStart(w, y - 1) + w
  }

  lemma {:induction false} RowStartIsProduct(w: int, y: nat)
    ensures RowStart(w, y) == y * w
  {
    if y > 0 {
      RowStartIsProduct(w, y - 1);
    }
  }

  /** Later rows start further on. */
  lemma {:induction false} RowStartMono(w: int, y: nat, y': nat)
    requires 0 <= w && y <= y'
    ensures RowStart(w, y) <= RowStart(w, y')
    decreases y'
  {
    if y < y' {
      RowStartMono(w, y, y' - 1);
    }
  }

  /** An image buffer of n bytes for a w by h canvas. */
  predicate Canvas(n: int, w: int, h: int) {
    0 <= w && 0 <= h && n == RowStart(w, h) * 3
  }

  predicate InCanvas(w: int, h: int, x: int, y: int) {
    0 <= x < w && 0 <= y < h
  }

  /** The offset of pixel (x, y)'s red byte: (y * w + x) * 3. */
  function PixelIndex(w: int, x: int, y: nat): int {
    (RowStart(w, y) + x) * 3
  }

  /** A pixel of the canvas has all three bytes inside the buffer. */
  lemma PixelIndexBounds(w: int, h: int, x: int, y: int)
    requires 0 <= w && 0 <= h && InCanvas(w, h, x, y)
    ensures 0 <= PixelIndex(w, x, y) && PixelIndex(w, x, y) + 3 <= RowStart(w, h) * 3
  {
    RowStartMono(w, 0, y);
    RowStartMono(w, y + 1, h);
  }

  /** Two different pixels have disjoint bytes. */
  lemma PixelIndexDistinct(w: int, h: int, x: int, y: int, x': int, y': int)
    requires 0 <= w && 0 <= h && InCanvas(w, h, x, y) && InCanvas(w, h, x', y')
    requires (x, y) != (x', y')
    ensures PixelIndex(w, x, y) + 3 <= PixelIndex(w, x', y') || PixelIndex(w, x', y') + 3 <= PixelIndex(w, x, y)
  {
    if y < y' {
      RowStartMono(w, y + 1, y');
    } else if y' < y {
      RowStartMono(w, y' + 1, y);
    }
  }

  lemma MulLeft(a: int, b: int, c: int)
    requires a <= b && 0 <= c
    ensures a * c <= b * c
  {
    assert b * c - a * c == (b - a) * c;
  }

  // ---------------------------------------------------------------------
  // Pixels

  /** The colour of pixel (x, y). */
  function Px(s: seq<Byte>, w: int, h: int, x: int, y: int): Rgb
    requires Canvas(|s|, w, h) && InCanvas(w, h, x, y)
  {
    PixelIndexBounds(w, h, x, y);
    var o := PixelIndex(w, x, y);
    Rgb(s[o], s[o + 1], s[o + 2])
  }

  /** The image after plot_set_px: pixel (x, y) set when it is on the
      canvas, nothing done otherwise. */
  function SetPx(s: seq<Byte>, w: int, h: int, p: Point, c: Rgb): (r: seq<Byte>)
    requires Canvas(|s|, w, h)
    ensures |r| == |s|
  {
    if !InCanvas(w, h, p.0, p.1) then s
    else
      PixelIndexBounds(w, h, p.0, p.1);
      var o := PixelIndex(w, p.0, p.1);
      s[o := c.r][o + 1 := c.g][o + 2 := c.b]
  }

  /** plot_set_px writes the three bytes of (x, y) and no other byte; off
      the canvas it writes nothing. */
  lemma SetPxBytes(s: seq<Byte>, w: int, h: int, p: Point, c: Rgb)
    requires Canvas(|s|, w, h)
    ensures !InCanvas(w, h, p.0, p.1) ==> SetPx(s, w, h, p, c) == s
    ensures InCanvas(w, h, p.0, p.1) ==>
              var o := PixelIndex(w, p.0, p.1);
              0 <= o && o + 3 <= |s| &&
              (forall k :: 0 <= k < |s| ==>
                 SetPx(s, w, h, p, c)[k] == if o <= k < o + 3 then Chan(c, k - o) else s[k])
  {
    if InCanvas(w, h, p.0, p.1) {
      PixelIndexBounds(w, h, p.0, p.1);
    }
  }

  /** plot_set_px changes pixel p to c and leaves every other pixel. */
  lemma SetPxPixel(s: seq<Byte>, w: int, h: int, p: Point, c: Rgb, x: int, y: int)
    requires Canvas(|s|, w, h) && InCanvas(w, h, x, y)
    ensures Px(SetPx(s, w, h, p, c), w, h, x, y) == if (x, y) == p then c else Px(s, w, h, x, y)
  {
    PixelIndexBounds(w, h, x, y);
    if InCanvas(w, h, p.0, p.1) {
      PixelIndexBounds(w, h, p.0, p.1);
      if (x, y) != p {
        PixelIndexDistinct(w, h, x, y, p.0, p.1);
      }
    }
  }

  /** The image after plot_set_px at each point of pts in turn. */
  function PaintAll(s: seq<Byte>, w: int, h: int, pts: seq<Point>, c: Rgb): (r: seq<Byte>)
    requires Canvas(|s|, w, h)
    ensures |r| == |s|
    decreases |pts|
  {
    if pts == [] then s
    else SetPx(PaintAll(s, w, h, pts[..|pts| - 1], c), w, h, pts[|pts| - 1], c)
  }

  /** Painting the points of pts sets exactly the canvas pixels among them. */
  lemma {:induction false} PaintAllPixel(s: seq<Byte>, w: int, h: int, pts: seq<Point>, c: Rgb, x: int, y: int)
    requires Canvas(|s|, w, h) && InCanvas(w, h, x, y)
    ensures Px(PaintAll(s, w, h, pts, c), w, h, x, y) == if (x, y) in pts then c else Px(s, w, h, x, y)
    decreases |pts|
  {
    if pts != [] {
      var init := pts[..|pts| - 1];
      PaintAllPixel(s, w, h, init, c, x, y);
      SetPxPixel(PaintAll(s, w, h, init, c), w, h, pts[|pts| - 1], c, x, y);
      assert pts == init + [pts[|pts| - 1]];
    }
  }

  /** Painting one more point. */
  lemma PaintAllSnoc(s: seq<Byte>, w: int, h: int, pts: seq<Point>, p: Point, c: Rgb)
    requires Canvas(|s|, w, h)
    ensures PaintAll(s, w, h, pts + [p], c) == SetPx(PaintAll(s, w, h, pts, c), w, h, p, c)
  {
    assert (pts + [p])[..|pts|] == pts;
  }

  /** Painting a + b is painting a, then b. */
  lemma {:induction false} PaintAllConcat(s: seq<Byte>, w: int, h: int, a: seq<Point>, b: seq<Point>, c: Rgb)
    requires Canvas(|s|, w, h)
    ensures PaintAll(s, w, h, a + b, c) == PaintAll(PaintAll(s, w, h, a, c), w, h, b, c)
    decreases |b|
  {
    if b == [] {
      assert a + b == a;
    } else {
      var b0 := b[..|b| - 1];
      assert a + b == (a + b0) + [b[|b| - 1]];
      PaintAllSnoc(s, w, h, a + b0, b[|b| - 1], c);
      PaintAllConcat(s, w, h, a, b0, c);
    }
  }

  /** plot_set_px(img, w, h, x, y, r, g, b). */
  method PlotSetPx(img: array<Byte>, w: int, h: int, x: int, y: int, c: Rgb)
    requires Canvas(img.Length, w, h)
    modifies img
    ensures img[..] == SetPx(old(img[..]), w, h, (x, y), c)
  {
    if x < 0 || y < 0 || x >= w || y >= h {
      return;
    }
    PixelIndexBounds(w, h, x, y);
    RowStartIsProduct(w, y);
    var o := (y * w + x) * 3;
    img[o + 0] := c.r;
    img[o + 1] := c.g;
    img[o + 2] := c.b;
  }

  // ---------------------------------------------------------------------
  // plot_fill

  /** plot_fill(img, w, h, r, g, b): every byte takes its channel's value. */
  method PlotFill(img: array<Byte>, w: int, h: int, c: Rgb)
    requires Canvas(img.Length, w, h)
    modifies img
    ensures forall k :: 0 <= k < img.Length ==> img[k] == Chan(c, k % 3)
  {
    RowStartIsProduct(w, h);
    assert h * w == w * h;
    var a, o := 0, 0;
    while a < w * h
      invariant 0 <= a <= w * h && o == 3 * a
      invariant forall k :: 0 <= k < o ==> img[k] == Chan(c, k % 3)
    {
      img[o + 0] := c.r;
      img[o + 1] := c.g;
      img[o + 2] := c.b;
      a, o := a + 1, o + 3;
    }
  }

  /** After plot_fill every pixel of the canvas has the fill colour. */
  lemma FillPixels(s: seq<Byte>, w: int, h: int, c: Rgb, x: int, y: int)
    requires Canvas(|s|, w, h) && InCanvas(w, h, x, y)
    requires forall k :: 0 <= k < |s| ==> s[k] == Chan(c, k % 3)
    ensures Px(s, w, h, x, y) == c
  {
    PixelIndexBounds(w, h, x, y);
    var o := PixelIndex(w, x, y);
    assert o % 3 == 0 && (o + 1) % 3 == 1 && (o + 2) % 3 == 2;
  }

  // ---------------------------------------------------------------------
  // plot_fill_rect, plot_hline, plot_vline

  function Min(a: int, b: int): int { if a < b then a else b }
  function Max(a: int, b: int): int { if a < b then b else a }

  /** The points (x0, y) .. (x1, y), left to right. */
  function Row(x0: int, x1: int, y: int): seq<Point>
    decreases if x1 < x0 then 0 else x1 - x0 + 1
  {
    if x1 < x0 then [] else Row(x0, x1 - 1, y) + [(x1, y)]
  }

  /** The points (x, y0) .. (x, y1), top to bottom. */
  function Column(x: int, y0: int, y1: int): seq<Point>
    decreases if y1 < y0 then 0 else y1 - y0 + 1
  {
    if y1 < y0 then [] else Column(x, y0, y1 - 1) + [(x, y1)]
  }

  /** The points of rows y0 .. y1, each from x0 to x1. */
  function Rect(x0: int, y0: int, x1: int, y1: int): seq<Point>
    decreases if y1 < y0 then 0 else y1 - y0 + 1
  {
    if y1 < y0 then [] else Rect(x0, y0, x1, y1 - 1) + Row(x0, x1, y1)
  }

  lemma {:induction false} RowMember(x0: int, x1: int, y: int, p: Point)
    ensures p in Row(x0, x1, y) <==> x0 <= p.0 <= x1 && p.1 == y
    decreases if x1 < x0 then 0 else x1 - x0 + 1
  {
    if x0 <= x1 {
      RowMember(x0, x1 - 1, y, p);
    }
  }

  lemma {:induction false} ColumnMember(x: int, y0: int, y1: int, p: Point)
    ensures p in Column(x, y0, y1) <==> p.0 == x && y0 <= p.1 <= y1
    decreases if y1 < y0 then 0 else y1 - y0 + 1
  {
    if y0 <= y1 {
      ColumnMember(x, y0, y1 - 1, p);
    }
  }

  lemma {:induction false} RectMember(x0: int, y0: int, x1: int, y1: int, p: Point)
    ensures p in Rect(x0, y0, x1, y1) <==> x0 <= p.0 <= x1 && y0 <= p.1 <= y1
    decreases if y1 < y0 then 0 else y1 - y0 + 1
  {
    if y0 <= y1 {
      RectMember(x0, y0, x1, y1 - 1, p);
      RowMember(x0, x1, y1, p);
    }
  }

  /** The rectangle plot_fill_rect fills: corners put in order, then
      clamped to the canvas. */
  function ClampRect(w: int, h: int, x0: int, y0: int, x1: int, y1: int): (int, int, int, int) {
    var lx := Min(x0, x1);
    var hx := Max(x0, x1);
    var ly := Min(y0, y1);
    var hy := Max(y0, y1);
    (if lx < 0 then 0 else lx, if ly < 0 then 0 else ly,
     if hx >= w then w - 1 else hx, if hy >= h then h - 1 else hy)
  }

  /** The image after plot_fill_rect. */
  function FillRect(s: seq<Byte>, w: int, h: int, x0: int, y0: int, x1: int, y1: int, c: Rgb): (r: seq<Byte>)
    requires Canvas(|s|, w, h)
  {
    var q := ClampRect(w, h, x0, y0, x1, y1);
    PaintAll(s, w, h, Rect(q.0, q.1, q.2, q.3), c)
  }

  /** plot_fill_rect sets exactly the canvas pixels of the rectangle with
      corners (x0, y0) and (x1, y1), taken in either order. */
  lemma FillRectPixels(s: seq<Byte>, w: int, h: int, x0: int, y0: int, x1: int, y1: int, c: Rgb, x: int, y: int)
    requires Canvas(|s|, w, h) && InCanvas(w, h, x, y)
    ensures Px(FillRect(s, w, h, x0, y0, x1, y1, c), w, h, x, y) ==
            if Min(x0, x1) <= x <= Max(x0, x1) && Min(y0, y1) <= y <= Max(y0, y1) then c else Px(s, w, h, x, y)
  {
    var q := ClampRect(w, h, x0, y0, x1, y1);
    PaintAllPixel(s, w, h, Rect(q.0, q.1, q.2, q.3), c, x, y);
    RectMember(q.0, q.1, q.2, q.3, (x, y));
  }

  /** plot_fill_rect(img, w, h, x0, y0, x1, y1, r, g, b). */
  method PlotFillRect(img: array<Byte>, w: int, h: int, x0: int, y0: int, x1: int, y1: int, c: Rgb)
    requires Canvas(img.Length, w, h)
    modifies img
    ensures img[..] == FillRect(old(img[..]), w, h, x0, y0, x1, y1, c)
  {
    ghost var q := ClampRect(w, h, x0, y0, x1, y1);
    var lx, ly, hx, hy := x0, y0, x1, y1;
    if lx > hx { lx, hx := hx, lx; }
    if ly > hy { ly, hy := hy, ly; }
    if lx < 0 { lx := 0; }
    if ly < 0 { ly := 0; }
    if hx >= w { hx := w - 1; }
    if hy >= h { hy := h - 1; }
    assert (lx, ly, hx, hy) == q;
    if lx > hx || ly > hy {
      assert Rect(lx, ly, hx, hy) == [] by {
        if ly <= hy {
          EmptyRows(lx, ly, hx, hy);
        }
      }
      return;
    }
    PaintRect(img, w, h, lx, ly, hx, hy, c);
  }

  /** The nested loops of plot_fill_rect: rows ly .. hy, each painted from
      lx to hx. */
  method PaintRect(img: array<Byte>, w: int, h: int, lx: int, ly: int, hx: int, hy: int, c: Rgb)
    requires Canvas(img.Length, w, h) && ly <= hy
    modifies img
    ensures img[..] == PaintAll(old(img[..]), w, h, Rect(lx, ly, hx, hy), c)
  {
    ghost var s := img[..];
    var y := ly;
    while y <= hy
      invariant ly <= y <= hy + 1
      invariant img[..] == PaintAll(s, w, h, Rect(lx, ly, hx, y - 1), c)
    {
      PaintRow(img, w, h, lx, hx, y, c);
      PaintAllConcat(s, w, h, Rect(lx, ly, hx, y - 1), Row(lx, hx, y), c);
      y := y + 1;
    }
  }

  /** Rows with no columns make an empty rectangle. */
  lemma {:induction false} EmptyRows(x0: int, y0: int, x1: int, y1: int)
    requires x1 < x0
    ensures Rect(x0, y0, x1, y1) == []
    decreases if y1 < y0 then 0 else y1 - y0 + 1
  {
    if y0 <= y1 {
      EmptyRows(x0, y0, x1, y1 - 1);
    }
  }

  /** The inner loop of plot_fill_rect and the loop of plot_hline:
      plot_set_px at (x0, y) .. (x1, y). */
  method PaintRow(img: array<Byte>, w: int, h: int, x0: int, x1: int, y: int, c: Rgb)
    requires Canvas(img.Length, w, h)
    modifies img
    ensures img[..] == PaintAll(old(img[..]), w, h, Row(x0, x1, y), c)
  {
    ghost var s := img[..];
    var x := x0;
    while x <= x1
      invariant x1 < x0 ==> x == x0
      invariant x0 <= x1 ==> x0 <= x <= x1 + 1
      invariant img[..] == PaintAll(s, w, h, Row(x0, x - 1, y), c)
    {
      PlotSetPx(img, w, h, x, y, c);
      PaintAllSnoc(s, w, h, Row(x0, x - 1, y), (x, y), c);
      x := x + 1;
    }
  }

  /** plot_hline(img, w, h, x0, x1, y, r, g, b). */
  method PlotHline(img: array<Byte>, w: int, h: int, x0: int, x1: int, y: int, c: Rgb)
    requires Canvas(img.Length, w, h)
    modifies img
    ensures img[..] == PaintAll(old(img[..]), w, h, Row(Min(x0, x1), Max(x0, x1), y), c)
  {
    var a, b := x0, x1;
    if a > b { a, b := b, a; }
    PaintRow(img, w, h, a, b, y, c);
  }

  /** plot_vline(img, w, h, x, y0, y1, r, g, b). */
  method PlotVline(img: array<Byte>, w: int, h: int, x: int, y0: int, y1: int, c: Rgb)
    requires Canvas(img.Length, w, h)
    modifies img
    ensures img[..] == PaintAll(old(img[..]), w, h, Column(x, Min(y0, y1), Max(y0, y1)), c)
  {
    ghost var s := img[..];
    var a, b := y0, y1;
    if a > b { a, b := b, a; }
    var y := a;
    while y <= b
      invariant a <= y <= b + 1
      invariant img[..] == PaintAll(s, w, h, Column(x, a, y - 1), c)
    {
      PlotSetPx(img, w, h, x, y, c);
      PaintAllSnoc(s, w, h, Column(x, a, y - 1), (x, y), c);
      y := y + 1;
    }
  }

  /** plot_hline sets exactly the canvas pixels of row y between x0 and x1. */
  lemma HlinePixels(s: seq<Byte>, w: int, h: int, x0: int, x1: int, y: int, c: Rgb, x: int, y': int)
    requires Canvas(|s|, w, h) && InCanvas(w, h, x, y')
    ensures Px(PaintAll(s, w, h, Row(Min(x0, x1), Max(x0, x1), y), c), w, h, x, y') ==
            if y' == y && Min(x0, x1) <= x <= Max(x0, x1) then c else Px(s, w, h, x, y')
  {
    PaintAllPixel(s, w, h, Row(Min(x0, x1), Max(x0, x1), y), c, x, y');
    RowMember(Min(x0, x1), Max(x0, x1), y, (x, y'));
  }

  /** plot_vline sets exactly the canvas pixels of column x between y0 and y1. */
  lemma VlinePixels(s: seq<Byte>, w: int, h: int, x: int, y0: int, y1: int, c: Rgb, x': int, y: int)
    requires Canvas(|s|, w, h) && InCanvas(w, h, x', y)
    ensures Px(PaintAll(s, w, h, Column(x, Min(y0, y1), Max(y0, y1)), c), w, h, x', y) ==
            if x' == x && Min(y0, y1) <= y <= Max(y0, y1) then c else Px(s, w, h, x', y)
  {
    PaintAllPixel(s, w, h, Column(x, Min(y0, y1), Max(y0, y1)), c, x', y);
    ColumnMember(x, Min(y0, y1), Max(y0, y1), (x', y));
  }

  // ---------------------------------------------------------------------
  // plot_clamp_u8

  /** plot_clamp_u8(v): the byte nearest to v. */
  function ClampU8(v: int): (b: Byte)
  {
    if v < 0 then 0 else if v > 255 then 255 else v
  }

  lemma ClampU8Nearest(v: int, u: Byte)
    ensures var b := ClampU8(v);
      (b - v) * (b - v) <= (u - v) * (u - v) && (0 <= v <= 255 ==> b == v)
  {
    var b := ClampU8(v);
    if v < 0 {
      MulLeft(b - v, u - v, b - v);
      MulLeft(b - v, u - v, u - v);
    } else if v > 255 {
      MulLeft(v - b, v - u, v - b);
      MulLeft(v - b, v - u, v - u);
      assert (b - v) * (b - v) == (v - b) * (v - b);
      assert (u - v) * (u - v) == (v - u) * (v - u);
    }
  }

  // ---------------------------------------------------------------------
  // font5x7_text_width

  /** font5x7_text_width(txt, scale) for a text of n characters. */
  function TextWidth(n: nat, scale: int): int {
    if n <= 0 then 0
    else
      var s := if scale < 1 then 1 else scale;
      n * 6 * s - s
  }

  /** font5x7_text_height_rot90(txt, scale): the same measure along y. */
  function TextHeightRot90(n: nat, scale: int): int {
    if n <= 0 then 0
    else
      var s := if scale < 1 then 1 else scale;
      n * 6 * s - s
  }

  /** font5x7_draw_text advances 6 * scale per character and a glyph is
      5 * scale wide: the width runs from the first glyph's left edge to the
      last glyph's right edge. */
  lemma TextWidthIsDrawnExtent(n: nat, scale: int)
    requires n >= 1
    ensures var s := if scale < 1 then 1 else scale;
      var advance := 6 * s;
      TextWidth(n, scale) == (n - 1) * advance + 5 * s &&
      TextWidth(n, scale) > 0 &&
      TextHeightRot90(n, scale) == TextWidth(n, scale)
  {
    var s := if scale < 1 then 1 else scale;
    assert n * 6 * s - s == (n - 1) * (6 * s) + 5 * s;
    MulLeft(1, n, 6 * s);
  }
}
