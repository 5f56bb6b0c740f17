/** plot_downsample_box: the anti-aliasing step of the curve plot. The plot
    is drawn ss times larger in each direction, then every ss by ss block of
    the large image becomes one pixel of the small one, each channel the
    block's mean rounded half up. */
module RasterDownsample {
  import opened Raster

  /** Channel k summed over the n pixels (x0, y) .. (x0 + n - 1, y). */
  function RowSum(s: seq<Byte>, sw: int, sh: int, x0: nat, y: nat, n: nat, k: int): int
    requires Canvas(|s|, sw, sh) && x0 + n <= sw && y < sh && 0 <= k < 3
    decreases n
  {
    if n == 0 then 0
    else
      PixelIndexBounds(sw, sh, x0 + n - 1, y);
      RowSum(s, sw, sh, x0, y, n - 1, k) + s[PixelIndex(sw, x0 + n - 1, y) + k]
  }

  /** Channel k summed over the n by m block whose top-left pixel is (x0, y0). */
  function BoxSum(s: seq<Byte>, sw: int, sh: int, x0: nat, y0: nat, n: nat, m: nat, k: int): int
    requires Canvas(|s|, sw, sh) && x0 + n <= sw && y0 + m <= sh && 0 <= k < 3
    decreases m
  {
    if m == 0 then 0
    else BoxSum(s, sw, sh, x0, y0, n, m - 1, k) + RowSum(s, sw, sh, x0, y0 + m - 1, n, k)
  }

  /** (sum + area / 2) / area: the mean of area values, rounded half up. */
  function Mean(sum: int, area: int): int
    requires area >= 1
  {
    (sum + area / 2) / area
  }

  /** Block X of a row of sw pixels cut into blocks of ss starts at
      RowStart(ss, X) = X * ss and lies inside the row. */
  lemma BoxInside(sw: int, ss: int, X: nat)
    requires ss >= 1 && X < sw / ss
    ensures 0 <= RowStart(ss, X) && RowStart(ss, X) + ss <= sw
  {
    RowStartIsProduct(ss, X);
    MulLeft(X + 1, sw / ss, ss);
    MulLeft(0, X, ss);
  }

  /** A block holds RowStart(ss, ss) = ss * ss pixels, at least one. */
  lemma AreaPositive(ss: int)
    requires ss >= 1
    ensures RowStart(ss, ss) >= 1
  {
    RowStartIsProduct(ss, ss);
    MulLeft(1, ss, ss);
  }

  /** Channel k of pixel (X, Y) of the small image. */
  function OutByte(s: seq<Byte>, sw: int, sh: int, ss: int, X: nat, Y: nat, k: int): Byte
    requires Canvas(|s|, sw, sh) && ss >= 1 && X < sw / ss && Y < sh / ss && 0 <= k < 3
  {
    BoxInside(sw, ss, X);
    BoxInside(sh, ss, Y);
    AreaPositive(ss);
    ClampU8(Mean(BoxSum(s, sw, sh, RowStart(ss, X), RowStart(ss, Y), ss, ss, k), RowStart(ss, ss)))
  }

  // ---------------------------------------------------------------------
  // What the sums and the image hold

  lemma {:induction false} RowSumRange(s: seq<Byte>, sw: int, sh: int, x0: nat, y: nat, n: nat, k: int)
    requires Canvas(|s|, sw, sh) && x0 + n <= sw && y < sh && 0 <= k < 3
    ensures 0 <= RowSum(s, sw, sh, x0, y, n, k) <= 255 * n
    decreases n
  {
    if n > 0 {
      RowSumRange(s, sw, sh, x0, y, n - 1, k);
      PixelIndexBounds(sw, sh, x0 + n - 1, y);
    }
  }

  /** A block's sum is that of n * m bytes: between 0 and 255 n m. */
  lemma {:induction false} BoxSumRange(s: seq<Byte>, sw: int, sh: int, x0: nat, y0: nat, n: nat, m: nat, k: int)
    requires Canvas(|s|, sw, sh) && x0 + n <= sw && y0 + m <= sh && 0 <= k < 3
    ensures 0 <= BoxSum(s, sw, sh, x0, y0, n, m, k) <= 255 * RowStart(n, m)
    decreases m
  {
    if m > 0 {
      BoxSumRange(s, sw, sh, x0, y0, n, m - 1, k);
      RowSumRange(s, sw, sh, x0, y0 + m - 1, n, k);
    }
  }

  /** q * a + r divided by a is q when 0 <= r < a. */
  lemma DivOf(q: int, r: int, a: int)
    requires a >= 1 && 0 <= r < a
    ensures (q * a + r) / a == q
  {
    var d := (q * a + r) / a;
    var e := (q * a + r) % a;
    assert d * a + e == q * a + r;
    if d < q {
      MulLeft(d + 1, q, a);
    } else if d > q {
      MulLeft(q + 1, d, a);
    }
  }

  /** The rounded mean of values in 0..255 is itself in 0..255, and it is
      the whole number nearest the true mean: within half of area. */
  lemma MeanRange(sum: int, area: int)
    requires area >= 1 && 0 <= sum <= area * 255
    ensures 0 <= Mean(sum, area) <= 255
    ensures -area <= 2 * (sum - Mean(sum, area) * area) < area
  {
    var n := sum + area / 2;
    var q, r := n / area, n % area;
    assert n == q * area + r;
    if q > 255 {
      MulLeft(256, q, area);
    }
    if q < 0 {
      MulLeft(q, -1, area);
    }
  }

  /** plot_clamp_u8 never changes a block's mean: the small pixel is the
      rounded mean of its ss * ss source bytes. */
  lemma OutByteIsMean(s: seq<Byte>, sw: int, sh: int, ss: int, X: nat, Y: nat, k: int)
    requires Canvas(|s|, sw, sh) && ss >= 1 && X < sw / ss && Y < sh / ss && 0 <= k < 3
    ensures 0 <= RowStart(ss, X) && RowStart(ss, X) + ss <= sw && 0 <= RowStart(ss, Y) && RowStart(ss, Y) + ss <= sh
    ensures RowStart(ss, ss) >= 1
    ensures OutByte(s, sw, sh, ss, X, Y, k) == Mean(BoxSum(s, sw, sh, RowStart(ss, X), RowStart(ss, Y), ss, ss, k), RowStart(ss, ss))
  {
    BoxInside(sw, ss, X);
    BoxInside(sh, ss, Y);
    AreaPositive(ss);
    BoxSumRange(s, sw, sh, RowStart(ss, X), RowStart(ss, Y), ss, ss, k);
    MeanRange(BoxSum(s, sw, sh, RowStart(ss, X), RowStart(ss, Y), ss, ss, k), RowStart(ss, ss));
  }

  /** Channel k is v at every pixel of the n by m block at (x0, y0). */
  predicate Flat(s: seq<Byte>, sw: int, sh: int, x0: nat, y0: nat, n: nat, m: nat, k: int, v: Byte)
    requires Canvas(|s|, sw, sh) && x0 + n <= sw && y0 + m <= sh
  {
    forall x, y :: x0 <= x < x0 + n && y0 <= y < y0 + m ==> Chan(Px(s, sw, sh, x, y), k) == v
  }

  lemma {:induction false} FlatBoxSum(s: seq<Byte>, sw: int, sh: int, x0: nat, y0: nat, n: nat, m: nat, k: int, v: Byte)
    requires Canvas(|s|, sw, sh) && x0 + n <= sw && y0 + m <= sh && 0 <= k < 3
    requires Flat(s, sw, sh, x0, y0, n, m, k, v)
    ensures BoxSum(s, sw, sh, x0, y0, n, m, k) == v * RowStart(n, m)
    decreases m
  {
    if m > 0 {
      FlatBoxSum(s, sw, sh, x0, y0, n, m - 1, k, v);
      FlatRowSum(s, sw, sh, x0, y0, n, m, k, v, n);
      assert v * RowStart(n, m - 1) + n * v == v * (RowStart(n, m - 1) + n);
    }
  }

  lemma {:induction false} FlatRowSum(s: seq<Byte>, sw: int, sh: int, x0: nat, y0: nat, n: nat, m: nat, k: int, v: Byte, i: nat)
    requires Canvas(|s|, sw, sh) && x0 + n <= sw && y0 + m <= sh && 0 <= k < 3 && 0 < m && i <= n
    requires Flat(s, sw, sh, x0, y0, n, m, k, v)
    ensures RowSum(s, sw, sh, x0, y0 + m - 1, i, k) == i * v
    decreases i
  {
    if i > 0 {
      FlatRowSum(s, sw, sh, x0, y0, n, m, k, v, i - 1);
      assert Chan(Px(s, sw, sh, x0 + i - 1, y0 + m - 1), k) == v;
    }
  }

  /** Channel k is v throughout the block that becomes pixel (X, Y). */
  predicate FlatBlock(s: seq<Byte>, sw: int, sh: int, ss: int, X: nat, Y: nat, k: int, v: Byte)
    requires Canvas(|s|, sw, sh) && ss >= 1 && X < sw / ss && Y < sh / ss
  {
    BoxInside(sw, ss, X);
    BoxInside(sh, ss, Y);
    Flat(s, sw, sh, RowStart(ss, X), RowStart(ss, Y), ss, ss, k, v)
  }

  /** A block of one colour shrinks to a pixel of that colour. */
  lemma OutByteOfFlatBlock(s: seq<Byte>, sw: int, sh: int, ss: int, X: nat, Y: nat, k: int, v: Byte)
    requires Canvas(|s|, sw, sh) && ss >= 1 && X < sw / ss && Y < sh / ss && 0 <= k < 3
    requires FlatBlock(s, sw, sh, ss, X, Y, k, v)
    ensures OutByte(s, sw, sh, ss, X, Y, k) == v
  {
    BoxInside(sw, ss, X);
    BoxInside(sh, ss, Y);
    AreaPositive(ss);
    FlatBoxSum(s, sw, sh, RowStart(ss, X), RowStart(ss, Y), ss, ss, k, v);
    MeanOfEqual(v, RowStart(ss, ss));
  }

  /** The rounded mean of area copies of v is v. */
  lemma MeanOfEqual(v: int, area: int)
    requires area >= 1
    ensures Mean(v * area, area) == v
  {
    DivOf(v, area / 2, area);
  }

  // ---------------------------------------------------------------------
  // plot_downsample_box

  /** The two inner loops: the three channel sums of block (x, y). */
  method BlockSums(src: array<Byte>, sw: int, sh: int, ss: int, x: int, y: int) returns (sumr: int, sumg: int, sumb: int)
    requires Canvas(src.Length, sw, sh) && ss >= 1 && 0 <= x < sw / ss && 0 <= y < sh / ss
    ensures 0 <= RowStart(ss, x) && RowStart(ss, x) + ss <= sw && 0 <= RowStart(ss, y) && RowStart(ss, y) + ss <= sh
    ensures sumr == BoxSum(src[..], sw, sh, RowStart(ss, x), RowStart(ss, y), ss, ss, 0)
    ensures sumg == BoxSum(src[..], sw, sh, RowStart(ss, x), RowStart(ss, y), ss, ss, 1)
    ensures sumb == BoxSum(src[..], sw, sh, RowStart(ss, x), RowStart(ss, y), ss, ss, 2)
  {
    BoxInside(sw, ss, x);
    BoxInside(sh, ss, y);
    RowStartIsProduct(ss, x);
    RowStartIsProduct(ss, y);
    ghost var s := src[..];
    ghost var x0, y0 := RowStart(ss, x), RowStart(ss, y);
    sumr, sumg, sumb := 0, 0, 0;
    var yy := 0;
    while yy < ss
      invariant 0 <= yy <= ss
      invariant sumr == BoxSum(s, sw, sh, x0, y0, ss, yy, 0)
      invariant sumg == BoxSum(s, sw, sh, x0, y0, ss, yy, 1)
      invariant sumb == BoxSum(s, sw, sh, x0, y0, ss, yy, 2)
    {
      var sy := y * ss + yy;
      var r, g, b := RowSums(src, sw, sh, ss, x, sy);
      sumr, sumg, sumb := sumr + r, sumg + g, sumb + b;
      yy := yy + 1;
    }
  }

  /** The innermost loop: the three channel sums of the ss pixels of block
      column x in source row sy. */
  method RowSums(src: array<Byte>, sw: int, sh: int, ss: int, x: int, sy: int) returns (r: int, g: int, b: int)
    requires Canvas(src.Length, sw, sh) && ss >= 1 && 0 <= x < sw / ss && 0 <= sy < sh
    ensures 0 <= RowStart(ss, x) && RowStart(ss, x) + ss <= sw
    ensures r == RowSum(src[..], sw, sh, RowStart(ss, x), sy, ss, 0)
    ensures g == RowSum(src[..], sw, sh, RowStart(ss, x), sy, ss, 1)
    ensures b == RowSum(src[..], sw, sh, RowStart(ss, x), sy, ss, 2)
  {
    BoxInside(sw, ss, x);
    RowStartIsProduct(ss, x);
    RowStartIsProduct(sw, sy);
    ghost var s := src[..];
    ghost var x0 := RowStart(ss, x);
    var row := sy * sw;
    r, g, b := 0, 0, 0;
    var xx := 0;
    while xx < ss
      invariant 0 <= xx <= ss
      invariant r == RowSum(s, sw, sh, x0, sy, xx, 0)
      invariant g == RowSum(s, sw, sh, x0, sy, xx, 1)
      invariant b == RowSum(s, sw, sh, x0, sy, xx, 2)
    {
      var sx := x * ss + xx;
      var soff := (row + sx) * 3;
      PixelIndexBounds(sw, sh, sx, sy);
      assert soff == PixelIndex(sw, sx, sy);
      r := r + src[soff + 0];
      g := g + src[soff + 1];
      b := b + src[soff + 2];
      xx := xx + 1;
    }
  }

  /** The three sums of block (x, y), each rounded to the mean and clamped
      by plot_clamp_u8: pixel (x, y) of the small image. */
  method BlockPixel(src: array<Byte>, sw: int, sh: int, ss: int, x: int, y: int) returns (r: Byte, g: Byte, b: Byte)
    requires Canvas(src.Length, sw, sh) && ss >= 1 && 0 <= x < sw / ss && 0 <= y < sh / ss
    ensures r == OutByte(src[..], sw, sh, ss, x, y, 0)
    ensures g == OutByte(src[..], sw, sh, ss, x, y, 1)
    ensures b == OutByte(src[..], sw, sh, ss, x, y, 2)
  {
    var area := ss * ss;
    RowStartIsProduct(ss, ss);
    AreaPositive(ss);
    var sumr, sumg, sumb := BlockSums(src, sw, sh, ss, x, y);
    r := ClampU8((sumr + area / 2) / area);
    g := ClampU8((sumg + area / 2) / area);
    b := ClampU8((sumb + area / 2) / area);
  }

  /** Byte k of pixel (X, Y) of the small image holds that channel of
      block (X, Y). */
  predicate PixelDone(d: seq<Byte>, s: seq<Byte>, sw: int, sh: int, ss: int, X: nat, Y: nat, k: int)
    requires Canvas(|s|, sw, sh) && ss >= 1 && X < sw / ss && Y < sh / ss && 0 <= k < 3
  {
    0 <= PixelIndex(sw / ss, X, Y) + k < |d| && d[PixelIndex(sw / ss, X, Y) + k] == OutByte(s, sw, sh, ss, X, Y, k)
  }

  /** One pass of plot_downsample_box's outer loop: row y of the small
      image, written to bytes RowStart(dw, y) * 3 .. RowStart(dw, y + 1) * 3. */
  method DownsampleRow(src: array<Byte>, sw: int, sh: int, ss: int, dst: array<Byte>, y: int)
    requires Canvas(src.Length, sw, sh) && ss >= 1 && 0 <= y < sh / ss && dst != src
    requires Canvas(dst.Length, sw / ss, sh / ss)
    modifies dst
    ensures forall X, k :: 0 <= X < sw / ss && 0 <= k < 3 ==> PixelDone(dst[..], src[..], sw, sh, ss, X, y, k)
    ensures forall j :: 0 <= j < dst.Length && !(RowStart(sw / ss, y) * 3 <= j < RowStart(sw / ss, y + 1) * 3) ==>
              dst[j] == old(dst[j])
  {
    var dw := sw / ss;
    var dh := sh / ss;
    RowStartIsProduct(dw, y);
    ghost var base := RowStart(dw, y) * 3;
    RowStartMono(dw, 0, y);
    RowStartMono(dw, y + 1, dh);
    var x := 0;
    while x < dw
      invariant 0 <= x <= dw && 0 <= base && base + 3 * dw <= dst.Length
      invariant forall X, k :: 0 <= X < x && 0 <= k < 3 ==> dst[base + 3 * X + k] == OutByte(src[..], sw, sh, ss, X, y, k)
      invariant forall j :: 0 <= j < dst.Length && !(base <= j < base + 3 * x) ==> dst[j] == old(dst[j])
    {
      var r, g, b := BlockPixel(src, sw, sh, ss, x, y);
      var doff := (y * dw + x) * 3;
      assert doff == base + 3 * x;
      PixelIndexBounds(dw, dh, x, y);
      dst[doff + 0] := r;
      dst[doff + 1] := g;
      dst[doff + 2] := b;
      x := x + 1;
    }
    forall X, k | 0 <= X < dw && 0 <= k < 3
      ensures PixelDone(dst[..], src[..], sw, sh, ss, X, y, k)
    {
      PixelIndexBounds(dw, dh, X, y);
    }
  }

  /** plot_downsample_box(src, sw, sh, ss): a new dw * dh image, dw = sw / ss
      and dh = sh / ss, each byte the rounded mean of its block's channel. */
  method PlotDownsampleBox(src: array<Byte>, sw: int, sh: int, ss: int) returns (dst: array<Byte>)
    requires Canvas(src.Length, sw, sh) && ss >= 1
    ensures fresh(dst) && Canvas(dst.Length, sw / ss, sh / ss)
    ensures forall X, Y, k :: 0 <= X < sw / ss && 0 <= Y < sh / ss && 0 <= k < 3 ==> PixelDone(dst[..], src[..], sw, sh, ss, X, Y, k)
  {
    var dw := sw / ss;
    var dh := sh / ss;
    RowStartIsProduct(dw, dh);
    dst := new Byte[dw * dh * 3];
    var y := 0;
    while y < dh
      invariant 0 <= y <= dh
      invariant forall X, Y, k :: 0 <= X < dw && 0 <= Y < y && 0 <= k < 3 ==> PixelDone(dst[..], src[..], sw, sh, ss, X, Y, k)
    {
      ghost var before := dst[..];
      DownsampleRow(src, sw, sh, ss, dst, y);
      forall X, Y, k | 0 <= X < dw && 0 <= Y < y && 0 <= k < 3
        ensures PixelDone(dst[..], src[..], sw, sh, ss, X, Y, k)
      {
        assert PixelDone(before, src[..], sw, sh, ss, X, Y, k);
        PixelIndexBounds(dw, y, X, Y);
        RowStartMono(dw, y, y);
      }
      y := y + 1;
    }
  }
}
