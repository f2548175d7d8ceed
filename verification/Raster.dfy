/** Rendering the mascot art at an icon size: which art cells a pixel samples, and where it lands. */
module Raster {
  import opened Wrappers

  /** The art, row by row; `true` is a glyph cell. */
  type Art = seq<seq<bool>>

  predicate Rectangular(art: Art) {
    |art| > 0 && |art[0]| > 0 && forall y | 0 <= y < |art| :: |art[y]| == |art[0]|
  }

  // ---- Sampling windows ----

  /** The first of the `cells` that pixel `k` of `pixels` samples, and the first it does not. */
  function Start(cells: nat, pixels: nat, k: nat): nat
    requires pixels > 0
  {
    k * cells / pixels
  }

  function End(cells: nat, pixels: nat, k: nat): nat
    requires pixels > 0
  {
    Max(Start(cells, pixels, k) + 1, Start(cells, pixels, k + 1))
  }

  lemma TimesMonotone(a: int, b: int, n: nat)
    requires a <= b
    ensures a * n <= b * n
  {
    assert (b - a) * n >= 0;
  }

  lemma Quotient(a: nat, n: nat) returns (q: nat)
    requires n > 0
    ensures q == a / n
    ensures q * n <= a < q * n + n
  {
    q := a / n;
    assert a == q * n + a % n;
  }

  lemma Factor(q: nat, b: nat, n: nat)
    requires q * n < b * n
    ensures q < b
  {
    if b <= q {
      TimesMonotone(b, q, n);
    }
  }

  lemma {:induction false} DivBelow(a: nat, b: nat, n: nat)
    requires n > 0 && a < b * n
    ensures a / n < b
  {
    var q := Quotient(a, n);
    Factor(q, b, n);
  }

  lemma {:induction false} DivAtLeast(a: nat, b: nat, n: nat)
    requires n > 0 && a >= b * n
    ensures a / n >= b
  {
    var q := Quotient(a, n);
    assert (q + 1) * n == q * n + n;
    Factor(b, q + 1, n);
  }

  /** A window is not empty and stays inside the art; the last one reaches its end. */
  lemma WindowInside(cells: nat, pixels: nat, k: nat)
    requires cells > 0 && k < pixels
    ensures Start(cells, pixels, k) < End(cells, pixels, k) <= cells
    ensures k + 1 == pixels ==> End(cells, pixels, k) == cells
  {
    StartBelow(cells, pixels, k);
    NextAtMost(cells, pixels, k);
  }

  lemma StartBelow(cells: nat, pixels: nat, k: nat)
    requires cells > 0 && k < pixels
    ensures Start(cells, pixels, k) < cells
  {
    TimesMonotone(k + 1, pixels, cells);
    assert k * cells < pixels * cells;
    DivBelow(k * cells, cells, pixels);
  }

  lemma NextAtMost(cells: nat, pixels: nat, k: nat)
    requires cells > 0 && k < pixels
    ensures Start(cells, pixels, k + 1) <= cells
    ensures k + 1 == pixels ==> Start(cells, pixels, k + 1) == cells
  {
    TimesMonotone(k + 1, pixels, cells);
    assert (k + 1) * cells < (cells + 1) * pixels;
    DivBelow((k + 1) * cells, cells + 1, pixels);
    if k + 1 == pixels {
      DivAtLeast(pixels * cells, cells, pixels);
    }
  }

  /** Every cell is sampled by some pixel. */
  lemma {:induction false} EveryCellSampled(cells: nat, pixels: nat, cell: nat, from: nat) returns (k: nat)
    requires cell < cells && from < pixels && Start(cells, pixels, from) <= cell
    ensures from <= k < pixels && Start(cells, pixels, k) <= cell < End(cells, pixels, k)
    decreases pixels - from
  {
    WindowInside(cells, pixels, from);
    if from + 1 < pixels && Start(cells, pixels, from + 1) <= cell {
      k := EveryCellSampled(cells, pixels, cell, from + 1);
    } else {
      k := from;
    }
  }

  /** When the art is shrunk every window ends where the next begins, so no cell is sampled twice. */
  lemma ShrinkingPartitions(cells: nat, pixels: nat, k: nat)
    requires 0 < pixels <= cells
    ensures End(cells, pixels, k) == Start(cells, pixels, k + 1)
  {
    var a := k * cells;
    assert (k + 1) * cells == a + cells;
    assert a == a / pixels * pixels + a % pixels;
    DivAtLeast(a + cells, a / pixels + 1, pixels);
  }

  /** A window begins in the cell that its pixel's share of the art begins in, and shrinking samples are
      as even as whole cells allow: no window is wider than the share rounded up, none narrower than the
      share rounded down. */
  lemma WindowsAreEven(cells: nat, pixels: nat, k: nat)
    requires 0 < pixels
    ensures Start(cells, pixels, k) * pixels <= k * cells < Start(cells, pixels, k) * pixels + pixels
    ensures pixels <= cells ==>
              var width := End(cells, pixels, k) - Start(cells, pixels, k);
              (width - 1) * pixels < cells < (width + 1) * pixels
  {
    var a := Quotient(k * cells, pixels);
    var b := Quotient((k + 1) * cells, pixels);
    assert (k + 1) * cells == k * cells + cells;
    if pixels <= cells {
      ShrinkingPartitions(cells, pixels, k);
      assert (b - a - 1) * pixels == b * pixels - a * pixels - pixels;
      assert (b - a + 1) * pixels == b * pixels - a * pixels + pixels;
    }
  }

  // ---- The content box ----

  /** Seven eighths of the size, rounded half up, at least 1. */
  function ContentWidth(size: nat): nat {
    Max(1, (7 * size + 4) / 8)
  }

  /** The height that keeps the aspect, rounded half up, at least 1. */
  function ContentHeight(size: nat, art: Art): nat
    requires Rectangular(art)
  {
    Max(1, (2 * ContentWidth(size) * |art| + |art[0]|) / (2 * |art[0]|))
  }

  function Left(size: nat): int {
    (size - ContentWidth(size)) / 2
  }

  function Top(size: nat, art: Art): int
    requires Rectangular(art)
  {
    (size - ContentHeight(size, art)) / 2
  }

  lemma WidthFits(size: nat)
    requires size > 0
    ensures 0 <= Left(size) && Left(size) + ContentWidth(size) <= size
  {
  }

  /** Rounding half up gives the nearest whole number, or 1. */
  lemma Nearest(a: nat, b: nat, q: nat)
    requires b > 0 && q == (a + b) / (2 * b)
    ensures var h := Max(1, q);
            && (h > 1 ==> (2 * h - 1) * b <= a) && a < (2 * h + 1) * b
  {
    var m := 2 * b;
    var p := Quotient(a + b, m);
    TwiceTimes(q, b);
    assert q * m <= a + b < q * m + m;
    if q == 0 {
      assert a < b;
      TimesMonotone(1, 3, b);
    }
  }

  lemma TwiceTimes(q: nat, b: nat)
    ensures q * (2 * b) == 2 * q * b
    ensures (2 * q - 1) * b == 2 * q * b - b && (2 * q + 1) * b == 2 * q * b + b
  {
  }

  /** The content is as high as keeps the art's aspect, to the nearest whole number, or 1. */
  lemma AspectIsKept(size: nat, art: Art)
    requires Rectangular(art)
    ensures var h, scaled := ContentHeight(size, art), 2 * ContentWidth(size) * |art|;
            (h > 1 ==> (2 * h - 1) * |art[0]| <= scaled) && scaled < (2 * h + 1) * |art[0]|
  {
    var scaled, b := 2 * ContentWidth(size) * |art|, |art[0]|;
    Nearest(scaled, b, (scaled + b) / (2 * b));
  }

  /** The content is 0.875 of the size wide, to the nearest whole number, and centred: the margins on two
      opposite sides differ by one at most. */
  lemma BoxIsCentred(size: nat, art: Art)
    requires Rectangular(art) && size > 0
    ensures var w, h := ContentWidth(size), ContentHeight(size, art);
            && w as real - 0.5 <= 0.875 * size as real < w as real + 0.5
            && 0 <= (size - w - Left(size)) - Left(size) <= 1
            && 0 <= (size - h - Top(size, art)) - Top(size, art) <= 1
  {
    MarginsDifferByOne(size, ContentWidth(size), Left(size));
    MarginsDifferByOne(size, ContentHeight(size, art), Top(size, art));
    WidthIsNearest(size, ContentWidth(size));
  }

  lemma MarginsDifferByOne(size: nat, extent: nat, margin: int)
    requires margin == (size - extent) / 2
    ensures 0 <= (size - extent - margin) - margin <= 1
  {
  }

  lemma WidthIsNearest(size: nat, w: nat)
    requires size > 0 && w == ContentWidth(size)
    ensures w as real - 0.5 <= 0.875 * size as real < w as real + 0.5
  {
    assert 8 * w - 4 <= 7 * size < 8 * w + 4;
  }

  predicate RowOnCanvas(size: nat, art: Art, y: nat)
    requires Rectangular(art)
  {
    0 <= Top(size, art) + y < size
  }

  /** Every row of the content lies on the canvas exactly if the content is no taller than it. */
  lemma RowsFitIfNotTaller(size: nat, art: Art)
    requires Rectangular(art) && size > 0
    ensures (forall y | 0 <= y < ContentHeight(size, art) :: RowOnCanvas(size, art, y)) <==> ContentHeight(size, art) <= size
  {
    var ch := ContentHeight(size, art);
    if ch > size {
      assert !RowOnCanvas(size, art, ch - 1) || !RowOnCanvas(size, art, 0);
    }
  }

  /** Art of one column and two rows does not: at size 16 its content is 28 rows high. */
  lemma TallArtFallsOff()
    ensures var art := [[true], [true]];
            Rectangular(art) && ContentHeight(16, art) == 28 && !RowOnCanvas(16, art, 0) && !RowOnCanvas(16, art, 27)
  {
    var art := [[true], [true]];
    assert art[0] == [true] && art[1] == [true];
  }

  /** Art no taller than wide always fits. */
  lemma WideArtFits(size: nat, art: Art)
    requires Rectangular(art) && size > 0 && |art| <= |art[0]|
    ensures ContentHeight(size, art) <= size
  {
    var cw, ah, aw := ContentWidth(size), |art|, |art[0]|;
    WidthFits(size);
    TimesMonotone(ah, aw, 2 * cw);
    assert 2 * cw * ah <= 2 * cw * aw;
    Expand(cw, aw);
    DivBelow(2 * cw * ah + aw, cw + 1, 2 * aw);
  }

  lemma Expand(cw: nat, aw: nat)
    ensures (cw + 1) * (2 * aw) == 2 * cw * aw + 2 * aw
  {
  }

  // ---- Coverage ----

  function DarkInRow(row: seq<bool>, from: nat, to: nat): nat
    requires from <= to <= |row|
  {
    if from == to then 0 else DarkInRow(row, from, to - 1) + if row[to - 1] then 1 else 0
  }

  function DarkIn(art: Art, top: nat, bottom: nat, left: nat, right: nat): nat
    requires Rectangular(art) && top <= bottom <= |art| && left <= right <= |art[0]|
  {
    if top == bottom then 0 else DarkIn(art, top, bottom - 1, left, right) + DarkInRow(art[bottom - 1], left, right)
  }

  /** At least 18 of 100 sampled cells are glyph. */
  predicate Covered(art: Art, top: nat, bottom: nat, left: nat, right: nat)
    requires Rectangular(art) && top <= bottom <= |art| && left <= right <= |art[0]|
  {
    100 * DarkIn(art, top, bottom, left, right) >= 18 * ((bottom - top) * (right - left))
  }

  /** The glyph cells of a window. */
  function GlyphsIn(art: Art, top: nat, bottom: nat, left: nat, right: nat): set<(nat, nat)>
    requires Rectangular(art) && top <= bottom <= |art| && left <= right <= |art[0]|
  {
    set y, x | top <= y < bottom && left <= x < right && art[y][x] :: (y, x)
  }

  lemma {:induction false} RowCounts(art: Art, y: nat, left: nat, right: nat)
    requires Rectangular(art) && y < |art| && left <= right <= |art[0]|
    ensures DarkInRow(art[y], left, right) == |GlyphsIn(art, y, y + 1, left, right)|
  {
    var glyphs := GlyphsIn(art, y, y + 1, left, right);
    if left == right {
      assert glyphs == {};
    } else {
      RowCounts(art, y, left, right - 1);
      assert glyphs == GlyphsIn(art, y, y + 1, left, right - 1) + if art[y][right - 1] then {(y, right - 1)} else {};
    }
  }

  lemma {:induction false} WindowCounts(art: Art, top: nat, bottom: nat, left: nat, right: nat)
    requires Rectangular(art) && top <= bottom <= |art| && left <= right <= |art[0]|
    ensures DarkIn(art, top, bottom, left, right) == |GlyphsIn(art, top, bottom, left, right)|
  {
    var glyphs := GlyphsIn(art, top, bottom, left, right);
    if top == bottom {
      assert glyphs == {};
    } else {
      WindowCounts(art, top, bottom - 1, left, right);
      RowCounts(art, bottom - 1, left, right);
      var before, row := GlyphsIn(art, top, bottom - 1, left, right), GlyphsIn(art, bottom - 1, bottom, left, right);
      assert glyphs == before + row && before !! row;
    }
  }

  /** A window is covered exactly if at least the share 0.18 of its cells is glyph. */
  lemma CoveredIsShare(art: Art, top: nat, bottom: nat, left: nat, right: nat)
    requires Rectangular(art) && top <= bottom <= |art| && left <= right <= |art[0]|
    ensures Covered(art, top, bottom, left, right)
            <==> |GlyphsIn(art, top, bottom, left, right)| as real >= 0.18 * ((bottom - top) * (right - left)) as real
  {
    WindowCounts(art, top, bottom, left, right);
    ShareAtLeast(DarkIn(art, top, bottom, left, right), (bottom - top) * (right - left));
  }

  lemma ShareAtLeast(dark: nat, cells: nat)
    ensures 100 * dark >= 18 * cells <==> dark as real >= 0.18 * cells as real
  {
    assert 100.0 * dark as real == (100 * dark) as real && 18.0 * cells as real == (18 * cells) as real;
  }

  /** The content pixel in row `y`, column `x` is lit. */
  predicate Lit(art: Art, size: nat, y: nat, x: nat)
    requires Rectangular(art) && y < ContentHeight(size, art) && x < ContentWidth(size)
  {
    var ch, cw := ContentHeight(size, art), ContentWidth(size);
    WindowInside(|art|, ch, y);
    WindowInside(|art[0]|, cw, x);
    Covered(art, Start(|art|, ch, y), End(|art|, ch, y), Start(|art[0]|, cw, x), End(|art[0]|, cw, x))
  }

  method CountDark(art: Art, top: nat, bottom: nat, left: nat, right: nat) returns (dark: nat, total: nat)
    requires Rectangular(art) && top <= bottom <= |art| && left <= right <= |art[0]|
    ensures dark == DarkIn(art, top, bottom, left, right) && total == (bottom - top) * (right - left)
  {
    dark, total := 0, 0;
    for ay := top to bottom
      invariant dark == DarkIn(art, top, ay, left, right) && total == (ay - top) * (right - left)
    {
      for ax := left to right
        invariant dark == DarkIn(art, top, ay, left, right) + DarkInRow(art[ay], left, ax)
        invariant total == (ay - top) * (right - left) + (ax - left)
      {
        total := total + 1;
        if art[ay][ax] {
          dark := dark + 1;
        }
      }
      assert (ay + 1 - top) * (right - left) == (ay - top) * (right - left) + (right - left);
    }
  }

  // ---- The canvas ----

  datatype Pixel = Clear | Orange

  /** The canvas cell at position `i` shows a lit content pixel. */
  predicate Shows(art: Art, size: nat, i: nat)
    requires Rectangular(art) && size > 0
  {
    var y, x := i / size - Top(size, art), i % size - Left(size);
    0 <= y < ContentHeight(size, art) && 0 <= x < ContentWidth(size) && Lit(art, size, y, x)
  }

  /** The canvas cell at position `i` belongs to a content pixel before row `y`, column `x`. */
  predicate Drawn(art: Art, size: nat, i: nat, y: nat, x: nat)
    requires Rectangular(art) && size > 0
  {
    var row, column := i / size - Top(size, art), i % size - Left(size);
    row < y || (row == y && column < x)
  }

  /** The canvas cell is right once everything before row `y`, column `x` is drawn. */
  predicate Right(p: Pixel, art: Art, size: nat, i: nat, y: nat, x: nat)
    requires Rectangular(art) && size > 0
  {
    p == if Drawn(art, size, i, y, x) && Shows(art, size, i) then Orange else Clear
  }

  lemma CellAt(row: nat, column: nat, size: nat)
    requires column < size
    ensures (row * size + column) / size == row && (row * size + column) % size == column
  {
    var o := row * size + column;
    DivAtLeast(o, row, size);
    assert o < (row + 1) * size;
    DivBelow(o, row + 1, size);
  }

  /** Drawing the content pixel in row `y`, column `x` concerns the canvas cell at its position only. */
  lemma DrawnNext(art: Art, size: nat, i: nat, y: nat, x: nat, o: int)
    requires Rectangular(art) && size > 0 && y < ContentHeight(size, art) && x < ContentWidth(size)
    requires o == Offset(art, size, y, x)
    ensures Drawn(art, size, i, y, x + 1) <==> Drawn(art, size, i, y, x) || i == o
    ensures i == o ==> i / size - Top(size, art) == y && i % size - Left(size) == x
  {
    WidthFits(size);
    var row, column := Top(size, art) + y, Left(size) + x;
    if i == o {
      if row < 0 {
        TimesMonotone(row, -1, size);
      }
      CellAt(row, column, size);
    }
    Recompose(i, size);
  }

  lemma RightNext(p: Pixel, art: Art, size: nat, i: nat, y: nat, x: nat, o: int, lit: bool)
    requires Rectangular(art) && size > 0 && y < ContentHeight(size, art) && x < ContentWidth(size)
    requires o == Offset(art, size, y, x) && lit == Lit(art, size, y, x)
    requires Right(p, art, size, i, y, x)
    ensures Right(if lit && i == o then Orange else p, art, size, i, y, x + 1)
  {
    DrawnNext(art, size, i, y, x, o);
  }

  lemma Recompose(i: nat, size: nat)
    requires size > 0
    ensures i == i / size * size + i % size
  {
  }

  /** A row is done when its last content pixel is. */
  lemma RowDone(art: Art, size: nat, i: nat, y: nat)
    requires Rectangular(art) && size > 0
    ensures Shows(art, size, i) ==> (Drawn(art, size, i, y, ContentWidth(size)) <==> Drawn(art, size, i, y + 1, 0))
  {
  }

  /** The canvas shows exactly the lit content pixels, each at its place. A write that falls off the
      canvas is ignored, as a typed array ignores it. */
  method Render(art: Art, size: nat) returns (px: array<Pixel>)
    requires Rectangular(art) && size > 0
    ensures fresh(px) && px.Length == size * size
    ensures forall i | 0 <= i < px.Length :: px[i] == if Shows(art, size, i) then Orange else Clear
  {
    px := new Pixel[size * size](_ => Clear);
    var ch := ContentHeight(size, art);
    NothingDrawn(px[..], art, size);
    for y := 0 to ch
      invariant AllRight(px[..], art, size, y, 0)
    {
      RenderRow(art, size, px, y);
      NextRow(px[..], art, size, y);
    }
    AllDrawn(px[..], art, size);
  }

  method RenderRow(art: Art, size: nat, px: array<Pixel>, y: nat)
    requires Rectangular(art) && size > 0 && px.Length == size * size && y < ContentHeight(size, art)
    requires AllRight(px[..], art, size, y, 0)
    modifies px
    ensures AllRight(px[..], art, size, y, ContentWidth(size))
  {
    var cw := ContentWidth(size);
    for x := 0 to cw
      invariant AllRight(px[..], art, size, y, x)
    {
      var lit := IsLit(art, size, y, x);
      var o := Offset(art, size, y, x);
      RowNext(px[..], art, size, y, x, o, lit);
      if lit && 0 <= o < px.Length {
        px[o] := Orange;
      }
    }
  }

  /** The canvas position of a content pixel. */
  function Offset(art: Art, size: nat, y: nat, x: nat): int
    requires Rectangular(art)
  {
    (Top(size, art) + y) * size + (Left(size) + x)
  }

  predicate AllRight(px: seq<Pixel>, art: Art, size: nat, y: nat, x: nat)
    requires Rectangular(art) && size > 0
  {
    forall i | 0 <= i < |px| :: Right(px[i], art, size, i, y, x)
  }

  function Painted(px: seq<Pixel>, o: int, lit: bool): seq<Pixel> {
    if lit && 0 <= o < |px| then px[o := Orange] else px
  }

  lemma RowNext(px: seq<Pixel>, art: Art, size: nat, y: nat, x: nat, o: int, lit: bool)
    requires Rectangular(art) && size > 0 && y < ContentHeight(size, art) && x < ContentWidth(size)
    requires o == Offset(art, size, y, x) && lit == Lit(art, size, y, x) && AllRight(px, art, size, y, x)
    ensures AllRight(Painted(px, o, lit), art, size, y, x + 1)
  {
    forall i | 0 <= i < |px| ensures Right(Painted(px, o, lit)[i], art, size, i, y, x + 1) {
      RightNext(px[i], art, size, i, y, x, o, lit);
    }
  }

  lemma NothingDrawn(px: seq<Pixel>, art: Art, size: nat)
    requires Rectangular(art) && size > 0 && forall i | 0 <= i < |px| :: px[i] == Clear
    ensures AllRight(px, art, size, 0, 0)
  {
  }

  lemma NextRow(px: seq<Pixel>, art: Art, size: nat, y: nat)
    requires Rectangular(art) && size > 0 && AllRight(px, art, size, y, ContentWidth(size))
    ensures AllRight(px, art, size, y + 1, 0)
  {
    forall i | 0 <= i < |px| ensures Right(px[i], art, size, i, y + 1, 0) {
      RowDone(art, size, i, y);
    }
  }

  lemma AllDrawn(px: seq<Pixel>, art: Art, size: nat)
    requires Rectangular(art) && size > 0 && AllRight(px, art, size, ContentHeight(size, art), 0)
    ensures forall i | 0 <= i < |px| :: px[i] == if Shows(art, size, i) then Orange else Clear
  {
  }

  method IsLit(art: Art, size: nat, y: nat, x: nat) returns (lit: bool)
    requires Rectangular(art) && y < ContentHeight(size, art) && x < ContentWidth(size)
    ensures lit == Lit(art, size, y, x)
  {
    var ch, cw := ContentHeight(size, art), ContentWidth(size);
    WindowInside(|art|, ch, y);
    WindowInside(|art[0]|, cw, x);
    var dark, total := CountDark(art, Start(|art|, ch, y), End(|art|, ch, y), Start(|art[0]|, cw, x), End(|art[0]|, cw, x));
    lit := 100 * dark >= 18 * total;
  }
}
