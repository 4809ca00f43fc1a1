/** The photo-sheet layout engine of the print preview: the canvas size, the
    placement plan (columns, the auto-scale search and shrink, the alignment
    origin) and the row-major placement of one cell per photo, each with its
    cover-fit source rectangle and optional background fill. Lengths in pixels
    unless a name says millimetres. */
module PrintPreview {
  import opened Basics
  import opened Types

  /** Pixels per millimetre at 300 DPI. */
  const PxPerMm: real := 11.81

  /** A length in millimetres converted to pixels; the sign is kept. */
  function Px(mm: real): (r: real)
    ensures mm > 0.0 ==> r > 0.0
    ensures mm >= 0.0 ==> r >= 0.0
    ensures mm == 0.0 ==> r == 0.0
  {
    mm * PxPerMm
  }

  /** The canvas in whole pixels, (width, height): each side of the oriented
      page converted to pixels and rounded down. */
  function CanvasSize(paper: PaperSize, orientation: Orientation): (r: (int, int))
    ensures var mm := PageSizeMm(paper, orientation);
            r.0 as real <= Px(mm.0) < r.0 as real + 1.0 && r.1 as real <= Px(mm.1) < r.1 as real + 1.0
    ensures r.0 >= 1199 && r.1 >= 1199
  {
    var mm := PageSizeMm(paper, orientation);
    (Floor(Px(mm.0)), Floor(Px(mm.1)))
  }

  lemma CanvasSizeSwapsWithOrientation(paper: PaperSize)
    ensures CanvasSize(paper, Landscape) == (CanvasSize(paper, Portrait).1, CanvasSize(paper, Portrait).0)
  {
  }

  lemma FourBySixLandscapeCanvas()
    ensures CanvasSize(Photo4x6, Landscape) == (1799, 1199)
  {
  }

  // ---------------------------------------------------------------------------
  // Geometry of a block of cells

  /** The length taken by `k` cells of side `cell` with `gap` between
      neighbours: `k * cell + (k - 1) * gap`. */
  function Span(k: int, cell: real, gap: real): (r: real)
    ensures k >= 1 && cell >= 0.0 && gap >= 0.0 ==> r >= cell
  {
    var kr := k as real;
    SpanTerms(kr, cell, gap);
    kr * cell + (kr - 1.0) * gap
  }

  lemma SpanTerms(kr: real, cell: real, gap: real)
    ensures kr >= 1.0 && cell >= 0.0 && gap >= 0.0 ==> kr * cell >= cell && (kr - 1.0) * gap >= 0.0
  {
    if kr >= 1.0 && cell >= 0.0 && gap >= 0.0 {
      MulLeft(1.0, kr, cell);
      MulLeft(0.0, kr - 1.0, gap);
    }
  }

  lemma SpanMonotone(k1: int, k2: int, cell: real, gap: real)
    requires k1 <= k2 && cell >= 0.0 && gap >= 0.0
    ensures Span(k1, cell, gap) <= Span(k2, cell, gap)
  {
    MulLeft(k1 as real, k2 as real, cell);
    MulLeft(k1 as real - 1.0, k2 as real - 1.0, gap);
  }

  /** A span is `k` strides of `cell + gap`, less one gap. */
  lemma SpanAsStrides(k: int, cell: real, gap: real)
    ensures Span(k, cell, gap) == k as real * (cell + gap) - gap
  {
  }

  /** The naive column count: the most cells of width `photoW` that fit, gaps
      between them, in `availW`. */
  function NaiveCols(availW: real, gapPx: real, photoW: real): (r: int)
    requires photoW > 0.0 && gapPx >= 0.0
    ensures Span(r, photoW, gapPx) <= availW < Span(r + 1, photoW, gapPx)
  {
    var stride := photoW + gapPx;
    var r := Floor((availW + gapPx) / stride);
    DivBracket(availW + gapPx, stride, r as real, (r + 1) as real);
    SpanAsStrides(r, photoW, gapPx);
    SpanAsStrides(r + 1, photoW, gapPx);
    r
  }

  /** The column count used when auto-scale is off: as the naive count but
      with one pixel of slack, and at least one. */
  function OffScaleCols(availW: real, gapPx: real, photoW: real): (r: int)
    requires photoW > 0.0 && gapPx >= 0.0
    ensures r >= 1
    ensures r == 1 || Span(r, photoW, gapPx) <= availW + 1.0
    ensures availW + 1.0 < Span(r + 1, photoW, gapPx)
  {
    var stride := photoW + gapPx;
    var c := Floor((availW + gapPx + 1.0) / stride);
    DivBracket(availW + gapPx + 1.0, stride, c as real, (c + 1) as real);
    SpanAsStrides(c, photoW, gapPx);
    SpanAsStrides(c + 1, photoW, gapPx);
    if c < 1 then
      assert Span(2, photoW, gapPx) >= Span(c + 1, photoW, gapPx) by {
        SpanMonotone(c + 1, 2, photoW, gapPx);
      }
      1
    else c
  }

  /** `Math.ceil(n / c)`: the rows `n` photos need in `c` columns. */
  function RowsFor(n: int, c: int): (r: int)
    requires c >= 1
    ensures (r - 1) * c < n <= r * c
  {
    var r := Ceil(n as real / c as real);
    DivBracketUpper(n as real, c as real, (r - 1) as real, r as real);
    ToRealMul(r - 1, c);
    ToRealMul(r, c);
    r
  }

  lemma RowsForOneColumn(n: int)
    ensures RowsFor(n, 1) == n
  {
  }

  /** For a positive photo count, more columns never need more rows. */
  lemma RowsAntitone(n: int, c1: int, c2: int)
    requires n >= 1 && 1 <= c1 <= c2
    ensures RowsFor(n, c2) <= RowsFor(n, c1)
  {
    var r1, r2 := RowsFor(n, c1), RowsFor(n, c2);
    {
      assert r1 >= 1 by {
        if r1 < 1 { MulLeftInt(r1, 0, c1); }
      }
      MulRightInt(c1, c2, r1);
      MulCancelInt(r2 - 1, r1, c2);
    }
  }

  // ---------------------------------------------------------------------------
  // The auto-scale search

  /** The uniform scale at which `n` cells laid out in `c` columns fit both
      available lengths. */
  function ScaleFor(n: int, c: int, photoW: real, photoH: real, gapPx: real,
                    availW: real, availH: real): real
    requires 1 <= c <= n
    requires photoW > 0.0 && photoH > 0.0 && gapPx >= 0.0
  {
    Min(availW / Span(c, photoW, gapPx), availH / Span(RowsFor(n, c), photoH, gapPx))
  }

  /** `bestCols` is the smallest of the column counts 1..m whose scale for `n`
      photos is the largest, when that largest scale is positive, and
      `bestScale` is that scale; when no scale is positive they are 0 and 1. */
  predicate IsBestAmong(bestScale: real, bestCols: int, m: int, n: int,
                        photoW: real, photoH: real, gapPx: real, availW: real, availH: real)
    requires m <= MaxInt(n, 0)
    requires photoW > 0.0 && photoH > 0.0 && gapPx >= 0.0
  {
    && bestScale >= 0.0
    && (bestScale == 0.0 ==> bestCols == 1)
    && (bestScale > 0.0 ==>
          1 <= bestCols <= m && ScaleFor(n, bestCols, photoW, photoH, gapPx, availW, availH) == bestScale)
    && (forall c :: 1 <= c <= m ==> ScaleFor(n, c, photoW, photoH, gapPx, availW, availH) <= bestScale)
    && (forall c :: 1 <= c <= m && c < bestCols ==> ScaleFor(n, c, photoW, photoH, gapPx, availW, availH) < bestScale)
  }

  /** One step of the search: candidate `m + 1` replaces the best so far
      exactly when its scale is strictly larger. */
  lemma BestAmongStep(bestScale: real, bestCols: int, m: int, n: int,
                      photoW: real, photoH: real, gapPx: real, availW: real, availH: real)
    requires 0 <= m < n
    requires photoW > 0.0 && photoH > 0.0 && gapPx >= 0.0
    requires IsBestAmong(bestScale, bestCols, m, n, photoW, photoH, gapPx, availW, availH)
    ensures var s := ScaleFor(n, m + 1, photoW, photoH, gapPx, availW, availH);
            if s > bestScale then IsBestAmong(s, m + 1, m + 1, n, photoW, photoH, gapPx, availW, availH)
            else IsBestAmong(bestScale, bestCols, m + 1, n, photoW, photoH, gapPx, availW, availH)
  {
  }

  /** The outcome of the search among column counts 1..m: starting from a
      scale of 0 at one column, each count in turn replaces the best so far
      when its scale is strictly larger. */
  function BestUpTo(m: int, n: int, photoW: real, photoH: real, gapPx: real,
                    availW: real, availH: real): Search
    requires 0 <= m <= MaxInt(n, 0)
    requires photoW > 0.0 && photoH > 0.0 && gapPx >= 0.0
    decreases m
  {
    if m == 0 then Search(0.0, 1)
    else
      var prev := BestUpTo(m - 1, n, photoW, photoH, gapPx, availW, availH);
      var s := ScaleFor(n, m, photoW, photoH, gapPx, availW, availH);
      if s > prev.bestScale then Search(s, m) else prev
  }

  /** The search's outcome over every column count 1..n. */
  function BestColumns(n: int, photoW: real, photoH: real, gapPx: real,
                       availW: real, availH: real): Search
    requires photoW > 0.0 && photoH > 0.0 && gapPx >= 0.0
  {
    BestUpTo(MaxInt(n, 0), n, photoW, photoH, gapPx, availW, availH)
  }

  /** The search keeps the earliest column count of largest scale. */
  lemma {:induction false} BestUpToIsBest(m: int, n: int, photoW: real, photoH: real, gapPx: real,
                                          availW: real, availH: real)
    requires 0 <= m <= MaxInt(n, 0)
    requires photoW > 0.0 && photoH > 0.0 && gapPx >= 0.0
    ensures var r := BestUpTo(m, n, photoW, photoH, gapPx, availW, availH);
            IsBestAmong(r.bestScale, r.bestCols, m, n, photoW, photoH, gapPx, availW, availH)
    decreases m
  {
    if m > 0 {
      var prev := BestUpTo(m - 1, n, photoW, photoH, gapPx, availW, availH);
      BestUpToIsBest(m - 1, n, photoW, photoH, gapPx, availW, availH);
      BestAmongStep(prev.bestScale, prev.bestCols, m - 1, n, photoW, photoH, gapPx, availW, availH);
    }
  }

  /** The search's outcome over 1..n is the earliest column count of largest
      scale, with scale 0 and one column when no scale is positive. */
  lemma BestColumnsIsBest(n: int, photoW: real, photoH: real, gapPx: real, availW: real, availH: real)
    requires photoW > 0.0 && photoH > 0.0 && gapPx >= 0.0
    ensures var r := BestColumns(n, photoW, photoH, gapPx, availW, availH);
            IsBestAmong(r.bestScale, r.bestCols, MaxInt(n, 0), n, photoW, photoH, gapPx, availW, availH)
  {
    BestUpToIsBest(MaxInt(n, 0), n, photoW, photoH, gapPx, availW, availH);
  }

  /** The exhaustive search over column counts 1..n, keeping a candidate only
      when its scale is strictly larger than the best so far. */
  method SearchBestColumns(n: int, photoW: real, photoH: real, gapPx: real, availW: real, availH: real)
    returns (bestScale: real, bestCols: int)
    requires photoW > 0.0 && photoH > 0.0 && gapPx >= 0.0
    ensures Search(bestScale, bestCols) == BestColumns(n, photoW, photoH, gapPx, availW, availH)
  {
    bestScale := 0.0;
    bestCols := 1;
    var c := 1;
    while c <= n
      invariant 1 <= c <= MaxInt(n, 0) + 1
      invariant Search(bestScale, bestCols) == BestUpTo(c - 1, n, photoW, photoH, gapPx, availW, availH)
    {
      var r := RowsFor(n, c);
      var reqW := Span(c, photoW, gapPx);
      var reqH := Span(r, photoH, gapPx);
      var scaleX := availW / reqW;
      var scaleY := availH / reqH;
      var scale := Min(scaleX, scaleY);
      if scale > bestScale {
        bestScale := scale;
        bestCols := c;
      }
      c := c + 1;
    }
  }

  /** The trigger of the search: the naive grid is taller than the available
      height, or holds fewer than `n` cells. */
  predicate NeedsSearch(n: int, cols: int, photoH: real, gapPx: real, availH: real)
  {
    var rows := RowsFor(n, MaxInt(1, cols));
    Span(rows, photoH, gapPx) > availH || cols * rows < n
  }

  /** Whenever the search runs it finds a scale below 1: a column count the
      naive grid already fits in width needs at least the naive grid's rows,
      which were too tall, and any larger column count is too wide. So the
      search always shrinks the photos. */
  lemma SearchAlwaysShrinks(n: int, photoW: real, photoH: real, gapPx: real, availW: real, availH: real)
    requires photoW > 0.0 && photoH > 0.0 && gapPx >= 0.0
    requires NeedsSearch(n, NaiveCols(availW, gapPx, photoW), photoH, gapPx, availH)
    ensures BestColumns(n, photoW, photoH, gapPx, availW, availH).bestScale < 1.0
  {
    var best := BestColumns(n, photoW, photoH, gapPx, availW, availH);
    var bestScale, bestCols := best.bestScale, best.bestCols;
    BestColumnsIsBest(n, photoW, photoH, gapPx, availW, availH);
    if bestScale > 0.0 {
      var c, cols := bestCols, NaiveCols(availW, gapPx, photoW);
      var sw := Span(c, photoW, gapPx);
      var sh := Span(RowsFor(n, c), photoH, gapPx);
      if c > cols {
        SpanMonotone(cols + 1, c, photoW, gapPx);
        RatioBelowOne(availW, sw);
      } else {
        var rows := RowsFor(n, cols);
        assert cols * rows >= n by {
          MulRightInt(rows - 1, rows, cols);
        }
        RowsAntitone(n, c, cols);
        SpanMonotone(rows, RowsFor(n, c), photoH, gapPx);
        RatioBelowOne(availH, sh);
      }
    }
  }

  /** With a positive photo count, a naive column count below one always
      triggers the search. */
  lemma NoColumnsTriggersSearch(n: int, cols: int, photoH: real, gapPx: real, availH: real)
    requires n >= 1 && cols < 1
    ensures NeedsSearch(n, cols, photoH, gapPx, availH)
  {
    RowsForOneColumn(n);
    MulLeftInt(cols, 0, n);
  }

  // ---------------------------------------------------------------------------
  // The plan

  datatype Search = Search(bestScale: real, bestCols: int)

  /** What the onload body derives before it places cells: the margin and gap
      in pixels, the (possibly shrunk) photo size, the column count, the
      search result when the search ran, and the origin of the block. */
  datatype Plan = Plan(
    marginPx: real,
    gapPx: real,
    photoW: real,
    photoH: real,
    cols: int,
    search: Option<Search>,
    startX: real,
    startY: real)

  /** The length left between the two margins of a page side. */
  function Avail(pagePx: int, marginPx: real): real
  {
    pagePx as real - marginPx * 2.0
  }

  /** `Math.ceil(n / cols)` for the block height. A zero column count only
      arises without photos to place; the source then divides by zero, and
      the value is never used. */
  function FinalRows(n: int, cols: int): int
  {
    if cols >= 1 then RowsFor(n, cols)
    else if cols == 0 then 0
    else Ceil(n as real / cols as real)
  }

  function BlockWidth(plan: Plan): real
  {
    Span(plan.cols, plan.photoW, plan.gapPx)
  }

  function BlockHeight(plan: Plan, n: int): real
  {
    Span(FinalRows(n, plan.cols), plan.photoH, plan.gapPx)
  }

  /** The origin of the block along one page side: the margin for top-left;
      for center, the offset that centres the block, raised to the margin. */
  function AlignedStart(alignment: Alignment, pageLen: real, blockLen: real, marginPx: real): (r: real)
    ensures r >= marginPx
    ensures alignment == TopLeft ==> r == marginPx
    ensures alignment == Center && blockLen <= pageLen - 2.0 * marginPx ==> r == pageLen - (r + blockLen)
    ensures alignment == Center && blockLen > pageLen - 2.0 * marginPx ==> r == marginPx
  {
    match alignment
    case TopLeft => marginPx
    case Center => Max(marginPx, (pageLen - blockLen) / 2.0)
  }

  /** The photo size and column count the grid is drawn with, and the
      search result when the search ran. */
  datatype Scaling = Scaling(photoW: real, photoH: real, cols: int, search: Option<Search>)

  /** The shrink after the search: the photos (not the gap) scaled to 99% of
      the best scale and the search's column count, when that scale is below
      1; otherwise the grid as it was. */
  function Shrink(photoW: real, photoH: real, cols: int, best: Search): Scaling
  {
    if best.bestScale < 1.0 then
      var scaleFactor := best.bestScale * 0.99;
      Scaling(photoW * scaleFactor, photoH * scaleFactor, best.bestCols, Some(best))
    else Scaling(photoW, photoH, cols, Some(best))
  }

  /** The auto-scale branch: the naive grid when it holds every photo within
      the available height, otherwise the search and the shrink. */
  function AutoScaling(n: int, photoW: real, photoH: real, gapPx: real, availW: real, availH: real): Scaling
    requires photoW > 0.0 && photoH > 0.0 && gapPx >= 0.0
  {
    var cols := NaiveCols(availW, gapPx, photoW);
    if NeedsSearch(n, cols, photoH, gapPx, availH) then
      Shrink(photoW, photoH, cols, BestColumns(n, photoW, photoH, gapPx, availW, availH))
    else Scaling(photoW, photoH, cols, None)
  }

  /** The scaling step: auto-scale as above, or else the nominal photo size
      with the column count that allows a pixel of slack. */
  function ScalingFor(n: int, autoScale: bool, photoW: real, photoH: real, gapPx: real,
                      availW: real, availH: real): Scaling
    requires photoW > 0.0 && photoH > 0.0 && gapPx >= 0.0
  {
    if autoScale then AutoScaling(n, photoW, photoH, gapPx, availW, availH)
    else Scaling(photoW, photoH, OffScaleCols(availW, gapPx, photoW), None)
  }

  /** The plan of the onload body for a configuration on a canvas of the
      given size. */
  function PlanFor(cfg: GridConfig, widthPx: int, heightPx: int): Plan
    requires ValidConfig(cfg)
  {
    var marginPx, gapPx := Px(cfg.margin), Px(cfg.gap);
    var sc := ScalingFor(cfg.photoCount, cfg.autoScale, Px(cfg.photoWidth), Px(cfg.photoHeight), gapPx,
                         Avail(widthPx, marginPx), Avail(heightPx, marginPx));
    var blockW := Span(sc.cols, sc.photoW, gapPx);
    var blockH := Span(FinalRows(cfg.photoCount, sc.cols), sc.photoH, gapPx);
    Plan(marginPx, gapPx, sc.photoW, sc.photoH, sc.cols, sc.search,
         AlignedStart(cfg.alignment, widthPx as real, blockW, marginPx),
         AlignedStart(cfg.alignment, heightPx as real, blockH, marginPx))
  }

  /** The search and the shrink of the auto-scale branch, step by step. */
  method SearchAndShrink(n: int, photoW0: real, photoH0: real, cols0: int, gapPx: real,
                         availW: real, availH: real) returns (sc: Scaling)
    requires photoW0 > 0.0 && photoH0 > 0.0 && gapPx >= 0.0
    ensures sc == Shrink(photoW0, photoH0, cols0, BestColumns(n, photoW0, photoH0, gapPx, availW, availH))
  {
    var photoW, photoH, cols := photoW0, photoH0, cols0;
    var bestScale, bestCols := SearchBestColumns(n, photoW, photoH, gapPx, availW, availH);
    if bestScale < 1.0 {
      var scaleFactor := bestScale * 0.99;
      photoW := photoW * scaleFactor;
      photoH := photoH * scaleFactor;
      cols := bestCols;
    }
    sc := Scaling(photoW, photoH, cols, Some(Search(bestScale, bestCols)));
  }

  /** The auto-scale branch of the onload body, step by step: the naive grid,
      and the search with the shrink when the naive grid does not do. */
  method AutoScale(n: int, photoW: real, photoH: real, gapPx: real, availW: real, availH: real)
    returns (sc: Scaling)
    requires photoW > 0.0 && photoH > 0.0 && gapPx >= 0.0
    ensures sc == AutoScaling(n, photoW, photoH, gapPx, availW, availH)
  {
    var cols := NaiveCols(availW, gapPx, photoW);
    var rows := RowsFor(n, MaxInt(1, cols));
    var totalH := Span(rows, photoH, gapPx);
    if totalH > availH || cols * rows < n {
      sc := SearchAndShrink(n, photoW, photoH, cols, gapPx, availW, availH);
    } else {
      sc := Scaling(photoW, photoH, cols, None);
    }
  }

  /** The onload body up to the placement loop, step by step. */
  method ComputePlan(cfg: GridConfig, widthPx: int, heightPx: int) returns (plan: Plan)
    requires ValidConfig(cfg)
    ensures plan == PlanFor(cfg, widthPx, heightPx)
  {
    var n := cfg.photoCount;
    var marginPx := Px(cfg.margin);
    var gapPx := Px(cfg.gap);
    var photoW := Px(cfg.photoWidth);
    var photoH := Px(cfg.photoHeight);

    var availW := Avail(widthPx, marginPx);
    var availH := Avail(heightPx, marginPx);

    var cols: int;
    var search: Option<Search> := None;
    if cfg.autoScale {
      var sc := AutoScale(n, photoW, photoH, gapPx, availW, availH);
      photoW, photoH, cols, search := sc.photoW, sc.photoH, sc.cols, sc.search;
    } else {
      cols := OffScaleCols(availW, gapPx, photoW);
    }

    var totalBlockWidth := Span(cols, photoW, gapPx);
    var finalRows := FinalRows(n, cols);
    var totalBlockHeight := Span(finalRows, photoH, gapPx);

    var startX := marginPx;
    var startY := marginPx;
    if cfg.alignment == Center {
      startX := (widthPx as real - totalBlockWidth) / 2.0;
      startY := (heightPx as real - totalBlockHeight) / 2.0;
      startX := Max(marginPx, startX);
      startY := Max(marginPx, startY);
    }

    plan := Plan(marginPx, gapPx, photoW, photoH, cols, search, startX, startY);
  }

  // ---------------------------------------------------------------------------
  // Drawing one cell

  /** The decoded image's natural size in pixels. */
  datatype ImageSize = ImageSize(width: real, height: real)

  /** The part of the image copied into a cell. */
  datatype SourceRect = SourceRect(sx: real, sy: real, sWidth: real, sHeight: real)

  /** A rectangle filled with the background colour, in whole pixels. */
  datatype FillRect = FillRect(x: int, y: int, width: int, height: int, color: string)

  /** One drawn cell: its rectangle (also the clip, and the rectangle stroked
      as the cut line), the background fill behind it if any, and the part of
      the image drawn into it, absent when the browser draws nothing. */
  datatype Cell = Cell(x: real, y: real, width: real, height: real,
                       fill: Option<FillRect>, source: Option<SourceRect>)

  /** The wider-image branch: the full height, a centred band of the width. */
  lemma WideImageCrop(iw: real, ih: real, cw: real, ch: real)
    requires iw > 0.0 && ih > 0.0 && cw > 0.0 && ch > 0.0
    requires iw / ih > cw / ch
    ensures var sw := ih * (cw / ch);
            0.0 < sw < iw && sw * ch == ih * cw
  {
    var t := cw / ch;
    assert t * ch == cw;
    DivBracketUpper(iw, ih, t, iw / ih);
    MulLeftStrict(0.0, t, ih);
    assert ih * t * ch == ih * (t * ch);
  }

  /** The taller-image branch: the full width, a centred band of the height. */
  lemma TallImageCrop(iw: real, ih: real, cw: real, ch: real)
    requires iw > 0.0 && ih > 0.0 && cw > 0.0 && ch > 0.0
    requires iw / ih <= cw / ch
    ensures var sh := iw / (cw / ch);
            0.0 < sh <= ih && iw * ch == sh * cw
  {
    var t := cw / ch;
    assert t * ch == cw;
    assert t > 0.0;
    var sh := iw / t;
    assert sh * t == iw;
    RatioAtMost(iw, ih, iw / ih);
    assert iw <= t * ih;
  }

  /** The source rectangle of the crop-to-fill drawing: the largest centred
      part of the image with the cell's aspect ratio. `None` when the cell or
      the image has no area, where the ratio is not a number and the browser
      draws nothing. */
  function CoverFit(img: ImageSize, cellW: real, cellH: real): (r: Option<SourceRect>)
    ensures r.None? <==> cellW <= 0.0 || cellH <= 0.0 || img.width <= 0.0 || img.height <= 0.0
    ensures r.Some? ==>
              && 0.0 < r.value.sWidth <= img.width && 0.0 < r.value.sHeight <= img.height
              && r.value.sx >= 0.0 && r.value.sy >= 0.0
              && 2.0 * r.value.sx + r.value.sWidth == img.width
              && 2.0 * r.value.sy + r.value.sHeight == img.height
              && r.value.sWidth * cellH == r.value.sHeight * cellW
              && (r.value.sWidth == img.width || r.value.sHeight == img.height)
  {
    if cellW <= 0.0 || cellH <= 0.0 || img.width <= 0.0 || img.height <= 0.0 then None
    else
      var imgRatio := img.width / img.height;
      var targetRatio := cellW / cellH;
      if imgRatio > targetRatio then
        WideImageCrop(img.width, img.height, cellW, cellH);
        var sWidth := img.height * targetRatio;
        Some(SourceRect((img.width - sWidth) / 2.0, 0.0, sWidth, img.height))
      else
        TallImageCrop(img.width, img.height, cellW, cellH);
        var sHeight := img.width / targetRatio;
        Some(SourceRect(0.0, (img.height - sHeight) / 2.0, img.width, sHeight))
  }

  /** Whether a cell gets a background fill: any colour other than the empty
      string and the two spellings of white. */
  predicate DrawsBackground(bgColor: string)
  {
    bgColor != "" && bgColor != "#FFFFFF" && bgColor != "white"
  }

  /** The background fill behind a cell: its corner rounded down and its size
      rounded up to whole pixels. */
  function BackgroundFill(x: real, y: real, w: real, h: real, bgColor: string): (r: Option<FillRect>)
    ensures r.Some? <==> DrawsBackground(bgColor)
    ensures r.Some? ==>
              && r.value.color == bgColor
              && r.value.x as real <= x < r.value.x as real + 1.0
              && r.value.y as real <= y < r.value.y as real + 1.0
              && w <= r.value.width as real < w + 1.0
              && h <= r.value.height as real < h + 1.0
  {
    if DrawsBackground(bgColor) then Some(FillRect(Floor(x), Floor(y), Ceil(w), Ceil(h), bgColor))
    else None
  }

  /** The fill never leaves a strip of the cell uncovered wider than a pixel:
      it starts at or before the cell and ends less than a pixel before, or
      anywhere after, the cell's far edge. */
  lemma FillCoversCell(x: real, y: real, w: real, h: real, bgColor: string)
    requires DrawsBackground(bgColor)
    ensures var f := BackgroundFill(x, y, w, h, bgColor).value;
            && f.x as real <= x && x + w - 1.0 < f.x as real + f.width as real < x + w + 1.0
            && f.y as real <= y && y + h - 1.0 < f.y as real + f.height as real < y + h + 1.0
  {
  }

  /** The left edge of the `k`-th cell: cells are filled row by row from the
      block's origin, one photo and one gap apart. */
  function CellX(plan: Plan, k: int): real
    requires plan.cols >= 1 && k >= 0
  {
    plan.startX + (k % plan.cols) as real * (plan.photoW + plan.gapPx)
  }

  /** The top edge of the `k`-th cell. */
  function CellY(plan: Plan, k: int): real
    requires plan.cols >= 1 && k >= 0
  {
    plan.startY + (k / plan.cols) as real * (plan.photoH + plan.gapPx)
  }

  /** The `k`-th cell of the grid as drawn. */
  function CellAt(plan: Plan, k: int, img: ImageSize, bgColor: string): Cell
    requires plan.cols >= 1 && k >= 0
  {
    var x, y := CellX(plan, k), CellY(plan, k);
    Cell(x, y, plan.photoW, plan.photoH,
         BackgroundFill(x, y, plan.photoW, plan.photoH, bgColor),
         CoverFit(img, plan.photoW, plan.photoH))
  }

  /** The check that stops the placement without auto-scale: the cell's right
      and bottom edges stay inside the canvas. */
  predicate FitsCanvas(cell: Cell, widthPx: int, heightPx: int)
  {
    !(cell.x + cell.width > widthPx as real || cell.y + cell.height > heightPx as real)
  }

  /** The placement loop: cells row by row, each drawn unless auto-scale is
      off and it would spill over the canvas, which ends the placement. */
  method PlaceCells(plan: Plan, n: int, autoScale: bool, widthPx: int, heightPx: int,
                    img: ImageSize, bgColor: string) returns (cells: seq<Cell>)
    requires n >= 1 ==> plan.cols >= 1
    ensures |cells| <= MaxInt(n, 0)
    ensures forall k :: 0 <= k < |cells| ==> cells[k] == CellAt(plan, k, img, bgColor)
    ensures autoScale ==> |cells| == MaxInt(n, 0)
    ensures !autoScale ==> forall k :: 0 <= k < |cells| ==> FitsCanvas(cells[k], widthPx, heightPx)
    ensures !autoScale && |cells| < n ==> !FitsCanvas(CellAt(plan, |cells|, img, bgColor), widthPx, heightPx)
  {
    cells := [];
    var count, row, col := 0, 0, 0;
    while count < n
      invariant 0 <= count <= MaxInt(n, 0)
      invariant |cells| == count
      invariant n >= 1 ==> 0 <= col < plan.cols && col == count % plan.cols && row == count / plan.cols
      invariant forall k :: 0 <= k < count ==> cells[k] == CellAt(plan, k, img, bgColor)
      invariant !autoScale ==> forall k :: 0 <= k < count ==> FitsCanvas(cells[k], widthPx, heightPx)
    {
      var x := plan.startX + col as real * (plan.photoW + plan.gapPx);
      var y := plan.startY + row as real * (plan.photoH + plan.gapPx);
      var cell := Cell(x, y, plan.photoW, plan.photoH,
                       BackgroundFill(x, y, plan.photoW, plan.photoH, bgColor),
                       CoverFit(img, plan.photoW, plan.photoH));
      assert x == CellX(plan, count) && y == CellY(plan, count);
      assert cell == CellAt(plan, count, img, bgColor);

      if !autoScale && (x + plan.photoW > widthPx as real || y + plan.photoH > heightPx as real) {
        break;
      }

      cells := cells + [cell];
      CursorStep(count, plan.cols);
      count := count + 1;
      col := col + 1;
      if col >= plan.cols {
        col := 0;
        row := row + 1;
      }
    }
  }

  // ---------------------------------------------------------------------------
  // Geometry of the grid

  /** Index `a` of a row of strides: its cell ends before index `b` starts,
      and also within a span of `b` cells. */
  lemma StrideFits(a: real, b: real, cell: real, gap: real)
    requires 0.0 <= a && a + 1.0 <= b && cell >= 0.0 && gap >= 0.0
    ensures 0.0 <= a * (cell + gap)
    ensures a * (cell + gap) + cell <= b * cell + (b - 1.0) * gap
    ensures a * (cell + gap) + cell <= b * (cell + gap)
  {
    MulLeft(a + 1.0, b, cell + gap);
    MulLeft(0.0, a, cell + gap);
    assert (a + 1.0) * (cell + gap) == a * (cell + gap) + cell + gap;
    assert b * (cell + gap) == b * cell + (b - 1.0) * gap + gap;
  }

  /** Cell `k`'s row is below the number of rows `n` cells take. */
  lemma RowBelowRows(n: int, cols: int, k: int)
    requires cols >= 1 && 0 <= k < n
    ensures k / cols < RowsFor(n, cols)
  {
    var r := RowsFor(n, cols);
    if k / cols >= r {
      MulLeftInt(r, k / cols, cols);
    }
  }

  /** Every one of the `n` cells lies inside the block whose size the
      alignment uses. */
  lemma CellInBlock(plan: Plan, n: int, k: int)
    requires plan.cols >= 1 && 0 <= k < n
    requires plan.photoW >= 0.0 && plan.photoH >= 0.0 && plan.gapPx >= 0.0
    ensures plan.startX <= CellX(plan, k) && CellX(plan, k) + plan.photoW <= plan.startX + BlockWidth(plan)
    ensures plan.startY <= CellY(plan, k) && CellY(plan, k) + plan.photoH <= plan.startY + BlockHeight(plan, n)
  {
    ColumnInBlock(plan, k);
    RowInBlock(plan, n, k);
  }

  lemma ColumnInBlock(plan: Plan, k: int)
    requires plan.cols >= 1 && 0 <= k
    requires plan.photoW >= 0.0 && plan.gapPx >= 0.0
    ensures plan.startX <= CellX(plan, k) && CellX(plan, k) + plan.photoW <= plan.startX + BlockWidth(plan)
  {
    var c, cols := (k % plan.cols) as real, plan.cols as real;
    StrideFits(c, cols, plan.photoW, plan.gapPx);
    assert CellX(plan, k) == plan.startX + c * (plan.photoW + plan.gapPx);
    assert BlockWidth(plan) == cols * plan.photoW + (cols - 1.0) * plan.gapPx;
  }

  lemma RowInBlock(plan: Plan, n: int, k: int)
    requires plan.cols >= 1 && 0 <= k < n
    requires plan.photoH >= 0.0 && plan.gapPx >= 0.0
    ensures plan.startY <= CellY(plan, k) && CellY(plan, k) + plan.photoH <= plan.startY + BlockHeight(plan, n)
  {
    RowBelowRows(n, plan.cols, k);
    var r, rows := (k / plan.cols) as real, RowsFor(n, plan.cols) as real;
    StrideFits(r, rows, plan.photoH, plan.gapPx);
    assert CellY(plan, k) == plan.startY + r * (plan.photoH + plan.gapPx);
    assert BlockHeight(plan, n) == rows * plan.photoH + (rows - 1.0) * plan.gapPx;
  }

  /** Two different cells never overlap: the earlier one ends left of the
      later one in the same row, or above it in a later row. */
  lemma CellsDisjoint(plan: Plan, j: int, k: int)
    requires plan.cols >= 1 && 0 <= j < k
    requires plan.photoW >= 0.0 && plan.photoH >= 0.0 && plan.gapPx >= 0.0
    ensures CellX(plan, j) + plan.photoW <= CellX(plan, k) || CellY(plan, j) + plan.photoH <= CellY(plan, k)
  {
    var cols := plan.cols;
    var rj, rk := j / cols, k / cols;
    if rj > rk {
      MulLeftInt(rk + 1, rj, cols);
    }
    if rj < rk {
      var sy := plan.photoH + plan.gapPx;
      StrideFits(rj as real, rk as real, plan.photoH, plan.gapPx);
      assert CellY(plan, j) == plan.startY + rj as real * sy;
      assert CellY(plan, k) == plan.startY + rk as real * sy;
    } else {
      var cj, ck, sx := j % cols, k % cols, plan.photoW + plan.gapPx;
      assert cj < ck;
      StrideFits(cj as real, ck as real, plan.photoW, plan.gapPx);
      assert CellX(plan, j) == plan.startX + cj as real * sx;
      assert CellX(plan, k) == plan.startX + ck as real * sx;
    }
  }

  /** Without the search, auto-scale keeps the naive grid, which fits the
      space between the margins in both directions. */
  lemma BlockFitsWithoutSearch(n: int, photoW: real, photoH: real, gapPx: real, availW: real, availH: real)
    requires n >= 1 && photoW > 0.0 && photoH > 0.0 && gapPx >= 0.0
    requires !NeedsSearch(n, NaiveCols(availW, gapPx, photoW), photoH, gapPx, availH)
    ensures var cols := NaiveCols(availW, gapPx, photoW);
            && cols >= 1
            && Span(cols, photoW, gapPx) <= availW
            && Span(FinalRows(n, cols), photoH, gapPx) <= availH
  {
    var cols := NaiveCols(availW, gapPx, photoW);
    if cols < 1 {
      NoColumnsTriggersSearch(n, cols, photoH, gapPx, availH);
    }
  }

  /** One side of a shrunk block without gaps: the chosen scale keeps it
      within the available length, which is then positive. */
  lemma ShrunkSpanFits(k: int, photo: real, gapPx: real, avail: real, bestScale: real)
    requires k >= 1 && photo > 0.0 && bestScale > 0.0 && gapPx == 0.0
    requires bestScale <= avail / Span(k, photo, gapPx)
    ensures avail > 0.0
    ensures Span(k, photo * (bestScale * 0.99), gapPx) <= avail
  {
    var kr := k as real;
    var span := Span(k, photo, gapPx);
    assert span == kr * photo;
    MulPositive(kr, photo);
    RatioAtMost(avail, span, bestScale);
    MulPositive(bestScale, span);
    assert Span(k, photo * (bestScale * 0.99), gapPx) == 0.99 * (bestScale * span);
  }

  /** The auto-scale branch searches exactly when the naive grid does not
      hold every photo within the available height; otherwise it keeps the
      nominal size and the naive columns. */
  lemma AutoScalingSearchesExactlyWhenNeeded(n: int, photoW: real, photoH: real, gapPx: real,
                                             availW: real, availH: real)
    requires photoW > 0.0 && photoH > 0.0 && gapPx >= 0.0
    ensures var sc := AutoScaling(n, photoW, photoH, gapPx, availW, availH);
            && (sc.search.None? <==> !NeedsSearch(n, NaiveCols(availW, gapPx, photoW), photoH, gapPx, availH))
            && (sc.search.None? ==> sc == Scaling(photoW, photoH, NaiveCols(availW, gapPx, photoW), None))
  {
  }

  /** When the auto-scale branch searches it records the search's outcome,
      whose best scale is below 1, and takes its column count. */
  lemma AutoScalingShrinksOnSearch(n: int, photoW: real, photoH: real, gapPx: real,
                                   availW: real, availH: real)
    requires photoW > 0.0 && photoH > 0.0 && gapPx >= 0.0
    requires NeedsSearch(n, NaiveCols(availW, gapPx, photoW), photoH, gapPx, availH)
    ensures var sc := AutoScaling(n, photoW, photoH, gapPx, availW, availH);
            && sc.search == Some(BestColumns(n, photoW, photoH, gapPx, availW, availH))
            && sc.search.value.bestScale < 1.0
            && sc.cols == sc.search.value.bestCols
  {
    SearchAlwaysShrinks(n, photoW, photoH, gapPx, availW, availH);
  }

  /** When the auto-scale branch searches, both photo sides are scaled by 99%
      of the best scale, so their ratio is kept. */
  lemma AutoScalingShrunkSize(n: int, photoW: real, photoH: real, gapPx: real,
                              availW: real, availH: real)
    requires photoW > 0.0 && photoH > 0.0 && gapPx >= 0.0
    requires NeedsSearch(n, NaiveCols(availW, gapPx, photoW), photoH, gapPx, availH)
    ensures var sc := AutoScaling(n, photoW, photoH, gapPx, availW, availH);
            && sc.search.Some?
            && sc.photoW == photoW * (sc.search.value.bestScale * 0.99)
            && sc.photoH == photoH * (sc.search.value.bestScale * 0.99)
  {
    var best := BestColumns(n, photoW, photoH, gapPx, availW, availH);
    SearchAlwaysShrinks(n, photoW, photoH, gapPx, availW, availH);
    ShrinkBelowOne(photoW, photoH, NaiveCols(availW, gapPx, photoW), best);
  }

  /** A best scale below 1 always shrinks, to the best column count. */
  lemma ShrinkBelowOne(photoW: real, photoH: real, cols: int, best: Search)
    requires best.bestScale < 1.0
    ensures Shrink(photoW, photoH, cols, best)
         == Scaling(photoW * (best.bestScale * 0.99), photoH * (best.bestScale * 0.99), best.bestCols, Some(best))
  {
  }

  /** With photos to place, the auto-scale branch keeps at least one column. */
  lemma AutoScalingColumnsPositive(n: int, photoW: real, photoH: real, gapPx: real,
                                   availW: real, availH: real)
    requires n >= 1 && photoW > 0.0 && photoH > 0.0 && gapPx >= 0.0
    ensures AutoScaling(n, photoW, photoH, gapPx, availW, availH).cols >= 1
  {
    var cols := NaiveCols(availW, gapPx, photoW);
    if NeedsSearch(n, cols, photoH, gapPx, availH) {
      SearchAlwaysShrinks(n, photoW, photoH, gapPx, availW, availH);
      BestColumnsIsBest(n, photoW, photoH, gapPx, availW, availH);
    } else {
      BlockFitsWithoutSearch(n, photoW, photoH, gapPx, availW, availH);
    }
  }

  /** Without the search, the auto-scaled grid fits the space between the
      margins. */
  lemma AutoScalingFitsWithoutSearch(n: int, photoW: real, photoH: real, gapPx: real,
                                     availW: real, availH: real)
    requires n >= 1 && photoW > 0.0 && photoH > 0.0 && gapPx >= 0.0
    requires AutoScaling(n, photoW, photoH, gapPx, availW, availH).search.None?
    ensures var sc := AutoScaling(n, photoW, photoH, gapPx, availW, availH);
            && Span(sc.cols, sc.photoW, gapPx) <= availW
            && Span(FinalRows(n, sc.cols), sc.photoH, gapPx) <= availH
  {
    BlockFitsWithoutSearch(n, photoW, photoH, gapPx, availW, availH);
  }

  /** With no gap, the shrunk grid fits the space between the margins
      whenever the search found a positive scale. */
  lemma AutoScalingFitsWithoutGap(n: int, photoW: real, photoH: real, gapPx: real,
                                  availW: real, availH: real)
    requires photoW > 0.0 && photoH > 0.0 && gapPx == 0.0
    requires var sc := AutoScaling(n, photoW, photoH, gapPx, availW, availH);
             sc.search.Some? && sc.search.value.bestScale > 0.0
    ensures var sc := AutoScaling(n, photoW, photoH, gapPx, availW, availH);
            && Span(sc.cols, sc.photoW, gapPx) <= availW
            && Span(FinalRows(n, sc.cols), sc.photoH, gapPx) <= availH
  {
    var cols := NaiveCols(availW, gapPx, photoW);
    SearchAlwaysShrinks(n, photoW, photoH, gapPx, availW, availH);
    BestColumnsIsBest(n, photoW, photoH, gapPx, availW, availH);
    ShrinkFitsWithoutGap(n, photoW, photoH, cols, gapPx, availW, availH,
                         BestColumns(n, photoW, photoH, gapPx, availW, availH));
  }

  /** The shrink after a search without a gap that found a scale in (0, 1)
      fits the space between the margins. */
  lemma ShrinkFitsWithoutGap(n: int, photoW: real, photoH: real, cols: int, gapPx: real,
                             availW: real, availH: real, best: Search)
    requires photoW > 0.0 && photoH > 0.0 && gapPx == 0.0
    requires 1 <= best.bestCols <= n
    requires ScaleFor(n, best.bestCols, photoW, photoH, gapPx, availW, availH) == best.bestScale
    requires 0.0 < best.bestScale < 1.0
    ensures var sc := Shrink(photoW, photoH, cols, best);
            && Span(sc.cols, sc.photoW, gapPx) <= availW
            && Span(FinalRows(n, sc.cols), sc.photoH, gapPx) <= availH
  {
    ShrinkBelowOne(photoW, photoH, cols, best);
    ShrunkSpanFits(best.bestCols, photoW, gapPx, availW, best.bestScale);
    ShrunkSpanFits(RowsFor(n, best.bestCols), photoH, gapPx, availH, best.bestScale);
  }

  /** The gap is not shrunk with the photos, so with a gap the shrunk grid can
      still overflow: two 10 px photos with a 100 px gap in a 50 px square
      end up one column of two rows more than twice the available height. */
  lemma ShrunkBlockCanOverflowWithGap(bestScale: real, bestCols: int)
    requires NeedsSearch(2, NaiveCols(50.0, 100.0, 10.0), 10.0, 100.0, 50.0)
    requires IsBestAmong(bestScale, bestCols, 2, 2, 10.0, 10.0, 100.0, 50.0, 50.0)
    ensures bestCols == 1 && FinalRows(2, bestCols) == 2
    ensures Span(FinalRows(2, bestCols), 10.0 * (bestScale * 0.99), 100.0) > 2.0 * 50.0
  {
    assert NaiveCols(50.0, 100.0, 10.0) == 1;
    assert RowsFor(2, 1) == 2 by { RowsForOneColumn(2); }
    assert RowsFor(2, 2) == 1;
    assert ScaleFor(2, 1, 10.0, 10.0, 100.0, 50.0, 50.0) == 50.0 / 120.0;
    assert ScaleFor(2, 2, 10.0, 10.0, 100.0, 50.0, 50.0) == 50.0 / 120.0;
  }

  // ---------------------------------------------------------------------------
  // Properties of the plan

  /** With photos to place, the plan always has at least one column, so the
      placement's cursor is well defined. */
  lemma PlanColumnsPositive(cfg: GridConfig, widthPx: int, heightPx: int)
    requires ValidConfig(cfg) && cfg.photoCount >= 1
    ensures PlanFor(cfg, widthPx, heightPx).cols >= 1
  {
    if cfg.autoScale {
      var m := Px(cfg.margin);
      AutoScalingColumnsPositive(cfg.photoCount, Px(cfg.photoWidth), Px(cfg.photoHeight), Px(cfg.gap),
                                 Avail(widthPx, m), Avail(heightPx, m));
    }
  }

  /** Without auto-scale the photos keep their nominal size, no search runs,
      and the column count is the one with a pixel of slack. */
  lemma PlanWithoutAutoScale(cfg: GridConfig, widthPx: int, heightPx: int)
    requires ValidConfig(cfg) && !cfg.autoScale
    ensures var plan := PlanFor(cfg, widthPx, heightPx);
            && plan.search.None?
            && plan.photoW == Px(cfg.photoWidth) && plan.photoH == Px(cfg.photoHeight)
            && plan.cols == OffScaleCols(Avail(widthPx, Px(cfg.margin)), Px(cfg.gap), Px(cfg.photoWidth))
            && plan.cols >= 1
  {
  }

  /** With auto-scale, the search runs exactly when the naive grid does not
      hold every photo within the available height; without the search the
      photos keep their nominal size and the naive column count. */
  lemma PlanSearchesExactlyWhenNeeded(cfg: GridConfig, widthPx: int, heightPx: int)
    requires ValidConfig(cfg) && cfg.autoScale
    ensures var plan := PlanFor(cfg, widthPx, heightPx);
            var m, g, w, h := Px(cfg.margin), Px(cfg.gap), Px(cfg.photoWidth), Px(cfg.photoHeight);
            && (plan.search.Some? <==> NeedsSearch(cfg.photoCount, NaiveCols(Avail(widthPx, m), g, w), h, g, Avail(heightPx, m)))
            && (plan.search.None? ==> plan.photoW == w && plan.photoH == h && plan.cols == NaiveCols(Avail(widthPx, m), g, w))
  {
  }

  /** When the search runs, the plan records its outcome, whose best scale
      is below 1, and takes the search's column count. */
  lemma PlanShrinksOnSearch(cfg: GridConfig, widthPx: int, heightPx: int)
    requires ValidConfig(cfg) && cfg.autoScale
    requires var m, g := Px(cfg.margin), Px(cfg.gap);
             NeedsSearch(cfg.photoCount, NaiveCols(Avail(widthPx, m), g, Px(cfg.photoWidth)), Px(cfg.photoHeight), g, Avail(heightPx, m))
    ensures var plan := PlanFor(cfg, widthPx, heightPx);
            var m, g, w, h := Px(cfg.margin), Px(cfg.gap), Px(cfg.photoWidth), Px(cfg.photoHeight);
            var best := BestColumns(cfg.photoCount, w, h, g, Avail(widthPx, m), Avail(heightPx, m));
            && plan.search == Some(best)
            && best.bestScale < 1.0
            && plan.cols == best.bestCols
  {
    var m, g, w, h := Px(cfg.margin), Px(cfg.gap), Px(cfg.photoWidth), Px(cfg.photoHeight);
    var n, aw, ah := cfg.photoCount, Avail(widthPx, m), Avail(heightPx, m);
    AutoScalingShrinksOnSearch(n, w, h, g, aw, ah);
    PlanUsesScaling(cfg, widthPx, heightPx);
  }

  /** The plan takes its photo size, column count and search result from the
      scaling step. */
  lemma PlanUsesScaling(cfg: GridConfig, widthPx: int, heightPx: int)
    requires ValidConfig(cfg)
    ensures var plan := PlanFor(cfg, widthPx, heightPx);
            var m, g := Px(cfg.margin), Px(cfg.gap);
            var sc := ScalingFor(cfg.photoCount, cfg.autoScale, Px(cfg.photoWidth), Px(cfg.photoHeight), g,
                                 Avail(widthPx, m), Avail(heightPx, m));
            plan.photoW == sc.photoW && plan.photoH == sc.photoH && plan.cols == sc.cols && plan.search == sc.search
  {
  }

  /** With auto-scale the block fits between the margins, and center alignment
      centres it on the page, when the search did not run, or when it ran
      without a gap and found a positive scale. */
  lemma PlanFitsWhenAutoScaled(cfg: GridConfig, widthPx: int, heightPx: int)
    requires ValidConfig(cfg) && cfg.autoScale && cfg.photoCount >= 1
    requires var plan := PlanFor(cfg, widthPx, heightPx);
             plan.search.None? || (cfg.gap == 0.0 && plan.search.value.bestScale > 0.0)
    ensures var plan := PlanFor(cfg, widthPx, heightPx);
            && BlockWidth(plan) <= Avail(widthPx, plan.marginPx)
            && BlockHeight(plan, cfg.photoCount) <= Avail(heightPx, plan.marginPx)
            && (cfg.alignment == Center ==>
                  && 2.0 * plan.startX + BlockWidth(plan) == widthPx as real
                  && 2.0 * plan.startY + BlockHeight(plan, cfg.photoCount) == heightPx as real)
  {
    var m, g, w, h := Px(cfg.margin), Px(cfg.gap), Px(cfg.photoWidth), Px(cfg.photoHeight);
    var n, aw, ah := cfg.photoCount, Avail(widthPx, m), Avail(heightPx, m);
    if AutoScaling(n, w, h, g, aw, ah).search.None? {
      AutoScalingFitsWithoutSearch(n, w, h, g, aw, ah);
    } else {
      AutoScalingFitsWithoutGap(n, w, h, g, aw, ah);
    }
  }

  // ---------------------------------------------------------------------------
  // The sheet

  /** The marketing line drawn right-aligned at the bottom right of the page. */
  datatype Footer = Footer(text: string, x: real, y: real, fontSize: real)

  const FooterText: string := "Passport Photo Studio • +92-330-4524169"

  /** The footer anchored 3 mm from the right edge and 2 mm from the bottom,
      in a 2.5 mm font. */
  function FooterAt(widthPx: int, heightPx: int): Footer
  {
    Footer(FooterText, widthPx as real - 3.0 * PxPerMm, heightPx as real - 2.0 * PxPerMm, 2.5 * PxPerMm)
  }

  /** On every paper and orientation the footer's anchor lies inside the
      canvas. */
  lemma FooterInsideCanvas(paper: PaperSize, orientation: Orientation)
    ensures var size := CanvasSize(paper, orientation);
            var f := FooterAt(size.0, size.1);
            0.0 < f.x < size.0 as real && 0.0 < f.y < size.1 as real
  {
  }

  /** What the canvas shows: its size, the cells drawn on the white page, and
      the footer when the image was drawn. */
  datatype Sheet = Sheet(widthPx: int, heightPx: int, cells: seq<Cell>, footer: Option<Footer>)

  /** The image's `onload` body below the canvas set-up: the plan, then the
      placement loop. */
  method LayoutCells(cfg: GridConfig, widthPx: int, heightPx: int, img: ImageSize, bgColor: string)
    returns (plan: Plan, cells: seq<Cell>)
    requires ValidConfig(cfg)
    ensures plan == PlanFor(cfg, widthPx, heightPx)
    ensures cfg.photoCount >= 1 ==> plan.cols >= 1
    ensures |cells| <= MaxInt(cfg.photoCount, 0)
    ensures forall k :: 0 <= k < |cells| ==> cells[k] == CellAt(plan, k, img, bgColor)
    ensures cfg.autoScale ==> |cells| == MaxInt(cfg.photoCount, 0)
    ensures !cfg.autoScale ==> forall k :: 0 <= k < |cells| ==> FitsCanvas(cells[k], widthPx, heightPx)
    ensures !cfg.autoScale && |cells| < cfg.photoCount ==>
              !FitsCanvas(CellAt(plan, |cells|, img, bgColor), widthPx, heightPx)
    ensures forall k :: 0 <= k < |cells| ==> 0.0 <= cells[k].x && 0.0 <= cells[k].y
  {
    plan := ComputePlan(cfg, widthPx, heightPx);
    if cfg.photoCount >= 1 {
      PlanColumnsPositive(cfg, widthPx, heightPx);
    }
    cells := PlaceCells(plan, cfg.photoCount, cfg.autoScale, widthPx, heightPx, img, bgColor);
    forall k | 0 <= k < |cells|
      ensures 0.0 <= cells[k].x && 0.0 <= cells[k].y
    {
      PlanSizesNonNegative(cfg, widthPx, heightPx);
      PlanStartsOnPage(cfg, widthPx, heightPx);
      CellOnPage(plan, k);
    }
  }

  /** The block starts at or after the margin, so never before the page's
      left or top edge. */
  lemma PlanStartsOnPage(cfg: GridConfig, widthPx: int, heightPx: int)
    requires ValidConfig(cfg)
    ensures var plan := PlanFor(cfg, widthPx, heightPx);
            0.0 <= plan.marginPx <= plan.startX && plan.marginPx <= plan.startY
  {
  }

  /** A cell of a block that starts on the page starts on the page. */
  lemma CellOnPage(plan: Plan, k: int)
    requires plan.cols >= 1 && k >= 0
    requires plan.photoW >= 0.0 && plan.photoH >= 0.0 && plan.gapPx >= 0.0
    requires 0.0 <= plan.startX && 0.0 <= plan.startY
    ensures 0.0 <= CellX(plan, k) && 0.0 <= CellY(plan, k)
  {
    MulLeft(0.0, (k % plan.cols) as real, plan.photoW + plan.gapPx);
    MulLeft(0.0, (k / plan.cols) as real, plan.photoH + plan.gapPx);
  }

  /** Whether the effect gets as far as drawing the image: an image source
      that is present and not empty, and an image that decoded. */
  predicate Draws(imageSrc: Option<string>, decoded: Option<ImageSize>)
  {
    imageSrc.Some? && imageSrc.value != "" && decoded.Some?
  }

  /** The drawing effect: the canvas sized to the page at 11.81 px/mm and
      painted white; then, when there is an image and it decodes, the cells
      and the footer. The decoded image is a parameter: its loading is
      asynchronous and outside the model; `None` is an image whose `onload`
      never runs. */
  method RenderSheet(cfg: GridConfig, imageSrc: Option<string>, decoded: Option<ImageSize>, bgColor: string)
    returns (sheet: Sheet)
    requires ValidConfig(cfg)
    ensures (sheet.widthPx, sheet.heightPx) == CanvasSize(cfg.paperSize, cfg.orientation)
    ensures !Draws(imageSrc, decoded) ==> sheet.cells == [] && sheet.footer.None?
    ensures Draws(imageSrc, decoded) ==> sheet.footer == Some(FooterAt(sheet.widthPx, sheet.heightPx))
    ensures |sheet.cells| <= MaxInt(cfg.photoCount, 0)
    ensures Draws(imageSrc, decoded) && cfg.autoScale ==> |sheet.cells| == MaxInt(cfg.photoCount, 0)
    ensures !cfg.autoScale ==> forall k :: 0 <= k < |sheet.cells| ==> FitsCanvas(sheet.cells[k], sheet.widthPx, sheet.heightPx)
    ensures forall j, k :: 0 <= j < k < |sheet.cells| ==>
              sheet.cells[j].x + sheet.cells[j].width <= sheet.cells[k].x || sheet.cells[j].y + sheet.cells[j].height <= sheet.cells[k].y
    ensures forall k :: 0 <= k < |sheet.cells| ==> 0.0 <= sheet.cells[k].x && 0.0 <= sheet.cells[k].y
    ensures Draws(imageSrc, decoded) && cfg.photoCount >= 1 ==>
              && PlanFor(cfg, sheet.widthPx, sheet.heightPx).cols >= 1
              && (forall k :: 0 <= k < |sheet.cells| ==>
                    sheet.cells[k] == CellAt(PlanFor(cfg, sheet.widthPx, sheet.heightPx), k, decoded.value, bgColor))
              && (!cfg.autoScale && |sheet.cells| < cfg.photoCount ==>
                    !FitsCanvas(CellAt(PlanFor(cfg, sheet.widthPx, sheet.heightPx), |sheet.cells|, decoded.value, bgColor),
                                sheet.widthPx, sheet.heightPx))
  {
    var size := CanvasSize(cfg.paperSize, cfg.orientation);
    var widthPx, heightPx := size.0, size.1;
    if !Draws(imageSrc, decoded) {
      sheet := Sheet(widthPx, heightPx, [], None);
      return;
    }
    var plan, cells := LayoutCells(cfg, widthPx, heightPx, decoded.value, bgColor);
    forall j, k | 0 <= j < k < |cells|
      ensures cells[j].x + cells[j].width <= cells[k].x || cells[j].y + cells[j].height <= cells[k].y
    {
      PlanSizesNonNegative(cfg, widthPx, heightPx);
      CellsDisjoint(plan, j, k);
    }
    sheet := Sheet(widthPx, heightPx, cells, Some(FooterAt(widthPx, heightPx)));
  }

  /** The plan's photo size and gap are never negative. */
  lemma PlanSizesNonNegative(cfg: GridConfig, widthPx: int, heightPx: int)
    requires ValidConfig(cfg)
    ensures var plan := PlanFor(cfg, widthPx, heightPx);
            plan.photoW >= 0.0 && plan.photoH >= 0.0 && plan.gapPx >= 0.0
  {
    var m, g, w, h := Px(cfg.margin), Px(cfg.gap), Px(cfg.photoWidth), Px(cfg.photoHeight);
    PlanUsesScaling(cfg, widthPx, heightPx);
    if cfg.autoScale {
      AutoScalingSizesNonNegative(cfg.photoCount, w, h, g, Avail(widthPx, m), Avail(heightPx, m));
    }
  }

  /** The auto-scaled photo size is never negative: the search's best scale
      is never negative. */
  lemma AutoScalingSizesNonNegative(n: int, photoW: real, photoH: real, gapPx: real,
                                    availW: real, availH: real)
    requires photoW > 0.0 && photoH > 0.0 && gapPx >= 0.0
    ensures var sc := AutoScaling(n, photoW, photoH, gapPx, availW, availH);
            sc.photoW >= 0.0 && sc.photoH >= 0.0
  {
    if NeedsSearch(n, NaiveCols(availW, gapPx, photoW), photoH, gapPx, availH) {
      var best := BestColumns(n, photoW, photoH, gapPx, availW, availH);
      BestColumnsIsBest(n, photoW, photoH, gapPx, availW, availH);
      assert best.bestScale >= 0.0;
      AutoScalingShrinksOnSearch(n, photoW, photoH, gapPx, availW, availH);
      AutoScalingShrunkSize(n, photoW, photoH, gapPx, availW, availH);
      MulLeft(0.0, photoW, best.bestScale * 0.99);
      MulLeft(0.0, photoH, best.bestScale * 0.99);
    }
  }
}
