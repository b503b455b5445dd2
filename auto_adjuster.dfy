/**
 * The auto-adjuster: fits the tiles of a generated sprite sheet into the
 * cells of a template. For every template cell it estimates where that cell
 * lies in the source image, finds the opaque content there, and blits the
 * content, uniformly scaled and centred, onto the cell; a cell without
 * content is copied whole. The second variant first averages the content
 * sizes over the whole sheet and scales every cell by that average.
 */
module AutoAdjust {
  import opened ImageProcessing
  import opened Templates

  /** A number per axis: the scale or the centring offset of one adjustment. */
  datatype Vec2 = Vec2(x: real, y: real)

  /** What the adjuster did with template cell `index`. */
  datatype TileAdjustment = TileAdjustment(
    index: int,
    original: Rect,           // the region of the source read for this cell
    detected: Option<Rect>,   // the content found there, in source coordinates
    adjusted: Box,            // where the content was drawn in the template
    scale: Vec2,
    offset: Vec2)

  /** The size of the content of one cell, as the first pass records it. */
  datatype Size = Size(width: int, height: int)

  function Min(a: int, b: int): int { if a <= b then a else b }
  function Max(a: int, b: int): int { if a >= b then a else b }
  function MinReal(a: real, b: real): real { if a <= b then a else b }

  lemma DivPositive(a: real, b: real)
    requires a > 0.0 && b > 0.0
    ensures a / b > 0.0
  {
  }

  lemma MulDivCancel(a: real, b: real)
    requires b != 0.0
    ensures b * (a / b) == a
  {
  }

  lemma DivMulCancel(a: real, b: real)
    requires b != 0.0
    ensures (b * a) / b == a
  {
  }

  lemma MulMonotone(a: real, x: real, y: real)
    requires a >= 0.0 && x <= y
    ensures a * x <= a * y
  {
  }

  lemma DivMonotone(x: real, y: real, b: real)
    requires b > 0.0 && x <= y
    ensures x / b <= y / b
  {
  }

  /** JavaScript's Math.round: the nearest integer, halves rounded up. */
  function Round(r: real): (n: int)
    ensures r - 0.5 < n as real <= r + 0.5
  {
    (r + 0.5).Floor
  }

  // ---------------------------------------------------------------------
  // Where a template cell lies in the source image
  // ---------------------------------------------------------------------

  /**
   * The region of a `sourceWidth` × `sourceHeight` image that corresponds to
   * cell `tileIndex` of a grid `cols` wide: the cell rescaled by the ratio of
   * the image size to the template size, rounded, and clamped so that it
   * keeps at least one pixel and, on a non-empty image, stays inside it.
   */
  function EstimateSourceTileRect(c: TemplateConfig, sourceWidth: int, sourceHeight: int, tileIndex: int, cols: int): (r: Rect)
    requires GetDimensions(c).width > 0 && GetDimensions(c).height > 0
    requires cols > 0 && tileIndex >= 0
    ensures r.width >= 1 && r.height >= 1
    ensures sourceWidth >= 1 ==> 0 <= r.x <= sourceWidth - 1 && r.x + r.width <= sourceWidth
    ensures sourceHeight >= 1 ==> 0 <= r.y <= sourceHeight - 1 && r.y + r.height <= sourceHeight
  {
    var d := GetDimensions(c);
    var col := tileIndex % cols;
    var row := tileIndex / cols;
    var x := Rescale(c.offset + col * (c.tileSize + c.padding), sourceWidth, d.width);
    var y := Rescale(c.offset + row * (c.tileSize + c.padding), sourceHeight, d.height);
    var width := Rescale(c.tileSize, sourceWidth, d.width);
    var height := Rescale(c.tileSize, sourceHeight, d.height);
    var clampedX := Max(0, Min(x, sourceWidth - 1));
    var clampedY := Max(0, Min(y, sourceHeight - 1));
    Rect(clampedX, clampedY, Max(1, Min(width, sourceWidth - clampedX)), Max(1, Min(height, sourceHeight - clampedY)))
  }

  /** A template coordinate `v` carried over to the source image: multiplied by the size ratio and rounded. */
  function Rescale(v: int, sourceSize: int, templateSize: int): int
    requires templateSize > 0
  {
    Round(v as real * (sourceSize as real / templateSize as real))
  }

  /** Rescaling between equal sizes changes nothing. */
  lemma RescaleSameSize(v: int, size: int)
    requires size > 0
    ensures Rescale(v, size, size) == v
  {
    var n := size as real;
    assert n / n == 1.0;
    assert v as real * 1.0 == v as real;
    RoundWhole(v);
  }

  lemma RoundWhole(n: int)
    ensures Round(n as real) == n
  {
  }

  /** On an image of exactly the template's size, the estimated region is the template cell itself. */
  lemma EstimateAtTemplateSize(c: TemplateConfig, i: int)
    requires ValidConfig(c)
    requires 0 <= i < GetDimensions(c).cols * GetDimensions(c).rows
    ensures var d := GetDimensions(c);
      EstimateSourceTileRect(c, d.width, d.height, i, d.cols) == CellRect(c, d.cols, i)
  {
    var d := GetDimensions(c);
    var cell := CellRect(c, d.cols, i);
    CellInsideCanvas(c, i);
    RescaleSameSize(cell.x, d.width);
    RescaleSameSize(cell.y, d.height);
    RescaleSameSize(c.tileSize, d.width);
    RescaleSameSize(c.tileSize, d.height);
  }

  // ---------------------------------------------------------------------
  // What one cell holds
  // ---------------------------------------------------------------------

  /** The source region read for cell `i`. */
  function CellSource(c: TemplateConfig, source: Raster, cols: int, i: int): Rect
    requires ValidConfig(c) && cols > 0 && i >= 0
  {
    EstimateSourceTileRect(c, source.width, source.height, i, cols)
  }

  /** The bounds of the content of cell `i`'s source region, in that region's coordinates. */
  function CellBounds(c: TemplateConfig, source: Raster, cols: int, i: int): (b: Option<TileBounds>)
    requires ValidConfig(c) && ValidRaster(source) && cols > 0 && i >= 0
    ensures NonEmpty(b)
  {
    var r := CellSource(c, source, cols, i);
    var data := GetImageData(source, r);
    ContentBounds(data, r.width, r.height, DEFAULT_ALPHA_THRESHOLD)
  }

  function SizeOf(b: TileBounds): Size
  {
    Size(b.maxX - b.minX + 1, b.maxY - b.minY + 1)
  }

  /** The content's rectangle in source coordinates, given the region it was found in. */
  function DetectedRect(region: Rect, b: TileBounds): Rect
  {
    Rect(region.x + b.minX, region.y + b.minY, SizeOf(b).width, SizeOf(b).height)
  }

  /** A cell without content: the whole region is copied onto the whole cell, unscaled in the record. */
  function CopyAdjustment(i: int, original: Rect, target: Rect): TileAdjustment
  {
    TileAdjustment(i, original, None, BoxOf(target), Vec2(1.0, 1.0), Vec2(0.0, 0.0))
  }

  /** A cell with content `detected`, drawn at `scale` and centred in the cell `target` of side `tileSize`. */
  function ScaledAdjustment(i: int, original: Rect, target: Rect, detected: Rect, scale: real, tileSize: int): TileAdjustment
  {
    var width := detected.width as real * scale;
    var height := detected.height as real * scale;
    var offsetX := (tileSize as real - width) / 2.0;
    var offsetY := (tileSize as real - height) / 2.0;
    TileAdjustment(i, original, Some(detected), Box(target.x as real + offsetX, target.y as real + offsetY, width, height),
                   Vec2(scale, scale), Vec2(offsetX, offsetY))
  }

  /** The blit an adjustment stands for: the content (or the whole region) onto the adjusted box. */
  function BlitOf(a: TileAdjustment): DrawCommand
  {
    Blit(BoxOf(if a.detected.Some? then a.detected.value else a.original), a.adjusted)
  }

  /** The draw commands a sequence of adjustments issues, one blit per adjustment, in order. */
  function Blits(adjustments: seq<TileAdjustment>): (commands: seq<DrawCommand>)
    ensures |commands| == |adjustments|
  {
    if adjustments == [] then []
    else Blits(adjustments[..|adjustments| - 1]) + [BlitOf(adjustments[|adjustments| - 1])]
  }

  lemma BlitsSnoc(adjustments: seq<TileAdjustment>, a: TileAdjustment)
    ensures Blits(adjustments + [a]) == Blits(adjustments) + [BlitOf(a)]
  {
    assert (adjustments + [a])[..|adjustments|] == adjustments;
  }

  /** Command k is the blit of adjustment k. */
  lemma {:induction false} BlitsAt(adjustments: seq<TileAdjustment>)
    ensures forall k :: 0 <= k < |adjustments| ==> Blits(adjustments)[k] == BlitOf(adjustments[k])
  {
    if adjustments != [] {
      var prefix := adjustments[..|adjustments| - 1];
      BlitsAt(prefix);
      assert forall k :: 0 <= k < |prefix| ==> prefix[k] == adjustments[k];
    }
  }

  predicate BoxWithin(inner: Box, outer: Box)
  {
    outer.x <= inner.x && inner.x + inner.width <= outer.x + outer.width
    && outer.y <= inner.y && inner.y + inner.height <= outer.y + outer.height
  }

  // ---------------------------------------------------------------------
  // Per-cell fitting (adjust)
  // ---------------------------------------------------------------------

  /** The uniform scale that fits a `w` × `h` content into a `tileSize` square. */
  function FitScale(tileSize: int, w: int, h: int): real
    requires w > 0 && h > 0
  {
    MinReal(tileSize as real / w as real, tileSize as real / h as real)
  }

  /** The fitted content lies within the square and fills it along at least one side. */
  lemma FitScaleFits(tileSize: int, w: int, h: int)
    requires tileSize > 0 && w > 0 && h > 0
    ensures var s := FitScale(tileSize, w, h);
      s > 0.0 && w as real * s <= tileSize as real && h as real * s <= tileSize as real
      && (w as real * s == tileSize as real || h as real * s == tileSize as real)
  {
    var t, wr, hr := tileSize as real, w as real, h as real;
    DivPositive(t, wr);
    DivPositive(t, hr);
    MulDivCancel(t, wr);
    MulDivCancel(t, hr);
    if t / wr <= t / hr {
      MulMonotone(hr, t / wr, t / hr);
    } else {
      MulMonotone(wr, t / hr, t / wr);
    }
  }

  /** No larger uniform scale fits: FitScale is the largest scale keeping the content within the square. */
  lemma FitScaleIsLargest(tileSize: int, w: int, h: int, s: real)
    requires w > 0 && h > 0
    requires w as real * s <= tileSize as real && h as real * s <= tileSize as real
    ensures s <= FitScale(tileSize, w, h)
  {
    var t, wr, hr := tileSize as real, w as real, h as real;
    DivMonotone(wr * s, t, wr);
    DivMulCancel(s, wr);
    DivMonotone(hr * s, t, hr);
    DivMulCancel(s, hr);
  }

  /** Bounds of content that is there: at least one pixel each way. */
  predicate NonEmpty(bounds: Option<TileBounds>)
  {
    bounds.Some? ==> bounds.value.minX <= bounds.value.maxX && bounds.value.minY <= bounds.value.maxY
  }

  /** What adjust records for cell `i`, given the cell's source region, its target cell and the content bounds found. */
  function CellAdjustment(i: int, original: Rect, target: Rect, bounds: Option<TileBounds>, tileSize: int): TileAdjustment
    requires NonEmpty(bounds)
  {
    match bounds
    case None => CopyAdjustment(i, original, target)
    case Some(b) =>
      var detected := DetectedRect(original, b);
      ScaledAdjustment(i, original, target, detected, FitScale(tileSize, detected.width, detected.height), tileSize)
  }

  /** The values of `f` at 0 … n-1, in order: the record a cell-by-cell pass builds. */
  function Tabulate<T>(f: nat --> T, n: nat): (values: seq<T>)
    requires forall k :: 0 <= k < n ==> f.requires(k)
    ensures |values| == n
  {
    if n == 0 then [] else Tabulate(f, n - 1) + [f(n - 1)]
  }

  /** Entry k of the record is the value at k. */
  lemma {:induction false} TabulateAt<T>(f: nat --> T, n: nat)
    requires forall k :: 0 <= k < n ==> f.requires(k)
    ensures forall k :: 0 <= k < n ==> Tabulate(f, n)[k] == f(k)
  {
    if n > 0 {
      TabulateAt(f, n - 1);
    }
  }

  /** Cell `i` as adjust records it. */
  function AdjustmentAt(c: TemplateConfig, source: Raster, cols: int, i: int): TileAdjustment
    requires ValidConfig(c) && ValidRaster(source) && cols > 0 && i >= 0
  {
    CellAdjustment(i, CellSource(c, source, cols, i), CellRect(c, cols, i), CellBounds(c, source, cols, i), c.tileSize)
  }

  /** Cell by cell, what adjust records. */
  function AdjustmentOfCell(c: TemplateConfig, source: Raster, cols: int): nat --> TileAdjustment
  {
    (k: nat) requires ValidConfig(c) && ValidRaster(source) && cols > 0 => AdjustmentAt(c, source, cols, k)
  }

  /** adjust's record of cells 0 … n-1, in order. */
  function AdjustmentsUpTo(c: TemplateConfig, source: Raster, cols: int, n: nat): (adjustments: seq<TileAdjustment>)
    requires ValidConfig(c) && ValidRaster(source) && cols > 0
    ensures |adjustments| == n
  {
    Tabulate(AdjustmentOfCell(c, source, cols), n)
  }

  /** Entry k of the record is the adjustment of cell k. */
  lemma AdjustmentsUpToAt(c: TemplateConfig, source: Raster, cols: int, n: nat)
    requires ValidConfig(c) && ValidRaster(source) && cols > 0
    ensures forall k :: 0 <= k < n ==> AdjustmentsUpTo(c, source, cols, n)[k] == AdjustmentAt(c, source, cols, k)
  {
    TabulateAt(AdjustmentOfCell(c, source, cols), n);
  }

  /**
   * A scaled adjustment whose content fits the square lies within the cell,
   * with non-negative offsets and equal margins on opposite sides.
   */
  lemma ScaledAdjustmentCentred(i: int, original: Rect, target: Rect, detected: Rect, scale: real, tileSize: int)
    requires target.width == tileSize && target.height == tileSize
    requires detected.width as real * scale <= tileSize as real && detected.height as real * scale <= tileSize as real
    ensures var a := ScaledAdjustment(i, original, target, detected, scale, tileSize);
      && a.offset.x >= 0.0 && a.offset.y >= 0.0
      && BoxWithin(a.adjusted, BoxOf(target))
      && a.adjusted.x - target.x as real == (target.x + tileSize) as real - (a.adjusted.x + a.adjusted.width)
      && a.adjusted.y - target.y as real == (target.y + tileSize) as real - (a.adjusted.y + a.adjusted.height)
  {
  }

  /** Content found within a region, in that region's coordinates, lies within the region in source coordinates. */
  lemma DetectedWithinSource(i: int, original: Rect, target: Rect, bounds: Option<TileBounds>, tileSize: int)
    requires bounds.Some? ==> 0 <= bounds.value.minX <= bounds.value.maxX < original.width
                              && 0 <= bounds.value.minY <= bounds.value.maxY < original.height
    ensures var a := CellAdjustment(i, original, target, bounds, tileSize);
      a.detected.Some? ==> BoxWithin(BoxOf(a.detected.value), BoxOf(original))
  {
  }

  /**
   * What adjust records for a cell is that cell: it draws within the cell,
   * centred, at a uniform scale. With content the scale is the largest that
   * fits and the content spans the cell along one side; without content the
   * whole region covers the whole cell at scale 1.
   */
  lemma CellAdjustmentFits(i: int, original: Rect, target: Rect, bounds: Option<TileBounds>, tileSize: int)
    requires tileSize > 0 && target.width == tileSize && target.height == tileSize && NonEmpty(bounds)
    ensures var a := CellAdjustment(i, original, target, bounds, tileSize);
      && a.index == i && a.original == original
      && BoxWithin(a.adjusted, BoxOf(target))
      && a.scale.x == a.scale.y && a.offset.x >= 0.0 && a.offset.y >= 0.0
      && (a.detected.None? <==> bounds.None?)
      && (a.detected.None? ==> a.adjusted == BoxOf(target) && a.scale == Vec2(1.0, 1.0) && a.offset == Vec2(0.0, 0.0))
      && (a.detected.Some? ==>
            && a.scale.x == FitScale(tileSize, a.detected.value.width, a.detected.value.height)
            && (a.adjusted.width == tileSize as real || a.adjusted.height == tileSize as real)
            && a.adjusted.x - target.x as real == (target.x + tileSize) as real - (a.adjusted.x + a.adjusted.width)
            && a.adjusted.y - target.y as real == (target.y + tileSize) as real - (a.adjusted.y + a.adjusted.height))
  {
    match bounds
    case None =>
    case Some(b) =>
      var detected := DetectedRect(original, b);
      var s := FitScale(tileSize, detected.width, detected.height);
      FitScaleFits(tileSize, detected.width, detected.height);
      ScaledAdjustmentCentred(i, original, target, detected, s, tileSize);
  }

  /** Entry i of adjust's record is cell i of the template, fitted as CellAdjustmentFits says. */
  lemma AdjustFitsCell(c: TemplateConfig, source: Raster, cols: int, i: int)
    requires ValidConfig(c) && ValidRaster(source) && cols > 0 && i >= 0
    ensures var a := AdjustmentAt(c, source, cols, i);
      && a.index == i && a.original == CellSource(c, source, cols, i)
      && BoxWithin(a.adjusted, BoxOf(CellRect(c, cols, i)))
      && a.scale.x == a.scale.y && a.offset.x >= 0.0 && a.offset.y >= 0.0
      && (a.detected.None? <==> CellBounds(c, source, cols, i).None?)
  {
    CellAdjustmentFits(i, CellSource(c, source, cols, i), CellRect(c, cols, i), CellBounds(c, source, cols, i), c.tileSize);
  }

  // ---------------------------------------------------------------------
  // Sheet-wide normalisation (adjustWithContentDetection)
  // ---------------------------------------------------------------------

  /** Cell by cell, the content bounds the first pass finds. */
  function BoundsOfCell(c: TemplateConfig, source: Raster, cols: int): nat --> Option<TileBounds>
  {
    (k: nat) requires ValidConfig(c) && ValidRaster(source) && cols > 0 => CellBounds(c, source, cols, k)
  }

  /** The content bounds found in cells 0 … n-1, in order. */
  function FoundBounds(c: TemplateConfig, source: Raster, cols: int, n: nat): (found: seq<Option<TileBounds>>)
    requires ValidConfig(c) && ValidRaster(source) && cols > 0
    ensures |found| == n
  {
    Tabulate(BoundsOfCell(c, source, cols), n)
  }

  /** Every content bound found spans at least one pixel each way. */
  lemma FoundBoundsNonEmpty(c: TemplateConfig, source: Raster, cols: int, n: nat)
    requires ValidConfig(c) && ValidRaster(source) && cols > 0
    ensures forall k :: 0 <= k < n ==> NonEmpty(FoundBounds(c, source, cols, n)[k])
  {
    TabulateAt(BoundsOfCell(c, source, cols), n);
  }

  /** The first pass: the content size of each cell with content, in cell order. */
  function DetectedSizes(found: seq<Option<TileBounds>>): (sizes: seq<Size>)
    ensures |sizes| <= |found|
  {
    if found == [] then []
    else
      DetectedSizes(found[..|found| - 1])
      + match found[|found| - 1]
        case None => []
        case Some(b) => [SizeOf(b)]
  }

  lemma DetectedSizesSnoc(found: seq<Option<TileBounds>>, b: Option<TileBounds>)
    ensures DetectedSizes(found + [b]) == DetectedSizes(found) + match b case None => [] case Some(v) => [SizeOf(v)]
  {
    assert (found + [b])[..|found|] == found;
    assert (found + [b])[|found|] == b;
  }

  /** Finding the bounds of cell `i` adds its size, if it has content, to the first pass's record. */
  lemma DetectedSizesStep(c: TemplateConfig, source: Raster, cols: int, i: nat, bounds: Option<TileBounds>)
    requires ValidConfig(c) && ValidRaster(source) && cols > 0
    requires bounds == CellBounds(c, source, cols, i)
    ensures DetectedSizes(FoundBounds(c, source, cols, i + 1))
         == DetectedSizes(FoundBounds(c, source, cols, i)) + match bounds case None => [] case Some(b) => [SizeOf(b)]
  {
    DetectedSizesSnoc(FoundBounds(c, source, cols, i), bounds);
  }

  /** Content of at least one pixel each way gives sizes of at least one pixel. */
  lemma {:induction false} DetectedSizesPositive(found: seq<Option<TileBounds>>)
    requires forall k :: 0 <= k < |found| ==> NonEmpty(found[k])
    ensures var sizes := DetectedSizes(found);
      forall k :: 0 <= k < |sizes| ==> sizes[k].width >= 1 && sizes[k].height >= 1
  {
    if found != [] {
      var prefix, last := found[..|found| - 1], found[|found| - 1];
      assert forall k :: 0 <= k < |prefix| ==> prefix[k] == found[k];
      DetectedSizesPositive(prefix);
      assert found == prefix + [last];
      DetectedSizesSnoc(prefix, last);
    }
  }

  /** The `reduce` sums of the recorded widths and heights. */
  function SumWidths(sizes: seq<Size>): int
  {
    if sizes == [] then 0 else SumWidths(sizes[..|sizes| - 1]) + sizes[|sizes| - 1].width
  }

  function SumHeights(sizes: seq<Size>): int
  {
    if sizes == [] then 0 else SumHeights(sizes[..|sizes| - 1]) + sizes[|sizes| - 1].height
  }

  /** The average recorded width, or `fallback` when nothing was recorded. */
  function MeanWidth(sizes: seq<Size>, fallback: int): real
  {
    if |sizes| > 0 then SumWidths(sizes) as real / |sizes| as real else fallback as real
  }

  function MeanHeight(sizes: seq<Size>, fallback: int): real
  {
    if |sizes| > 0 then SumHeights(sizes) as real / |sizes| as real else fallback as real
  }

  /** Sizes of at least one pixel sum to at least their number. */
  lemma {:induction false} SumsAtLeastCount(sizes: seq<Size>)
    requires forall k :: 0 <= k < |sizes| ==> sizes[k].width >= 1 && sizes[k].height >= 1
    ensures SumWidths(sizes) >= |sizes| && SumHeights(sizes) >= |sizes|
  {
    if sizes != [] {
      SumsAtLeastCount(sizes[..|sizes| - 1]);
    }
  }

  /** The averages of the first pass are at least one pixel, so the scales divided by them are defined. */
  lemma MeansPositive(sizes: seq<Size>, fallback: int)
    requires fallback > 0
    requires forall k :: 0 <= k < |sizes| ==> sizes[k].width >= 1 && sizes[k].height >= 1
    ensures MeanWidth(sizes, fallback) >= 1.0 && MeanHeight(sizes, fallback) >= 1.0
  {
    SumsAtLeastCount(sizes);
  }

  /** The scale that fits the average content size into a `tileSize` square. */
  function BaseScale(tileSize: int, avgWidth: real, avgHeight: real): real
    requires avgWidth > 0.0 && avgHeight > 0.0
  {
    MinReal(tileSize as real / avgWidth, tileSize as real / avgHeight)
  }

  /** One side scaled by `baseScale`, cut back to the square, as a ratio of the side. */
  function CutRatio(tileSize: int, baseScale: real, side: int): real
    requires side > 0
  {
    MinReal(side as real * baseScale, tileSize as real) / side as real
  }

  /**
   * The second pass's scale for a `w` × `h` content: each side scaled by the
   * base scale and cut back to the square, and the smaller of the two
   * resulting ratios kept.
   */
  function ContentScale(tileSize: int, avgWidth: real, avgHeight: real, w: int, h: int): real
    requires avgWidth > 0.0 && avgHeight > 0.0 && w > 0 && h > 0
  {
    var baseScale := BaseScale(tileSize, avgWidth, avgHeight);
    MinReal(CutRatio(tileSize, baseScale, w), CutRatio(tileSize, baseScale, h))
  }

  lemma CutRatioBounds(tileSize: int, baseScale: real, side: int)
    requires tileSize > 0 && baseScale > 0.0 && side > 0
    ensures var r := CutRatio(tileSize, baseScale, side);
      0.0 < r <= baseScale && side as real * r <= tileSize as real
  {
    var t, sr := tileSize as real, side as real;
    var cut := MinReal(sr * baseScale, t);
    assert cut > 0.0;
    DivPositive(cut, sr);
    DivMonotone(cut, sr * baseScale, sr);
    DivMulCancel(baseScale, sr);
    MulDivCancel(cut, sr);
  }

  /** The final scale never exceeds the shared base scale, and the scaled content fits the square. */
  lemma ContentScaleBounds(tileSize: int, avgWidth: real, avgHeight: real, w: int, h: int)
    requires tileSize > 0 && avgWidth > 0.0 && avgHeight > 0.0 && w > 0 && h > 0
    ensures var s := ContentScale(tileSize, avgWidth, avgHeight, w, h);
      && 0.0 < s <= BaseScale(tileSize, avgWidth, avgHeight)
      && w as real * s <= tileSize as real && h as real * s <= tileSize as real
  {
    DivPositive(tileSize as real, avgWidth);
    DivPositive(tileSize as real, avgHeight);
    var baseScale := BaseScale(tileSize, avgWidth, avgHeight);
    var rw, rh := CutRatio(tileSize, baseScale, w), CutRatio(tileSize, baseScale, h);
    CutRatioBounds(tileSize, baseScale, w);
    CutRatioBounds(tileSize, baseScale, h);
    var s := MinReal(rw, rh);
    MulMonotone(w as real, s, rw);
    MulMonotone(h as real, s, rh);
  }

  /** What the second pass records for cell `i`, given the averages of the first pass. */
  function ContentCellAdjustment(i: int, original: Rect, target: Rect, bounds: Option<TileBounds>, tileSize: int,
                                 avgWidth: real, avgHeight: real): TileAdjustment
    requires NonEmpty(bounds) && avgWidth > 0.0 && avgHeight > 0.0
  {
    match bounds
    case None => CopyAdjustment(i, original, target)
    case Some(b) =>
      var detected := DetectedRect(original, b);
      ScaledAdjustment(i, original, target, detected,
                       ContentScale(tileSize, avgWidth, avgHeight, detected.width, detected.height), tileSize)
  }

  /** Cell `i` as adjustWithContentDetection records it, given the averages of the first pass. */
  function ContentAdjustmentAt(c: TemplateConfig, source: Raster, cols: int, i: int, avgWidth: real, avgHeight: real): TileAdjustment
    requires ValidConfig(c) && ValidRaster(source) && cols > 0 && i >= 0
    requires avgWidth > 0.0 && avgHeight > 0.0
  {
    ContentCellAdjustment(i, CellSource(c, source, cols, i), CellRect(c, cols, i), CellBounds(c, source, cols, i), c.tileSize,
                          avgWidth, avgHeight)
  }

  /** Cell by cell, what the second pass records. */
  function ContentAdjustmentOfCell(c: TemplateConfig, source: Raster, cols: int, avgWidth: real, avgHeight: real)
    : nat --> TileAdjustment
  {
    (k: nat) requires ValidConfig(c) && ValidRaster(source) && cols > 0 && avgWidth > 0.0 && avgHeight > 0.0 =>
      ContentAdjustmentAt(c, source, cols, k, avgWidth, avgHeight)
  }

  /** The second pass's record of cells 0 … n-1, in order. */
  function ContentAdjustmentsUpTo(c: TemplateConfig, source: Raster, cols: int, n: nat, avgWidth: real, avgHeight: real)
    : (adjustments: seq<TileAdjustment>)
    requires ValidConfig(c) && ValidRaster(source) && cols > 0
    requires avgWidth > 0.0 && avgHeight > 0.0
    ensures |adjustments| == n
  {
    Tabulate(ContentAdjustmentOfCell(c, source, cols, avgWidth, avgHeight), n)
  }

  /** Entry k of the second pass's record is the content-scaled adjustment of cell k. */
  lemma ContentAdjustmentsUpToAt(c: TemplateConfig, source: Raster, cols: int, n: nat, avgWidth: real, avgHeight: real)
    requires ValidConfig(c) && ValidRaster(source) && cols > 0
    requires avgWidth > 0.0 && avgHeight > 0.0
    ensures forall k :: 0 <= k < n ==>
      ContentAdjustmentsUpTo(c, source, cols, n, avgWidth, avgHeight)[k] == ContentAdjustmentAt(c, source, cols, k, avgWidth, avgHeight)
  {
    TabulateAt(ContentAdjustmentOfCell(c, source, cols, avgWidth, avgHeight), n);
  }

  /**
   * What the second pass records for a cell is that cell: it draws within
   * the cell, centred, at a uniform scale no larger than the shared base
   * scale, with the scaled content within the cell on both axes.
   */
  lemma ContentCellAdjustmentFits(i: int, original: Rect, target: Rect, bounds: Option<TileBounds>, tileSize: int,
                                  avgWidth: real, avgHeight: real)
    requires tileSize > 0 && target.width == tileSize && target.height == tileSize && NonEmpty(bounds)
    requires avgWidth > 0.0 && avgHeight > 0.0
    ensures var a := ContentCellAdjustment(i, original, target, bounds, tileSize, avgWidth, avgHeight);
      && a.index == i && a.original == original
      && BoxWithin(a.adjusted, BoxOf(target))
      && a.scale.x == a.scale.y && a.offset.x >= 0.0 && a.offset.y >= 0.0
      && (a.detected.None? <==> bounds.None?)
      && (a.detected.None? ==> a.adjusted == BoxOf(target) && a.scale == Vec2(1.0, 1.0) && a.offset == Vec2(0.0, 0.0))
      && (a.detected.Some? ==>
            && 0.0 < a.scale.x <= BaseScale(tileSize, avgWidth, avgHeight)
            && a.adjusted.x - target.x as real == (target.x + tileSize) as real - (a.adjusted.x + a.adjusted.width)
            && a.adjusted.y - target.y as real == (target.y + tileSize) as real - (a.adjusted.y + a.adjusted.height))
  {
    match bounds
    case None =>
    case Some(b) =>
      var detected := DetectedRect(original, b);
      var s := ContentScale(tileSize, avgWidth, avgHeight, detected.width, detected.height);
      ContentScaleBounds(tileSize, avgWidth, avgHeight, detected.width, detected.height);
      ScaledAdjustmentCentred(i, original, target, detected, s, tileSize);
  }

  /** The number of recorded adjustments whose content was detected. */
  function CountDetected(adjustments: seq<TileAdjustment>): nat
  {
    if adjustments == [] then 0
    else CountDetected(adjustments[..|adjustments| - 1]) + if adjustments[|adjustments| - 1].detected.Some? then 1 else 0
  }

  /** The first pass records one size for each cell in which the second pass detects content. */
  lemma {:induction false} DetectedSizesCount(found: seq<Option<TileBounds>>, adjustments: seq<TileAdjustment>)
    requires |adjustments| == |found|
    requires forall k :: 0 <= k < |found| ==> (adjustments[k].detected.Some? <==> found[k].Some?)
    ensures |DetectedSizes(found)| == CountDetected(adjustments)
  {
    if found != [] {
      DetectedSizesCount(found[..|found| - 1], adjustments[..|adjustments| - 1]);
    }
  }

  /** When all content found has one size, the first pass records only that size. */
  lemma {:induction false} DetectedSizesUniform(found: seq<Option<TileBounds>>, size: Size)
    requires forall k :: 0 <= k < |found| && found[k].Some? ==> SizeOf(found[k].value) == size
    ensures forall k :: 0 <= k < |DetectedSizes(found)| ==> DetectedSizes(found)[k] == size
  {
    if found != [] {
      DetectedSizesUniform(found[..|found| - 1], size);
    }
  }

  /** A cell with content contributes to the first pass's record. */
  lemma {:induction false} DetectedSizesCountsCell(found: seq<Option<TileBounds>>, i: int)
    requires 0 <= i < |found| && found[i].Some?
    ensures |DetectedSizes(found)| > 0
  {
    if i < |found| - 1 {
      DetectedSizesCountsCell(found[..|found| - 1], i);
    }
  }

  /** n equal values average to that value. */
  lemma AverageOfEqual(n: int, v: int)
    requires n > 0
    ensures (n * v) as real / n as real == v as real
  {
    assert (n * v) as real == n as real * v as real;
    DivMulCancel(v as real, n as real);
  }

  lemma {:induction false} SumsOfUniform(sizes: seq<Size>, size: Size)
    requires forall k :: 0 <= k < |sizes| ==> sizes[k] == size
    ensures SumWidths(sizes) == |sizes| * size.width && SumHeights(sizes) == |sizes| * size.height
  {
    if sizes != [] {
      SumsOfUniform(sizes[..|sizes| - 1], size);
    }
  }

  /** With the average equal to the content's own size, the second pass's scale is adjust's scale. */
  lemma ContentScaleOfOwnSize(tileSize: int, w: int, h: int)
    requires tileSize > 0 && w > 0 && h > 0
    ensures ContentScale(tileSize, w as real, h as real, w, h) == FitScale(tileSize, w, h)
  {
    var s := FitScale(tileSize, w, h);
    FitScaleFits(tileSize, w, h);
    DivMulCancel(s, w as real);
    DivMulCancel(s, h as real);
  }

  /**
   * If all content found on the sheet has one and the same size, the
   * two-pass variant records for every cell exactly what the per-cell adjust
   * records.
   */
  lemma UniformContentAgrees(found: seq<Option<TileBounds>>, size: Size, i: int, original: Rect, target: Rect, tileSize: int)
    requires tileSize > 0 && size.width >= 1 && size.height >= 1
    requires forall k :: 0 <= k < |found| && found[k].Some? ==> SizeOf(found[k].value) == size
    requires 0 <= i < |found| && NonEmpty(found[i])
    ensures var sizes := DetectedSizes(found);
      MeanWidth(sizes, tileSize) > 0.0 && MeanHeight(sizes, tileSize) > 0.0
      && ContentCellAdjustment(i, original, target, found[i], tileSize, MeanWidth(sizes, tileSize), MeanHeight(sizes, tileSize))
         == CellAdjustment(i, original, target, found[i], tileSize)
  {
    var sizes := DetectedSizes(found);
    DetectedSizesUniform(found, size);
    SumsOfUniform(sizes, size);
    if |sizes| > 0 {
      AverageOfEqual(|sizes|, size.width);
      AverageOfEqual(|sizes|, size.height);
    }
    if found[i].Some? {
      DetectedSizesCountsCell(found, i);
      ContentScaleOfOwnSize(tileSize, size.width, size.height);
    }
  }

  // ---------------------------------------------------------------------
  // The adjuster
  // ---------------------------------------------------------------------

  class AutoAdjuster {
    const config: TemplateConfig

    constructor (config: TemplateConfig)
      ensures this.config == config
    {
      this.config := config;
    }

    /** Cell `i`'s source region, estimated from the image size, and the bounds of the content found in it. */
    method DetectCell(source: Raster, cols: int, i: int) returns (sourceRect: Rect, bounds: Option<TileBounds>)
      requires ValidConfig(config) && ValidRaster(source) && cols > 0 && i >= 0
      ensures sourceRect == CellSource(config, source, cols, i)
      ensures bounds == CellBounds(config, source, cols, i)
    {
      sourceRect := EstimateSourceTileRect(config, source.width, source.height, i, cols);
      bounds := DetectContentBounds(GetImageData(source, sourceRect), sourceRect, DEFAULT_ALPHA_THRESHOLD);
    }

    /** One step of adjust: fits cell `i` and draws its content (or its whole source region) onto `result`. */
    method FitCell(result: ImageProcessor, source: Raster, cols: int, i: int) returns (adjustment: TileAdjustment)
      requires ValidConfig(config) && ValidRaster(source) && cols > 0 && i >= 0
      modifies result
      ensures adjustment == AdjustmentAt(config, source, cols, i)
      ensures result.commands == old(result.commands) + [BlitOf(adjustment)]
    {
      var tileSize := config.tileSize;
      var targetRect := CellRect(config, cols, i);
      var sourceRect, bounds := DetectCell(source, cols, i);
      adjustment := CellAdjustment(i, sourceRect, targetRect, bounds, tileSize);
      var blit := BlitOf(adjustment);
      result.DrawImage(blit.source, blit.dest);
    }

    /** One step of the second pass: fits cell `i` by the averages of the first pass and draws it onto `result`. */
    method FitContentCell(result: ImageProcessor, source: Raster, cols: int, i: int, avgWidth: real, avgHeight: real)
      returns (adjustment: TileAdjustment)
      requires ValidConfig(config) && ValidRaster(source) && cols > 0 && i >= 0
      requires avgWidth > 0.0 && avgHeight > 0.0
      modifies result
      ensures adjustment == ContentAdjustmentAt(config, source, cols, i, avgWidth, avgHeight)
      ensures result.commands == old(result.commands) + [BlitOf(adjustment)]
    {
      var tileSize := config.tileSize;
      var targetRect := CellRect(config, cols, i);
      var sourceRect, bounds := DetectCell(source, cols, i);
      adjustment := ContentCellAdjustment(i, sourceRect, targetRect, bounds, tileSize, avgWidth, avgHeight);
      var blit := BlitOf(adjustment);
      result.DrawImage(blit.source, blit.dest);
    }

    /**
     * Fits every cell of the template: the content found in the cell's source
     * region is drawn at the largest uniform scale that fits the cell, centred;
     * a cell without content gets its whole source region.
     */
    method Adjust(source: Raster) returns (result: ImageProcessor, adjustments: seq<TileAdjustment>)
      requires ValidConfig(config) && ValidRaster(source)
      ensures fresh(result)
      ensures result.width == GetDimensions(config).width && result.height == GetDimensions(config).height
      ensures |adjustments| == GetDimensions(config).cols * GetDimensions(config).rows
      ensures forall i :: 0 <= i < |adjustments| ==> adjustments[i] == AdjustmentAt(config, source, GetDimensions(config).cols, i)
      ensures |result.commands| == |adjustments|
      ensures forall i :: 0 <= i < |adjustments| ==> result.commands[i] == BlitOf(adjustments[i])
    {
      var dimensions := GetDimensions(config);
      result := new ImageProcessor(dimensions.width, dimensions.height);
      adjustments := [];
      var cols := dimensions.cols;
      var totalTiles := dimensions.cols * dimensions.rows;

      var i := 0;
      while i < totalTiles
        invariant 0 <= i <= totalTiles
        invariant adjustments == AdjustmentsUpTo(config, source, cols, i)
        invariant result.commands == Blits(adjustments)
      {
        var adjustment := FitCell(result, source, cols, i);
        BlitsSnoc(adjustments, adjustment);
        adjustments := adjustments + [adjustment];
        i := i + 1;
      }
      BlitsAt(adjustments);
      AdjustmentsUpToAt(config, source, cols, totalTiles);
    }

    /** The first pass of the two-pass variant: the content size of every cell that has content, in cell order. */
    method DetectSizes(source: Raster) returns (detectedSizes: seq<Size>)
      requires ValidConfig(config) && ValidRaster(source)
      ensures var d := GetDimensions(config);
        detectedSizes == DetectedSizes(FoundBounds(config, source, d.cols, d.cols * d.rows))
    {
      var dimensions := GetDimensions(config);
      var cols := dimensions.cols;
      var totalTiles := dimensions.cols * dimensions.rows;
      detectedSizes := [];
      var i := 0;
      while i < totalTiles
        invariant 0 <= i <= totalTiles
        invariant detectedSizes == DetectedSizes(FoundBounds(config, source, cols, i))
      {
        detectedSizes := MeasureCell(source, cols, i, detectedSizes);
        i := i + 1;
      }
    }

    /** One step of the first pass: finds the content of cell `i` and records its size when there is some. */
    method MeasureCell(source: Raster, cols: int, i: nat, detectedSizes: seq<Size>) returns (extended: seq<Size>)
      requires ValidConfig(config) && ValidRaster(source) && cols > 0
      requires detectedSizes == DetectedSizes(FoundBounds(config, source, cols, i))
      ensures extended == DetectedSizes(FoundBounds(config, source, cols, i + 1))
    {
      var sourceRect, bounds := DetectCell(source, cols, i);
      DetectedSizesStep(config, source, cols, i, bounds);
      extended := detectedSizes;
      if bounds.Some? {
        extended := extended + [SizeOf(bounds.value)];
      }
    }

    /**
     * The two-pass variant: the first pass records the content size of every
     * cell that has content; the second draws each cell's content at a scale
     * derived from the average of those sizes, cut back so it fits the cell.
     */
    method AdjustWithContentDetection(source: Raster) returns (result: ImageProcessor, adjustments: seq<TileAdjustment>)
      requires ValidConfig(config) && ValidRaster(source)
      ensures fresh(result)
      ensures result.width == GetDimensions(config).width && result.height == GetDimensions(config).height
      ensures var d := GetDimensions(config); var sizes := DetectedSizes(FoundBounds(config, source, d.cols, d.cols * d.rows));
        && MeanWidth(sizes, config.tileSize) > 0.0 && MeanHeight(sizes, config.tileSize) > 0.0
        && |adjustments| == d.cols * d.rows
        && (forall i :: 0 <= i < |adjustments| ==>
              adjustments[i] == ContentAdjustmentAt(config, source, d.cols, i, MeanWidth(sizes, config.tileSize), MeanHeight(sizes, config.tileSize)))
      ensures |result.commands| == |adjustments|
      ensures forall i :: 0 <= i < |adjustments| ==> result.commands[i] == BlitOf(adjustments[i])
    {
      var tileSize := config.tileSize;
      var dimensions := GetDimensions(config);
      result := new ImageProcessor(dimensions.width, dimensions.height);
      var cols := dimensions.cols;
      var totalTiles := dimensions.cols * dimensions.rows;

      var detectedSizes := DetectSizes(source);
      var avgWidth := tileSize as real;
      var avgHeight := tileSize as real;
      if |detectedSizes| > 0 {
        avgWidth := SumWidths(detectedSizes) as real / |detectedSizes| as real;
        avgHeight := SumHeights(detectedSizes) as real / |detectedSizes| as real;
      }
      FoundBoundsNonEmpty(config, source, cols, totalTiles);
      DetectedSizesPositive(FoundBounds(config, source, cols, totalTiles));
      MeansPositive(detectedSizes, tileSize);
      adjustments := FitByAverage(result, source, avgWidth, avgHeight);
      ContentAdjustmentsUpToAt(config, source, cols, totalTiles, avgWidth, avgHeight);
    }

    /** The second pass of the two-pass variant: every cell fitted by the averages of the first pass, in cell order. */
    method FitByAverage(result: ImageProcessor, source: Raster, avgWidth: real, avgHeight: real) returns (adjustments: seq<TileAdjustment>)
      requires ValidConfig(config) && ValidRaster(source)
      requires avgWidth > 0.0 && avgHeight > 0.0
      requires result.commands == []
      modifies result
      ensures var d := GetDimensions(config);
        adjustments == ContentAdjustmentsUpTo(config, source, d.cols, d.cols * d.rows, avgWidth, avgHeight)
      ensures |result.commands| == |adjustments|
      ensures forall i :: 0 <= i < |adjustments| ==> result.commands[i] == BlitOf(adjustments[i])
    {
      var dimensions := GetDimensions(config);
      var cols := dimensions.cols;
      var totalTiles := dimensions.cols * dimensions.rows;
      adjustments := [];
      var i := 0;
      while i < totalTiles
        invariant 0 <= i <= totalTiles
        invariant adjustments == ContentAdjustmentsUpTo(config, source, cols, i, avgWidth, avgHeight)
        invariant result.commands == Blits(adjustments)
      {
        var adjustment := FitContentCell(result, source, cols, i, avgWidth, avgHeight);
        BlitsSnoc(adjustments, adjustment);
        adjustments := adjustments + [adjustment];
        i := i + 1;
      }
      BlitsAt(adjustments);
    }
  }
}
