/**
 * The image-processing layer: colours, rectangles, a canvas that records what
 * is drawn on it, the alpha-bounds scan over an RGBA pixel buffer, and the
 * hexadecimal colour codec.
 */
module ImageProcessing {

  /** One unsigned 8-bit channel or buffer entry. */
  newtype byte = x: int | 0 <= x < 256

  datatype Option<T> = None | Some(value: T)

  /** An RGBA colour with 8-bit channels. */
  datatype Color = Color(r: byte, g: byte, b: byte, a: byte)

  /** An integer pixel rectangle: source regions and template cells. */
  datatype Rect = Rect(x: int, y: int, width: int, height: int)

  /** Inclusive bounds of the content found in a region, in the region's local coordinates. */
  datatype TileBounds = TileBounds(minX: int, minY: int, maxX: int, maxY: int)

  /** Canvas coordinates are JavaScript numbers; the model uses exact reals. */
  datatype Point = Point(x: real, y: real)

  datatype Box = Box(x: real, y: real, width: real, height: real)

  function BoxOf(r: Rect): Box
  {
    Box(r.x as real, r.y as real, r.width as real, r.height as real)
  }

  datatype Shape =
    | RectShape(box: Box)
    | PolygonShape(vertices: seq<Point>)
    | LineShape(from: Point, to: Point, lineWidth: real)

  /** What the canvas is asked to do: fill or stroke a shape, or blit part of the source image. */
  datatype DrawCommand =
    | Paint(shape: Shape, color: Color)
    | Blit(source: Box, dest: Box)

  /**
   * A canvas of fixed size. Rasterisation is the browser's business; the model
   * keeps the ordered list of drawing commands the canvas has received.
   */
  class ImageProcessor {
    const width: int
    const height: int
    var commands: seq<DrawCommand>

    constructor (width: int, height: int)
      ensures this.width == width && this.height == height
      ensures commands == []
    {
      this.width := width;
      this.height := height;
      commands := [];
    }

    method FillRect(rect: Box, color: Color)
      modifies this
      ensures commands == old(commands) + [Paint(RectShape(rect), color)]
    {
      commands := commands + [Paint(RectShape(rect), color)];
    }

    /** A path of straight segments, closed and filled. */
    method FillPolygon(vertices: seq<Point>, color: Color)
      modifies this
      ensures commands == old(commands) + [Paint(PolygonShape(vertices), color)]
    {
      commands := commands + [Paint(PolygonShape(vertices), color)];
    }

    method DrawLine(x1: real, y1: real, x2: real, y2: real, color: Color, lineWidth: real)
      modifies this
      ensures commands == old(commands) + [Paint(LineShape(Point(x1, y1), Point(x2, y2), lineWidth), color)]
    {
      commands := commands + [Paint(LineShape(Point(x1, y1), Point(x2, y2), lineWidth), color)];
    }

    /** Copies the `source` region of the source image, rescaled, onto `dest`. */
    method DrawImage(source: Box, dest: Box)
      modifies this
      ensures commands == old(commands) + [Blit(source, dest)]
    {
      commands := commands + [Blit(source, dest)];
    }
  }

  predicate BoxCovers(b: Box, p: Point)
  {
    b.x <= p.x < b.x + b.width && b.y <= p.y < b.y + b.height
  }

  /**
   * The colour of the last rectangle fill that covers `p`. Fills overwrite
   * what lies under them, so with opaque colours this is the colour `p` shows
   * when no polygon, line or image has been drawn over it.
   */
  function PaintedColor(cmds: seq<DrawCommand>, p: Point): Option<Color>
  {
    if cmds == [] then None
    else
      var last := cmds[|cmds| - 1];
      if last.Paint? && last.shape.RectShape? && BoxCovers(last.shape.box, p) then Some(last.color)
      else PaintedColor(cmds[..|cmds| - 1], p)
  }

  /** A later command list paints over an earlier one. */
  lemma {:induction false} PaintedColorAppend(a: seq<DrawCommand>, b: seq<DrawCommand>, p: Point)
    ensures PaintedColor(a + b, p) == if PaintedColor(b, p).Some? then PaintedColor(b, p) else PaintedColor(a, p)
    decreases |b|
  {
    if b == [] {
      assert a + b == a;
    } else {
      assert (a + b)[..|a + b| - 1] == a + b[..|b| - 1];
      PaintedColorAppend(a, b[..|b| - 1], p);
    }
  }

  // ---------------------------------------------------------------------
  // Pixel buffers and the content-bounds scan
  // ---------------------------------------------------------------------

  const DEFAULT_ALPHA_THRESHOLD: int := 10

  lemma PixelIndexInRange(width: int, height: int, x: int, y: int)
    requires 0 <= x < width && 0 <= y < height
    ensures 0 <= (y * width + x) * 4 + 3 < width * height * 4
  {
    assert y * width <= (height - 1) * width by {
      assert (height - 1 - y) * width >= 0;
    }
  }

  /** The alpha byte of local pixel (x, y) of a row-major RGBA buffer `width` pixels wide. */
  function Alpha(data: seq<byte>, width: int, height: int, x: int, y: int): byte
    requires |data| == width * height * 4
    requires 0 <= x < width && 0 <= y < height
  {
    PixelIndexInRange(width, height, x, y);
    data[(y * width + x) * 4 + 3]
  }

  /** A pixel has content when it lies in the region and its alpha is strictly above the threshold. */
  predicate IsContent(data: seq<byte>, width: int, height: int, threshold: int, x: int, y: int)
    requires |data| == width * height * 4
  {
    0 <= x < width && 0 <= y < height && Alpha(data, width, height, x, y) as int > threshold
  }

  /** The content test of a buffer, as a map over pixel coordinates. */
  function ContentMap(data: seq<byte>, width: int, height: int, threshold: int): (int, int) -> bool
    requires |data| == width * height * 4
  {
    (x: int, y: int) => IsContent(data, width, height, threshold, x, y)
  }

  /** The scan's variables: hasContent, minX, minY, maxX, maxY. */
  datatype ScanState = ScanState(hasContent: bool, minX: int, minY: int, maxX: int, maxY: int)

  /** The scan's update for pixel (x, y). */
  function ScanStep(s: ScanState, x: int, y: int, content: bool): ScanState
  {
    if content then
      ScanState(true,
                if x < s.minX then x else s.minX,
                if y < s.minY then y else s.minY,
                if x > s.maxX then x else s.maxX,
                if y > s.maxY then y else s.maxY)
    else s
  }

  /** The position (y, x) can be reached by the row-major scan. */
  predicate ScanPosition(width: int, height: int, y: int, x: int)
  {
    width >= 0 && height >= 0 && ((0 <= y < height && 0 <= x <= width) || (y == height && x == 0))
  }

  /**
   * The scan state after every pixel of rows 0..y-1 and pixels 0..x-1 of row y
   * has been visited in row-major order.
   */
  function Scan(content: (int, int) -> bool, width: int, height: int, y: int, x: int): (s: ScanState)
    requires ScanPosition(width, height, y, x)
    ensures !s.hasContent ==> s == ScanState(false, width, height, 0, 0)
    ensures s.hasContent ==> 0 <= s.minX <= s.maxX < width && 0 <= s.minY <= s.maxY < height
    decreases y, x
  {
    if x == 0 then
      if y == 0 then ScanState(false, width, height, 0, 0)
      else Scan(content, width, height, y - 1, width)
    else
      ScanStep(Scan(content, width, height, y, x - 1), x - 1, y, content(x - 1, y))
  }

  /** Pixel (px, py) is a content pixel of the region visited before position (y, x). */
  predicate ContentBefore(content: (int, int) -> bool, width: int, height: int, y: int, x: int, px: int, py: int)
  {
    0 <= px < width && 0 <= py < height && (py < y || (py == y && px < x)) && content(px, py)
  }

  /** What the scan state means: the tight bounds of the content pixels visited so far. */
  ghost predicate ScanMeaning(content: (int, int) -> bool, width: int, height: int, y: int, x: int, s: ScanState)
  {
    && (s.hasContent <==> exists px, py :: ContentBefore(content, width, height, y, x, px, py))
    && (!s.hasContent ==> s == ScanState(false, width, height, 0, 0))
    && (s.hasContent ==>
          && 0 <= s.minX <= s.maxX < width && 0 <= s.minY <= s.maxY < height
          && (forall px, py :: ContentBefore(content, width, height, y, x, px, py) ==>
                s.minX <= px <= s.maxX && s.minY <= py <= s.maxY)
          && (exists py :: ContentBefore(content, width, height, y, x, s.minX, py))
          && (exists py :: ContentBefore(content, width, height, y, x, s.maxX, py))
          && (exists px :: ContentBefore(content, width, height, y, x, px, s.minY))
          && (exists px :: ContentBefore(content, width, height, y, x, px, s.maxY)))
  }

  lemma {:induction false} ScanIsTightBounds(content: (int, int) -> bool, width: int, height: int, y: int, x: int)
    requires ScanPosition(width, height, y, x)
    ensures ScanMeaning(content, width, height, y, x, Scan(content, width, height, y, x))
    decreases y, x
  {
    if x == 0 {
      if y == 0 {
        assert forall px, py :: !ContentBefore(content, width, height, y, x, px, py);
      } else {
        ScanIsTightBounds(content, width, height, y - 1, width);
        ScanRowWraps(content, width, height, y, Scan(content, width, height, y - 1, width));
      }
    } else {
      ScanIsTightBounds(content, width, height, y, x - 1);
      var s0 := Scan(content, width, height, y, x - 1);
      if content(x - 1, y) {
        if s0.hasContent {
          ScanStepWidens(content, width, height, y, x, s0);
        } else {
          ScanStepFirst(content, width, height, y, x, s0);
        }
      } else {
        ScanStepSkips(content, width, height, y, x, s0);
      }
    }
  }

  /** Finishing row y - 1 and starting row y have visited the same pixels. */
  lemma ScanRowWraps(content: (int, int) -> bool, width: int, height: int, y: int, s0: ScanState)
    requires 0 < y <= height && width >= 0
    requires ScanMeaning(content, width, height, y - 1, width, s0)
    ensures ScanMeaning(content, width, height, y, 0, s0)
  {
    forall px, py | ContentBefore(content, width, height, y, 0, px, py)
      ensures ContentBefore(content, width, height, y - 1, width, px, py)
    {
    }
    if s0.hasContent {
      var a :| ContentBefore(content, width, height, y - 1, width, s0.minX, a);
      var b :| ContentBefore(content, width, height, y - 1, width, s0.maxX, b);
      var c :| ContentBefore(content, width, height, y - 1, width, c, s0.minY);
      var d :| ContentBefore(content, width, height, y - 1, width, d, s0.maxY);
      assert ContentBefore(content, width, height, y, 0, s0.minX, a);
      assert ContentBefore(content, width, height, y, 0, s0.maxX, b);
      assert ContentBefore(content, width, height, y, 0, c, s0.minY);
      assert ContentBefore(content, width, height, y, 0, d, s0.maxY);
    }
  }

  /** A pixel without content leaves the state, and its meaning, unchanged. */
  lemma ScanStepSkips(content: (int, int) -> bool, width: int, height: int, y: int, x: int, s0: ScanState)
    requires 0 <= y < height && 0 < x <= width
    requires ScanMeaning(content, width, height, y, x - 1, s0)
    requires !content(x - 1, y)
    ensures ScanMeaning(content, width, height, y, x, s0)
  {
    forall px, py | ContentBefore(content, width, height, y, x, px, py)
      ensures ContentBefore(content, width, height, y, x - 1, px, py)
    {
    }
    if s0.hasContent {
      var a :| ContentBefore(content, width, height, y, x - 1, s0.minX, a);
      var b :| ContentBefore(content, width, height, y, x - 1, s0.maxX, b);
      var c :| ContentBefore(content, width, height, y, x - 1, c, s0.minY);
      var d :| ContentBefore(content, width, height, y, x - 1, d, s0.maxY);
      assert ContentBefore(content, width, height, y, x, s0.minX, a);
      assert ContentBefore(content, width, height, y, x, s0.maxX, b);
      assert ContentBefore(content, width, height, y, x, c, s0.minY);
      assert ContentBefore(content, width, height, y, x, d, s0.maxY);
    }
  }

  /** The first content pixel found sets all four bounds to itself. */
  lemma ScanStepFirst(content: (int, int) -> bool, width: int, height: int, y: int, x: int, s0: ScanState)
    requires 0 <= y < height && 0 < x <= width
    requires ScanMeaning(content, width, height, y, x - 1, s0) && !s0.hasContent
    requires content(x - 1, y)
    ensures ScanMeaning(content, width, height, y, x, ScanStep(s0, x - 1, y, true))
  {
    assert ContentBefore(content, width, height, y, x, x - 1, y);
    forall px, py | ContentBefore(content, width, height, y, x, px, py)
      ensures px == x - 1 && py == y
    {
      if !(px == x - 1 && py == y) {
        assert ContentBefore(content, width, height, y, x - 1, px, py);
      }
    }
  }

  /** A further content pixel widens the bounds to include it. */
  lemma ScanStepWidens(content: (int, int) -> bool, width: int, height: int, y: int, x: int, s0: ScanState)
    requires 0 <= y < height && 0 < x <= width
    requires ScanMeaning(content, width, height, y, x - 1, s0) && s0.hasContent
    requires content(x - 1, y)
    ensures ScanMeaning(content, width, height, y, x, ScanStep(s0, x - 1, y, true))
  {
    assert ContentBefore(content, width, height, y, x, x - 1, y);
    assert forall px, py :: ContentBefore(content, width, height, y, x, px, py) ==>
      ContentBefore(content, width, height, y, x - 1, px, py) || (px == x - 1 && py == y);
    var a :| ContentBefore(content, width, height, y, x - 1, s0.minX, a);
    var b :| ContentBefore(content, width, height, y, x - 1, s0.maxX, b);
    var c :| ContentBefore(content, width, height, y, x - 1, c, s0.minY);
    var d :| ContentBefore(content, width, height, y, x - 1, d, s0.maxY);
    assert ContentBefore(content, width, height, y, x, s0.minX, a);
    assert ContentBefore(content, width, height, y, x, s0.maxX, b);
    assert ContentBefore(content, width, height, y, x, c, s0.minY);
    assert ContentBefore(content, width, height, y, x, d, s0.maxY);
  }

  /** The result of scanning the whole region for pixels whose alpha exceeds `threshold`. */
  function ContentBounds(data: seq<byte>, width: int, height: int, threshold: int): (r: Option<TileBounds>)
    requires width >= 0 && height >= 0 && |data| == width * height * 4
    ensures r.Some? ==> 0 <= r.value.minX <= r.value.maxX < width && 0 <= r.value.minY <= r.value.maxY < height
  {
    var s := Scan(ContentMap(data, width, height, threshold), width, height, height, 0);
    if s.hasContent then Some(TileBounds(s.minX, s.minY, s.maxX, s.maxY)) else None
  }

  /** `r` is the tight bounding box of the content pixels of the region, or None when there are none. */
  ghost predicate IsTightContentBounds(data: seq<byte>, width: int, height: int, threshold: int, r: Option<TileBounds>)
    requires |data| == width * height * 4
  {
    && (r.None? <==> forall px, py :: !IsContent(data, width, height, threshold, px, py))
    && (r.Some? ==>
          var b := r.value;
          && 0 <= b.minX <= b.maxX < width && 0 <= b.minY <= b.maxY < height
          && (forall px, py :: IsContent(data, width, height, threshold, px, py) ==>
                b.minX <= px <= b.maxX && b.minY <= py <= b.maxY)
          && (exists py :: IsContent(data, width, height, threshold, b.minX, py))
          && (exists py :: IsContent(data, width, height, threshold, b.maxX, py))
          && (exists px :: IsContent(data, width, height, threshold, px, b.minY))
          && (exists px :: IsContent(data, width, height, threshold, px, b.maxY)))
  }

  lemma ContentBoundsAreTight(data: seq<byte>, width: int, height: int, threshold: int)
    requires width >= 0 && height >= 0 && |data| == width * height * 4
    ensures IsTightContentBounds(data, width, height, threshold, ContentBounds(data, width, height, threshold))
  {
    var content := ContentMap(data, width, height, threshold);
    ScanIsTightBounds(content, width, height, height, 0);
    assert forall px, py :: ContentBefore(content, width, height, height, 0, px, py) <==>
      IsContent(data, width, height, threshold, px, py);
  }

  /**
   * Scans every pixel of `rect`, whose RGBA pixels `data` holds in row-major
   * order (what the canvas returns for the region), and returns the tight
   * bounding box of the pixels whose alpha exceeds `alphaThreshold`, or None.
   */
  method DetectContentBounds(data: seq<byte>, rect: Rect, alphaThreshold: int) returns (bounds: Option<TileBounds>)
    requires rect.width >= 0 && rect.height >= 0
    requires |data| == rect.width * rect.height * 4
    ensures bounds == ContentBounds(data, rect.width, rect.height, alphaThreshold)
    ensures IsTightContentBounds(data, rect.width, rect.height, alphaThreshold, bounds)
  {
    var width := rect.width;
    var height := rect.height;
    ghost var content := ContentMap(data, width, height, alphaThreshold);
    var minX, minY, maxX, maxY := width, height, 0, 0;
    var hasContent := false;

    var y := 0;
    while y < height
      invariant 0 <= y <= height
      invariant ScanState(hasContent, minX, minY, maxX, maxY) == Scan(content, width, height, y, 0)
    {
      var x := 0;
      while x < width
        invariant 0 <= x <= width
        invariant ScanState(hasContent, minX, minY, maxX, maxY) == Scan(content, width, height, y, x)
      {
        PixelIndexInRange(width, height, x, y);
        var idx := (y * width + x) * 4;
        var alpha := data[idx + 3];
        if alpha as int > alphaThreshold {
          hasContent := true;
          if x < minX { minX := x; }
          if y < minY { minY := y; }
          if x > maxX { maxX := x; }
          if y > maxY { maxY := y; }
        }
        x := x + 1;
      }
      y := y + 1;
    }

    if !hasContent {
      bounds := None;
    } else {
      bounds := Some(TileBounds(minX, minY, maxX, maxY));
    }
    ContentBoundsAreTight(data, width, height, alphaThreshold);
  }

  /** A buffer whose only non-transparent pixel is a fully opaque one at (px, py). */
  function SinglePixelImage(width: nat, height: nat, px: nat, py: nat): (data: seq<byte>)
    ensures |data| == width * height * 4
  {
    seq(width * height * 4, i => if i == (py * width + px) * 4 + 3 then 255 as byte else 0 as byte)
  }

  lemma MulAtLeast(a: int, w: int)
    requires a >= 1 && w >= 0
    ensures a * w >= w
  {
    assert a * w == (a - 1) * w + w;
  }

  lemma RowMajorInjective(width: int, x: int, y: int, px: int, py: int)
    requires 0 <= x < width && 0 <= px < width && 0 <= y && 0 <= py
    requires y * width + x == py * width + px
    ensures x == px && y == py
  {
    if y > py {
      assert y * width == (y - py) * width + py * width;
      MulAtLeast(y - py, width);
    } else if y < py {
      assert py * width == (py - y) * width + y * width;
      MulAtLeast(py - y, width);
    }
  }

  /** A single opaque pixel is its own bounding box. */
  lemma SinglePixelBounds(width: nat, height: nat, px: nat, py: nat)
    requires px < width && py < height
    ensures ContentBounds(SinglePixelImage(width, height, px, py), width, height, DEFAULT_ALPHA_THRESHOLD)
            == Some(TileBounds(px, py, px, py))
  {
    var data := SinglePixelImage(width, height, px, py);
    forall x, y | IsContent(data, width, height, DEFAULT_ALPHA_THRESHOLD, x, y)
      ensures x == px && y == py
    {
      PixelIndexInRange(width, height, x, y);
      RowMajorInjective(width, x, y, px, py);
    }
    PixelIndexInRange(width, height, px, py);
    assert IsContent(data, width, height, DEFAULT_ALPHA_THRESHOLD, px, py);
    ContentBoundsAreTight(data, width, height, DEFAULT_ALPHA_THRESHOLD);
  }

  // ---------------------------------------------------------------------
  // Reading a region of an image
  // ---------------------------------------------------------------------

  /** The pixels of an image: `width` × `height` RGBA pixels in row-major order. */
  datatype Raster = Raster(width: int, height: int, data: seq<byte>)

  predicate ValidRaster(img: Raster)
  {
    img.width >= 0 && img.height >= 0 && |img.data| == img.width * img.height * 4
  }

  /** Channel `channel` of pixel (x, y) of the image; pixels outside it read as transparent black. */
  function PixelByte(img: Raster, x: int, y: int, channel: int): byte
    requires ValidRaster(img) && 0 <= channel < 4
  {
    if 0 <= x < img.width && 0 <= y < img.height then
      PixelIndexInRange(img.width, img.height, x, y);
      img.data[(y * img.width + x) * 4 + channel]
    else 0
  }

  /** The RGBA bytes of row `row` of `rect`, left to right. */
  function RegionRow(img: Raster, rect: Rect, row: int): (bytes: seq<byte>)
    requires ValidRaster(img) && rect.width >= 0
    ensures |bytes| == rect.width * 4
  {
    seq(rect.width * 4, k requires 0 <= k => PixelByte(img, rect.x + k / 4, rect.y + row, k % 4))
  }

  /** The canvas's getImageData: the RGBA pixels of `rect`, row-major. */
  function GetImageData(img: Raster, rect: Rect): (data: seq<byte>)
    requires ValidRaster(img) && rect.width >= 0 && rect.height >= 0
    ensures |data| == rect.width * rect.height * 4
    decreases rect.height
  {
    if rect.height == 0 then []
    else
      var upper := rect.(height := rect.height - 1);
      assert rect.width * rect.height * 4 == upper.width * upper.height * 4 + rect.width * 4;
      GetImageData(img, upper) + RegionRow(img, rect, rect.height - 1)
  }

  // ---------------------------------------------------------------------
  // Hexadecimal colour codec
  // ---------------------------------------------------------------------

  predicate IsHexDigit(c: char)
  {
    '0' <= c <= '9' || 'a' <= c <= 'f' || 'A' <= c <= 'F'
  }

  predicate IsLowerHexDigit(c: char)
  {
    '0' <= c <= '9' || 'a' <= c <= 'f'
  }

  /** The value of a hexadecimal digit, either case. */
  function HexDigitValue(c: char): (v: int)
    requires IsHexDigit(c)
    ensures 0 <= v < 16
  {
    if '0' <= c <= '9' then c as int - '0' as int
    else if 'a' <= c <= 'f' then c as int - 'a' as int + 10
    else c as int - 'A' as int + 10
  }

  /** The lower-case digit of a value below 16. */
  function LowerHexDigit(n: int): (c: char)
    requires 0 <= n < 16
    ensures IsLowerHexDigit(c) && IsHexDigit(c) && HexDigitValue(c) == n
  {
    if n < 10 then (n + '0' as int) as char else (n - 10 + 'a' as int) as char
  }

  function ToLowerHexDigit(c: char): (d: char)
    requires IsHexDigit(c)
    ensures IsLowerHexDigit(d) && HexDigitValue(d) == HexDigitValue(c)
  {
    if 'A' <= c <= 'F' then (c as int - 'A' as int + 'a' as int) as char else c
  }

  /** What follows the optional leading '#'. */
  function HexBody(hex: string): string
  {
    if |hex| > 0 && hex[0] == '#' then hex[1..] else hex
  }

  /** The pattern `^#?([a-f\d]{2})([a-f\d]{2})([a-f\d]{2})$`, case-insensitive. */
  predicate MatchesHexColor(hex: string)
  {
    var body := HexBody(hex);
    |body| == 6 && forall i :: 0 <= i < 6 ==> IsHexDigit(body[i])
  }

  /** The byte written by the two digits s[i], s[i+1]. */
  function ParseHexByte(s: string, i: int): byte
    requires 0 <= i && i + 1 < |s| && IsHexDigit(s[i]) && IsHexDigit(s[i + 1])
  {
    (HexDigitValue(s[i]) * 16 + HexDigitValue(s[i + 1])) as byte
  }

  /**
   * Parses "#rrggbb" or "rrggbb" (either case) to an opaque colour; anything
   * else yields opaque black.
   */
  function HexToColor(hex: string): (c: Color)
    ensures c.a == 255
    ensures !MatchesHexColor(hex) ==> c == Color(0, 0, 0, 255)
  {
    if !MatchesHexColor(hex) then Color(0, 0, 0, 255)
    else
      var body := HexBody(hex);
      Color(ParseHexByte(body, 0), ParseHexByte(body, 2), ParseHexByte(body, 4), 255)
  }

  /** Number.prototype.toString(16) on a non-negative integer. */
  function ToRadix16(n: nat): (s: string)
    ensures |s| >= 1
    decreases n
  {
    if n < 16 then [LowerHexDigit(n)] else ToRadix16(n / 16) + [LowerHexDigit(n % 16)]
  }

  /** String.prototype.padStart. */
  function PadStart(s: string, targetLength: nat, fill: char): (t: string)
    ensures |t| == if |s| >= targetLength then |s| else targetLength
  {
    if |s| >= targetLength then s else seq(targetLength - |s|, _ => fill) + s
  }

  /** One channel as two hexadecimal digits: `n.toString(16).padStart(2, '0')`. */
  function ToHex(n: byte): string
  {
    PadStart(ToRadix16(n as nat), 2, '0')
  }

  lemma ToHexDigits(n: byte)
    ensures ToHex(n) == [LowerHexDigit(n as int / 16), LowerHexDigit(n as int % 16)]
  {
    if n < 16 {
      assert ToRadix16(n as nat) == [LowerHexDigit(n as int)];
    } else {
      assert ToRadix16(n as nat / 16) == [LowerHexDigit(n as int / 16)];
    }
  }

  /** Formats the red, green and blue channels as "#rrggbb". */
  function ColorToHex(c: Color): (s: string)
    ensures |s| == 7 && s[0] == '#'
    ensures forall i :: 1 <= i < 7 ==> IsLowerHexDigit(s[i])
    ensures MatchesHexColor(s)
  {
    ToHexDigits(c.r);
    ToHexDigits(c.g);
    ToHexDigits(c.b);
    "#" + ToHex(c.r) + ToHex(c.g) + ToHex(c.b)
  }

  /** Formatting then parsing keeps the colour channels and makes the colour opaque. */
  lemma ColorHexRoundTrip(c: Color)
    ensures HexToColor(ColorToHex(c)) == Color(c.r, c.g, c.b, 255)
  {
    var s := ColorToHex(c);
    ToHexDigits(c.r);
    ToHexDigits(c.g);
    ToHexDigits(c.b);
    var body := HexBody(s);
    assert body == ToHex(c.r) + ToHex(c.g) + ToHex(c.b);
    assert ParseHexByte(body, 0) == c.r;
    assert ParseHexByte(body, 2) == c.g;
    assert ParseHexByte(body, 4) == c.b;
  }

  /** Formatting the byte written by two digits gives the same digits in lower case. */
  lemma HexPairRoundTrip(s: string, i: int)
    requires 0 <= i && i + 1 < |s| && IsHexDigit(s[i]) && IsHexDigit(s[i + 1])
    ensures ToHex(ParseHexByte(s, i)) == [ToLowerHexDigit(s[i]), ToLowerHexDigit(s[i + 1])]
  {
    var hi := HexDigitValue(s[i]);
    var lo := HexDigitValue(s[i + 1]);
    assert (hi * 16 + lo) / 16 == hi && (hi * 16 + lo) % 16 == lo;
    ToHexDigits(ParseHexByte(s, i));
  }

  /** Parsing then formatting an accepted string gives its digits in lower case, with a leading '#'. */
  lemma HexColorRoundTrip(hex: string)
    requires MatchesHexColor(hex)
    ensures ColorToHex(HexToColor(hex)) == "#" + seq(6, i requires 0 <= i < 6 => ToLowerHexDigit(HexBody(hex)[i]))
  {
    var body := HexBody(hex);
    var lower := seq(6, i requires 0 <= i < 6 => ToLowerHexDigit(body[i]));
    HexPairRoundTrip(body, 0);
    HexPairRoundTrip(body, 2);
    HexPairRoundTrip(body, 4);
    assert lower == [lower[0], lower[1]] + [lower[2], lower[3]] + [lower[4], lower[5]];
  }
}
