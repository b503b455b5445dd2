/**
 * The template generator: template configuration, grid dimensions and cell
 * placement, the paint decisions of a single autotile, the platformer
 * template's slope geometry, and the preview grid lines.
 */
module Templates {
  import opened ImageProcessing
  import opened AutotileLayout

  datatype TileFormat = Format16 | Format47 | Platformer

  datatype DetailedBorderColors = DetailedBorderColors(top: Color, bottom: Color, left: Color, right: Color, corner: Color)

  datatype TemplateConfig = TemplateConfig(
    tileFormat: TileFormat,
    tileSize: int,
    padding: int,
    offset: int,
    fillColor: Color,
    borderColor: Color,
    borderWidth: int,
    detailedColorMode: bool,
    detailedColors: Option<DetailedBorderColors>)

  /**
   * The configurations the user interface produces: a positive tile size,
   * non-negative padding and offset, and a border at most half a tile wide.
   */
  predicate ValidConfig(c: TemplateConfig)
  {
    c.tileSize > 0 && c.padding >= 0 && c.offset >= 0 && 0 <= c.borderWidth && 2 * c.borderWidth <= c.tileSize
  }

  // ---------------------------------------------------------------------
  // Dimensions and cell placement
  // ---------------------------------------------------------------------

  datatype Dimensions = Dimensions(width: int, height: int, cols: int, rows: int)

  /** The template's canvas size and grid: 4×4 for 16 tiles, 8×6 for 47, 7×7 for the platformer set. */
  function GetDimensions(c: TemplateConfig): (d: Dimensions)
    ensures c.tileFormat == Format16 ==> d.cols == 4 && d.rows == 4
    ensures c.tileFormat == Format47 ==> d.cols == 8 && d.rows == 6
    ensures c.tileFormat == Platformer ==> d.cols == 7 && d.rows == 7
    ensures d.width == c.offset + d.cols * (c.tileSize + c.padding)
    ensures d.height == c.offset + d.rows * (c.tileSize + c.padding)
  {
    var cols := if c.tileFormat == Platformer then 7 else if c.tileFormat == Format16 then 4 else 8;
    var rows := if c.tileFormat == Platformer then 7 else if c.tileFormat == Format16 then 4 else 6;
    Dimensions(c.offset + cols * (c.tileSize + c.padding), c.offset + rows * (c.tileSize + c.padding), cols, rows)
  }

  /** Cell `i` of a grid `cols` wide: column i % cols, row i / cols. */
  function CellRect(c: TemplateConfig, cols: int, i: int): Rect
    requires cols > 0
  {
    var pitch := c.tileSize + c.padding;
    Rect(c.offset + (i % cols) * pitch, c.offset + (i / cols) * pitch, c.tileSize, c.tileSize)
  }

  /** The mask table a non-platformer template draws. */
  function LayoutEdges(f: TileFormat): (edges: seq<TileEdge>)
    requires f != Platformer
    ensures f == Format16 ==> edges == TILE_16_EDGES
    ensures f == Format47 ==> edges == TILE_47_EDGES
  {
    if f == Format16 then TILE_16_EDGES else TILE_47_EDGES
  }

  lemma MulMonotone(a: int, b: int, k: int)
    requires a <= b && k >= 0
    ensures a * k <= b * k
  {
    assert b * k - a * k == (b - a) * k;
  }

  /** Slot `a` of `n` slots spaced `pitch` apart from `start` lies within the span of the `n` slots. */
  lemma SlotInside(a: int, n: int, pitch: int, size: int, start: int)
    requires 0 <= a < n && 0 <= size <= pitch && 0 <= start
    ensures 0 <= start + a * pitch && start + a * pitch + size <= start + n * pitch
  {
    MulMonotone(a, n - 1, pitch);
    MulMonotone(0, a, pitch);
  }

  /** Two different slots spaced `pitch` apart hold intervals of length at most `pitch` that do not overlap. */
  lemma SlotsApart(a: int, b: int, pitch: int, size: int, start: int)
    requires a != b && 0 <= size <= pitch
    ensures start + a * pitch + size <= start + b * pitch || start + b * pitch + size <= start + a * pitch
  {
    if a < b {
      MulMonotone(a + 1, b, pitch);
    } else {
      MulMonotone(b + 1, a, pitch);
    }
  }

  lemma RowBelowCount(i: int, cols: int, rows: int)
    requires cols > 0 && 0 <= i < cols * rows
    ensures 0 <= i / cols < rows
  {
    if i / cols >= rows {
      MulMonotone(rows, i / cols, cols);
    }
  }

  lemma DivModDistinct(i: int, j: int, cols: int)
    requires cols > 0 && i != j
    ensures i / cols != j / cols || i % cols != j % cols
  {
    assert i == (i / cols) * cols + i % cols && j == (j / cols) * cols + j % cols;
  }

  /** Every cell of the grid lies inside the canvas. */
  lemma CellInsideCanvas(c: TemplateConfig, i: int)
    requires ValidConfig(c)
    requires 0 <= i < GetDimensions(c).cols * GetDimensions(c).rows
    ensures var d := GetDimensions(c); var r := CellRect(c, d.cols, i);
      0 <= r.x && r.x + r.width <= d.width && 0 <= r.y && r.y + r.height <= d.height
  {
    var d := GetDimensions(c);
    var pitch := c.tileSize + c.padding;
    RowBelowCount(i, d.cols, d.rows);
    SlotInside(i % d.cols, d.cols, pitch, c.tileSize, c.offset);
    SlotInside(i / d.cols, d.rows, pitch, c.tileSize, c.offset);
  }

  /** Two different cells of the grid do not overlap. */
  lemma CellsDisjoint(c: TemplateConfig, cols: int, i: int, j: int)
    requires ValidConfig(c) && cols > 0
    requires 0 <= i && 0 <= j && i != j
    ensures var a := CellRect(c, cols, i); var b := CellRect(c, cols, j);
      a.x + a.width <= b.x || b.x + b.width <= a.x || a.y + a.height <= b.y || b.y + b.height <= a.y
  {
    var pitch := c.tileSize + c.padding;
    DivModDistinct(i, j, cols);
    if i % cols != j % cols {
      SlotsApart(i % cols, j % cols, pitch, c.tileSize, c.offset);
    } else {
      SlotsApart(i / cols, j / cols, pitch, c.tileSize, c.offset);
    }
  }

  /** The mask table of each format fits its grid: 16 masks in 16 cells, 47 masks in 48 cells. */
  lemma LayoutFitsGrid(c: TemplateConfig)
    requires c.tileFormat != Platformer
    ensures |LayoutEdges(c.tileFormat)| <= GetDimensions(c).cols * GetDimensions(c).rows
    ensures c.tileFormat == Format47 ==> GetDimensions(c).cols * GetDimensions(c).rows - |LayoutEdges(c.tileFormat)| == 1
  {
    Tile47Shape();
  }

  // ---------------------------------------------------------------------
  // Painting one autotile
  // ---------------------------------------------------------------------

  datatype EdgePosition = TopEdge | BottomEdge | LeftEdge | RightEdge | CornerEdge

  /** The colour for a border part: the detailed colour when detailed mode is on and detailed colours exist. */
  function GetBorderColor(c: TemplateConfig, edge: EdgePosition): (color: Color)
    ensures !(c.detailedColorMode && c.detailedColors.Some?) ==> color == c.borderColor
    ensures c.detailedColorMode && c.detailedColors.Some? ==>
      var d := c.detailedColors.value;
      color == match edge
        case TopEdge => d.top
        case BottomEdge => d.bottom
        case LeftEdge => d.left
        case RightEdge => d.right
        case CornerEdge => d.corner
  {
    if c.detailedColorMode && c.detailedColors.Some? then
      var d := c.detailedColors.value;
      match edge
      case TopEdge => d.top
      case BottomEdge => d.bottom
      case LeftEdge => d.left
      case RightEdge => d.right
      case CornerEdge => d.corner
    else c.borderColor
  }

  function FillCommand(r: Rect, color: Color): DrawCommand
  {
    Paint(RectShape(BoxOf(r)), color)
  }

  /** A fill of `r` in `color` when `cond` holds, nothing otherwise. */
  function FillIf(cond: bool, r: Rect, color: Color): seq<DrawCommand>
  {
    if cond then [FillCommand(r, color)] else []
  }

  /** A conditional fill shows its colour exactly on the points `r` covers, and only when it is issued. */
  lemma FillIfColor(cond: bool, r: Rect, color: Color, p: Point)
    ensures PaintedColor(FillIf(cond, r, color), p) == if cond && BoxCovers(BoxOf(r), p) then Some(color) else None
  {
  }

  /** Both sides beside a corner are open: the corner gets an outer-corner square. */
  predicate OuterCorner(e: TileEdge, side1: TileEdge, side2: TileEdge)
  {
    !Has(e, side1) && !Has(e, side2)
  }

  /** In the 47-tile format, both sides beside a corner connect but the diagonal does not: an inner-corner square. */
  predicate InnerCorner(c: TemplateConfig, e: TileEdge, side1: TileEdge, side2: TileEdge, diagonal: TileEdge)
  {
    c.tileFormat == Format47 && Has(e, side1) && Has(e, side2) && !Has(e, diagonal)
  }

  /** drawTile's first fills: the whole tile, then a stripe on each open side (top, right, bottom, left). */
  function StripeCommands(c: TemplateConfig, x: int, y: int, e: TileEdge): seq<DrawCommand>
  {
    var t := c.tileSize;
    var bw := c.borderWidth;
    [FillCommand(Rect(x, y, t, t), c.fillColor)]
    + FillIf(!Has(e, TOP), Rect(x, y, t, bw), GetBorderColor(c, TopEdge))
    + FillIf(!Has(e, RIGHT), Rect(x + t - bw, y, bw, t), GetBorderColor(c, RightEdge))
    + FillIf(!Has(e, BOTTOM), Rect(x, y + t - bw, t, bw), GetBorderColor(c, BottomEdge))
    + FillIf(!Has(e, LEFT), Rect(x, y, bw, t), GetBorderColor(c, LeftEdge))
  }

  /** The four corner squares of a tile at (x, y), clockwise from the top left. */
  function CornerSquare(c: TemplateConfig, x: int, y: int, k: Corner): Rect
  {
    var t := c.tileSize;
    var bw := c.borderWidth;
    match k
    case TopLeft => Rect(x, y, bw, bw)
    case TopRight => Rect(x + t - bw, y, bw, bw)
    case BottomRight => Rect(x + t - bw, y + t - bw, bw, bw)
    case BottomLeft => Rect(x, y + t - bw, bw, bw)
  }

  datatype Corner = TopLeft | TopRight | BottomRight | BottomLeft

  /** The two sides that meet at a corner, and the diagonal between them. */
  function CornerSides(k: Corner): (TileEdge, TileEdge, TileEdge)
  {
    match k
    case TopLeft => (TOP, LEFT, TOP_LEFT)
    case TopRight => (TOP, RIGHT, TOP_RIGHT)
    case BottomRight => (BOTTOM, RIGHT, BOTTOM_RIGHT)
    case BottomLeft => (BOTTOM, LEFT, BOTTOM_LEFT)
  }

  /** The corner squares for which `painted` holds, clockwise from the top left, in the corner colour. */
  function CornerFills(c: TemplateConfig, x: int, y: int, painted: Corner -> bool): seq<DrawCommand>
  {
    var corner := GetBorderColor(c, CornerEdge);
    FillIf(painted(TopLeft), CornerSquare(c, x, y, TopLeft), corner)
    + FillIf(painted(TopRight), CornerSquare(c, x, y, TopRight), corner)
    + FillIf(painted(BottomRight), CornerSquare(c, x, y, BottomRight), corner)
    + FillIf(painted(BottomLeft), CornerSquare(c, x, y, BottomLeft), corner)
  }

  /** drawTile's outer-corner squares: where both adjacent sides are open. */
  function OuterCornerCommands(c: TemplateConfig, x: int, y: int, e: TileEdge): seq<DrawCommand>
  {
    CornerFills(c, x, y, k => OuterSquare(e, k))
  }

  /** drawTile's inner-corner squares: on the 47-tile format, where both adjacent sides connect but the diagonal does not. */
  function InnerCornerCommands(c: TemplateConfig, x: int, y: int, e: TileEdge): seq<DrawCommand>
  {
    CornerFills(c, x, y, k => InnerSquare(c, e, k))
  }

  /** The outer-corner fill for one corner, if that corner gets one. */
  function OuterFill(c: TemplateConfig, x: int, y: int, e: TileEdge, k: Corner): seq<DrawCommand>
  {
    FillIf(OuterSquare(e, k), CornerSquare(c, x, y, k), GetBorderColor(c, CornerEdge))
  }

  lemma OuterCornerCommandsSplit(c: TemplateConfig, x: int, y: int, e: TileEdge)
    ensures OuterCornerCommands(c, x, y, e) ==
      OuterFill(c, x, y, e, TopLeft) + OuterFill(c, x, y, e, TopRight) + OuterFill(c, x, y, e, BottomRight) + OuterFill(c, x, y, e, BottomLeft)
  {
  }

  /** The inner-corner fill for one corner, if that corner gets one. */
  function InnerFill(c: TemplateConfig, x: int, y: int, e: TileEdge, k: Corner): seq<DrawCommand>
  {
    FillIf(InnerSquare(c, e, k), CornerSquare(c, x, y, k), GetBorderColor(c, CornerEdge))
  }

  lemma InnerCornerCommandsSplit(c: TemplateConfig, x: int, y: int, e: TileEdge)
    ensures InnerCornerCommands(c, x, y, e) ==
      InnerFill(c, x, y, e, TopLeft) + InnerFill(c, x, y, e, TopRight) + InnerFill(c, x, y, e, BottomRight) + InnerFill(c, x, y, e, BottomLeft)
  {
  }

  /** drawTile paints in three stages: 0, the fill and the stripes; 1, the outer corners; 2, the inner corners. */
  function TileStage(c: TemplateConfig, x: int, y: int, e: TileEdge, k: nat): seq<DrawCommand>
    requires k < 3
  {
    if k == 0 then StripeCommands(c, x, y, e)
    else if k == 1 then OuterCornerCommands(c, x, y, e)
    else InnerCornerCommands(c, x, y, e)
  }

  /** The fills of drawTile's first n stages, in order. */
  function TileStages(c: TemplateConfig, x: int, y: int, e: TileEdge, n: nat): seq<DrawCommand>
    requires n <= 3
  {
    if n == 0 then [] else TileStages(c, x, y, e, n - 1) + TileStage(c, x, y, e, n - 1)
  }

  /** Every fill drawTile issues for a tile at (x, y) with connections `e`, in order. */
  function TileCommands(c: TemplateConfig, x: int, y: int, e: TileEdge): seq<DrawCommand>
  {
    TileStages(c, x, y, e, 3)
  }

  lemma TileCommandsInStages(c: TemplateConfig, x: int, y: int, e: TileEdge)
    ensures TileCommands(c, x, y, e) == StripeCommands(c, x, y, e) + OuterCornerCommands(c, x, y, e) + InnerCornerCommands(c, x, y, e)
  {
    assert TileStages(c, x, y, e, 1) == StripeCommands(c, x, y, e);
    assert TileStages(c, x, y, e, 2) == StripeCommands(c, x, y, e) + OuterCornerCommands(c, x, y, e);
  }

  /** Where a coordinate falls across a tile: the near border band, the middle, or the far border band. */
  datatype Band = Near | Middle | Far

  function BandOf(v: real, start: int, size: int, bw: int): Band
  {
    if v < (start + bw) as real then Near
    else if v < (start + size - bw) as real then Middle
    else Far
  }

  /** The colour of an edge stripe: the border colour when that side is open, else the tile fill. */
  function SideColor(c: TemplateConfig, e: TileEdge, side: TileEdge, edge: EdgePosition): Color
  {
    if !Has(e, side) then GetBorderColor(c, edge) else c.fillColor
  }

  /**
   * The colour of a corner square where `earlier` and `later` stripes meet
   * (`later` is painted after `earlier`): the corner colour for an outer or
   * inner corner, else the later stripe, else the earlier one, else the fill.
   */
  function CornerColor(c: TemplateConfig, e: TileEdge, earlier: TileEdge, earlierEdge: EdgePosition,
                       later: TileEdge, laterEdge: EdgePosition, diagonal: TileEdge): Color
  {
    if OuterCorner(e, earlier, later) || InnerCorner(c, e, earlier, later, diagonal) then GetBorderColor(c, CornerEdge)
    else if !Has(e, later) then GetBorderColor(c, laterEdge)
    else SideColor(c, e, earlier, earlierEdge)
  }

  /** The colour a tile shows in each of its nine regions, read off the connection mask. */
  function ExpectedTileColor(c: TemplateConfig, e: TileEdge, hBand: Band, vBand: Band): Color
  {
    match (hBand, vBand)
    case (Middle, Middle) => c.fillColor
    case (Middle, Near) => SideColor(c, e, TOP, TopEdge)
    case (Middle, Far) => SideColor(c, e, BOTTOM, BottomEdge)
    case (Near, Middle) => SideColor(c, e, LEFT, LeftEdge)
    case (Far, Middle) => SideColor(c, e, RIGHT, RightEdge)
    case (Near, Near) => CornerColor(c, e, TOP, TopEdge, LEFT, LeftEdge, TOP_LEFT)
    case (Far, Near) => CornerColor(c, e, TOP, TopEdge, RIGHT, RightEdge, TOP_RIGHT)
    case (Far, Far) => CornerColor(c, e, RIGHT, RightEdge, BOTTOM, BottomEdge, BOTTOM_RIGHT)
    case (Near, Far) => CornerColor(c, e, BOTTOM, BottomEdge, LEFT, LeftEdge, BOTTOM_LEFT)
  }

  predicate InTile(x: int, y: int, size: int, p: Point)
  {
    BoxCovers(BoxOf(Rect(x, y, size, size)), p)
  }

  /** The colour the stripe fills leave at a point of the tile: the last open-side stripe covering it, else the fill. */
  function StripeColor(c: TemplateConfig, e: TileEdge, hBand: Band, vBand: Band): Color
  {
    if hBand == Near && !Has(e, LEFT) then GetBorderColor(c, LeftEdge)
    else if vBand == Far && !Has(e, BOTTOM) then GetBorderColor(c, BottomEdge)
    else if hBand == Far && !Has(e, RIGHT) then GetBorderColor(c, RightEdge)
    else if vBand == Near && !Has(e, TOP) then GetBorderColor(c, TopEdge)
    else c.fillColor
  }

  /** The corner square a region of the tile lies in, if any. */
  function CornerOf(hBand: Band, vBand: Band): Option<Corner>
  {
    match (hBand, vBand)
    case (Near, Near) => Some(TopLeft)
    case (Far, Near) => Some(TopRight)
    case (Far, Far) => Some(BottomRight)
    case (Near, Far) => Some(BottomLeft)
    case _ => None
  }

  predicate OuterSquare(e: TileEdge, k: Corner)
  {
    var (side1, side2, _) := CornerSides(k);
    OuterCorner(e, side1, side2)
  }

  predicate InnerSquare(c: TemplateConfig, e: TileEdge, k: Corner)
  {
    var (side1, side2, diagonal) := CornerSides(k);
    InnerCorner(c, e, side1, side2, diagonal)
  }

  /** A conditional fill over earlier commands shows its colour where it applies and covers, the earlier colour elsewhere. */
  lemma LayerOver(a: seq<DrawCommand>, cond: bool, r: Rect, color: Color, p: Point)
    ensures PaintedColor(a + FillIf(cond, r, color), p) == if cond && BoxCovers(BoxOf(r), p) then Some(color) else PaintedColor(a, p)
  {
    FillIfColor(cond, r, color, p);
    PaintedColorAppend(a, FillIf(cond, r, color), p);
  }

  /** Four optional fills over a base: a point shows the last fill that covers it, else what the base shows. */
  lemma FourLayers(base: seq<DrawCommand>,
                   c1: bool, r1: Rect, k1: Color, c2: bool, r2: Rect, k2: Color,
                   c3: bool, r3: Rect, k3: Color, c4: bool, r4: Rect, k4: Color, p: Point)
    ensures PaintedColor(base + FillIf(c1, r1, k1) + FillIf(c2, r2, k2) + FillIf(c3, r3, k3) + FillIf(c4, r4, k4), p) ==
      if c4 && BoxCovers(BoxOf(r4), p) then Some(k4)
      else if c3 && BoxCovers(BoxOf(r3), p) then Some(k3)
      else if c2 && BoxCovers(BoxOf(r2), p) then Some(k2)
      else if c1 && BoxCovers(BoxOf(r1), p) then Some(k1)
      else PaintedColor(base, p)
  {
    LayerOver(base, c1, r1, k1, p);
    LayerOver(base + FillIf(c1, r1, k1), c2, r2, k2, p);
    LayerOver(base + FillIf(c1, r1, k1) + FillIf(c2, r2, k2), c3, r3, k3, p);
    LayerOver(base + FillIf(c1, r1, k1) + FillIf(c2, r2, k2) + FillIf(c3, r3, k3), c4, r4, k4, p);
  }

  /** The four stripes of a tile, as seen from a point: which band of the tile the point lies in. */
  lemma StripeBands(x: int, y: int, t: int, bw: int, p: Point)
    requires 0 <= bw && 2 * bw <= t
    ensures BoxCovers(BoxOf(Rect(x, y, t, bw)), p) <==> InTile(x, y, t, p) && BandOf(p.y, y, t, bw) == Near
    ensures BoxCovers(BoxOf(Rect(x + t - bw, y, bw, t)), p) <==> InTile(x, y, t, p) && BandOf(p.x, x, t, bw) == Far
    ensures BoxCovers(BoxOf(Rect(x, y + t - bw, t, bw)), p) <==> InTile(x, y, t, p) && BandOf(p.y, y, t, bw) == Far
    ensures BoxCovers(BoxOf(Rect(x, y, bw, t)), p) <==> InTile(x, y, t, p) && BandOf(p.x, x, t, bw) == Near
  {
  }

  /** The stripe fills, layer by layer: the last open-side stripe over the point wins, then the tile fill. */
  lemma StripeLayers(c: TemplateConfig, x: int, y: int, e: TileEdge, p: Point)
    ensures var t := c.tileSize; var bw := c.borderWidth;
      PaintedColor(StripeCommands(c, x, y, e), p) ==
        if !Has(e, LEFT) && BoxCovers(BoxOf(Rect(x, y, bw, t)), p) then Some(GetBorderColor(c, LeftEdge))
        else if !Has(e, BOTTOM) && BoxCovers(BoxOf(Rect(x, y + t - bw, t, bw)), p) then Some(GetBorderColor(c, BottomEdge))
        else if !Has(e, RIGHT) && BoxCovers(BoxOf(Rect(x + t - bw, y, bw, t)), p) then Some(GetBorderColor(c, RightEdge))
        else if !Has(e, TOP) && BoxCovers(BoxOf(Rect(x, y, t, bw)), p) then Some(GetBorderColor(c, TopEdge))
        else if InTile(x, y, t, p) then Some(c.fillColor)
        else None
  {
    var t := c.tileSize;
    var bw := c.borderWidth;
    FourLayers([FillCommand(Rect(x, y, t, t), c.fillColor)],
      !Has(e, TOP), Rect(x, y, t, bw), GetBorderColor(c, TopEdge),
      !Has(e, RIGHT), Rect(x + t - bw, y, bw, t), GetBorderColor(c, RightEdge),
      !Has(e, BOTTOM), Rect(x, y + t - bw, t, bw), GetBorderColor(c, BottomEdge),
      !Has(e, LEFT), Rect(x, y, bw, t), GetBorderColor(c, LeftEdge), p);
  }

  /** After the stripes, each point of the tile shows the last open-side stripe over it, or the fill; nothing outside the tile. */
  lemma StripeColors(c: TemplateConfig, x: int, y: int, e: TileEdge, p: Point)
    requires 0 <= c.borderWidth && 2 * c.borderWidth <= c.tileSize
    ensures PaintedColor(StripeCommands(c, x, y, e), p) ==
      if InTile(x, y, c.tileSize, p)
      then Some(StripeColor(c, e, BandOf(p.x, x, c.tileSize, c.borderWidth), BandOf(p.y, y, c.tileSize, c.borderWidth)))
      else None
  {
    StripeLayers(c, x, y, e, p);
    StripeBands(x, y, c.tileSize, c.borderWidth, p);
  }

  /** Corner square k covers exactly the points of the tile in k's corner region. */
  lemma CornerSquareCovers(c: TemplateConfig, x: int, y: int, k: Corner, p: Point)
    requires 0 <= c.borderWidth && 2 * c.borderWidth <= c.tileSize
    ensures BoxCovers(BoxOf(CornerSquare(c, x, y, k)), p) <==>
      InTile(x, y, c.tileSize, p)
      && CornerOf(BandOf(p.x, x, c.tileSize, c.borderWidth), BandOf(p.y, y, c.tileSize, c.borderWidth)) == Some(k)
  {
  }

  /** One corner-square fill shows its colour exactly on that corner's region, when it is issued. */
  lemma CornerFillColor(c: TemplateConfig, x: int, y: int, k: Corner, cond: bool, color: Color, p: Point)
    requires 0 <= c.borderWidth && 2 * c.borderWidth <= c.tileSize
    ensures PaintedColor(FillIf(cond, CornerSquare(c, x, y, k), color), p) ==
      if cond && InTile(x, y, c.tileSize, p)
         && CornerOf(BandOf(p.x, x, c.tileSize, c.borderWidth), BandOf(p.y, y, c.tileSize, c.borderWidth)) == Some(k)
      then Some(color) else None
  {
    FillIfColor(cond, CornerSquare(c, x, y, k), color, p);
    CornerSquareCovers(c, x, y, k, p);
  }

  /** The corner fills show the corner colour exactly on the regions of the painted corners. */
  lemma CornerFillsColors(c: TemplateConfig, x: int, y: int, painted: Corner -> bool, p: Point)
    requires 0 <= c.borderWidth && 2 * c.borderWidth <= c.tileSize
    ensures var k := CornerOf(BandOf(p.x, x, c.tileSize, c.borderWidth), BandOf(p.y, y, c.tileSize, c.borderWidth));
      PaintedColor(CornerFills(c, x, y, painted), p) ==
        if InTile(x, y, c.tileSize, p) && k.Some? && painted(k.value) then Some(GetBorderColor(c, CornerEdge)) else None
  {
    var corner := GetBorderColor(c, CornerEdge);
    var f1 := FillIf(painted(TopLeft), CornerSquare(c, x, y, TopLeft), corner);
    var f2 := FillIf(painted(TopRight), CornerSquare(c, x, y, TopRight), corner);
    var f3 := FillIf(painted(BottomRight), CornerSquare(c, x, y, BottomRight), corner);
    var f4 := FillIf(painted(BottomLeft), CornerSquare(c, x, y, BottomLeft), corner);
    CornerFillColor(c, x, y, TopLeft, painted(TopLeft), corner, p);
    CornerFillColor(c, x, y, TopRight, painted(TopRight), corner, p);
    CornerFillColor(c, x, y, BottomRight, painted(BottomRight), corner, p);
    CornerFillColor(c, x, y, BottomLeft, painted(BottomLeft), corner, p);
    PaintedColorAppend(f1, f2, p);
    PaintedColorAppend(f1 + f2, f3, p);
    PaintedColorAppend(f1 + f2 + f3, f4, p);
  }

  /**
   * Every point of the tile shows the colour its region calls for: a side
   * stripe exactly where the side is open, the corner colour on outer corners
   * and (47-tile format) inner corners, the fill everywhere else. Nothing is
   * painted outside the tile's square.
   */
  lemma TileColors(c: TemplateConfig, x: int, y: int, e: TileEdge, p: Point)
    requires 0 <= c.borderWidth && 2 * c.borderWidth <= c.tileSize
    ensures PaintedColor(TileCommands(c, x, y, e), p) ==
      if InTile(x, y, c.tileSize, p)
      then Some(ExpectedTileColor(c, e, BandOf(p.x, x, c.tileSize, c.borderWidth), BandOf(p.y, y, c.tileSize, c.borderWidth)))
      else None
  {
    var hb := BandOf(p.x, x, c.tileSize, c.borderWidth);
    var vb := BandOf(p.y, y, c.tileSize, c.borderWidth);
    var stripes := StripeCommands(c, x, y, e);
    var outer := OuterCornerCommands(c, x, y, e);
    StripeColors(c, x, y, e, p);
    CornerFillsColors(c, x, y, k => OuterSquare(e, k), p);
    CornerFillsColors(c, x, y, k => InnerSquare(c, e, k), p);
    PaintedColorAppend(stripes, outer, p);
    PaintedColorAppend(stripes + outer, InnerCornerCommands(c, x, y, e), p);
    TileCommandsInStages(c, x, y, e);
    RegionColors(c, e, hb, vb);
  }

  /** The stages of drawTile, layered, give each region of the tile the colour ExpectedTileColor names. */
  lemma RegionColors(c: TemplateConfig, e: TileEdge, hb: Band, vb: Band)
    ensures var k := CornerOf(hb, vb);
      ExpectedTileColor(c, e, hb, vb) ==
        if k.Some? && (OuterSquare(e, k.value) || InnerSquare(c, e, k.value)) then GetBorderColor(c, CornerEdge)
        else StripeColor(c, e, hb, vb)
  {
  }

  /** A tile connected on all four sides (and, on the 47-tile format, on all diagonals) is only filled. */
  lemma FullyConnectedIsPlain(c: TemplateConfig, x: int, y: int, e: TileEdge)
    requires e & ALL_SIDES == ALL_SIDES
    requires c.tileFormat == Format47 ==> e & DIAGONALS == DIAGONALS
    ensures TileCommands(c, x, y, e) == [FillCommand(Rect(x, y, c.tileSize, c.tileSize), c.fillColor)]
  {
    TileCommandsInStages(c, x, y, e);
  }

  /** At a corner, the outer and the inner square are never both painted. */
  lemma CornerSquaresExclusive(c: TemplateConfig, e: TileEdge, side1: TileEdge, side2: TileEdge, diagonal: TileEdge)
    ensures !(OuterCorner(e, side1, side2) && InnerCorner(c, e, side1, side2, diagonal))
  {
  }

  /** Outside the 47-tile format, a tile connected on all four sides shows only its fill, whatever its diagonals. */
  lemma InnerCornersOnlyIn47(c: TemplateConfig, x: int, y: int, e: TileEdge, p: Point)
    requires 0 <= c.borderWidth && 2 * c.borderWidth <= c.tileSize
    requires c.tileFormat != Format47
    requires e & ALL_SIDES == ALL_SIDES
    ensures PaintedColor(TileCommands(c, x, y, e), p) ==
      if InTile(x, y, c.tileSize, p) then Some(c.fillColor) else None
  {
    TileColors(c, x, y, e, p);
  }

  // ---------------------------------------------------------------------
  // The grid of tiles
  // ---------------------------------------------------------------------

  lemma ConcatAssoc(a: seq<DrawCommand>, b: seq<DrawCommand>, c: seq<DrawCommand>)
    ensures a + (b + c) == a + b + c
  {
  }

  lemma ConcatAssoc4(s: seq<DrawCommand>, a: seq<DrawCommand>, b: seq<DrawCommand>, c: seq<DrawCommand>, d: seq<DrawCommand>)
    ensures s + (a + b + c + d) == s + a + b + c + d
  {
  }

  /** drawTile's fills as a function of the tile's position and mask. */
  function TilePainter(c: TemplateConfig): (int, int, TileEdge) -> seq<DrawCommand>
  {
    (x: int, y: int, e: TileEdge) => TileCommands(c, x, y, e)
  }

  /** The fills of the first n tiles of `edges`, each drawn by `tile` at its cell of a grid `cols` wide. */
  function GridCommands(c: TemplateConfig, cols: int, edges: seq<TileEdge>, n: int,
                        tile: (int, int, TileEdge) -> seq<DrawCommand>): seq<DrawCommand>
    requires cols > 0 && 0 <= n <= |edges|
  {
    if n == 0 then []
    else
      var r := CellRect(c, cols, n - 1);
      GridCommands(c, cols, edges, n - 1, tile) + tile(r.x, r.y, edges[n - 1])
  }

  /** One more cell of the grid: the tile drawn at the cell's corner, after the earlier cells. */
  lemma GridStep(c: TemplateConfig, cols: int, edges: seq<TileEdge>, i: int, x: int, y: int,
                 tile: (int, int, TileEdge) -> seq<DrawCommand>)
    requires cols > 0 && 0 <= i < |edges|
    requires x == c.offset + (i % cols) * (c.tileSize + c.padding) && y == c.offset + (i / cols) * (c.tileSize + c.padding)
    ensures GridCommands(c, cols, edges, i + 1, tile) == GridCommands(c, cols, edges, i, tile) + tile(x, y, edges[i])
  {
    var r := CellRect(c, cols, i);
    assert r.x == x && r.y == y;
    assert GridCommands(c, cols, edges, i + 1, tile) == GridCommands(c, cols, edges, i, tile) + tile(r.x, r.y, edges[i]);
  }

  lemma TilePainterApply(c: TemplateConfig, x: int, y: int, e: TileEdge)
    ensures TilePainter(c)(x, y, e) == TileCommands(c, x, y, e)
  {
  }

  /** One step of generate's loop: tile i of the grid is drawTile's fills at its cell. */
  lemma TileGridStep(c: TemplateConfig, cols: int, edges: seq<TileEdge>, i: int, x: int, y: int)
    requires cols > 0 && 0 <= i < |edges|
    requires x == c.offset + (i % cols) * (c.tileSize + c.padding) && y == c.offset + (i / cols) * (c.tileSize + c.padding)
    ensures GridCommands(c, cols, edges, i + 1, TilePainter(c)) == GridCommands(c, cols, edges, i, TilePainter(c)) + TileCommands(c, x, y, edges[i])
  {
    GridStep(c, cols, edges, i, x, y, TilePainter(c));
    TilePainterApply(c, x, y, edges[i]);
  }

  /**
   * When each tile paints only inside its own square, then within the first
   * n cells, cell i shows its own tile, and outside every cell nothing is
   * painted.
   */
  lemma {:induction false} GridColorsUpTo(c: TemplateConfig, cols: int, edges: seq<TileEdge>, n: int,
                                          tile: (int, int, TileEdge) -> seq<DrawCommand>, p: Point)
    requires ValidConfig(c) && cols > 0 && 0 <= n <= |edges|
    requires forall x, y, e :: !InTile(x, y, c.tileSize, p) ==> PaintedColor(tile(x, y, e), p) == None
    ensures forall i :: 0 <= i < n && InTile(CellRect(c, cols, i).x, CellRect(c, cols, i).y, c.tileSize, p) ==>
      PaintedColor(GridCommands(c, cols, edges, n, tile), p) == PaintedColor(tile(CellRect(c, cols, i).x, CellRect(c, cols, i).y, edges[i]), p)
    ensures (forall i :: 0 <= i < n ==> !InTile(CellRect(c, cols, i).x, CellRect(c, cols, i).y, c.tileSize, p)) ==>
      PaintedColor(GridCommands(c, cols, edges, n, tile), p) == None
  {
    if n > 0 {
      GridColorsUpTo(c, cols, edges, n - 1, tile, p);
      var r := CellRect(c, cols, n - 1);
      PaintedColorAppend(GridCommands(c, cols, edges, n - 1, tile), tile(r.x, r.y, edges[n - 1]), p);
      if InTile(r.x, r.y, c.tileSize, p) {
        forall i | 0 <= i < n - 1
          ensures !InTile(CellRect(c, cols, i).x, CellRect(c, cols, i).y, c.tileSize, p)
        {
          CellsDisjoint(c, cols, i, n - 1);
        }
      }
    }
  }

  /**
   * In a generated 16- or 47-tile template, each point of cell i shows the
   * colour drawTile gives that point of mask i, and points in no cell
   * (offset margin, padding, the unused 48th cell) are never painted.
   */
  lemma GeneratedCellColors(c: TemplateConfig, i: int, p: Point)
    requires ValidConfig(c) && c.tileFormat != Platformer
    requires 0 <= i < |LayoutEdges(c.tileFormat)|
    requires InTile(CellRect(c, GetDimensions(c).cols, i).x, CellRect(c, GetDimensions(c).cols, i).y, c.tileSize, p)
    ensures var edges := LayoutEdges(c.tileFormat);
      var r := CellRect(c, GetDimensions(c).cols, i);
      PaintedColor(GridCommands(c, GetDimensions(c).cols, edges, |edges|, TilePainter(c)), p) ==
        Some(ExpectedTileColor(c, edges[i], BandOf(p.x, r.x, c.tileSize, c.borderWidth), BandOf(p.y, r.y, c.tileSize, c.borderWidth)))
  {
    var edges := LayoutEdges(c.tileFormat);
    var r := CellRect(c, GetDimensions(c).cols, i);
    TileOnlyInCell(c, p);
    GridColorsUpTo(c, GetDimensions(c).cols, edges, |edges|, TilePainter(c), p);
    TileColors(c, r.x, r.y, edges[i], p);
  }

  /** A generated 16- or 47-tile template paints nothing outside the cells that hold a mask. */
  lemma GeneratedOutsideCells(c: TemplateConfig, p: Point)
    requires ValidConfig(c) && c.tileFormat != Platformer
    requires forall i :: 0 <= i < |LayoutEdges(c.tileFormat)| ==>
      !InTile(CellRect(c, GetDimensions(c).cols, i).x, CellRect(c, GetDimensions(c).cols, i).y, c.tileSize, p)
    ensures var edges := LayoutEdges(c.tileFormat);
      PaintedColor(GridCommands(c, GetDimensions(c).cols, edges, |edges|, TilePainter(c)), p) == None
  {
    TileOnlyInCell(c, p);
    GridColorsUpTo(c, GetDimensions(c).cols, LayoutEdges(c.tileFormat), |LayoutEdges(c.tileFormat)|, TilePainter(c), p);
  }

  lemma TileOnlyInCell(c: TemplateConfig, p: Point)
    requires ValidConfig(c)
    ensures forall x, y, e :: !InTile(x, y, c.tileSize, p) ==> PaintedColor(TilePainter(c)(x, y, e), p) == None
  {
    forall x, y, e | !InTile(x, y, c.tileSize, p)
      ensures PaintedColor(TilePainter(c)(x, y, e), p) == None
    {
      TileColors(c, x, y, e, p);
    }
  }

  // ---------------------------------------------------------------------
  // Platformer pieces
  // ---------------------------------------------------------------------

  /** The named tiles of the platformer template's first three rows. */
  datatype PlatformerTile =
    | Floor | Ceiling | WallLeft | WallRight
    | Slope45(flipH: bool, flipV: bool)
    | Floor45(isCeiling: bool)

  /** How many tiles a multi-tile slope spreads its rise over; the heights divide by it. */
  type Divisions = d: int | d > 0 witness 1

  /** One drawing call of the platformer template. */
  datatype PlatformerCell =
    | TileCell(col: int, row: int, tile: PlatformerTile)
    | SlopeCell(col: int, row: int, divisions: Divisions, step: int, flipH: bool, flipV: bool)
    | FractionCell(col: int, row: int, fraction: real, isCeiling: bool)

  /** The heights of a multi-tile slope segment at its left and right edges, as fractions of the tile. */
  function SegmentHeights(tileSize: real, divisions: Divisions, step: int, flipH: bool): (real, real)
  {
    var startHeight := tileSize * (step as real / divisions as real);
    var endHeight := tileSize * ((step + 1) as real / divisions as real);
    if flipH then (endHeight, startHeight) else (startHeight, endHeight)
  }

  /** The outline drawMultiTileSlope traces for one segment of a slope spread over `divisions` tiles. */
  function MultiTileSlopeVertices(x: real, y: real, tileSize: real, divisions: Divisions, step: int, flipH: bool, flipV: bool): (v: seq<Point>)
    ensures |v| == 4
    ensures var (left, right) := SegmentHeights(tileSize, divisions, step, flipH);
      if !flipV then
        v[0] == Point(x, y + tileSize) && v[1] == Point(x + tileSize, y + tileSize)
        && v[2] == Point(x + tileSize, y + tileSize - right) && v[3] == Point(x, y + tileSize - left)
      else
        v[0] == Point(x, y) && v[1] == Point(x + tileSize, y)
        && v[2] == Point(x + tileSize, y + right) && v[3] == Point(x, y + left)
  {
    var startHeight := tileSize * (step as real / divisions as real);
    var endHeight := tileSize * ((step + 1) as real / divisions as real);
    if !flipV then
      if !flipH then
        [Point(x, y + tileSize), Point(x + tileSize, y + tileSize),
         Point(x + tileSize, y + tileSize - endHeight), Point(x, y + tileSize - startHeight)]
      else
        [Point(x, y + tileSize), Point(x + tileSize, y + tileSize),
         Point(x + tileSize, y + tileSize - startHeight), Point(x, y + tileSize - endHeight)]
    else
      if !flipH then
        [Point(x, y), Point(x + tileSize, y), Point(x + tileSize, y + endHeight), Point(x, y + startHeight)]
      else
        [Point(x, y), Point(x + tileSize, y), Point(x + tileSize, y + startHeight), Point(x, y + endHeight)]
  }

  /** drawFloorAtFraction: a band of `fraction` of the tile along the bottom (floor) or the top (ceiling). */
  function FractionBox(x: real, y: real, tileSize: real, fraction: real, isCeiling: bool): (b: Box)
    ensures b.width == tileSize && b.height == tileSize * fraction && b.x == x
    ensures if isCeiling then b.y == y else b.y + b.height == y + tileSize
  {
    var height := tileSize * fraction;
    if !isCeiling then Box(x, y + tileSize - height, tileSize, height) else Box(x, y, tileSize, height)
  }

  /** Math.min(height, size): the floating-point slope height clamped to the tile. */
  function ClampHeight(height: real, size: real): (h: real)
    ensures h <= size && h <= height && (h == size || h == height)
  {
    if height < size then height else size
  }

  /**
   * drawSlopePolygon: a closed path around a right triangle. Two corners sit
   * on the tile's bottom edge (floor) or top edge (ceiling); the third rises
   * from that edge by h = min(height, size), above the right corner (or the
   * left one when flipped horizontally).
   */
  function SlopePolygonVertices(x: real, y: real, size: real, height: real, flipH: bool, flipV: bool): (v: seq<Point>)
    ensures |v| == 4 && v[3] == v[0]
    ensures var h := ClampHeight(height, size);
      var baseY := if flipV then y else y + size;
      var apexY := if flipV then y + h else y + size - h;
      Point(x, baseY) in v && Point(x + size, baseY) in v && Point(if flipH then x else x + size, apexY) in v
  {
    var h := ClampHeight(height, size);
    if !flipV then
      if !flipH then
        [Point(x, y + size), Point(x + size, y + size), Point(x + size, y + size - h), Point(x, y + size)]
      else
        [Point(x, y + size), Point(x, y + size - h), Point(x + size, y + size), Point(x, y + size)]
    else
      if !flipH then
        [Point(x, y), Point(x + size, y), Point(x + size, y + h), Point(x, y)]
      else
        [Point(x, y), Point(x, y + h), Point(x + size, y), Point(x, y)]
  }

  /** Reflection top to bottom within the tile whose top edge is at y. */
  function MirrorV(p: Point, y: real, size: real): Point
  {
    Point(p.x, 2.0 * y + size - p.y)
  }

  /** Reflection left to right within the tile whose left edge is at x. */
  function MirrorH(p: Point, x: real, size: real): Point
  {
    Point(2.0 * x + size - p.x, p.y)
  }

  /** Each ceiling piece is its floor piece reflected top to bottom, vertex by vertex. */
  lemma CeilingsMirrorFloors(x: real, y: real, size: real, height: real, divisions: Divisions, step: int, flipH: bool)
    ensures var floor := SlopePolygonVertices(x, y, size, height, flipH, false);
      var ceiling := SlopePolygonVertices(x, y, size, height, flipH, true);
      forall i :: 0 <= i < 4 ==> ceiling[i] == MirrorV(floor[i], y, size)
    ensures var floor := MultiTileSlopeVertices(x, y, size, divisions, step, flipH, false);
      var ceiling := MultiTileSlopeVertices(x, y, size, divisions, step, flipH, true);
      forall i :: 0 <= i < 4 ==> ceiling[i] == MirrorV(floor[i], y, size)
  {
  }

  /** A falling slope segment is the rising one reflected left to right: the same outline, traced from another corner. */
  lemma DownSlopesMirrorUpSlopes(x: real, y: real, size: real, height: real, divisions: Divisions, step: int, flipV: bool)
    ensures var up := SlopePolygonVertices(x, y, size, height, false, flipV);
      var down := SlopePolygonVertices(x, y, size, height, true, flipV);
      forall p :: p in down <==> MirrorH(p, x, size) in up
    ensures var up := MultiTileSlopeVertices(x, y, size, divisions, step, false, flipV);
      var down := MultiTileSlopeVertices(x, y, size, divisions, step, true, flipV);
      forall p :: p in down <==> MirrorH(p, x, size) in up
  {
  }

  /** The flat 45° floor (ceiling) is exactly as high as the apex of the 45° ramps beside it. */
  lemma Flat45MeetsRampApex(o: Point, size: real, slopeHeight: real, isCeiling: bool)
    ensures var flat := PlatformerTileShape(o, size, slopeHeight, Floor45(isCeiling)).box;
      var apexY := if isCeiling then o.y + flat.height else flat.y;
      && flat.x == o.x && flat.width == size
      && (if isCeiling then flat.y == o.y else flat.y + flat.height == o.y + size)
      && Point(o.x + size, apexY) in PlatformerTileShape(o, size, slopeHeight, Slope45(false, isCeiling)).vertices
      && Point(o.x, apexY) in PlatformerTileShape(o, size, slopeHeight, Slope45(true, isCeiling)).vertices
  {
  }

  /** The top-left corner of platformer cell (col, row). */
  function PlatformerOrigin(c: TemplateConfig, col: int, row: int): Point
  {
    Point((c.offset + col * (c.tileSize + c.padding)) as real, (c.offset + row * (c.tileSize + c.padding)) as real)
  }

  /** The shape drawPlatformerTile fills; `slopeHeight` is `tileSize · tan 45°` as computed in floating point. */
  function PlatformerTileShape(o: Point, size: real, slopeHeight: real, tile: PlatformerTile): Shape
  {
    match tile
    case Floor => RectShape(Box(o.x, o.y + size / 2.0, size, size / 2.0))
    case Ceiling => RectShape(Box(o.x, o.y, size, size / 2.0))
    case WallLeft => RectShape(Box(o.x, o.y, size / 2.0, size))
    case WallRight => RectShape(Box(o.x + size / 2.0, o.y, size / 2.0, size))
    case Slope45(flipH, flipV) => PolygonShape(SlopePolygonVertices(o.x, o.y, size, slopeHeight, flipH, flipV))
    case Floor45(isCeiling) =>
      var h := ClampHeight(slopeHeight, size);
      RectShape(if !isCeiling then Box(o.x, o.y + size - h, size, h) else Box(o.x, o.y, size, h))
  }

  /** The fill one platformer drawing call issues, always in the fill colour. */
  function PlatformerCommand(c: TemplateConfig, slopeHeight: real, cell: PlatformerCell): DrawCommand
  {
    var size := c.tileSize as real;
    var o := PlatformerOrigin(c, cell.col, cell.row);
    match cell
    case TileCell(_, _, tile) => Paint(PlatformerTileShape(o, size, slopeHeight, tile), c.fillColor)
    case SlopeCell(_, _, divisions, step, flipH, flipV) =>
      Paint(PolygonShape(MultiTileSlopeVertices(o.x, o.y, size, divisions, step, flipH, flipV)), c.fillColor)
    case FractionCell(_, _, fraction, isCeiling) =>
      Paint(RectShape(FractionBox(o.x, o.y, size, fraction, isCeiling)), c.fillColor)
  }

  /** The fills of a sequence of platformer drawing calls, one per call, in order. */
  function PlatformerCommands(c: TemplateConfig, slopeHeight: real, cells: seq<PlatformerCell>): seq<DrawCommand>
  {
    seq(|cells|, i requires 0 <= i < |cells| => PlatformerCommand(c, slopeHeight, cells[i]))
  }

  /** The fills of two runs of drawing calls are the fills of the first run followed by those of the second. */
  lemma PlatformerCommandsAppend(c: TemplateConfig, slopeHeight: real, a: seq<PlatformerCell>, b: seq<PlatformerCell>)
    ensures PlatformerCommands(c, slopeHeight, a + b) == PlatformerCommands(c, slopeHeight, a) + PlatformerCommands(c, slopeHeight, b)
  {
    assert forall i :: 0 <= i < |a + b| ==> (a + b)[i] == if i < |a| then a[i] else b[i - |a|];
  }

  lemma Appended4(s: seq<DrawCommand>, a: DrawCommand, b: DrawCommand, c: DrawCommand, d: DrawCommand)
    ensures s + [a] + [b] + [c] + [d] == s + [a, b, c, d]
  {
  }

  lemma Appended5(s: seq<DrawCommand>, a: DrawCommand, b: DrawCommand, c: DrawCommand, d: DrawCommand, e: DrawCommand)
    ensures s + [a] + [b] + [c] + [d] + [e] == s + [a, b, c, d, e]
  {
  }

  lemma Appended6(s: seq<DrawCommand>, a: DrawCommand, b: DrawCommand, c: DrawCommand, d: DrawCommand, e: DrawCommand, f: DrawCommand)
    ensures s + [a] + [b] + [c] + [d] + [e] + [f] == s + [a, b, c, d, e, f]
  {
  }

  lemma Appended7(s: seq<DrawCommand>, a: DrawCommand, b: DrawCommand, c: DrawCommand, d: DrawCommand, e: DrawCommand,
                  f: DrawCommand, g: DrawCommand)
    ensures s + [a] + [b] + [c] + [d] + [e] + [f] + [g] == s + [a, b, c, d, e, f, g]
  {
  }

  /** Row 0: the four half-tile walls. */
  const PLATFORMER_ROW_0: seq<PlatformerCell> :=
    [TileCell(0, 0, Floor), TileCell(1, 0, Ceiling), TileCell(2, 0, WallLeft), TileCell(3, 0, WallRight)]

  /** Rows 1 and 2: the 45° ramps with their flat pieces, floor then ceiling. */
  const PLATFORMER_ROWS_1_2: seq<PlatformerCell> :=
    [TileCell(0, 1, Slope45(false, false)), TileCell(1, 1, Floor45(false)), TileCell(2, 1, Slope45(true, false)),
     TileCell(0, 2, Slope45(false, true)), TileCell(1, 2, Floor45(true)), TileCell(2, 2, Slope45(true, true))]

  /** A ramp rising over `divisions` tiles, a flat full-height tile, and the same ramp falling back down. */
  function RampRow(row: int, divisions: int, ceiling: bool): seq<PlatformerCell>
  {
    if divisions == 2 then
      [SlopeCell(0, row, 2, 0, false, ceiling), SlopeCell(1, row, 2, 1, false, ceiling),
       FractionCell(2, row, 1.0, ceiling),
       SlopeCell(3, row, 2, 1, true, ceiling), SlopeCell(4, row, 2, 0, true, ceiling)]
    else
      [SlopeCell(0, row, 3, 0, false, ceiling), SlopeCell(1, row, 3, 1, false, ceiling), SlopeCell(2, row, 3, 2, false, ceiling),
       FractionCell(3, row, 1.0, ceiling),
       SlopeCell(4, row, 3, 2, true, ceiling), SlopeCell(5, row, 3, 1, true, ceiling), SlopeCell(6, row, 3, 0, true, ceiling)]
  }

  /** Every drawing call of the platformer template, in the order it is made. */
  const PLATFORMER_LAYOUT: seq<PlatformerCell> :=
    PLATFORMER_ROW_0 + PLATFORMER_ROWS_1_2
    + RampRow(3, 2, false) + RampRow(4, 2, true) + RampRow(5, 3, false) + RampRow(6, 3, true)

  /** The height of a ramp-row cell's filled part at its left and right edges. */
  function EdgeHeights(tileSize: real, cell: PlatformerCell): (real, real)
  {
    match cell
    case SlopeCell(_, _, divisions, step, flipH, _) => SegmentHeights(tileSize, divisions, step, flipH)
    case FractionCell(_, _, fraction, _) => (tileSize * fraction, tileSize * fraction)
    case TileCell(_, _, _) => (0.0, 0.0)
  }

  /**
   * A ramp row is one continuous profile: it starts and ends at height 0,
   * neighbouring cells meet at the same height, the cells sit in columns
   * 0, 1, 2, … of their row, and the flat cell is a full tile high.
   */
  lemma RampRowContinuous(tileSize: real, row: int, divisions: int, ceiling: bool)
    requires divisions == 2 || divisions == 3
    ensures var cells := RampRow(row, divisions, ceiling);
      && |cells| == 2 * divisions + 1
      && EdgeHeights(tileSize, cells[0]).0 == 0.0
      && EdgeHeights(tileSize, cells[|cells| - 1]).1 == 0.0
      && cells[divisions].FractionCell? && EdgeHeights(tileSize, cells[divisions]) == (tileSize, tileSize)
      && (forall k :: 0 <= k < |cells| ==> cells[k].col == k && cells[k].row == row)
      && (forall k :: 0 <= k < |cells| - 1 ==> EdgeHeights(tileSize, cells[k]).1 == EdgeHeights(tileSize, cells[k + 1]).0)
  {
    if divisions == 2 {
    } else {
    }
  }

  /** The platformer layout draws 34 cells, all inside the 7×7 grid. */
  lemma PlatformerLayoutInGrid()
    ensures |PLATFORMER_LAYOUT| == 34
    ensures forall i :: 0 <= i < |PLATFORMER_LAYOUT| ==> 0 <= PLATFORMER_LAYOUT[i].col < 7 && 0 <= PLATFORMER_LAYOUT[i].row < 7
  {
    RampRowContinuous(0.0, 3, 2, false);
    RampRowContinuous(0.0, 4, 2, true);
    RampRowContinuous(0.0, 5, 3, false);
    RampRowContinuous(0.0, 6, 3, true);
  }

  /** The fills of the first three rows, call by call. */
  lemma FirstRowsCommands(c: TemplateConfig, h: real)
    ensures PlatformerCommands(c, h, PLATFORMER_ROW_0) ==
      [PlatformerCommand(c, h, TileCell(0, 0, Floor)), PlatformerCommand(c, h, TileCell(1, 0, Ceiling)),
       PlatformerCommand(c, h, TileCell(2, 0, WallLeft)), PlatformerCommand(c, h, TileCell(3, 0, WallRight))]
    ensures PlatformerCommands(c, h, PLATFORMER_ROWS_1_2) ==
      [PlatformerCommand(c, h, TileCell(0, 1, Slope45(false, false))), PlatformerCommand(c, h, TileCell(1, 1, Floor45(false))),
       PlatformerCommand(c, h, TileCell(2, 1, Slope45(true, false))),
       PlatformerCommand(c, h, TileCell(0, 2, Slope45(false, true))), PlatformerCommand(c, h, TileCell(1, 2, Floor45(true))),
       PlatformerCommand(c, h, TileCell(2, 2, Slope45(true, true)))]
  {
  }

  /** The fills of a ramp row, call by call. */
  lemma RampRowCommands(c: TemplateConfig, h: real, row: int, divisions: int, ceiling: bool)
    requires divisions == 2 || divisions == 3
    ensures PlatformerCommands(c, h, RampRow(row, divisions, ceiling)) ==
      if divisions == 2 then
        [PlatformerCommand(c, h, SlopeCell(0, row, 2, 0, false, ceiling)), PlatformerCommand(c, h, SlopeCell(1, row, 2, 1, false, ceiling)),
         PlatformerCommand(c, h, FractionCell(2, row, 1.0, ceiling)),
         PlatformerCommand(c, h, SlopeCell(3, row, 2, 1, true, ceiling)), PlatformerCommand(c, h, SlopeCell(4, row, 2, 0, true, ceiling))]
      else
        [PlatformerCommand(c, h, SlopeCell(0, row, 3, 0, false, ceiling)), PlatformerCommand(c, h, SlopeCell(1, row, 3, 1, false, ceiling)),
         PlatformerCommand(c, h, SlopeCell(2, row, 3, 2, false, ceiling)), PlatformerCommand(c, h, FractionCell(3, row, 1.0, ceiling)),
         PlatformerCommand(c, h, SlopeCell(4, row, 3, 2, true, ceiling)), PlatformerCommand(c, h, SlopeCell(5, row, 3, 1, true, ceiling)),
         PlatformerCommand(c, h, SlopeCell(6, row, 3, 0, true, ceiling))]
  {
  }

  /** Only the named tiles of rows 0 to 2 depend on the 45° slope height; every other call is drawn from fractions of the tile alone. */
  lemma SlopeHeightOnlyForTiles(c: TemplateConfig, h1: real, h2: real, cells: seq<PlatformerCell>)
    requires forall i :: 0 <= i < |cells| ==> !cells[i].TileCell?
    ensures PlatformerCommands(c, h1, cells) == PlatformerCommands(c, h2, cells)
  {
  }

  /** The platformer layout's fills, row by row; the ramp rows do not depend on the slope height. */
  lemma PlatformerLayoutCommands(c: TemplateConfig, slopeHeight: real)
    ensures PlatformerCommands(c, slopeHeight, PLATFORMER_LAYOUT) ==
      PlatformerCommands(c, slopeHeight, PLATFORMER_ROW_0) + PlatformerCommands(c, slopeHeight, PLATFORMER_ROWS_1_2)
      + PlatformerCommands(c, 0.0, RampRow(3, 2, false)) + PlatformerCommands(c, 0.0, RampRow(4, 2, true))
      + PlatformerCommands(c, 0.0, RampRow(5, 3, false)) + PlatformerCommands(c, 0.0, RampRow(6, 3, true))
  {
    var r3 := RampRow(3, 2, false);
    var r4 := RampRow(4, 2, true);
    var r5 := RampRow(5, 3, false);
    var r6 := RampRow(6, 3, true);
    SlopeHeightOnlyForTiles(c, slopeHeight, 0.0, r3);
    SlopeHeightOnlyForTiles(c, slopeHeight, 0.0, r4);
    SlopeHeightOnlyForTiles(c, slopeHeight, 0.0, r5);
    SlopeHeightOnlyForTiles(c, slopeHeight, 0.0, r6);
    PlatformerCommandsAppend(c, slopeHeight, PLATFORMER_ROW_0, PLATFORMER_ROWS_1_2);
    PlatformerCommandsAppend(c, slopeHeight, PLATFORMER_ROW_0 + PLATFORMER_ROWS_1_2, r3);
    PlatformerCommandsAppend(c, slopeHeight, PLATFORMER_ROW_0 + PLATFORMER_ROWS_1_2 + r3, r4);
    PlatformerCommandsAppend(c, slopeHeight, PLATFORMER_ROW_0 + PLATFORMER_ROWS_1_2 + r3 + r4, r5);
    PlatformerCommandsAppend(c, slopeHeight, PLATFORMER_ROW_0 + PLATFORMER_ROWS_1_2 + r3 + r4 + r5, r6);
  }

  /** The four row-0 tiles are the bottom, top, left and right halves of their cells. */
  lemma HalfTiles(o: Point, size: real, h: real, p: Point)
    requires size > 0.0
    requires BoxCovers(Box(o.x, o.y, size, size), p)
    ensures BoxCovers(PlatformerTileShape(o, size, h, Floor).box, p) <==> p.y >= o.y + size / 2.0
    ensures BoxCovers(PlatformerTileShape(o, size, h, Ceiling).box, p) <==> p.y < o.y + size / 2.0
    ensures BoxCovers(PlatformerTileShape(o, size, h, WallLeft).box, p) <==> p.x < o.x + size / 2.0
    ensures BoxCovers(PlatformerTileShape(o, size, h, WallRight).box, p) <==> p.x >= o.x + size / 2.0
  {
  }

  // ---------------------------------------------------------------------
  // Preview grid lines
  // ---------------------------------------------------------------------

  /** The i-th grid line position: start + i·pitch. */
  function LinePosition(start: int, pitch: int, i: int): int
  {
    start + i * pitch
  }

  /** The positions start + i·pitch for i = 0 … count that lie within [0, limit], in increasing i. */
  function LinePositions(start: int, pitch: int, count: int, limit: int): seq<int>
    decreases count, limit
  {
    if count < 0 then []
    else
      var p := LinePosition(start, pitch, count);
      LinePositions(start, pitch, count - 1, limit) + (if 0 <= p <= limit then [p] else [])
  }

  /** A position is drawn exactly when it is one of the candidate positions and lies within [0, limit]. */
  lemma {:induction false} LinePositionsMembers(start: int, pitch: int, count: int, limit: int, q: int)
    ensures q in LinePositions(start, pitch, count, limit) <==>
      (0 <= q <= limit && exists i :: 0 <= i <= count && q == LinePosition(start, pitch, i))
    decreases count
  {
    if count >= 0 {
      LinePositionsMembers(start, pitch, count - 1, limit, q);
      if 0 <= q <= limit && (exists i :: 0 <= i <= count && q == LinePosition(start, pitch, i)) {
        var i :| 0 <= i <= count && q == LinePosition(start, pitch, i);
        if i < count {
          assert 0 <= i <= count - 1 && q == LinePosition(start, pitch, i);
        }
      }
    }
  }

  /** The grid drawGrid uses: 4×4 for the 16-tile format, 8×6 for every other format. */
  function PreviewGridShape(f: TileFormat): (int, int)
  {
    if f == Format16 then (4, 4) else (8, 6)
  }

  /** One vertical preview line per kept position, spanning the canvas height. */
  function VerticalLines(xs: seq<int>, height: int): seq<DrawCommand>
  {
    if xs == [] then []
    else VerticalLines(xs[..|xs| - 1], height) + [GridLine(xs[|xs| - 1] as real, 0.0, xs[|xs| - 1] as real, height as real)]
  }

  function HorizontalLines(ys: seq<int>, width: int): seq<DrawCommand>
  {
    if ys == [] then []
    else HorizontalLines(ys[..|ys| - 1], width) + [GridLine(0.0, ys[|ys| - 1] as real, width as real, ys[|ys| - 1] as real)]
  }

  lemma VerticalLinesSnoc(xs: seq<int>, x: int, height: int)
    ensures VerticalLines(xs + [x], height) == VerticalLines(xs, height) + [GridLine(x as real, 0.0, x as real, height as real)]
  {
    assert (xs + [x])[..|xs|] == xs;
  }

  lemma HorizontalLinesSnoc(ys: seq<int>, y: int, width: int)
    ensures HorizontalLines(ys + [y], width) == HorizontalLines(ys, width) + [GridLine(0.0, y as real, width as real, y as real)]
  {
    assert (ys + [y])[..|ys|] == ys;
  }

  const GRID_COLOR: Color := Color(128, 128, 128, 180)

  function GridLine(x1: real, y1: real, x2: real, y2: real): DrawCommand
  {
    Paint(LineShape(Point(x1, y1), Point(x2, y2), 1.0), GRID_COLOR)
  }

  /** The vertical positions drawGrid keeps on a canvas of width `width`. */
  function PreviewColumnPositions(c: TemplateConfig, width: int): seq<int>
  {
    LinePositions(c.offset, c.tileSize + c.padding, PreviewGridShape(c.tileFormat).0, width)
  }

  /** The horizontal positions drawGrid keeps on a canvas of height `height`. */
  function PreviewRowPositions(c: TemplateConfig, height: int): seq<int>
  {
    LinePositions(c.offset, c.tileSize + c.padding, PreviewGridShape(c.tileFormat).1, height)
  }

  /** The same positions with the template's own grid, as getDimensions gives it. */
  function TemplateRowPositions(c: TemplateConfig, height: int): seq<int>
  {
    LinePositions(c.offset, c.tileSize + c.padding, GetDimensions(c).rows, height)
  }

  /**
   * On the platformer template (7 rows), the preview draws only 6 row lines
   * beyond the top, so the bottom edge of the last row gets no line.
   */
  lemma PlatformerPreviewMissesBottomEdge(c: TemplateConfig)
    requires ValidConfig(c) && c.tileFormat == Platformer
    ensures GetDimensions(c).height !in PreviewRowPositions(c, GetDimensions(c).height)
  {
    var d := GetDimensions(c);
    var pitch := c.tileSize + c.padding;
    LinePositionsMembers(c.offset, pitch, 6, d.height, d.height);
    if exists i :: 0 <= i <= 6 && d.height == LinePosition(c.offset, pitch, i) {
      var i :| 0 <= i <= 6 && d.height == LinePosition(c.offset, pitch, i);
      MulMonotone(i, 6, pitch);
    }
  }

  /** With the template's own grid, every cell boundary of every format gets a line. */
  lemma TemplateGridHasEveryRowEdge(c: TemplateConfig, i: int)
    requires ValidConfig(c) && 0 <= i <= GetDimensions(c).rows
    ensures LinePosition(c.offset, c.tileSize + c.padding, i) in TemplateRowPositions(c, GetDimensions(c).height)
  {
    LineKept(c.offset, c.tileSize + c.padding, GetDimensions(c).rows, i);
  }

  /** Lines start + i·pitch for i = 0 … count all fall within [0, start + count·pitch], so every one is kept. */
  lemma LineKept(start: int, pitch: int, count: int, i: int)
    requires 0 <= start && 0 <= pitch && 0 <= i <= count
    ensures LinePosition(start, pitch, i) in LinePositions(start, pitch, count, start + count * pitch)
  {
    MulMonotone(i, count, pitch);
    MulMonotone(0, i, pitch);
    LinePositionsMembers(start, pitch, count, start + count * pitch, LinePosition(start, pitch, i));
  }

  /** On the 16- and 47-tile formats the preview grid and the template grid agree. */
  lemma PreviewGridMatchesTemplate(c: TemplateConfig)
    requires c.tileFormat != Platformer
    ensures PreviewGridShape(c.tileFormat) == (GetDimensions(c).cols, GetDimensions(c).rows)
  {
  }

  // ---------------------------------------------------------------------
  // The generator
  // ---------------------------------------------------------------------

  class TemplateGenerator {
    const config: TemplateConfig

    constructor (config: TemplateConfig)
      ensures this.config == config
    {
      this.config := config;
    }

    /**
     * Draws the template. `slopeHeight` stands for `tileSize · tan 45°` as
     * the platformer template's 45° pieces compute it in floating point.
     */
    method Generate(slopeHeight: real) returns (processor: ImageProcessor)
      ensures fresh(processor)
      ensures processor.width == GetDimensions(config).width && processor.height == GetDimensions(config).height
      ensures config.tileFormat != Platformer ==>
        processor.commands == GridCommands(config, GetDimensions(config).cols, LayoutEdges(config.tileFormat), |LayoutEdges(config.tileFormat)|, TilePainter(config))
      ensures config.tileFormat == Platformer ==>
        processor.commands == PlatformerCommands(config, slopeHeight, PLATFORMER_LAYOUT)
    {
      if config.tileFormat == Platformer {
        processor := GeneratePlatformerTemplate(slopeHeight);
        return;
      }
      var edges := LayoutEdges(config.tileFormat);
      var cols := if config.tileFormat == Format16 then 4 else 8;
      var rows := if config.tileFormat == Format16 then 4 else 6;
      var width := config.offset + cols * (config.tileSize + config.padding);
      var height := config.offset + rows * (config.tileSize + config.padding);
      processor := new ImageProcessor(width, height);

      DrawTiles(processor, cols, edges);
    }

    /** generate's loop: tile i of `edges` drawn at cell i of a grid `cols` wide, in order. */
    method DrawTiles(processor: ImageProcessor, cols: int, edges: seq<TileEdge>)
      requires cols > 0 && processor.commands == []
      modifies processor
      ensures processor.commands == GridCommands(config, cols, edges, |edges|, TilePainter(config))
    {
      var i := 0;
      while i < |edges|
        invariant 0 <= i <= |edges|
        invariant processor.commands == GridCommands(config, cols, edges, i, TilePainter(config))
      {
        var col := i % cols;
        var row := i / cols;
        var x := config.offset + col * (config.tileSize + config.padding);
        var y := config.offset + row * (config.tileSize + config.padding);
        DrawTile(processor, x, y, edges[i]);
        TileGridStep(config, cols, edges, i, x, y);
        i := i + 1;
      }
    }

    /** Draws the 7×7 platformer template: the 34 cells of PLATFORMER_LAYOUT, row by row, in the fill colour. */
    method GeneratePlatformerTemplate(slopeHeight: real) returns (processor: ImageProcessor)
      ensures fresh(processor)
      ensures processor.width == processor.height == config.offset + 7 * (config.tileSize + config.padding)
      ensures processor.commands == PlatformerCommands(config, slopeHeight, PLATFORMER_LAYOUT)
    {
      var width := config.offset + 7 * (config.tileSize + config.padding);
      var height := config.offset + 7 * (config.tileSize + config.padding);
      processor := new ImageProcessor(width, height);

      DrawWallRow(processor, slopeHeight);
      assert processor.commands == PlatformerCommands(config, slopeHeight, PLATFORMER_ROW_0);
      Draw45Rows(processor, slopeHeight);
      DrawRampRow(processor, 3, 2, false);
      DrawRampRow(processor, 4, 2, true);
      DrawRampRow(processor, 5, 3, false);
      DrawRampRow(processor, 6, 3, true);
      PlatformerLayoutCommands(config, slopeHeight);
    }

    /** Row 0: floor, ceiling, left wall and right wall, each half a tile. */
    method DrawWallRow(processor: ImageProcessor, slopeHeight: real)
      modifies processor
      ensures processor.commands == old(processor.commands) + PlatformerCommands(config, slopeHeight, PLATFORMER_ROW_0)
    {
      ghost var start := processor.commands;
      DrawPlatformerTile(processor, 0, 0, Floor, slopeHeight);
      DrawPlatformerTile(processor, 1, 0, Ceiling, slopeHeight);
      DrawPlatformerTile(processor, 2, 0, WallLeft, slopeHeight);
      DrawPlatformerTile(processor, 3, 0, WallRight, slopeHeight);
      FirstRowsCommands(config, slopeHeight);
      Appended4(start, Cmd(slopeHeight, TileCell(0, 0, Floor)), Cmd(slopeHeight, TileCell(1, 0, Ceiling)),
        Cmd(slopeHeight, TileCell(2, 0, WallLeft)), Cmd(slopeHeight, TileCell(3, 0, WallRight)));
    }

    /** Rows 1 and 2: the 45° ramps up and down with the flat piece between them, as floors and then as ceilings. */
    method Draw45Rows(processor: ImageProcessor, slopeHeight: real)
      modifies processor
      ensures processor.commands == old(processor.commands) + PlatformerCommands(config, slopeHeight, PLATFORMER_ROWS_1_2)
    {
      ghost var start := processor.commands;
      DrawPlatformerTile(processor, 0, 1, Slope45(false, false), slopeHeight);
      DrawPlatformerTile(processor, 1, 1, Floor45(false), slopeHeight);
      DrawPlatformerTile(processor, 2, 1, Slope45(true, false), slopeHeight);
      DrawPlatformerTile(processor, 0, 2, Slope45(false, true), slopeHeight);
      DrawPlatformerTile(processor, 1, 2, Floor45(true), slopeHeight);
      DrawPlatformerTile(processor, 2, 2, Slope45(true, true), slopeHeight);
      FirstRowsCommands(config, slopeHeight);
      Appended6(start, Cmd(slopeHeight, TileCell(0, 1, Slope45(false, false))), Cmd(slopeHeight, TileCell(1, 1, Floor45(false))),
        Cmd(slopeHeight, TileCell(2, 1, Slope45(true, false))), Cmd(slopeHeight, TileCell(0, 2, Slope45(false, true))),
        Cmd(slopeHeight, TileCell(1, 2, Floor45(true))), Cmd(slopeHeight, TileCell(2, 2, Slope45(true, true))));
    }

    /** Rows 3 to 6: a ramp rising over `divisions` tiles, a full-height flat tile, and the ramp falling back. */
    method DrawRampRow(processor: ImageProcessor, row: int, divisions: int, ceiling: bool)
      requires divisions == 2 || divisions == 3
      modifies processor
      ensures processor.commands == old(processor.commands) + PlatformerCommands(config, 0.0, RampRow(row, divisions, ceiling))
    {
      ghost var start := processor.commands;
      RampRowCommands(config, 0.0, row, divisions, ceiling);
      if divisions == 2 {
        DrawMultiTileSlope(processor, 0, row, 2, 0, false, ceiling);
        DrawMultiTileSlope(processor, 1, row, 2, 1, false, ceiling);
        DrawFloorAtFraction(processor, 2, row, 1.0, ceiling);
        DrawMultiTileSlope(processor, 3, row, 2, 1, true, ceiling);
        DrawMultiTileSlope(processor, 4, row, 2, 0, true, ceiling);
        Appended5(start, Cmd(0.0, SlopeCell(0, row, 2, 0, false, ceiling)), Cmd(0.0, SlopeCell(1, row, 2, 1, false, ceiling)),
          Cmd(0.0, FractionCell(2, row, 1.0, ceiling)),
          Cmd(0.0, SlopeCell(3, row, 2, 1, true, ceiling)), Cmd(0.0, SlopeCell(4, row, 2, 0, true, ceiling)));
      } else {
        DrawMultiTileSlope(processor, 0, row, 3, 0, false, ceiling);
        DrawMultiTileSlope(processor, 1, row, 3, 1, false, ceiling);
        DrawMultiTileSlope(processor, 2, row, 3, 2, false, ceiling);
        DrawFloorAtFraction(processor, 3, row, 1.0, ceiling);
        DrawMultiTileSlope(processor, 4, row, 3, 2, true, ceiling);
        DrawMultiTileSlope(processor, 5, row, 3, 1, true, ceiling);
        DrawMultiTileSlope(processor, 6, row, 3, 0, true, ceiling);
        Appended7(start, Cmd(0.0, SlopeCell(0, row, 3, 0, false, ceiling)), Cmd(0.0, SlopeCell(1, row, 3, 1, false, ceiling)),
          Cmd(0.0, SlopeCell(2, row, 3, 2, false, ceiling)), Cmd(0.0, FractionCell(3, row, 1.0, ceiling)),
          Cmd(0.0, SlopeCell(4, row, 3, 2, true, ceiling)), Cmd(0.0, SlopeCell(5, row, 3, 1, true, ceiling)),
          Cmd(0.0, SlopeCell(6, row, 3, 0, true, ceiling)));
      }
    }

    /** The fill one platformer drawing call issues with this generator's configuration. */
    ghost function Cmd(slopeHeight: real, cell: PlatformerCell): DrawCommand
    {
      PlatformerCommand(config, slopeHeight, cell)
    }

    /** One segment of a slope that climbs one tile over `divisions` tiles. */
    method DrawMultiTileSlope(processor: ImageProcessor, col: int, row: int, divisions: Divisions, step: int, flipH: bool, flipV: bool)
      modifies processor
      ensures processor.commands == old(processor.commands) +
        [PlatformerCommand(config, 0.0, SlopeCell(col, row, divisions, step, flipH, flipV))]
    {
      var o := PlatformerOrigin(config, col, row);
      processor.FillPolygon(MultiTileSlopeVertices(o.x, o.y, config.tileSize as real, divisions, step, flipH, flipV), config.fillColor);
    }

    /** A floor (or ceiling) band `fraction` of a tile high. */
    method DrawFloorAtFraction(processor: ImageProcessor, col: int, row: int, fraction: real, isCeiling: bool)
      modifies processor
      ensures processor.commands == old(processor.commands) +
        [PlatformerCommand(config, 0.0, FractionCell(col, row, fraction, isCeiling))]
    {
      var o := PlatformerOrigin(config, col, row);
      processor.FillRect(FractionBox(o.x, o.y, config.tileSize as real, fraction, isCeiling), config.fillColor);
    }

    /** One named platformer tile of rows 0 to 2. */
    method DrawPlatformerTile(processor: ImageProcessor, col: int, row: int, tile: PlatformerTile, slopeHeight: real)
      modifies processor
      ensures processor.commands == old(processor.commands) +
        [PlatformerCommand(config, slopeHeight, TileCell(col, row, tile))]
    {
      var o := PlatformerOrigin(config, col, row);
      var shape := PlatformerTileShape(o, config.tileSize as real, slopeHeight, tile);
      if shape.RectShape? {
        processor.FillRect(shape.box, config.fillColor);
      } else {
        processor.FillPolygon(shape.vertices, config.fillColor);
      }
    }

    /** Paints one tile at (x, y): fill, open-side stripes, then outer and (47-tile format) inner corners. */
    method DrawTile(processor: ImageProcessor, x: int, y: int, edges: TileEdge)
      modifies processor
      ensures processor.commands == old(processor.commands) + TileCommands(config, x, y, edges)
    {
      ghost var before := processor.commands;
      DrawStripes(processor, x, y, edges);
      DrawOuterCorners(processor, x, y, edges);
      DrawInnerCorners(processor, x, y, edges);
      ConcatAssoc(before, StripeCommands(config, x, y, edges), OuterCornerCommands(config, x, y, edges));
      ConcatAssoc(before, StripeCommands(config, x, y, edges) + OuterCornerCommands(config, x, y, edges), InnerCornerCommands(config, x, y, edges));
      TileCommandsInStages(config, x, y, edges);
    }

    /** drawTile's first part: the fill, then a border stripe along each side that does not connect. */
    method DrawStripes(processor: ImageProcessor, x: int, y: int, edges: TileEdge)
      modifies processor
      ensures processor.commands == old(processor.commands) + StripeCommands(config, x, y, edges)
    {
      var t := config.tileSize;
      var bw := config.borderWidth;
      ghost var start := processor.commands;
      ghost var top := FillIf(!Has(edges, TOP), Rect(x, y, t, bw), GetBorderColor(config, TopEdge));
      ghost var right := FillIf(!Has(edges, RIGHT), Rect(x + t - bw, y, bw, t), GetBorderColor(config, RightEdge));
      ghost var bottom := FillIf(!Has(edges, BOTTOM), Rect(x, y + t - bw, t, bw), GetBorderColor(config, BottomEdge));
      ghost var left := FillIf(!Has(edges, LEFT), Rect(x, y, bw, t), GetBorderColor(config, LeftEdge));
      ghost var base := [FillCommand(Rect(x, y, t, t), config.fillColor)];
      processor.FillRect(BoxOf(Rect(x, y, t, t)), config.fillColor);
      if !Has(edges, TOP) {
        processor.FillRect(BoxOf(Rect(x, y, t, bw)), GetBorderColor(config, TopEdge));
      }
      assert processor.commands == start + (base + top);
      if !Has(edges, RIGHT) {
        processor.FillRect(BoxOf(Rect(x + t - bw, y, bw, t)), GetBorderColor(config, RightEdge));
      }
      assert processor.commands == start + (base + top) + right;
      if !Has(edges, BOTTOM) {
        processor.FillRect(BoxOf(Rect(x, y + t - bw, t, bw)), GetBorderColor(config, BottomEdge));
      }
      assert processor.commands == start + (base + top) + right + bottom;
      if !Has(edges, LEFT) {
        processor.FillRect(BoxOf(Rect(x, y, bw, t)), GetBorderColor(config, LeftEdge));
      }
      ConcatAssoc4(start, base + top, right, bottom, left);
    }

    /** drawTile's second part: the corner colour over each corner where both sides are open. */
    method DrawOuterCorners(processor: ImageProcessor, x: int, y: int, edges: TileEdge)
      modifies processor
      ensures processor.commands == old(processor.commands) + OuterCornerCommands(config, x, y, edges)
    {
      var t := config.tileSize;
      var bw := config.borderWidth;
      var cornerColor := GetBorderColor(config, CornerEdge);
      ghost var start := processor.commands;
      if !Has(edges, TOP) && !Has(edges, LEFT) {
        processor.FillRect(BoxOf(Rect(x, y, bw, bw)), cornerColor);
      }
      assert processor.commands == start + OuterFill(config, x, y, edges, TopLeft);
      if !Has(edges, TOP) && !Has(edges, RIGHT) {
        processor.FillRect(BoxOf(Rect(x + t - bw, y, bw, bw)), cornerColor);
      }
      assert processor.commands == start + OuterFill(config, x, y, edges, TopLeft) + OuterFill(config, x, y, edges, TopRight);
      if !Has(edges, BOTTOM) && !Has(edges, RIGHT) {
        processor.FillRect(BoxOf(Rect(x + t - bw, y + t - bw, bw, bw)), cornerColor);
      }
      assert processor.commands == start + OuterFill(config, x, y, edges, TopLeft) + OuterFill(config, x, y, edges, TopRight)
        + OuterFill(config, x, y, edges, BottomRight);
      if !Has(edges, BOTTOM) && !Has(edges, LEFT) {
        processor.FillRect(BoxOf(Rect(x, y + t - bw, bw, bw)), cornerColor);
      }
      OuterCornerCommandsSplit(config, x, y, edges);
      ConcatAssoc4(start, OuterFill(config, x, y, edges, TopLeft), OuterFill(config, x, y, edges, TopRight),
        OuterFill(config, x, y, edges, BottomRight), OuterFill(config, x, y, edges, BottomLeft));
    }

    /** drawTile's last part (47-tile format only): the corner colour where both sides connect but the diagonal does not. */
    method DrawInnerCorners(processor: ImageProcessor, x: int, y: int, edges: TileEdge)
      modifies processor
      ensures processor.commands == old(processor.commands) + InnerCornerCommands(config, x, y, edges)
    {
      var t := config.tileSize;
      var bw := config.borderWidth;
      var cornerColor := GetBorderColor(config, CornerEdge);
      ghost var start := processor.commands;
      InnerCornerCommandsSplit(config, x, y, edges);
      if config.tileFormat == Format47 {
        if Has(edges, TOP) && Has(edges, LEFT) && !Has(edges, TOP_LEFT) {
          processor.FillRect(BoxOf(Rect(x, y, bw, bw)), cornerColor);
        }
        assert processor.commands == start + InnerFill(config, x, y, edges, TopLeft);
        if Has(edges, TOP) && Has(edges, RIGHT) && !Has(edges, TOP_RIGHT) {
          processor.FillRect(BoxOf(Rect(x + t - bw, y, bw, bw)), cornerColor);
        }
        assert processor.commands == start + InnerFill(config, x, y, edges, TopLeft) + InnerFill(config, x, y, edges, TopRight);
        if Has(edges, BOTTOM) && Has(edges, RIGHT) && !Has(edges, BOTTOM_RIGHT) {
          processor.FillRect(BoxOf(Rect(x + t - bw, y + t - bw, bw, bw)), cornerColor);
        }
        assert processor.commands == start + InnerFill(config, x, y, edges, TopLeft) + InnerFill(config, x, y, edges, TopRight)
          + InnerFill(config, x, y, edges, BottomRight);
        if Has(edges, BOTTOM) && Has(edges, LEFT) && !Has(edges, BOTTOM_LEFT) {
          processor.FillRect(BoxOf(Rect(x, y + t - bw, bw, bw)), cornerColor);
        }
        ConcatAssoc4(start, InnerFill(config, x, y, edges, TopLeft), InnerFill(config, x, y, edges, TopRight),
          InnerFill(config, x, y, edges, BottomRight), InnerFill(config, x, y, edges, BottomLeft));
      } else {
        assert InnerCornerCommands(config, x, y, edges) == [];
      }
    }

    /**
     * Draws the preview grid: a vertical line at each kept column position and
     * a horizontal line at each kept row position, over the whole canvas.
     */
    static method DrawGrid(processor: ImageProcessor, config: TemplateConfig)
      modifies processor
      ensures processor.commands == old(processor.commands)
        + VerticalLines(PreviewColumnPositions(config, processor.width), processor.height)
        + HorizontalLines(PreviewRowPositions(config, processor.height), processor.width)
    {
      var (cols, rows) := PreviewGridShape(config.tileFormat);
      var pitch := config.tileSize + config.padding;
      DrawVerticalLines(processor, config.offset, pitch, cols);
      DrawHorizontalLines(processor, config.offset, pitch, rows);
    }

    /** The first loop of drawGrid: vertical lines at start + i·pitch, i = 0 … cols, skipping those off the canvas. */
    static method DrawVerticalLines(processor: ImageProcessor, start: int, pitch: int, cols: int)
      modifies processor
      ensures processor.commands == old(processor.commands) + VerticalLines(LinePositions(start, pitch, cols, processor.width), processor.height)
    {
      var imageWidth := processor.width;
      var imageHeight := processor.height;
      ghost var before := processor.commands;
      var i := 0;
      while i <= cols
        invariant i <= cols + 1 || (cols < 0 && i == 0)
        invariant processor.commands == before + VerticalLines(LinePositions(start, pitch, i - 1, imageWidth), imageHeight)
        decreases cols - i + 1
      {
        var x := start + i * pitch;
        ghost var drawn := LinePositions(start, pitch, i - 1, imageWidth);
        assert LinePositions(start, pitch, i, imageWidth) == drawn + if 0 <= x <= imageWidth then [x] else [];
        if x >= 0 && x <= imageWidth {
          processor.DrawLine(x as real, 0.0, x as real, imageHeight as real, GRID_COLOR, 1.0);
          VerticalLinesSnoc(drawn, x, imageHeight);
          ConcatAssoc(before, VerticalLines(drawn, imageHeight), [GridLine(x as real, 0.0, x as real, imageHeight as real)]);
        } else {
          assert drawn + [] == drawn;
        }
        i := i + 1;
      }
      if cols < 0 {
        assert LinePositions(start, pitch, cols, imageWidth) == LinePositions(start, pitch, i - 1, imageWidth);
      }
    }

    /** The second loop of drawGrid: horizontal lines at start + i·pitch, i = 0 … rows, skipping those off the canvas. */
    static method DrawHorizontalLines(processor: ImageProcessor, start: int, pitch: int, rows: int)
      modifies processor
      ensures processor.commands == old(processor.commands) + HorizontalLines(LinePositions(start, pitch, rows, processor.height), processor.width)
    {
      var imageWidth := processor.width;
      var imageHeight := processor.height;
      ghost var before := processor.commands;
      var i := 0;
      while i <= rows
        invariant i <= rows + 1 || (rows < 0 && i == 0)
        invariant processor.commands == before + HorizontalLines(LinePositions(start, pitch, i - 1, imageHeight), imageWidth)
        decreases rows - i + 1
      {
        var y := start + i * pitch;
        ghost var drawn := LinePositions(start, pitch, i - 1, imageHeight);
        assert LinePositions(start, pitch, i, imageHeight) == drawn + if 0 <= y <= imageHeight then [y] else [];
        if y >= 0 && y <= imageHeight {
          processor.DrawLine(0.0, y as real, imageWidth as real, y as real, GRID_COLOR, 1.0);
          HorizontalLinesSnoc(drawn, y, imageWidth);
          ConcatAssoc(before, HorizontalLines(drawn, imageWidth), [GridLine(0.0, y as real, imageWidth as real, y as real)]);
        } else {
          assert drawn + [] == drawn;
        }
        i := i + 1;
      }
      if rows < 0 {
        assert LinePositions(start, pitch, rows, imageHeight) == LinePositions(start, pitch, i - 1, imageHeight);
      }
    }
  }
}
