# Sprite-sheet template generator, modelled in Dafny

The sprite-sheet template generator draws autotile templates and fits
generated sprite sheets into them. This project models its three core
pieces and proves properties of them.

* **Template generator** (`template_generator.dfy`, module `Templates`; `tile_layout.dfy`, module `AutotileLayout`)
  * Connectivity masks (`TileEdge`): 4 cardinal bits and 4 diagonal bits.
  * The 16-tile and 47-tile mask tables.
  * Grid dimensions and the cell `i` ↦ (column `i % cols`, row `i / cols`) placement.
  * The paint decisions of one tile: fill, side stripes, outer-corner squares and inner-corner squares, with later fills overwriting earlier ones.
  * The platformer template's slope and floor geometry, in exact rationals.
  * The line-position filter of the preview grid.
* **Auto-adjuster** (`auto_adjuster.dfy`, module `AutoAdjust`)
  * Estimates where each template cell lies in a source image.
  * Finds the opaque content there.
  * Blits it, uniformly scaled and centred, onto the cell.
  * Also has a two-pass variant that scales every cell by the sheet-wide average content size.
* **Image processing** (`image_processor.dfy`, module `ImageProcessing`)
  * The drawing surface, as a class that records the commands issued to it.
  * The nested-loop scan for the tight bounds of the pixels above an alpha threshold.
  * The `#rrggbb` colour parser and formatter.

How the source is rendered in Dafny:

* **Canvas.** The canvas is `ImageProcessor`, a class whose `commands` field is the ordered list of paint and blit commands issued so far.
  * `PaintedColor` gives the colour the last covering fill leaves at a point.
  * Overwriting fills therefore keep their meaning.
* **Drawing methods.** These are methods on classes with `modifies` clauses. Each states its new command list through a specification function (`TileCommands`, `GridCommands`, `PlatformerCommands`, `Blits` and others).
* **Lemmas.** They give those functions their meaning, for example:
  * every point of a generated tile shows the colour of its band and corner;
  * every adjustment lies within its cell, centred;
  * the content scan returns the tight bounds;
  * the hex codec round-trips.
* **Numbers.**
  * Scales and offsets are exact `real`s.
  * `Math.round` is `Floor(r + 1/2)`.
  * Colour channels are bytes.
* **Source pixels.** The source image of the auto-adjuster is a `Raster`: a row-major RGBA byte sequence. `GetImageData` crops it, and pixels outside the image read as transparent.
* **Contrast with the 16-tile table.** The 16-tile table is exactly the set of masks without diagonal bits (`Tile16Complete`).
* **An observation.** The 47-tile table is exactly the set of masks in which every set diagonal bit has both of its adjacent cardinal bits set (`Tile47Complete`). So the table is complete, not a hand-picked subset.

## Model

| member | source | states |
|---|---|---|
| ImageProcessing.ImageProcessor.constructor | src/imageProcessor.ts:31-40 | a fresh canvas of the given size with nothing drawn on it |
| ImageProcessing.ImageProcessor.FillRect | src/imageProcessor.ts:93-96 | filling a rectangle appends exactly one paint command for that rectangle and colour; nothing drawn earlier changes |
| ImageProcessing.ImageProcessor.FillPolygon | src/templateGenerator.ts:293-328 | filling a closed path appends one polygon paint with those vertices in order |
| ImageProcessing.ImageProcessor.DrawLine | src/imageProcessor.ts:109-116 | drawing a line appends one line paint with its end points, colour and width |
| ImageProcessing.ImageProcessor.DrawImage | src/imageProcessor.ts:118-131 | drawing an image appends one blit from the source rectangle to the destination rectangle |
| ImageProcessing.PaintedColorAppend | src/imageProcessor.ts:93-96 | commands drawn later win: a point shows the colour of the later batch if it paints there, otherwise the earlier batch's colour |
| ImageProcessing.PixelIndexInRange | src/imageProcessor.ts:175-176 | the alpha index (y·width+x)·4+3 of a pixel inside the rectangle lies inside the buffer |
| ImageProcessing.Scan | src/imageProcessor.ts:167-185 | the scan's state is the initial one (min at width/height, max at 0) until content is seen; after that its bounds lie inside the rectangle |
| ImageProcessing.ScanIsTightBounds | src/imageProcessor.ts:173-185 | after scanning up to any position: content was seen iff some pixel before it is content, every such pixel lies within the bounds, and each bound is attained by one |
| ImageProcessing.ScanRowWraps | src/imageProcessor.ts:173-174 | finishing a row and starting the next keeps the meaning of the scan state |
| ImageProcessing.ScanStepSkips | src/imageProcessor.ts:177 | a pixel whose alpha is not above the threshold leaves the state and its meaning unchanged |
| ImageProcessing.ScanStepFirst | src/imageProcessor.ts:177-183 | the first content pixel found becomes all four bounds |
| ImageProcessing.ScanStepWidens | src/imageProcessor.ts:179-182 | a later content pixel widens the bounds to include it and keeps them tight |
| ImageProcessing.ContentBounds | src/imageProcessor.ts:161-192 | a non-null result has 0 ≤ minX ≤ maxX < width and 0 ≤ minY ≤ maxY < height |
| ImageProcessing.ContentBoundsAreTight | src/imageProcessor.ts:173-191 | null exactly when no pixel's alpha is strictly above the threshold; otherwise every such pixel is within the bounds and each bound is attained |
| ImageProcessing.DetectContentBounds | src/imageProcessor.ts:161-192 | the nested y/x loop returns the bounds ContentBounds describes: null iff no content, else the tight bounding box |
| ImageProcessing.SinglePixelBounds | src/imageProcessor.ts:173-191 | a buffer with one opaque pixel at (x, y), transparent elsewhere, yields minX = maxX = x and minY = maxY = y |
| ImageProcessing.RowMajorInjective | src/imageProcessor.ts:175 | distinct pixels of a row have distinct row-major indices, so each byte belongs to one pixel |
| ImageProcessing.GetImageData | src/imageProcessor.ts:133-138 | the crop of a rectangle has exactly width·height·4 bytes |
| ImageProcessing.RegionRow | src/imageProcessor.ts:133-138 | one row of the crop has exactly width·4 bytes |
| ImageProcessing.HexDigitValue | src/imageProcessor.ts:260-262 | a hex digit of either case is worth 0 to 15 |
| ImageProcessing.LowerHexDigit | src/imageProcessor.ts:268 | the radix-16 digit of 0..15 is a lowercase hex digit with that value |
| ImageProcessing.ToLowerHexDigit | src/imageProcessor.ts:255 | lowercasing a hex digit keeps its value |
| ImageProcessing.HexToColor | src/imageProcessor.ts:254-265 | alpha is always 255; any string other than an optional '#' and six hex digits gives opaque black |
| ImageProcessing.ToRadix16 | src/imageProcessor.ts:268 | the radix-16 rendering of a number has at least one digit |
| ImageProcessing.PadStart | src/imageProcessor.ts:268 | padding makes a string as long as the target length, or leaves a longer one as it is |
| ImageProcessing.ToHexDigits | src/imageProcessor.ts:268 | a channel formats as exactly two lowercase digits, the high and low nibble, zero-padded |
| ImageProcessing.ColorToHex | src/imageProcessor.ts:267-270 | the result is '#' followed by six lowercase hex digits, and the parser accepts it |
| ImageProcessing.ColorHexRoundTrip | src/imageProcessor.ts:254-270 | parsing a formatted colour gives back its r, g, b with alpha 255 |
| ImageProcessing.HexPairRoundTrip | src/imageProcessor.ts:260-268 | parsing two hex digits and formatting the byte gives the same two digits, lowercased |
| ImageProcessing.HexColorRoundTrip | src/imageProcessor.ts:254-270 | formatting a parsed colour string gives '#' and the string's six digits lowercased, whether or not it had a '#' |
| AutotileLayout.RowConnections | src/templateGenerator.ts:46-70 | each row of the 16-tile table contributes only vertical connections |
| AutotileLayout.ColumnConnections | src/templateGenerator.ts:46-70 | each column of the 16-tile table contributes only horizontal connections |
| AutotileLayout.Tile16Layout | src/templateGenerator.ts:46-70 | the table has 16 entries; entry i combines row i/4's vertical and column i%4's horizontal connections |
| AutotileLayout.Tile16NoDiagonals | src/templateGenerator.ts:46-70 | no entry of the 16-tile table sets a diagonal bit, and all 16 entries differ |
| AutotileLayout.RowsDiffer | src/templateGenerator.ts:46-70 | entries in different rows of the 4×4 table differ |
| AutotileLayout.ColumnsDiffer | src/templateGenerator.ts:46-70 | entries in the same row but different columns differ |
| AutotileLayout.Tile16Complete | src/templateGenerator.ts:46-70 | a mask is in the 16-tile table iff it has no diagonal bit |
| AutotileLayout.Generate47TileEdges | src/templateGenerator.ts:76-140 | pushing the 16 entries, the inner-corner masks and the side-and-corner masks yields exactly the 47-entry table |
| AutotileLayout.PushInnerCorners | src/templateGenerator.ts:90-112 | the inner-corner loop appends exactly the masks with all four sides and a non-empty set of diagonals |
| AutotileLayout.PushSideCorners | src/templateGenerator.ts:116-137 | the side-and-corner loops append exactly their masks, in the source's order |
| AutotileLayout.Tile47Shape | src/templateGenerator.ts:76-140 | the 47-tile table has exactly 47 entries, and its first 16 are the 16-tile table |
| AutotileLayout.InnerCornerFacts | src/templateGenerator.ts:90-112 | every inner-corner mask has all four sides and at least one diagonal, each diagonal supported; the masks are distinct |
| AutotileLayout.SideCornerFacts | src/templateGenerator.ts:116-137 | every side-and-corner mask misses a side and has a supported diagonal; the masks are distinct |
| AutotileLayout.DistinctConcat | src/templateGenerator.ts:76-140 | two duplicate-free lists with no entry in common join into a duplicate-free list |
| AutotileLayout.Tile47DiagonalsSupported | src/templateGenerator.ts:76-140 | in every 47-tile mask, each set diagonal bit has both adjacent cardinal bits set |
| AutotileLayout.Tile47Distinct | src/templateGenerator.ts:76-140 | the 47 masks are pairwise distinct |
| AutotileLayout.Tile47Complete | src/templateGenerator.ts:76-140 | a mask is in the 47-tile table iff every diagonal it sets is supported by both adjacent sides |
| Templates.GetDimensions | src/templateGenerator.ts:692-708 | 4×4 for 16 tiles, 8×6 for 47, 7×7 for platformer; width and height are offset + count·(tileSize + padding) |
| Templates.LayoutEdges | src/templateGenerator.ts:158-163 | format 16 draws the 16-tile table and format 47 the 47-tile table |
| Templates.CellInsideCanvas | src/templateGenerator.ts:175-182 | every cell of the grid lies within the canvas |
| Templates.CellsDisjoint | src/templateGenerator.ts:175-182 | two different cells never overlap |
| Templates.LayoutFitsGrid | src/templateGenerator.ts:158-182 | the table never has more entries than the grid has cells; the 47 tiles leave exactly one of the 48 cells empty |
| Templates.GetBorderColor | src/templateGenerator.ts:569-575 | the edge's detailed colour when detailed mode is on and detailed colours are present, otherwise the border colour |
| Templates.FillIfColor | src/templateGenerator.ts:587-609 | a conditional fill paints its colour exactly at the points of its rectangle, and only when its condition holds |
| Templates.OuterCornerCommandsSplit | src/templateGenerator.ts:611-633 | the outer-corner pass is four independent corner fills, in the source's order |
| Templates.InnerCornerCommandsSplit | src/templateGenerator.ts:635-656 | the inner-corner pass is four independent corner fills, in the source's order |
| Templates.TileCommandsInStages | src/templateGenerator.ts:580-657 | a tile is drawn as fill and stripes, then outer corners, then inner corners |
| Templates.LayerOver | src/templateGenerator.ts:587-656 | a later conditional fill shows where it paints; elsewhere the earlier drawing shows |
| Templates.FourLayers | src/templateGenerator.ts:587-656 | of four conditional fills, the last one painting a point decides its colour |
| Templates.StripeBands | src/templateGenerator.ts:587-609 | each side stripe covers exactly the points of the tile in that side's border band |
| Templates.StripeLayers | src/templateGenerator.ts:585-609 | after the stripe pass a point shows the stripe of the last unset side covering it, else the fill colour, and nothing outside the tile |
| Templates.StripeColors | src/templateGenerator.ts:585-609 | after the stripe pass each point of the tile shows the colour its horizontal and vertical bands call for |
| Templates.CornerSquareCovers | src/templateGenerator.ts:611-656 | a corner square covers exactly the points of the tile in both border bands of that corner |
| Templates.CornerFillColor | src/templateGenerator.ts:611-656 | a conditional corner fill paints exactly its corner's points, and only when its condition holds |
| Templates.CornerFillsColors | src/templateGenerator.ts:611-656 | a corner pass paints a corner point in the corner colour exactly when that corner is selected |
| Templates.TileColors | src/templateGenerator.ts:580-657 | every point of a drawn tile shows ExpectedTileColor of its bands, and the tile paints nothing outside itself |
| Templates.RegionColors | src/templateGenerator.ts:587-656 | a point shows the corner colour exactly in an outer or inner corner square; otherwise it shows its stripe colour |
| Templates.FullyConnectedIsPlain | src/templateGenerator.ts:580-657 | a tile connected on all four sides (and, in format 47, on all diagonals) is only the fill |
| Templates.CornerSquaresExclusive | src/templateGenerator.ts:611-656 | no corner gets both an outer and an inner square |
| Templates.InnerCornersOnlyIn47 | src/templateGenerator.ts:635-656 | outside format 47, a tile with all four sides is plain fill whatever its diagonal bits |
| Templates.GridStep | src/templateGenerator.ts:175-182 | drawing entry i adds its tile at column i%cols, row i/cols after the tiles before it |
| Templates.TilePainterApply | src/templateGenerator.ts:178-181 | the per-cell painter draws the tile for that position and mask |
| Templates.TileGridStep | src/templateGenerator.ts:175-182 | the generate loop's step: entry i's tile commands follow those of the entries before it |
| Templates.GridColorsUpTo | src/templateGenerator.ts:175-182 | after n tiles, a point inside a drawn cell shows that cell's tile, and a point in no drawn cell is unpainted |
| Templates.GeneratedCellColors | src/templateGenerator.ts:154-182 | in a generated template each point of cell i shows the colour its bands call for under mask i |
| Templates.GeneratedOutsideCells | src/templateGenerator.ts:154-182 | a point outside every cell of a generated template is left unpainted |
| Templates.TileOnlyInCell | src/templateGenerator.ts:580-657 | a tile paints nothing outside its own square |
| Templates.MultiTileSlopeVertices | src/templateGenerator.ts:283-325 | the quadrilateral's base spans the bottom (top when flipped vertically) edge; its side heights are T·step/div and T·(step+1)/div, swapped when flipped horizontally |
| Templates.FractionBox | src/templateGenerator.ts:334-353 | a full-width box of height T·fraction, resting on the bottom edge, or hanging from the top for a ceiling |
| Templates.ClampHeight | src/templateGenerator.ts:518 | the slope height is the smaller of the computed height and the tile size |
| Templates.SlopePolygonVertices | src/templateGenerator.ts:508-557 | the path closes; it contains both base corners and the apex at the clamped height, on the right or, when flipped horizontally, the left |
| Templates.CeilingsMirrorFloors | src/templateGenerator.ts:295-325 | a ceiling slope is its floor slope mirrored top to bottom within the tile |
| Templates.DownSlopesMirrorUpSlopes | src/templateGenerator.ts:295-325 | a descending slope is its ascending slope mirrored left to right within the tile |
| Templates.Flat45MeetsRampApex | src/templateGenerator.ts:392-420 | the 45° flat tile spans the tile width at the height of both neighbouring ramps' apexes |
| Templates.PlatformerCommandsAppend | src/templateGenerator.ts:198-262 | drawing two lists of cells one after the other issues the two command lists in order |
| Templates.RampRowContinuous | src/templateGenerator.ts:229-259 | in rows 3-6 the cells fill columns 0..2·div in order; heights start and end at 0, adjacent segments meet at equal height, and the flat middle cell is at full height T |
| Templates.PlatformerLayoutInGrid | src/templateGenerator.ts:198-262 | the platformer layout draws 34 cells, each inside the 7×7 grid |
| Templates.FirstRowsCommands | src/templateGenerator.ts:212-225 | rows 0-2 draw the floor, ceiling and wall tiles, then the 45° slopes and flats, at the source's cells and in its order |
| Templates.RampRowCommands | src/templateGenerator.ts:229-259 | a ramp row draws the rising segments, the full-height flat cell and the falling segments, at the source's cells and in its order |
| Templates.SlopeHeightOnlyForTiles | src/templateGenerator.ts:229-259 | the ramp rows do not depend on the 45° slope height |
| Templates.PlatformerLayoutCommands | src/templateGenerator.ts:198-262 | the platformer template is rows 0-2 followed by the four ramp rows |
| Templates.HalfTiles | src/templateGenerator.ts:372-390 | the floor, ceiling and wall tiles cover exactly the bottom, top, left and right half of the tile |
| Templates.LinePositionsMembers | src/templateGenerator.ts:673-686 | a position is kept iff it is offset + i·(tileSize + padding) for some 0 ≤ i ≤ count and lies in 0..limit |
| Templates.VerticalLinesSnoc | src/templateGenerator.ts:673-678 | one more kept position adds one full-height vertical line at the end |
| Templates.HorizontalLinesSnoc | src/templateGenerator.ts:681-686 | one more kept position adds one full-width horizontal line at the end |
| Templates.PlatformerPreviewMissesBottomEdge | src/templateGenerator.ts:665-666 | on a platformer template the preview grid, which uses 8×6, draws no line at the canvas's bottom edge |
| Templates.TemplateGridHasEveryRowEdge | src/templateGenerator.ts:681-686 | with the template's own row count, every row edge would be drawn |
| Templates.LineKept | src/templateGenerator.ts:673-686 | each of the count+1 line positions of a grid that fits the canvas is kept |
| Templates.PreviewGridMatchesTemplate | src/templateGenerator.ts:665-666 | for formats 16 and 47 the preview grid has the template's own columns and rows |
| Templates.TemplateGenerator.constructor | src/templateGenerator.ts:147-149 | the generator keeps its configuration |
| Templates.TemplateGenerator.Generate | src/templateGenerator.ts:154-185 | a fresh canvas of GetDimensions' size; the masks of the format's table are drawn cell by cell, or the platformer layout |
| Templates.TemplateGenerator.DrawTiles | src/templateGenerator.ts:175-182 | the loop draws entry i's tile at cell i, for every entry in order |
| Templates.TemplateGenerator.GeneratePlatformerTemplate | src/templateGenerator.ts:198-262 | a fresh 7×7 canvas holding exactly the platformer layout's commands |
| Templates.TemplateGenerator.DrawWallRow | src/templateGenerator.ts:212-215 | appends the floor, ceiling, left-wall and right-wall tiles of row 0 |
| Templates.TemplateGenerator.Draw45Rows | src/templateGenerator.ts:218-225 | appends the 45° slope and flat tiles of rows 1 and 2 |
| Templates.TemplateGenerator.DrawRampRow | src/templateGenerator.ts:229-259 | appends one ramp row of 2 or 3 divisions |
| Templates.TemplateGenerator.DrawMultiTileSlope | src/templateGenerator.ts:271-329 | appends one filled slope segment at its cell |
| Templates.TemplateGenerator.DrawFloorAtFraction | src/templateGenerator.ts:334-353 | appends one fraction-height floor or ceiling box at its cell |
| Templates.TemplateGenerator.DrawPlatformerTile | src/templateGenerator.ts:358-420 | appends the half-tile, 45° slope or 45° flat shape of one named tile at its cell |
| Templates.TemplateGenerator.DrawTile | src/templateGenerator.ts:580-657 | appends the tile's fill, stripes, outer corners and inner corners, in that order |
| Templates.TemplateGenerator.DrawStripes | src/templateGenerator.ts:585-609 | appends the fill and the stripe of each unset side |
| Templates.TemplateGenerator.DrawOuterCorners | src/templateGenerator.ts:611-633 | appends a corner square wherever both adjacent sides are unset |
| Templates.TemplateGenerator.DrawInnerCorners | src/templateGenerator.ts:635-656 | in format 47, appends a corner square wherever both adjacent sides are set and the diagonal is not |
| Templates.TemplateGenerator.DrawGrid | src/templateGenerator.ts:663-687 | appends the vertical lines, then the horizontal lines, at the kept positions of the preview shape |
| Templates.TemplateGenerator.DrawVerticalLines | src/templateGenerator.ts:673-678 | the loop draws a full-height line at each kept column position, in order |
| Templates.TemplateGenerator.DrawHorizontalLines | src/templateGenerator.ts:681-686 | the loop draws a full-width line at each kept row position, in order |
| AutoAdjust.Round | src/autoAdjuster.ts:177-180 | Math.round gives an integer within one half of its argument |
| AutoAdjust.EstimateSourceTileRect | src/autoAdjuster.ts:151-194 | at least one pixel each way; on a non-empty image 0 ≤ x ≤ width-1 and x + w ≤ width, and likewise for y |
| AutoAdjust.RescaleSameSize | src/autoAdjuster.ts:173-180 | rescaling between equal sizes leaves a coordinate unchanged |
| AutoAdjust.EstimateAtTemplateSize | src/autoAdjuster.ts:151-194 | on an image of exactly the template's size the estimated region is the template cell itself |
| AutoAdjust.CellBounds | src/autoAdjuster.ts:61-64 | the content bounds found in a cell's region span at least one pixel each way |
| AutoAdjust.Blits | src/autoAdjuster.ts:91-101 | one blit per adjustment |
| AutoAdjust.BlitsSnoc | src/autoAdjuster.ts:91-140 | recording one more adjustment appends its blit |
| AutoAdjust.BlitsAt | src/autoAdjuster.ts:91-140 | command k is the blit of adjustment k |
| AutoAdjust.FitScaleFits | src/autoAdjuster.ts:78-82 | min(T/w, T/h) is positive, keeps the scaled content within the square, and fills it along one side |
| AutoAdjust.FitScaleIsLargest | src/autoAdjuster.ts:78-82 | no larger uniform scale keeps the content within the square |
| AutoAdjust.Tabulate | src/autoAdjuster.ts:44-140 | a cell-by-cell record of n cells has n entries |
| AutoAdjust.TabulateAt | src/autoAdjuster.ts:44-140 | entry k of a cell-by-cell record is cell k's value |
| AutoAdjust.AdjustmentsUpTo | src/autoAdjuster.ts:44-140 | adjust's record of n cells has n entries |
| AutoAdjust.AdjustmentsUpToAt | src/autoAdjuster.ts:44-140 | entry k of adjust's record is cell k's adjustment |
| AutoAdjust.ScaledAdjustmentCentred | src/autoAdjuster.ts:85-88 | content that fits the square is drawn within the cell with non-negative offsets and equal margins on opposite sides |
| AutoAdjust.DetectedWithinSource | src/autoAdjuster.ts:70-75 | the detected rectangle, in source coordinates, lies within the region read |
| AutoAdjust.CellAdjustmentFits | src/autoAdjuster.ts:68-138 | with content: uniform scale min(T/w, T/h), one side filling the cell, centred within it; without: no detection, scale 1, offset 0, the whole cell |
| AutoAdjust.AdjustFitsCell | src/autoAdjuster.ts:44-140 | entry i of adjust's record has index i, reads cell i's region, and lies centred within cell i at a uniform scale |
| AutoAdjust.FoundBounds | src/autoAdjuster.ts:212-225 | the first pass inspects one region per cell |
| AutoAdjust.FoundBoundsNonEmpty | src/autoAdjuster.ts:212-225 | every bound the first pass finds spans at least one pixel each way |
| AutoAdjust.DetectedSizes | src/autoAdjuster.ts:212-225 | at most one size is recorded per cell |
| AutoAdjust.DetectedSizesSnoc | src/autoAdjuster.ts:220-223 | inspecting one more cell adds its size exactly when it has content |
| AutoAdjust.DetectedSizesStep | src/autoAdjuster.ts:212-225 | the first pass's step: cell i's size, if any, follows the sizes before it |
| AutoAdjust.DetectedSizesPositive | src/autoAdjuster.ts:220-223 | every recorded size is at least one pixel each way |
| AutoAdjust.SumsAtLeastCount | src/autoAdjuster.ts:227-233 | the sums of recorded sizes are at least their number |
| AutoAdjust.MeansPositive | src/autoAdjuster.ts:227-233 | the average width and height, or the tileSize fallback, are at least one pixel |
| AutoAdjust.CutRatioBounds | src/autoAdjuster.ts:264-274 | a side's cut ratio is positive, at most the base scale, and keeps the side within the square |
| AutoAdjust.ContentScaleBounds | src/autoAdjuster.ts:264-274 | the final scale is positive, at most the shared base scale, and keeps both sides within the square |
| AutoAdjust.ContentAdjustmentsUpTo | src/autoAdjuster.ts:236-325 | the second pass's record of n cells has n entries |
| AutoAdjust.ContentAdjustmentsUpToAt | src/autoAdjuster.ts:236-325 | entry k of the second pass's record is cell k's content-scaled adjustment |
| AutoAdjust.ContentCellAdjustmentFits | src/autoAdjuster.ts:236-322 | with content: a uniform scale at most the base scale, centred within the cell; without: no detection, scale 1, offset 0, the whole cell |
| AutoAdjust.DetectedSizesCount | src/autoAdjuster.ts:212-255 | the first pass records as many sizes as the second pass has cells with content |
| AutoAdjust.DetectedSizesUniform | src/autoAdjuster.ts:212-225 | if all content has one size, only that size is recorded |
| AutoAdjust.DetectedSizesCountsCell | src/autoAdjuster.ts:212-225 | a cell with content makes the record non-empty, so the tileSize fallback is not used |
| AutoAdjust.AverageOfEqual | src/autoAdjuster.ts:227-233 | n equal sizes average to that size |
| AutoAdjust.SumsOfUniform | src/autoAdjuster.ts:227-233 | n equal sizes sum to n times that size |
| AutoAdjust.ContentScaleOfOwnSize | src/autoAdjuster.ts:264-274 | when the average is the content's own size, the two-pass scale equals adjust's min(T/w, T/h) |
| AutoAdjust.UniformContentAgrees | src/autoAdjuster.ts:228-274 | if all content on the sheet has one size, the two-pass variant records for every cell exactly what adjust records |
| AutoAdjust.AutoAdjuster.constructor | src/autoAdjuster.ts:26-28 | the adjuster keeps its configuration |
| AutoAdjust.AutoAdjuster.DetectCell | src/autoAdjuster.ts:61-64 | the region read for cell i is the estimated one, and the bounds are those of its content |
| AutoAdjust.AutoAdjuster.FitCell | src/autoAdjuster.ts:44-140 | records cell i's adjustment and appends exactly its blit |
| AutoAdjust.AutoAdjuster.FitContentCell | src/autoAdjuster.ts:236-325 | records cell i's content-scaled adjustment and appends exactly its blit |
| AutoAdjust.AutoAdjuster.Adjust | src/autoAdjuster.ts:33-144 | a fresh canvas of the template's size; cols·rows adjustments, entry i being cell i's; command i is the blit of adjustment i |
| AutoAdjust.AutoAdjuster.DetectSizes | src/autoAdjuster.ts:212-225 | the first pass records, in cell order, the content size of every cell with content |
| AutoAdjust.AutoAdjuster.MeasureCell | src/autoAdjuster.ts:212-225 | one step of the first pass extends the record by cell i's size exactly when it has content |
| AutoAdjust.AutoAdjuster.AdjustWithContentDetection | src/autoAdjuster.ts:200-328 | a fresh canvas; the averages are positive; cols·rows adjustments, entry i being cell i's adjustment scaled by those averages; command i is the blit of adjustment i |
| AutoAdjust.AutoAdjuster.FitByAverage | src/autoAdjuster.ts:236-325 | the second pass records every cell fitted by the averages, in order, and blits each |

## Left out

- Canvas rasterisation is not modelled: pixel coverage, anti-aliasing, line stroking, polygon filling and the resampling done by `drawImage`. Drawing is a recorded list of commands. Where fills overwrite each other, `PaintedColor` gives the colour a point shows; transparency and blending are not modelled.
- Floating-point arithmetic is modelled as exact rationals (`real`). Rounding error in scales, offsets and slope heights is not captured.
- `Math.tan` heights are not modelled. The 45° slope and flat tiles take their height as the `slopeHeight` parameter, and only the clamp `min(height, size)` is modelled (`ClampHeight`, `drawFloorAtHeight`, `drawSlopePolygon`).
- The 30° and 15° cases of `drawPlatformerTile` (src/templateGenerator.ts:422-473) are not modelled. The platformer layout never draws them, and their heights come only from `Math.tan`.
- `colorToStyle` and `colorToString` are not modelled: they format alpha as a floating-point CSS string.
- `clear`, `fill`, `strokeRect`, `drawResized`, `getPixel`, `setPixel` and `putImageData` are not modelled: the core never calls them.
- I/O and asynchronous code are outside the model: `loadImage`, `fromImage`, `fromCanvas`, `toBlob`, `toDataURL` and file download.
- src/main.ts is not part of this model. Its borderWidth clamp (src/main.ts:144) appears as `ValidConfig`: borderWidth at most half the tile size, with a positive tile size and non-negative padding and offset.
- The browser's `getImageData` is a foreign call. `GetImageData` stands in for it with a concrete crop of a `Raster` in which pixels outside the image are transparent.
- The failure to obtain a 2D context (the exceptions in the constructor) cannot happen in the model.
- Some loop bodies are split into their own methods: `DetectCell`, `FitCell`, `FitContentCell`, `MeasureCell`, `FitByAverage`, `DrawStripes`, `DrawOuterCorners`, `DrawInnerCorners`, `DrawWallRow`, `Draw45Rows` and `DrawRampRow`. They issue the same commands in the same order as the inline code.
- The preview grid uses 8×6 for the platformer format (src/templateGenerator.ts:665-666). The model keeps this as written, so no line is drawn at the bottom edge of the 7×7 platformer canvas (`PlatformerPreviewMissesBottomEdge`).
- Templates.TemplateGenerator.Generate: its width and height are stated through `GetDimensions`. Its contents are stated through `GridCommands` and `PlatformerCommands`, whose meaning the lemmas give. For the platformer, the `slopeHeight` parameter replaces the `Math.tan(45°)` height.
- ImageProcessing.HexToColor: its own contract covers only alpha and the rejected strings. What it parses from an accepted string is stated by `ColorHexRoundTrip` and `HexColorRoundTrip`.
- Templates.SlopePolygonVertices: states which points the path visits and that it closes, not the order of the middle two vertices.
