# Wesnoth drawing primitives and GUI canvas, modelled in Dafny

This project models two parts of Battle for Wesnoth's rendering code:

- `src/draw.cpp`, the thin drawing layer over SDL's renderer. It fills and
  outlines rectangles, draws lines, points, circles and discs, copies
  textures (whole, flipped or tiled), and provides scoped setters that
  change the clip rectangle, viewport or render target and restore them
  afterwards.
- `src/gui/core/canvas.cpp`, the GUI canvas. A canvas holds a list of
  shapes parsed from WML: line, rectangle, rounded rectangle, circle, image
  and text. It evaluates the shapes' formulas against its variables and
  draws them through the drawing layer. It can also cache a blurred
  background.

The renderer is a `Renderer` object (module `Render`). Each drawing
operation appends SDL calls to its `trace` and updates its colour, clip,
viewport and render target. The state kept is a simplification of SDL's:
see "## Left out" for the renderer-less calls and the render-target switch. Every drawing
method is proved against a function that gives the calls it emits. The
properties of those call sequences are proved as lemmas:

- Horn's circle algorithm visits pixels within its rounding of the circle: x² + y²
  differs from r² by at most x. That is closeness to the circle of radius √(r² + ¼),
  which is not always the pixel nearest the circle of radius r.
- Octant masks choose mirror images.
- Tiled copies form a fixed grid that reaches the destination's right and bottom
  edges, and its left and top edges unless a centred texture is larger.
- Clip scopes give back the clip they found.
- Only a refused image makes `canvas::draw` fail. `canvas::blit` also fails when the
  area to draw has a negative size or is larger than the widget.
- Parsing stops at the first invalid shape.

C++ integer conversions (`int`↔`unsigned`, 32-bit wrap-around, division that
truncates toward zero) are defined in module `Geometry`. They are applied where the
source converts between `int` and `unsigned`; plain `int` sums and differences are
exact (see "## Left out").

The files:

- `wrappers.dfy`: `Option`.
- `geometry.dfy`: rectangles, `SDL_IntersectRect`, the integer conversions.
- `render.dfy`: colours, textures, SDL calls and the `Renderer` class.
- `raster.dfy`: Horn's circle method and the octant masks.
- `tiling.dfy`: the tile layout of `draw::tiled`.
- `draw.cpp`'s operations in `draw.dfy`.
- Shape construction and `calculate_rects` in `shapes.dfy`.
- Shape drawing in `shape_draw.dfy`.
- The `canvas` class in `gui.dfy`.

## Model

| member | source | states |
|---|---|---|
| Geometry.IntersectRect | src/gui/core/canvas.cpp:105-111 | When the intersection is reported non-empty it has area, lies inside both rectangles and starts on a pixel of both. Every pixel of both rectangles is in it. When it is reported empty, no pixel lies in both. |
| Geometry.IntersectRects | src/draw.cpp:404-412 | The result holds exactly the pixels of both rectangles; an empty overlap yields the empty rectangle. |
| Geometry.CDiv | src/draw.cpp:329-330 | C++ division truncating toward zero: for a non-negative dividend the quotient rounds down, for a negative one it rounds up. |
| Geometry.ToUnsigned | src/gui/core/canvas.cpp:100-103 | The `unsigned` value of an `int`: within [0, 2^32) and congruent to it modulo 2^32. |
| Geometry.ToSigned | src/gui/core/canvas.cpp:341-343 | Reading an `unsigned` back as `int` gives a value in the 32-bit signed range that converts back to the same `unsigned`. |
| Geometry.Wrap32 | src/gui/core/canvas.cpp:105 | Storing into an `int` field keeps the value modulo 2^32 and changes nothing that already fits. |
| Render.ReplayAppend | src/draw.cpp:42-523 | Replaying a concatenation of calls is replaying the first part, then the second. |
| Render.ReplayDrawsOnly | src/draw.cpp:42-379 | Calls that only draw leave colour, clip, viewport and target as they were. |
| Render.ReplayColor | src/draw.cpp:42-523 | The colour a replay leaves is the colour of the last SetDrawColor among the calls, or the starting colour when there is none. |
| Render.ColorAfterAppend | src/draw.cpp:42-523 | The colour after a concatenation of calls is the colour after the second part, started from the colour the first part leaves. |
| Render.ColorKept | src/draw.cpp:42-523 | Calls with no SetDrawColor leave the colour as it was. |
| Render.ColorSetLast | src/draw.cpp:42-523 | After a SetDrawColor followed only by calls that keep the colour, the colour is the one set. |
| Render.Renderer.constructor | src/draw.cpp:42-523 | A new renderer has an empty trace and the given presence, draw area and state. |
| Render.Renderer.Emit | src/draw.cpp:42-523 | Issuing one call appends it to the trace and applies it to the state. |
| Raster.HornStep | src/draw.cpp:174-179 | One pass of the loop advances y by one and lowers x by at most one, so x − y strictly shrinks and the loop ends. |
| Raster.HornStepKeepsError | src/draw.cpp:174-179 | The update keeps the error term d = x² + y² − r² − x. |
| Raster.HornStepKeepsBounds | src/draw.cpp:174-179 | The update keeps −2x ≤ d ≤ 0 while the loop runs. |
| Raster.ErrorBoundsGiveClose | src/draw.cpp:157-163 | With the error term and its bounds, (x, y) is close to the circle of radius r: x² + y² − r² lies within [−x, x]. |
| Raster.HornRunFacts | src/draw.cpp:157-180 | Every loop head from a valid state is at row y + i, stays in the octant 0 ≤ y ≤ x, keeps the error term and is close to the circle (x² + y² − r² within [−x, x]). Successive heads are one update apart and the loop stops exactly when y passes x. |
| Raster.CircleRun | src/draw.cpp:157-180 | For radius r the loop runs zero times when r < 0. For r ≥ 0 it runs at least once and at most r + 1 times, at rows 0, 1, … in the first octant, each close to the circle (x² + y² − r² within [−x, x]). |
| Raster.SetBitsSplit | src/draw.cpp:164-172 | The mask's horizontal octants are the bits of the first four tests and its vertical octants those of the last four; together they count every set bit of the mask. |
| Raster.OctantPointsCount | src/draw.cpp:164-172 | One pass pushes one point per set bit of the octant mask. |
| Raster.OctantPointsReflect | src/draw.cpp:164-172 | Every point pushed is one of the eight mirror images (±x, ±y) / (±y, ±x) of the octant point about the centre. |
| Raster.CirclePointsCount | src/draw.cpp:157-182 | draw::circle draws (passes) × (set bits) points. |
| Raster.PointsOfCloseRun | src/draw.cpp:157-182 | Mirror images of first-octant points close to the circle are on the rasterised circle: folded back into the first octant, they are close to it. |
| Raster.CirclePointsOnCircle | src/draw.cpp:149-183 | Every point draw::circle draws, folded into the first octant about (cx, cy), is close to the circle of radius r (x² + y² − r² within [−x, x]). |
| Raster.HorizontalSpansFacts | src/draw.cpp:203-214 | The first four octant tests draw one horizontal line per set horizontal bit. |
| Raster.VerticalSpansFacts | src/draw.cpp:216-227 | The last four octant tests draw one vertical line per set vertical bit. |
| Raster.OctantSpansFacts | src/draw.cpp:203-227 | One pass of draw::disc draws one line per set bit: the horizontal lines first, then the vertical ones. |
| Raster.DiscSpansShape | src/draw.cpp:191-237 | draw::disc draws (passes) × (set bits) lines, each horizontal or vertical. |
| Raster.DiscMatchesCircle | src/draw.cpp:149-237 | draw::disc draws as many lines as draw::circle draws points for the same radius and mask. |
| Tiling.StepsCover | src/draw.cpp:335-337 | The loop makes no step exactly when it starts at or past the end. Otherwise its last step starts before the end and the next would start at or after it. |
| Tiling.RowTilesCount | src/draw.cpp:337-343 | A row holds one tile per column step. |
| Tiling.RowTilesAt | src/draw.cpp:336-343 | Tile i of a row is at x + i·w, has the texture's size, and its horizontal flip alternates starting from false. |
| Tiling.GridIndexStep | src/draw.cpp:335-344 | Tile k of a grid is at column k mod n, row k div n, when the first row holds the first n tiles. |
| Tiling.GridTilesAt | src/draw.cpp:335-344 | The grid holds rows × columns tiles. Tile k is at column k mod n and row k div n, flipped horizontally on odd columns and vertically on odd rows. |
| Tiling.TilePlanLayout | src/draw.cpp:329-344 | The offsets are zero unless centred. The columns and rows start at dst − offset; the last column and row start before dst's right and bottom edges and the grid reaches them. The first column starts at or left of dst.x exactly unless a centred texture is at least 2 pixels wider than dst, and likewise for rows. Every tile has the texture's size and sits at its grid position with alternating flips. |
| Tiling.CenteredLargerTextureLeavesStrip | src/draw.cpp:329-344 | A 20 × 20 texture centred on a 10 × 10 destination at the origin is one copy at (5, 5), so the strips left of x = 5 and above y = 5 get no copy. |
| Draw.FillRgba | src/draw.cpp:42-50 | Sets the colour to (r, g, b, a), then fills the area; the new colour is kept. |
| Draw.FillRgb | src/draw.cpp:52-57 | As FillRgba with an opaque alpha. |
| Draw.FillColor | src/draw.cpp:59-62 | Sets the colour, then fills the area. |
| Draw.Fill | src/draw.cpp:64-68 | Fills the area with the current colour; nothing else changes. |
| Draw.SetColorRgba | src/draw.cpp:70-75 | Issues one colour call; only the colour changes. |
| Draw.SetColorRgb | src/draw.cpp:77-82 | As SetColorRgba with an opaque alpha. |
| Draw.SetColor | src/draw.cpp:84-88 | Issues one colour call; only the colour changes. |
| Draw.Rectangle | src/draw.cpp:90-94 | Outlines the rectangle with the current colour; nothing else changes. |
| Draw.RectangleRgba | src/draw.cpp:96-103 | Sets the colour, then outlines the rectangle. |
| Draw.RectangleRgb | src/draw.cpp:105-108 | As RectangleRgba with an opaque alpha. |
| Draw.RectangleColor | src/draw.cpp:110-113 | Sets the colour, then outlines the rectangle. |
| Draw.Line | src/draw.cpp:115-120 | Draws one line between the two points; nothing else changes. |
| Draw.LineColor | src/draw.cpp:122-129 | Sets the colour, then draws the line. |
| Draw.Points | src/draw.cpp:131-135 | Draws the points in one call. |
| Draw.PointAt | src/draw.cpp:137-141 | Draws one point. |
| Draw.OctantPointsPicks | src/draw.cpp:164-172 | The points pushed in one pass are the eight tests in source order, each present exactly when its bit is set. |
| Draw.PushPicks | src/draw.cpp:164-172 | One test appends its point exactly when its bit is set. |
| Draw.OctantPushAppends | src/draw.cpp:164-172 | The eight tests of a pass append exactly that pass's octant points. |
| Draw.CirclePushAppends | src/draw.cpp:163-180 | The loop appends the octant points of every pass, in order. |
| Draw.CirclePushUnfold | src/draw.cpp:163-180 | One loop iteration: a pass's points followed by the rest of the run. |
| Draw.DiscSpansUnfold | src/draw.cpp:199-236 | One loop iteration of draw::disc: a pass's lines followed by the rest of the run. |
| Draw.PushOctants | src/draw.cpp:164-172 | The eight conditional pushes append exactly the octant points of (x, y) chosen by the mask. |
| Draw.Circle | src/draw.cpp:149-183 | Draws, in one call, the octant points of every pass of Horn's loop for radius r; nothing else changes. |
| Draw.CircleColor | src/draw.cpp:143-147 | Sets the colour, then draws the circle. |
| Draw.HorizontalPass | src/draw.cpp:203-214 | The four horizontal octant tests of one pass draw exactly their lines. |
| Draw.VerticalPass | src/draw.cpp:216-227 | The four vertical octant tests of one pass draw exactly their lines. |
| Draw.OctantSpansSplit | src/draw.cpp:203-227 | One pass is the horizontal lines followed by the vertical ones. |
| Draw.Disc | src/draw.cpp:191-237 | Draws, pass by pass, the spans of every octant in the mask; nothing else changes. |
| Draw.DiscColor | src/draw.cpp:185-189 | Sets the colour, then draws the disc. |
| Draw.BlitPart | src/draw.cpp:245-251 | Copies the source part of the texture to the destination; a null texture draws nothing. |
| Draw.Blit | src/draw.cpp:253-259 | Copies the whole texture to the destination; a null texture draws nothing. |
| Draw.BlitWhole | src/draw.cpp:261-267 | Copies the whole texture over the whole target; a null texture draws nothing. |
| Draw.GetFlip | src/draw.cpp:270-277 | The horizontal bit is set exactly when flip_h is true and the vertical bit exactly when flip_v is true. No other bit is set. |
| Draw.FlippedPart | src/draw.cpp:279-292 | Copies the source part with the flip from get_flip; a null texture draws nothing. |
| Draw.Flipped | src/draw.cpp:294-306 | Copies the whole texture to the destination with the flip; a null texture draws nothing. |
| Draw.FlippedWhole | src/draw.cpp:308-315 | Copies the whole texture over the target with the flip; a null texture draws nothing. |
| Draw.TileCallsAppend | src/draw.cpp:335-344 | The calls for a concatenation of tiles are the calls for each part, in order. |
| Draw.TileCallsAt | src/draw.cpp:338-342 | One call per tile: a flipped copy when mirrored, a plain copy otherwise. |
| Draw.RowStep | src/draw.cpp:337-343 | One inner iteration: the copy for the current tile, then the rest of the row. |
| Draw.GridStep | src/draw.cpp:335-344 | One outer iteration: the current row, then the rest of the grid. |
| Draw.GridAdvance | src/draw.cpp:335-344 | After a row is drawn, what remains is the rest of the grid with the vertical flip toggled. |
| Draw.TiledCopies | src/draw.cpp:319-345 | draw::tiled makes rows × columns copies. Copy k puts the whole texture at grid column k mod cols and row k div cols. When mirrored it is flipped on odd columns and odd rows. |
| Draw.TiledRow | src/draw.cpp:337-343 | The inner loop draws exactly the copies of one row. |
| Draw.TiledGrid | src/draw.cpp:333-344 | The two loops draw exactly the copies of the tile plan. |
| Draw.Tiled | src/draw.cpp:319-345 | A null texture does nothing. Otherwise: reduce the clip to dst, draw the planned copies, put back the clip observed before. |
| Draw.TiledHighres | src/draw.cpp:347-379 | The same clip scope around the floating-point copies; a null texture does nothing. |
| Draw.GetClip | src/draw.cpp:426-441 | Without a renderer: the empty rectangle. With one: the clip when set, else the draw area. So it is empty only without a renderer or with an empty draw area. |
| Draw.GetViewport | src/draw.cpp:472-487 | Without a renderer: the empty rectangle. With one: the viewport when set, else the draw area. So it is empty only without a renderer or with an empty draw area. |
| Draw.ForceClip | src/draw.cpp:414-424 | With a renderer, sets the clip; without one, nothing happens. |
| Draw.SetClip | src/draw.cpp:387-402 | Remembers the clip observed before and forces the new one. |
| Draw.EndClip | src/draw.cpp:394-397 | Forces the remembered clip back. |
| Draw.ReducedClip | src/draw.cpp:404-412 | With no current clip the new clip is used unchanged. Otherwise the result holds exactly the pixels in both the new and the current clip. |
| Draw.ReduceClip | src/draw.cpp:404-412 | Remembers the observed clip and forces the reduced clip. |
| Draw.ForceViewport | src/draw.cpp:461-470 | With a renderer, sets the viewport; without one, nothing happens. |
| Draw.SetViewportScope | src/draw.cpp:444-459 | Remembers the viewport observed before and forces the new one. |
| Draw.EndViewport | src/draw.cpp:451-454 | Forces the remembered viewport back. |
| Draw.ScopeRestores | src/draw.cpp:387-441 | A scope opened with any rectangle and then closed gives back the rectangle the code observed. The raw stored rectangle comes back exactly when it was set, there is no renderer, or the draw area is empty. |
| Draw.ReduceClipNarrows | src/draw.cpp:404-412 | Inside an existing clip, a reduced clip never lets through a pixel the current clip stops. |
| Draw.SetRenderTarget | src/draw.cpp:490-506 | Without a renderer: nothing, and an empty setter. With one: remembers the target and viewport, then switches the target. |
| Draw.EndRenderTarget | src/draw.cpp:508-516 | With a renderer, restores the remembered target, then the viewport. |
| Draw.RenderTargetScopeRestores | src/draw.cpp:490-516 | A render-target scope around calls that only draw gives back the whole renderer state it found. |
| Shapes.BorderThickness | src/gui/core/canvas.cpp:136-151 | A literal null border colour forces a border thickness of 0; otherwise the thickness is the `border_thickness` attribute. |
| Shapes.MakeLine | src/gui/core/canvas.cpp:45-58 | A line shape with the `immutable` flag. Missing end points and thickness are 0; a missing colour is the default colour. |
| Shapes.MakeRectangle | src/gui/core/canvas.cpp:136-151 | A rectangle with the configured bounds. The colours default to the null colour. The border thickness is 0 exactly when `border_thickness` is 0 or the border colour is a literal null colour (a missing one included); otherwise it is `border_thickness`. |
| Shapes.MakeRoundRectangle | src/gui/core/canvas.cpp:203-219 | The same as a rectangle, plus a corner radius that defaults to 0. |
| Shapes.MakeCircle | src/gui/core/canvas.cpp:275-288 | A circle with one ring when `border_thickness` is missing. Otherwise the ring count is the value read as `unsigned`: a negative value n gives n + 2^32. The colours default to the default colour. |
| Shapes.MakeImage | src/gui/core/canvas.cpp:322-339 | An image shape. `mirror` is read from `mirror` when present, else from the deprecated `vertical_mirror`. A missing resize mode is scale, and a missing name is empty. |
| Shapes.MakeText | src/gui/core/canvas.cpp:479-502 | The constructor fails exactly when the font size is the literal 0, with "Text has a font size of 0."; otherwise it is a text shape with the given bounds. |
| Shapes.MakeShape | src/gui/core/canvas.cpp:684-696 | A shape is made exactly for the six shape keys, except a text whose constructor fails. Only text can fail. The shape made has the key's kind. |
| Shapes.NullBorderDrawsNoRing | src/gui/core/canvas.cpp:203-219 | A literal null border colour gives rectangles and rounded rectangles a border thickness of 0. |
| Shapes.GetResizeMode | src/gui/core/canvas.cpp:456-475 | Each of the five names gives its mode and only it gives that mode. Any other name, the empty one included, gives scale. |
| Shapes.DimensionValidation | src/gui/core/canvas.cpp:341-348 | Passes exactly when the `unsigned` value is below 2^31 (non-negative as `int`), failing otherwise with "Image doesn't fit on canvas.". |
| Shapes.DimensionValidationOfInt | src/gui/core/canvas.cpp:391-395 | Validating an `int` size passes exactly when it is non-negative. |
| Shapes.CalculateRects | src/gui/core/canvas.cpp:96-132 | The shape's rectangle is always returned; an empty result has all other rectangles empty. |
| Shapes.CalculateRectsEmpty | src/gui/core/canvas.cpp:105-111 | The result is empty exactly when no pixel of the shape lies inside the view bounds. |
| Shapes.CalculateRectsVisible | src/gui/core/canvas.cpp:113-131 | A non-empty result's clip holds exactly the shape's pixels inside the view. Seen from the shape it starts at a non-negative offset inside the shape, and seen from the viewport it lies inside the viewport. Each rectangle is the clip or the shape moved by the matching offset. |
| ShapeDraw.BlocksLength | src/gui/core/canvas.cpp:190-198 | Blocks of equal size concatenate to size × count calls. |
| ShapeDraw.BlocksPrefix | src/gui/core/canvas.cpp:190-198 | The first m loop iterations are a prefix of the first n. |
| ShapeDraw.BlockSlice | src/gui/core/canvas.cpp:190-198 | Iteration i's calls sit right after those of iterations 0..i−1. |
| ShapeDraw.LineMoves | src/gui/core/canvas.cpp:60-83 | When the coordinates fit in an `int`, the line runs between the formula's end points shifted by draw location − portion, keeping direction and length. |
| ShapeDraw.DrawLineShape | src/gui/core/canvas.cpp:60-83 | Sets the evaluated colour and draws the moved line. |
| ShapeDraw.OutlinesAt | src/gui/core/canvas.cpp:190-198 | The border loop draws max(thickness, 0) outlines, outline i inset by i on every side. |
| ShapeDraw.RectangleLayout | src/gui/core/canvas.cpp:164-198 | A visible rectangle fills exactly when the fill colour is not null, first, with the rectangle inset by the border. Then comes the border colour, then one outline per unit of thickness, outline i inset by i. |
| ShapeDraw.RectangleColor | src/gui/core/canvas.cpp:153-199 | A rectangle's calls leave the border colour as the draw colour, or the colour found for a shape outside the view. |
| ShapeDraw.DrawRectangleFill | src/gui/core/canvas.cpp:173-184 | Fills the inset rectangle with the fill colour only when that colour is not null, and leaves the fill colour as the draw colour then, else the colour it found. |
| ShapeDraw.DrawOutlines | src/gui/core/canvas.cpp:190-198 | Draws exactly the outlines of the border loop. |
| ShapeDraw.DrawRectangleShape | src/gui/core/canvas.cpp:153-199 | Draws nothing for a shape outside the view, otherwise the rectangle's calls; the clip, viewport and target are unchanged. The draw colour left is the border colour, or the colour found for a shape outside the view. |
| ShapeDraw.RingRadiusFacts | src/gui/core/canvas.cpp:315-317 | Ring i uses radius − i while that fits. Once i passes the radius, the `unsigned` difference read as `int` is negative and the ring draws no point. |
| ShapeDraw.CircleRingsAt | src/gui/core/canvas.cpp:314-317 | Each ring is the border colour followed by the points of the circle of radius RingRadius(radius, i). |
| ShapeDraw.CircleCentreMoves | src/gui/core/canvas.cpp:301-302 | The centre is the formula's point moved into draw space whenever that fits in an `int`. |
| ShapeDraw.CircleCallsCount | src/gui/core/canvas.cpp:309-317 | A filled circle with non-zero radius adds 1 + 8 × (passes) calls, and each ring adds two. |
| ShapeDraw.CircleFillColor | src/gui/core/canvas.cpp:309-312 | The fill leaves the fill colour as the draw colour exactly when it is non-null and the radius non-zero, else the colour found. |
| ShapeDraw.CircleRingsColor | src/gui/core/canvas.cpp:314-317 | The rings leave the border colour as the draw colour when there is at least one, else the colour found. |
| ShapeDraw.CircleShapeColor | src/gui/core/canvas.cpp:309-317 | A circle leaves the border colour when it has rings, else the fill colour when it drew the disc, else the colour found. |
| ShapeDraw.DrawCircleFill | src/gui/core/canvas.cpp:309-312 | Draws the disc only for a non-null fill colour and a non-zero radius, and then leaves the fill colour as the draw colour, else the colour it found. |
| ShapeDraw.DrawCircleRings | src/gui/core/canvas.cpp:314-317 | Draws exactly the rings 0 .. border_thickness − 1 and leaves the border colour as the draw colour when there is a ring, else the colour it found. |
| ShapeDraw.DrawCircleShape | src/gui/core/canvas.cpp:290-318 | Draws the fill and then the rings about the moved centre; the clip, viewport and target are unchanged. The draw colour left is the border colour when there are rings, else the fill colour when the disc was drawn, else the colour found. |
| ShapeDraw.CornerMasks | src/gui/core/canvas.cpp:249-252 | The four corner masks are disjoint, two octants each, and together cover all eight. |
| ShapeDraw.OctantCorner | src/gui/core/canvas.cpp:266-269 | A corner mask only picks points on that corner's side of the centre. |
| ShapeDraw.CornerPoints | src/gui/core/canvas.cpp:266-269 | A whole run drawn with a corner mask stays on that corner's side. |
| ShapeDraw.CornerArc | src/gui/core/canvas.cpp:266-269 | A corner arc holds only points close to its circle (in the sense of Raster.CloseToCircle) on its corner's side of the centre. |
| ShapeDraw.RoundRingFacts | src/gui/core/canvas.cpp:259-270 | Each border iteration draws eight calls and fills nothing. |
| ShapeDraw.NoFillAppend | src/gui/core/canvas.cpp:259-270 | Concatenating call lists that fill nothing fills nothing. |
| ShapeDraw.BlocksNoFill | src/gui/core/canvas.cpp:259-270 | A loop whose every iteration fills nothing fills nothing. |
| ShapeDraw.RoundRingsAt | src/gui/core/canvas.cpp:259-270 | The border loop draws 8 calls per ring, ring i at positions 8i .. 8i+7, and fills nothing. |
| ShapeDraw.RoundRingShape | src/gui/core/canvas.cpp:260-269 | Ring i is two horizontal edges, two vertical edges, then the four corner arcs of radius r − i in source order. |
| ShapeDraw.RoundFillIff | src/gui/core/canvas.cpp:241-253 | A rounded rectangle fills something exactly when the fill colour is not null and the width and height are not zero. |
| ShapeDraw.RoundRectangleCorrected | src/gui/core/canvas.cpp:221-271 | The corrected routine draws nothing for a shape outside the view and agrees with the routine as written everywhere else. |
| ShapeDraw.RoundRingsKeepColor | src/gui/core/canvas.cpp:259-270 | The border loop's lines and circles never change the draw colour. |
| ShapeDraw.RoundRectangleColor | src/gui/core/canvas.cpp:221-271 | The routine as written always leaves the border colour; the corrected one leaves it too, except for a shape outside the view, which leaves the colour found. |
| ShapeDraw.RoundRectangleOutsideView | src/gui/core/canvas.cpp:227-271 | A shape wholly outside the view still has 9 calls issued by the routine as written; the corrected one issues none. |
| ShapeDraw.DrawArc | src/gui/core/canvas.cpp:266-269 | Draws one corner arc. |
| ShapeDraw.DrawQuarter | src/gui/core/canvas.cpp:249-252 | Draws one corner disc. |
| ShapeDraw.DrawBands | src/gui/core/canvas.cpp:245-247 | Draws the three fill bands. |
| ShapeDraw.DrawQuarters | src/gui/core/canvas.cpp:249-252 | Draws the four corner discs. |
| ShapeDraw.DrawRoundFill | src/gui/core/canvas.cpp:243-252 | Draws the bands, then the corner discs. |
| ShapeDraw.DrawRingEdges | src/gui/core/canvas.cpp:260-264 | Draws the four straight edges of ring i. |
| ShapeDraw.DrawRingArcs | src/gui/core/canvas.cpp:266-269 | Draws the four corner arcs of ring i. |
| ShapeDraw.DrawRoundRing | src/gui/core/canvas.cpp:259-270 | Draws ring i: its edges, then its arcs. |
| ShapeDraw.DrawRoundRings | src/gui/core/canvas.cpp:259-270 | Draws exactly the rings of the border loop. |
| ShapeDraw.DrawRoundBody | src/gui/core/canvas.cpp:239-270 | Draws the optional fill, the border colour and the rings, and leaves the border colour as the draw colour. |
| ShapeDraw.DrawRoundRectangleAsWritten | src/gui/core/canvas.cpp:221-271 | The routine as the source has it, with no early return for a shape outside the view; it always leaves the border colour as the draw colour. |
| ShapeDraw.DrawRoundRectangleShape | src/gui/core/canvas.cpp:221-271 | The corrected routine: nothing for a shape outside the view, otherwise the same calls. The draw colour left is the border colour, or the colour found for a shape outside the view. |
| ShapeDraw.ImagePlacement | src/gui/core/canvas.cpp:362-422 | A placed image has a valid texture, a positive size, the shape's resize mode and the evaluated mirror flag. A refusal carries "Image doesn't fit on canvas.". |
| ShapeDraw.ImagePlacementCases | src/gui/core/canvas.cpp:362-422 | Nothing is drawn exactly when the name is empty or unknown. The image is refused exactly when a size formula is negative. Otherwise its position is the formula's shifted by the draw location, and a zero size means the texture's. |
| ShapeDraw.ImageScaled | src/gui/core/canvas.cpp:437-449 | A scaled image is one copy of the whole texture into the destination, flipped horizontally only, exactly when mirrored. |
| ShapeDraw.ImageTiledClip | src/gui/core/canvas.cpp:428-436 | A tiled image opens with a clip that lets through nothing outside the destination and ends by setting back the clip it found. |
| ShapeDraw.ImageDrawn | src/gui/core/canvas.cpp:350-454 | The image fails exactly when refused, and then issues no call and carries the refusal's message. |
| ShapeDraw.PlaceImage | src/gui/core/canvas.cpp:362-422 | The imperative placement computes exactly ImagePlacement. |
| ShapeDraw.DrawTiledImage | src/gui/core/canvas.cpp:428-433 | Draws the tiled image; the observed clip, colour, viewport and target are unchanged. |
| ShapeDraw.DrawPlacedImage | src/gui/core/canvas.cpp:427-453 | Draws a placed image by its resize mode; the observed clip, colour, viewport and target are unchanged. |
| ShapeDraw.DrawImageShape | src/gui/core/canvas.cpp:350-454 | The calls and outcome are ImageDrawn's; the observed clip, colour, viewport and target are unchanged. |
| ShapeDraw.ShapeDrawn | src/gui/core/canvas.cpp:60-454 | Text draws nothing here. Every shape but an image passes. An image gives ImageDrawn of its placement. A rounded rectangle outside the view draws nothing; inside it, it issues exactly the source's calls (RoundRectangleAsWritten). |
| ShapeDraw.TileCallsKeepColor | src/draw.cpp:319-345 | The copies of a tiled image never change the draw colour. |
| ShapeDraw.ImageCallsKeepColor | src/gui/core/canvas.cpp:427-453 | An image's calls never change the draw colour. |
| ShapeDraw.ShapeDrawnColor | src/gui/core/canvas.cpp:60-454 | The draw colour each kind of shape leaves: a line its colour; a rectangle or rounded rectangle its border colour, or the colour found when outside the view; a circle its border colour with rings, else its fill colour when it filled, else the colour found; an image or text the colour found. |
| ShapeDraw.OnlyImagesFail | src/gui/core/canvas.cpp:341-348 | A shape fails exactly when it is an image whose size was refused; it then issues no call and reports "Image doesn't fit on canvas.". |
| ShapeDraw.DrawShape | src/gui/core/canvas.cpp:60-454 | Dispatches on the kind of shape; calls and outcome are ShapeDrawn's, the draw colour left is the one those calls leave (see ShapeDraw.ShapeDrawnColor), and the observed clip, viewport and target are unchanged. |
| Gui.ShapesDrawnStep | src/gui/core/canvas.cpp:617-622 | One iteration of the draw loop appends the next shape's calls and outcome. |
| Gui.DrawnInOrderSnoc | src/gui/core/canvas.cpp:617-622 | Drawing one more shape after a passing prefix appends its calls; after a failing one nothing changes. |
| Gui.ShapesDrawnInOrder | src/gui/core/canvas.cpp:617-622 | The loop's left fold equals drawing the first n shapes in order. |
| Gui.FailSticks | src/gui/core/canvas.cpp:617-622 | After the first failure, later shapes change neither calls nor outcome. |
| Gui.ShapesDrawnPass | src/gui/core/canvas.cpp:617-622 | Drawing passes exactly when every one of the shapes passes. |
| Gui.ShapesDrawnStops | src/gui/core/canvas.cpp:617-622 | At the first failing shape the canvas reports that shape's failure with the calls up to and including it. |
| Gui.CanvasFailsOnImages | src/gui/core/canvas.cpp:617-622 | A failing canvas reports "Image doesn't fit on canvas." and has an image whose size was refused. |
| Gui.DrawLoopStep | src/gui/core/canvas.cpp:617-622 | One more pass of the loop after passing shapes appends the shape's calls, takes its outcome, and leaves the colour its calls leave after the earlier ones'. |
| Gui.DrawNext | src/gui/core/canvas.cpp:617-622 | One pass of the loop takes the renderer from the state after i shapes to the state after i + 1: trace, draw colour, clip, viewport and target. |
| Gui.DrawShapes | src/gui/core/canvas.cpp:617-622 | The loop draws exactly ShapesDrawn's calls and outcome, leaves the draw colour those calls leave, and keeps the observed clip, viewport and target. |
| Gui.BlitCheckPasses | src/gui/core/canvas.cpp:636-638 | For sizes SDL can hold, the validations pass exactly when the size is non-negative and fits the widget. A negative size is reported as such exactly when there is one. |
| Gui.BlitAreaVisible | src/gui/core/canvas.cpp:647-666 | The area drawn holds exactly the widget's pixels that land on the draw area; none when the widget is wholly off it. |
| Gui.BlitAreaExample | src/gui/core/canvas.cpp:640-646 | The source's example: rect {-1, 2, 330, 440} on a 1000 × 1000 area clips to {0, 2, 329, 440} and draws {1, 0, 329, 440}. |
| Gui.BlitEarlyReturns | src/gui/core/canvas.cpp:629-652 | No shapes: pass, no calls. A failed validation: its message, no calls. A widget off the area: no calls. Calls are issued only when all checks pass. |
| Gui.BlitDrawsCanvas | src/gui/core/canvas.cpp:661-670 | When it draws, blit draws the background and the shapes in order at the widget's position, and passes exactly when every shape passes. |
| Gui.BlurLastWins | src/gui/core/canvas.cpp:699-708 | The last blur function sets the blur depth. |
| Gui.BlurKept | src/gui/core/canvas.cpp:699-708 | Without a blur function the blur depth is kept. |
| Gui.ShapesOfRecognised | src/gui/core/canvas.cpp:677-717 | Without a failing constructor there is one shape per recognised child, built from it, in order. |
| Gui.ShapesOfAppend | src/gui/core/canvas.cpp:677-717 | The shapes of concatenated children are the concatenation of their shapes. |
| Gui.ParseAppends | src/gui/core/canvas.cpp:677-717 | Without a failing constructor, parsing appends exactly the children's shapes to the existing ones. |
| Gui.ParseStops | src/gui/core/canvas.cpp:677-717 | A failing constructor ends the parse with its message, keeping only the shapes of the earlier children. |
| Gui.ParseFailSticks | src/gui/core/canvas.cpp:677-717 | Once a constructor has failed, later children change nothing. |
| Gui.ImmutablesAppend | src/gui/core/canvas.cpp:733-743 | Filtering a concatenation filters each part. |
| Gui.ImmutablesKeeps | src/gui/core/canvas.cpp:733-743 | A shape survives exactly when it was there and is immutable. |
| Gui.ImmutablesFixed | src/gui/core/canvas.cpp:733-743 | Filtering changes nothing exactly when every shape is immutable, and filtering twice equals filtering once. |
| Gui.ImmutablesLength | src/gui/core/canvas.cpp:733-743 | Filtering never lengthens the list. |
| Gui.SizeRoundTrip | src/gui/core/canvas.cpp:719-731 | A size set from `int`s reads back as the same `int`s in "width" and "height". The other screen and canvas variables are kept. |
| Gui.Canvas.constructor | src/gui/core/canvas.cpp:584-592 | A new canvas has no shapes, no blur, size zero, no variables and no cached background. |
| Gui.Canvas.Moved | src/gui/core/canvas.cpp:594-602 | The moved-to canvas takes the shapes, blur depth, size and variables but not the cached background. |
| Gui.Canvas.Draw | src/gui/core/canvas.cpp:605-623 | Draws the cached background when blurring, then each shape in order until one fails; the observed clip is unchanged and the draw colour is the one those calls leave. |
| Gui.Canvas.Blit | src/gui/core/canvas.cpp:625-671 | Calls and outcome are BlitDrawn's, and the draw colour is the one those calls leave. The cache is filled once for a blurring canvas that draws. Nothing else in the canvas changes. |
| Gui.Canvas.PreCommit | src/gui/core/canvas.cpp:699-708 | Sets the blur depth per BlurDepth; nothing else changes. |
| Gui.Canvas.ParseOne | src/gui/core/canvas.cpp:679-715 | Handles one child as ParseChild says. |
| Gui.Canvas.ParseCfg | src/gui/core/canvas.cpp:673-717 | Shapes, blur depth and outcome are those of parsing every child in order. Size, variables and cache are unchanged. |
| Gui.Canvas.UpdateSizeVariables | src/gui/core/canvas.cpp:719-724 | The variables gain the screen-size variables, then "width" and "height" from the canvas size. |
| Gui.Canvas.SetSize | src/gui/core/canvas.cpp:726-731 | Stores the size as `unsigned` and updates the size variables. |
| Gui.Canvas.ClearShapes | src/gui/core/canvas.cpp:733-743 | Forced: no shapes. Otherwise exactly the immutable shapes, in order. |

## Left out

- Text drawing (`text_shape::draw`): it lays out text with Pango, which is outside this model. A text shape draws nothing here; its constructor is modelled.
- The WML formula language is not modelled. A formula is either a literal or an opaque formula evaluated by a function the caller supplies (`Host`).
- The `actions` formula of image shapes is not modelled, and neither are the `clip_x`/`clip_y` variables it can read.
- Image loading, `read_pixels_low_res` and `blur_surface` are not modelled. The loaded texture comes from `Host.textures`, and the blurred background is a parameter of `Canvas.Blit`.
- `get_screen_size_variables` is not modelled; the screen variables are a parameter of `Canvas.UpdateSizeVariables` and `Canvas.SetSize`.
- Logging (`DBG_*`, `ERR_*`, `WRN_*`) and the log scopes are not modelled.
- ShapeDraw.ShapeDrawn, ShapeDraw.DrawShape: a rounded rectangle wholly outside the view draws nothing here. The source still sets the border colour and draws the border rings at the draw location (see "## Findings"). Only that case differs from the source.
- Gui.DrawShapes, Gui.Canvas.Draw, Gui.Canvas.Blit: they draw shapes through ShapeDrawn, so they share its corrected rounded rectangle. The source's calls for a rounded rectangle outside the view are not promised.
- Render.Renderer.Emit: a call made without a renderer is recorded and applied to the modelled state. SDL would reject it and change nothing. The draw functions in `draw.cpp` that do not check for a renderer are modelled this way.
- Draw.SetRenderTarget: switching the target changes only `target`. On a switch to a texture SDL saves the window's viewport and clip and resets both for the texture; on the switch back it restores them. That reset is not modelled. The setter restores the viewport it read.
- ShapeDraw.RectangleCalls, ShapeDraw.Inset: the `int` sums and differences that move the rectangle into draw space and shrink it per border ring are exact; 32-bit overflow is not modelled.
- ShapeDraw.RoundRectangleAsWritten, ShapeDraw.Bands, ShapeDraw.RingEdges, ShapeDraw.Quarters: the corner and edge coordinates are exact `int` arithmetic; 32-bit overflow is not modelled.
- Shapes.CalculateRects: the offsets subtracted from the clip are exact; 32-bit overflow is not modelled.
- Raster.OctantPoints, Raster.OctantSpans: the centre plus or minus the octant offsets is exact; 32-bit overflow in draw::circle and draw::disc is not modelled.
- Draw.TiledHighres: the floating-point tile loop, including the pixel scale, is recorded as one call rather than expanded into copies.
- ShapeDraw.ImagePlacement: the `int` addition of the draw location to the image position is not wrapped; it is modelled as exact.
- The `src_clip_` member written by `image_shape::draw` is never read and is not modelled.
- The `assert(false)` on an unknown child key in `canvas::parse_cfg` is a debug check; the model skips such a child as a release build does.
- `Render.Renderer` does not keep the replay of its trace as a class invariant. Each drawing method states its new state itself: the trace, and the draw colour, clip, viewport and target it leaves.
- What `canvas(canvas&&)` leaves in the moved-from canvas is not modelled.
- The `functions_` table of a canvas is not modelled.
- `SDL_RenderCopyEx`'s angle and centre are always 0 and null in this code and are not recorded.
- The renderer's presence (`renderer()` being null) is a constant of each `Renderer`.

## Findings

| source | as written | input that shows it | evidently intended | confidence | as-written member | corrected member |
|---|---|---|---|---|---|---|
| src/gui/core/canvas.cpp:221-271 | `round_rectangle_shape::draw` ignores `rects.empty` from `calculate_rects` and always sets the border colour and draws the border rings. | A 10 × 10 rounded rectangle at (0, 0) with corner radius 2 and a one-pixel border, drawn for the portion (100, 100, 10, 10). It lies wholly outside the view, yet 9 calls are issued. | Return early for an empty result, as `rectangle_shape::draw` does at lines 158-162. | not executed | ShapeDraw.RoundRectangleOutsideView | ShapeDraw.RoundRectangleCorrected |
